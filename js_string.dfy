/**
 * The JavaScript string operations the wallet relies on, over `string`
 * (a sequence of characters): `trim`, the `\s` character class, ASCII case
 * folding, `startsWith`, `includes`, `split` and decimal rendering of numbers.
 */
module JsString {

  /** The characters JavaScript's `trim()` and the regular-expression class `\s` remove. */
  predicate IsWhitespace(c: char) {
    c == ' ' || c == '\t' || c == '\n' || c == '\r' || c == '\U{000B}' || c == '\U{000C}'
    || c == '\U{00A0}' || c == '\U{1680}' || ('\U{2000}' <= c <= '\U{200A}')
    || c == '\U{2028}' || c == '\U{2029}' || c == '\U{202F}' || c == '\U{205F}'
    || c == '\U{3000}' || c == '\U{FEFF}'
  }

  predicate AllWhitespace(s: string) {
    forall i :: 0 <= i < |s| ==> IsWhitespace(s[i])
  }

  /** Leading whitespace removed (`trimStart`). */
  function TrimStart(s: string): (r: string)
    ensures |r| <= |s| && r == s[|s| - |r|..]
    ensures r == [] || !IsWhitespace(r[0])
  {
    if s != [] && IsWhitespace(s[0]) then TrimStart(s[1..]) else s
  }

  /** What `trimStart` drops is whitespace. */
  lemma {:induction false} TrimStartDrops(s: string)
    ensures AllWhitespace(s[..|s| - |TrimStart(s)|])
  {
    if s != [] && IsWhitespace(s[0]) {
      TrimStartDrops(s[1..]);
      var n := |s| - |TrimStart(s)|;
      assert s[..n] == [s[0]] + s[1..][..n - 1];
      WhitespaceCons(s[0], s[1..][..n - 1]);
    }
  }

  lemma WhitespaceCons(c: char, t: string)
    requires IsWhitespace(c) && AllWhitespace(t)
    ensures AllWhitespace([c] + t)
  {
    assert forall i :: 0 < i <= |t| ==> ([c] + t)[i] == t[i - 1];
  }

  /** Trailing whitespace removed (`trimEnd`). */
  function TrimEnd(s: string): (r: string)
    ensures |r| <= |s| && r == s[..|r|]
    ensures r == [] || !IsWhitespace(r[|r| - 1])
  {
    if s != [] && IsWhitespace(s[|s| - 1]) then
      var r := TrimEnd(s[..|s| - 1]);
      assert s[..|s| - 1][..|r|] == s[..|r|];
      r
    else s
  }

  /** What `trimEnd` drops is whitespace. */
  lemma {:induction false} TrimEndDrops(s: string)
    ensures AllWhitespace(s[|TrimEnd(s)|..])
  {
    if s != [] && IsWhitespace(s[|s| - 1]) {
      var t := s[..|s| - 1];
      TrimEndDrops(t);
      var n := |TrimEnd(s)|;
      assert s[n..] == t[n..] + [s[|s| - 1]];
    }
  }

  /** JavaScript `s.trim()`: the longest slice with no whitespace at either end. */
  function Trim(s: string): (r: string)
    ensures |r| <= |s|
    ensures r == [] || (!IsWhitespace(r[0]) && !IsWhitespace(r[|r| - 1]))
  {
    TrimEnd(TrimStart(s))
  }

  /** What `trim` removes is whitespace on either side of the slice it keeps. */
  lemma TrimIsSlice(s: string)
    ensures var r := Trim(s);
      exists k :: (0 <= k <= |s| - |r| && r == s[k..k + |r|]
                   && AllWhitespace(s[..k]) && AllWhitespace(s[k + |r|..]))
  {
    var t := TrimStart(s);
    var r := TrimEnd(t);
    var k := |s| - |t|;
    TrimStartDrops(s);
    TrimEndDrops(t);
    assert t == s[k..];
    assert r == t[..|r|] == s[k..k + |r|];
    assert AllWhitespace(s[..k]);
    assert s[k + |r|..] == t[|r|..];
    assert AllWhitespace(s[k + |r|..]);
  }

  /** JavaScript `s.replace(/\s+/g, '')`: every whitespace character removed. */
  function RemoveWhitespace(s: string): (r: string)
    ensures forall i :: 0 <= i < |r| ==> !IsWhitespace(r[i])
    ensures |r| <= |s|
  {
    if s == [] then []
    else if IsWhitespace(s[0]) then RemoveWhitespace(s[1..])
    else [s[0]] + RemoveWhitespace(s[1..])
  }

  /** Two spaces in a row at positions `i` and `i + 1`. */
  predicate DoubleSpaceAt(s: string, i: int)
    requires 0 <= i < |s| - 1
  {
    s[i] == ' ' && s[i + 1] == ' '
  }

  /** JavaScript `s.replace(/\s+/g, ' ')`: each maximal run of whitespace becomes one space. */
  function CollapseWhitespace(s: string): (r: string)
    ensures forall i :: 0 <= i < |r| ==> r[i] == ' ' || !IsWhitespace(r[i])
    ensures forall i :: 0 <= i < |r| - 1 ==> !DoubleSpaceAt(r, i)
    ensures s != [] && IsWhitespace(s[0]) ==> r != [] && r[0] == ' '
    ensures s != [] && !IsWhitespace(s[0]) ==> r != [] && r[0] == s[0]
    ensures |r| <= |s|
    decreases |s|
  {
    if s == [] then []
    else if IsWhitespace(s[0]) then
      var rest := DropWhitespace(s[1..]);
      var tail := CollapseWhitespace(rest);
      DoubleSpaceShift(' ', tail);
      [' '] + tail
    else
      var tail := CollapseWhitespace(s[1..]);
      DoubleSpaceShift(s[0], tail);
      [s[0]] + tail
  }

  /** Putting a character in front shifts every double space by one and adds at most one at the front. */
  lemma DoubleSpaceShift(c: char, t: string)
    ensures forall i :: 1 <= i < |t| ==> DoubleSpaceAt([c] + t, i) == DoubleSpaceAt(t, i - 1)
    ensures t != [] ==> (DoubleSpaceAt([c] + t, 0) <==> c == ' ' && t[0] == ' ')
  {
  }

  /** `s` with its leading whitespace removed; used by CollapseWhitespace. */
  function DropWhitespace(s: string): (r: string)
    ensures |r| <= |s|
    ensures r == [] || !IsWhitespace(r[0])
    decreases |s|
  {
    if s != [] && IsWhitespace(s[0]) then DropWhitespace(s[1..]) else s
  }

  /** JavaScript `toLowerCase()` on one character; only ASCII letters are mapped. */
  function LowerChar(c: char): (d: char)
    ensures 'A' <= c <= 'Z' ==> 'a' <= d <= 'z'
    ensures !('A' <= c <= 'Z') ==> d == c
  {
    if 'A' <= c <= 'Z' then (c as int - 'A' as int + 'a' as int) as char else c
  }

  function Lower(s: string): (r: string)
    ensures |r| == |s|
    ensures forall i :: 0 <= i < |s| ==> r[i] == LowerChar(s[i])
  {
    if s == [] then [] else [LowerChar(s[0])] + Lower(s[1..])
  }

  predicate StartsWith(s: string, prefix: string) {
    |prefix| <= |s| && s[..|prefix|] == prefix
  }

  /** `sub` occurs in `s` starting at index `i`. */
  predicate OccursAt(s: string, sub: string, i: int) {
    0 <= i <= |s| - |sub| && s[i..i + |sub|] == sub
  }

  /** JavaScript `s.includes(sub)`. */
  predicate Contains(s: string, sub: string) {
    exists i | 0 <= i <= |s| :: OccursAt(s, sub, i)
  }

  /** JavaScript `s.split(sep)` for a one-character separator: always at least one piece. */
  function Split(s: string, sep: char): (parts: seq<string>)
    ensures |parts| >= 1
    ensures forall i :: 0 <= i < |parts| ==> sep !in parts[i]
  {
    if s == [] then [[]]
    else
      var rest := Split(s[1..], sep);
      if s[0] == sep then [[]] + rest
      else [[s[0]] + rest[0]] + rest[1..]
  }

  /** JavaScript `parts.join(sep)`. */
  function Join(parts: seq<string>, sep: string): string
    requires |parts| >= 1
  {
    if |parts| == 1 then parts[0] else parts[0] + sep + Join(parts[1..], sep)
  }

  /** The non-empty strings, in order (`filter(Boolean)` or `filter(x => x.length > 0)`). */
  function NonEmpty(xs: seq<string>): (ys: seq<string>)
    ensures |ys| <= |xs| && forall i :: 0 <= i < |ys| ==> ys[i] != []
    ensures |ys| == 0 <==> forall i :: 0 <= i < |xs| ==> xs[i] == []
    ensures (forall i :: 0 <= i < |xs| ==> xs[i] != []) ==> ys == xs
  {
    if xs == [] then []
    else if xs[0] == [] then NonEmpty(xs[1..])
    else [xs[0]] + NonEmpty(xs[1..])
  }

  /** Every piece of a split is made of characters of the string that satisfy `P`, when all of them do. */
  lemma {:induction false} SplitAll(s: string, sep: char, P: char -> bool)
    requires forall i :: 0 <= i < |s| ==> P(s[i])
    ensures forall k, j :: 0 <= k < |Split(s, sep)| && 0 <= j < |Split(s, sep)[k]| ==> P(Split(s, sep)[k][j])
  {
    if s != [] {
      var t := s[1..];
      assert forall i :: 0 <= i < |t| ==> P(t[i]) by {
        assert forall i :: 0 <= i < |t| ==> t[i] == s[i + 1];
      }
      SplitAll(t, sep, P);
      var rest := Split(t, sep);
      assert forall k, j :: 0 <= k < |rest| && 0 <= j < |rest[k]| ==> P(rest[k][j]);
      var parts := Split(s, sep);
      forall k, j | 0 <= k < |parts| && 0 <= j < |parts[k]|
        ensures P(parts[k][j])
      {
        if s[0] == sep {
          assert parts[k] == ([[]] + rest)[k];
          assert parts[k][j] == rest[k - 1][j];
        } else if k == 0 {
          if j == 0 {
            assert parts[k][j] == s[0];
          } else {
            assert parts[k][j] == rest[0][j - 1];
          }
        } else {
          assert parts[k] == rest[k];
        }
      }
    }
  }

  /** A join is made of characters that satisfy `P` when the pieces and the separator are. */
  lemma {:induction false} JoinAll(parts: seq<string>, sep: string, P: char -> bool)
    requires |parts| >= 1
    requires forall k, j :: 0 <= k < |parts| && 0 <= j < |parts[k]| ==> P(parts[k][j])
    requires forall j :: 0 <= j < |sep| ==> P(sep[j])
    ensures forall i :: 0 <= i < |Join(parts, sep)| ==> P(Join(parts, sep)[i])
  {
    if |parts| > 1 {
      JoinAll(parts[1..], sep, P);
      var p0, rest := parts[0], Join(parts[1..], sep);
      assert forall i :: 0 <= i < |rest| ==> P(rest[i]);
      assert forall j :: 0 <= j < |p0| ==> P(p0[j]) by {
        assert forall j :: 0 <= j < |p0| ==> P(parts[0][j]);
      }
      var s := p0 + sep + rest;
      forall i | 0 <= i < |s|
        ensures P(s[i])
      {
        if i < |p0| {
          assert s[i] == p0[i];
          assert P(p0[i]);
        } else if i < |p0| + |sep| {
          assert s[i] == sep[i - |p0|];
          assert P(sep[i - |p0|]);
        } else {
          assert s[i] == rest[i - |p0| - |sep|];
          assert P(rest[i - |p0| - |sep|]);
        }
      }
    }
  }

  /** Filtering out the empty strings keeps a property every string has. */
  lemma {:induction false} NonEmptyAll(xs: seq<string>, P: string -> bool)
    requires forall i :: 0 <= i < |xs| ==> P(xs[i])
    ensures forall i :: 0 <= i < |NonEmpty(xs)| ==> P(NonEmpty(xs)[i])
  {
    if xs != [] {
      var tail := xs[1..];
      assert forall i :: 0 <= i < |tail| ==> P(tail[i]) by {
        assert forall i :: 0 <= i < |tail| ==> tail[i] == xs[i + 1];
      }
      NonEmptyAll(tail, P);
      assert forall i :: 0 <= i < |NonEmpty(tail)| ==> P(NonEmpty(tail)[i]);
      assert P(xs[0]);
      var ys := NonEmpty(xs);
      if xs[0] != [] {
        assert ys == [xs[0]] + NonEmpty(tail);
        forall i | 0 <= i < |ys|
          ensures P(ys[i])
        {
          if i > 0 {
            assert ys[i] == NonEmpty(tail)[i - 1];
          }
        }
      }
    }
  }

  /** A string with no ASCII capital is its own lower case. */
  lemma LowerNoop(s: string)
    requires forall i :: 0 <= i < |s| ==> !('A' <= s[i] <= 'Z')
    ensures Lower(s) == s
  {
  }

  /** A string whose whitespace is only single spaces: collapsing runs changes nothing. */
  predicate SingleSpaced(s: string) {
    && (forall i :: 0 <= i < |s| ==> s[i] == ' ' || !IsWhitespace(s[i]))
    && (forall i :: 0 <= i < |s| - 1 ==> !DoubleSpaceAt(s, i))
  }

  lemma {:induction false} CollapseNoop(s: string)
    requires SingleSpaced(s)
    ensures CollapseWhitespace(s) == s
    decreases |s|
  {
    if s != [] {
      var t := s[1..];
      assert s == [s[0]] + t;
      DoubleSpaceShift(s[0], t);
      assert SingleSpaced(t) by {
        assert forall i :: 0 <= i < |t| ==> t[i] == s[i + 1];
        assert forall i :: 0 <= i < |t| - 1 ==> DoubleSpaceAt(s, i + 1) == DoubleSpaceAt(t, i);
      }
      CollapseNoop(t);
      if IsWhitespace(s[0]) {
        assert t == [] || !IsWhitespace(t[0]);
        assert DropWhitespace(t) == t;
      }
    }
  }

  /** A string with no whitespace at either end is its own trim. */
  lemma TrimNoop(s: string)
    requires s == [] || (!IsWhitespace(s[0]) && !IsWhitespace(s[|s| - 1]))
    ensures Trim(s) == s
  {
  }

  /** A string made only of whitespace trims to the empty string. */
  lemma TrimAllWhitespace(s: string)
    requires AllWhitespace(s)
    ensures Trim(s) == []
  {
    if s != [] {
      assert AllWhitespace(s[1..]) by {
        assert forall i :: 0 <= i < |s| - 1 ==> s[1..][i] == s[i + 1];
      }
      TrimAllWhitespace(s[1..]);
    }
  }

  /** A character absent from every piece and from the separator is absent from the join. */
  lemma {:induction false} JoinExcludes(parts: seq<string>, sep: string, c: char)
    requires |parts| >= 1
    requires forall i :: 0 <= i < |parts| ==> c !in parts[i]
    requires c !in sep
    ensures c !in Join(parts, sep)
  {
    if |parts| > 1 {
      JoinExcludes(parts[1..], sep, c);
      assert c !in parts[0];
    }
  }

  /** A join ends like its last piece, when that is non-empty. */
  lemma {:induction false} JoinLast(parts: seq<string>, sep: string)
    requires |parts| >= 1 && parts[|parts| - 1] != []
    ensures var j := Join(parts, sep);
      j != [] && j[|j| - 1] == parts[|parts| - 1][|parts[|parts| - 1]| - 1]
  {
    if |parts| > 1 {
      JoinLast(parts[1..], sep);
    }
  }

  /** A join starts like its first piece and ends like its last one, when those are non-empty. */
  lemma JoinEnds(parts: seq<string>, sep: string)
    requires |parts| >= 1 && parts[0] != [] && parts[|parts| - 1] != []
    ensures var j := Join(parts, sep);
      j != [] && j[0] == parts[0][0] && j[|j| - 1] == parts[|parts| - 1][|parts[|parts| - 1]| - 1]
  {
    JoinLast(parts, sep);
  }

  /** Joining the pieces of a split with the separator gives back the string. */
  lemma {:induction false} JoinSplit(s: string, sep: char)
    ensures Join(Split(s, sep), [sep]) == s
  {
    if s != [] {
      JoinSplit(s[1..], sep);
      var rest := Split(s[1..], sep);
      if s[0] != sep {
        if |rest| == 1 {
        } else {
          assert rest == [rest[0]] + rest[1..];
          assert Join(rest, [sep]) == rest[0] + [sep] + Join(rest[1..], [sep]);
        }
      }
    }
  }

  /** Splitting a join of separator-free pieces gives back the pieces. */
  lemma {:induction false} SplitJoin(parts: seq<string>, sep: char)
    requires |parts| >= 1
    requires forall i :: 0 <= i < |parts| ==> sep !in parts[i]
    ensures Split(Join(parts, [sep]), sep) == parts
    decreases |parts|, |parts[0]|
  {
    var p := parts[0];
    if p == [] {
      if |parts| > 1 {
        SplitJoin(parts[1..], sep);
        var s := Join(parts, [sep]);
        assert s == [sep] + Join(parts[1..], [sep]);
        assert s[1..] == Join(parts[1..], [sep]);
      }
    } else {
      var parts' := [p[1..]] + parts[1..];
      assert parts'[1..] == parts[1..];
      SplitJoin(parts', sep);
      var s := Join(parts, [sep]);
      assert s[0] == p[0];
      if |parts| == 1 {
        assert s[1..] == p[1..];
      } else {
        assert s[1..] == Join(parts', [sep]);
      }
      assert s[0] != sep by { assert p[0] in p; }
      var rest := Split(s[1..], sep);
      assert rest == parts';
      assert [s[0]] + rest[0] == p;
      assert Split(s, sep) == [[s[0]] + rest[0]] + rest[1..];
    }
  }

  /** Decimal rendering of a natural number (JavaScript template-literal interpolation). */
  function NatToString(n: nat): (r: string)
    ensures |r| >= 1
    ensures forall i :: 0 <= i < |r| ==> '0' <= r[i] <= '9'
  {
    if n < 10 then [Digit(n)] else NatToString(n / 10) + [Digit(n % 10)]
  }

  function Digit(d: nat): (c: char)
    requires d < 10
    ensures '0' <= c <= '9'
  {
    ('0' as int + d) as char
  }

  /** Decimal rendering of an integer, with a leading '-' when negative. */
  function IntToString(n: int): string {
    if n < 0 then "-" + NatToString(-n) else NatToString(n)
  }
}
