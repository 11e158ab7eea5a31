/**
 * Exact decimal amounts (decimal.js values are finite decimals, modelled as
 * `real`) and the conversions between whole SCASH and satoshis, 1 SCASH being
 * 100 000 000 satoshis.  decimal.js rounds `toFixed` results half away from
 * zero (its default rounding mode, ROUND_HALF_UP).
 */
module Amounts {

  const SatPerScash: real := 100000000.0

  predicate IsInteger(x: real) {
    x.Floor as real == x
  }

  /** A SCASH amount with at most eight decimal places, i.e. a whole number of satoshis. */
  predicate HasAtMost8Decimals(x: real) {
    IsInteger(x * SatPerScash)
  }

  /** The integer nearest to `x`, ties going away from zero (`toFixed(0)`). */
  function RoundHalfUp(x: real): (n: int)
    ensures x - 0.5 <= n as real <= x + 0.5
    ensures x >= 0.0 ==> n as real > x - 0.5 && n >= 0
    ensures x < 0.0 ==> n as real < x + 0.5 && n <= 0
    ensures IsInteger(x) ==> n as real == x
  {
    if x >= 0.0 then
      var n := (x + 0.5).Floor;
      assert IsInteger(x) ==> n == x.Floor by {
        if IsInteger(x) {
          assert x.Floor as real <= x + 0.5 < x.Floor as real + 1.0;
        }
      }
      n
    else
      var m := (-x + 0.5).Floor;
      assert IsInteger(x) ==> m == -x.Floor by {
        if IsInteger(x) {
          assert (-x.Floor) as real <= -x + 0.5 < (-x.Floor) as real + 1.0;
        }
      }
      -m
  }

  /** The least integer not below `x` (decimal.js `ceil`). */
  function Ceil(x: real): (n: int)
    ensures x <= n as real < x + 1.0
  {
    -((-x).Floor)
  }

  /** `scashToSat`: a SCASH amount as a whole number of satoshis. */
  function ScashToSat(scash: real): (sat: int)
    ensures scash * SatPerScash - 0.5 <= sat as real <= scash * SatPerScash + 0.5
    ensures HasAtMost8Decimals(scash) ==> sat as real == scash * SatPerScash
  {
    RoundHalfUp(scash * SatPerScash)
  }

  /** `satToScash`: a satoshi count as SCASH, rounded to eight decimal places. */
  function SatToScash(sat: real): (scash: real)
    ensures HasAtMost8Decimals(scash)
    ensures sat - 0.5 <= scash * SatPerScash <= sat + 0.5
    ensures IsInteger(sat) ==> scash * SatPerScash == sat
    ensures sat >= 0.0 ==> scash >= 0.0
  {
    RoundHalfUp(sat) as real / SatPerScash
  }

  /** Satoshis survive a trip through SCASH unchanged. */
  lemma SatRoundTrip(n: int)
    ensures ScashToSat(SatToScash(n as real)) == n
  {
    var x := SatToScash(n as real);
    assert x * SatPerScash == n as real;
  }

  /** A SCASH amount survives a trip through satoshis exactly when it has at most eight decimals. */
  lemma ScashRoundTrip(x: real)
    ensures SatToScash(ScashToSat(x) as real) == x <==> HasAtMost8Decimals(x)
  {
    var n := ScashToSat(x);
    if HasAtMost8Decimals(x) {
      assert n as real == x * SatPerScash;
    }
  }

  /** Rounding to satoshis never reverses the order of two amounts. */
  lemma ScashToSatMonotone(x: real, y: real)
    requires x <= y
    ensures ScashToSat(x) <= ScashToSat(y)
  {
    var a, b := x * SatPerScash, y * SatPerScash;
    assert a <= b;
    if a >= 0.0 {
      assert (a + 0.5).Floor <= (b + 0.5).Floor;
    } else if b < 0.0 {
      assert (-b + 0.5).Floor <= (-a + 0.5).Floor;
    }
  }

  /** On whole-satoshi amounts the conversion is additive. */
  lemma ScashToSatAdditive(x: real, y: real)
    requires HasAtMost8Decimals(x) && HasAtMost8Decimals(y)
    ensures HasAtMost8Decimals(x + y) && HasAtMost8Decimals(x - y)
    ensures ScashToSat(x + y) == ScashToSat(x) + ScashToSat(y)
    ensures ScashToSat(x - y) == ScashToSat(x) - ScashToSat(y)
  {
    var a, b := (x * SatPerScash).Floor, (y * SatPerScash).Floor;
    assert x * SatPerScash == a as real && y * SatPerScash == b as real;
    assert (x + y) * SatPerScash == x * SatPerScash + y * SatPerScash;
    assert (x - y) * SatPerScash == x * SatPerScash - y * SatPerScash;
    WholeIsInteger(a + b);
    WholeIsInteger(a - b);
  }

  lemma WholeIsInteger(n: int)
    ensures IsInteger(n as real)
  { }
}
