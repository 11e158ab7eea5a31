/** Shortening of addresses and identifiers for display (`hideString`). */
module Display {
  /**
   * Strings of at most four characters are shown whole; longer ones as their
   * first four characters, "...", and their last six (the whole string when
   * it has fewer than six).
   */
  function HideString(s: string): (r: string)
    ensures |s| <= 4 ==> r == s
    ensures |s| > 4 ==> |r| == 7 + (if |s| < 6 then |s| else 6)
    ensures |s| > 4 ==> r[..4] == s[..4] && r[4..7] == "..." && r[7..] == s[|s| - (|r| - 7)..]
  {
    if |s| <= 4 then s
    else
      var start := if |s| - 6 < 0 then 0 else |s| - 6;
      s[..4] + "..." + s[start..]
  }

  /** The shown form is never longer than thirteen characters, whatever the input. */
  lemma HiddenLengthBounded(s: string)
    ensures |HideString(s)| <= 13
    ensures |s| > 13 ==> |HideString(s)| < |s|
  {
  }

  /** Two long strings with the same first four and last six characters look the same. */
  lemma HideStringForgetsMiddle(s: string, t: string)
    requires |s| >= 10 && |t| >= 10
    requires s[..4] == t[..4] && s[|s| - 6..] == t[|t| - 6..]
    ensures HideString(s) == HideString(t)
  {
  }
}
