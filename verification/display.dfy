/**
 * Decimal rendering of integers, as the `{}` formatting of Rust's integer
 * types produces it: the track-info text shows every register and numeric
 * tag field this way.
 */
module Display {

  /** The digits 0-9 as characters. */
  function DigitChar(d: nat): (c: char)
    requires d < 10
    ensures '0' <= c <= '9'
  {
    "0123456789"[d]
  }

  predicate IsDigits(s: string) {
    forall i :: 0 <= i < |s| ==> '0' <= s[i] <= '9'
  }

  /** The value of a string of decimal digits, most significant first. */
  function DigitsValue(s: string): nat
    requires IsDigits(s)
  {
    if s == [] then 0
    else 10 * DigitsValue(s[..|s| - 1]) + (s[|s| - 1] as int - '0' as int)
  }

  /** A non-negative number in decimal, without leading zeros. */
  function NatToString(n: nat): (s: string)
    ensures IsDigits(s) && |s| > 0
    ensures |s| > 1 ==> s[0] != '0'
  {
    if n < 10 then [DigitChar(n)] else NatToString(n / 10) + [DigitChar(n % 10)]
  }

  /** An integer in decimal, with a leading '-' when negative. */
  function IntToString(i: int): (s: string)
    ensures |s| > 0
    ensures i < 0 <==> s[0] == '-'
  {
    if i < 0 then "-" + NatToString(-i) else NatToString(i)
  }

  /** Reading the decimal text back gives the number: the rendering loses nothing. */
  lemma {:induction false} NatToStringRoundTrip(n: nat)
    ensures DigitsValue(NatToString(n)) == n
  {
    var s := NatToString(n);
    if n >= 10 {
      NatToStringRoundTrip(n / 10);
      assert s[..|s| - 1] == NatToString(n / 10);
    }
  }

  lemma IntToStringInjective(i: int, j: int)
    requires IntToString(i) == IntToString(j)
    ensures i == j
  {
    var s := IntToString(i);
    var m, n := if i < 0 then -i else i, if j < 0 then -j else j;
    assert (i < 0) == (j < 0);
    if i < 0 {
      assert s[1..] == NatToString(m) && s[1..] == NatToString(n);
    }
    NatToStringRoundTrip(m);
    NatToStringRoundTrip(n);
    assert DigitsValue(NatToString(m)) == DigitsValue(NatToString(n));
  }
}
