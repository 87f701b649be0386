/** Decimal rendering of integers as Python's `%d`, `%s` and `%.2d` produce it. */
module Format {

  predicate IsDigit(c: char) {
    '0' <= c <= '9'
  }

  predicate AllDigits(s: string) {
    forall i :: 0 <= i < |s| ==> IsDigit(s[i])
  }

  function DigitChar(d: nat): (c: char)
    requires d < 10
    ensures IsDigit(c) && c as int - '0' as int == d
  {
    (d + '0' as int) as char
  }

  function DigitValue(c: char): (d: nat)
    requires IsDigit(c)
    ensures d < 10
  {
    c as int - '0' as int
  }

  /** The number a string of decimal digits denotes (reference reading of a numeral). */
  function DigitsValue(s: string): nat
    requires AllDigits(s)
  {
    if s == [] then 0 else DigitsValue(s[..|s| - 1]) * 10 + DigitValue(s[|s| - 1])
  }

  /** Shortest decimal numeral of `n`: no leading zero except for "0" itself. */
  function NatToString(n: nat): (s: string)
    ensures |s| >= 1 && AllDigits(s)
    ensures |s| > 1 ==> s[0] != '0'
  {
    if n < 10 then [DigitChar(n)] else NatToString(n / 10) + [DigitChar(n % 10)]
  }

  /** Reading the numeral back gives the number: `%d` loses nothing. */
  lemma {:induction false} NatToStringRoundTrip(n: nat)
    ensures DigitsValue(NatToString(n)) == n
  {
    if n >= 10 {
      var s := NatToString(n);
      assert s[..|s| - 1] == NatToString(n / 10);
      NatToStringRoundTrip(n / 10);
    }
  }

  /** Python `"%d" % i` (and `"%s" % i` on an int). */
  function IntToString(i: int): (s: string)
    ensures i >= 0 ==> AllDigits(s) && DigitsValue(s) == i
    ensures i < 0 ==> |s| >= 2 && s[0] == '-' && AllDigits(s[1..]) && DigitsValue(s[1..]) == -i
  {
    if i < 0 then
      NatToStringRoundTrip(-i);
      var s := "-" + NatToString(-i);
      assert s[1..] == NatToString(-i);
      s
    else
      NatToStringRoundTrip(i);
      NatToString(i)
  }

  /** Left-pads a numeral with zeros up to two digits. */
  function ZeroPad2(digits: string): (s: string)
    ensures |s| >= 2 && |s| >= |digits|
    ensures AllDigits(digits) ==> AllDigits(s) && DigitsValue(s) == DigitsValue(digits)
  {
    if |digits| == 0 then "00" else if |digits| == 1 then "0" + digits else digits
  }

  /** Python `"%.2d" % i`: the sign, then at least two digits. */
  function Pad2(i: int): (s: string)
    ensures i >= 0 ==> |s| >= 2 && AllDigits(s) && DigitsValue(s) == i
    ensures i < 0 ==> |s| >= 3 && s[0] == '-' && AllDigits(s[1..]) && DigitsValue(s[1..]) == -i
  {
    if i < 0 then
      NatToStringRoundTrip(-i);
      var s := "-" + ZeroPad2(NatToString(-i));
      assert s[1..] == ZeroPad2(NatToString(-i));
      s
    else
      NatToStringRoundTrip(i);
      ZeroPad2(NatToString(i))
  }

  /** `%.2d` of a non-negative number differs from `%d` only by one leading zero below 10. */
  lemma Pad2Digits(n: nat)
    ensures n < 10 ==> Pad2(n) == "0" + NatToString(n)
    ensures n >= 10 ==> Pad2(n) == NatToString(n)
  {
  }
}
