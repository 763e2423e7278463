/** The decimal conversions the labels use: printf's %u, %d and %02u. Each
    rendering comes with the value read back from its digits, so that a label
    can be shown to carry exactly the number it was built from. */
module Decimal {

  predicate IsDigit(c: char) {
    '0' <= c <= '9'
  }

  predicate AllDigits(s: string) {
    forall i :: 0 <= i < |s| ==> IsDigit(s[i])
  }

  function DigitChar(d: nat): (c: char)
    requires d < 10
    ensures IsDigit(c) && c as int - '0' as int == d
  {
    ('0' as int + d) as char
  }

  /** The number a string of decimal digits denotes. */
  function Value(s: string): nat
    requires AllDigits(s)
    decreases |s|
  {
    if s == [] then 0 else Value(s[..|s| - 1]) * 10 + (s[|s| - 1] as int - '0' as int)
  }

  /** The form printf gives an unsigned number: at least one digit, and no
      leading zero unless the number is 0 itself. */
  predicate Canonical(s: string) {
    |s| >= 1 && AllDigits(s) && (s[0] == '0' ==> s == "0")
  }

  /** %u: the shortest decimal rendering of n, without leading zeros. */
  function Digits(n: nat): (s: string)
    ensures Canonical(s) && Value(s) == n
    decreases n
  {
    if n < 10 then [DigitChar(n)]
    else
      var s := Digits(n / 10) + [DigitChar(n % 10)];
      assert s[..|s| - 1] == Digits(n / 10);
      s
  }

  /** %02u for a value below 100: always exactly two digits. */
  function TwoDigits(n: nat): (s: string)
    requires n < 100
    ensures |s| == 2 && AllDigits(s) && Value(s) == n
  {
    var s := if n < 10 then "0" + Digits(n) else Digits(n);
    assert n < 10 ==> s[..1] == "0";
    assert n >= 10 ==> |Digits(n / 10)| == 1;
    s
  }

  /** The form printf gives a signed number: a canonical numeral, or '-'
      followed by a canonical numeral other than "0". */
  predicate IsSignedNumeral(s: string) {
    |s| >= 1 && ((s[0] == '-' && Canonical(s[1..]) && s[1..] != "0") || Canonical(s))
  }

  function SignedValue(s: string): int
    requires IsSignedNumeral(s)
  {
    if s[0] == '-' then -(Value(s[1..]) as int) else Value(s)
  }

  /** %d. */
  function SignedDigits(i: int): (s: string)
    ensures IsSignedNumeral(s) && SignedValue(s) == i
    ensures s[0] == '-' <==> i < 0
  {
    if i < 0 then
      var s := "-" + Digits(-i);
      assert s[1..] == Digits(-i);
      s
    else
      Digits(i)
  }
}
