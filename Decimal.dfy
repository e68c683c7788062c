/** Decimal rendering of numbers, as a JavaScript template string `${n}` renders an integer. */
module Decimal {

  predicate IsDigit(c: char) {
    '0' <= c <= '9'
  }

  function DigitChar(d: nat): (c: char)
    requires d < 10
    ensures IsDigit(c) && c as int - '0' as int == d
  {
    ('0' as int + d) as char
  }

  /** Decimal digits of `n`, most significant first, without leading zeros. */
  function NatToString(n: nat): (s: string)
    ensures 1 <= |s|
    ensures forall i | 0 <= i < |s| :: IsDigit(s[i])
    decreases n
  {
    if n < 10 then [DigitChar(n)] else NatToString(n / 10) + [DigitChar(n % 10)]
  }

  /** A JavaScript integer as text: a minus sign before the digits of a negative number. */
  function IntToString(i: int): (s: string)
    ensures 1 <= |s|
  {
    if i < 0 then "-" + NatToString(-i) else NatToString(i)
  }

  /** The value of a string of decimal digits (the reverse of NatToString). */
  function DigitsValue(s: string): nat
    requires forall i | 0 <= i < |s| :: IsDigit(s[i])
  {
    if s == [] then 0 else 10 * DigitsValue(s[..|s| - 1]) + DigitValue(s[|s| - 1])
  }

  function DigitValue(c: char): (d: nat)
    requires IsDigit(c)
    ensures d < 10
  {
    c as int - '0' as int
  }

  lemma {:induction false} DigitsValueOfNatToString(n: nat)
    ensures DigitsValue(NatToString(n)) == n
    decreases n
  {
    var s := NatToString(n);
    if n >= 10 {
      DigitsValueOfNatToString(n / 10);
      assert s[..|s| - 1] == NatToString(n / 10);
    }
  }

  /** Different numbers are rendered as different texts. */
  lemma NatToStringInjective(a: nat, b: nat)
    requires NatToString(a) == NatToString(b)
    ensures a == b
  {
    DigitsValueOfNatToString(a);
    DigitsValueOfNatToString(b);
  }

  /** A numbered label `${k}: ${rest}` determines its number: the digits stop at the first ':'. */
  lemma NumberedPrefixDeterminesNumber(a: nat, restA: string, b: nat, restB: string)
    requires NatToString(a) + ": " + restA == NatToString(b) + ": " + restB
    ensures a == b
  {
    var sa, sb := NatToString(a), NatToString(b);
    var la, lb := sa + ": " + restA, sb + ": " + restB;
    // Every character of a number's text is a digit, so the ':' sits at the same place in both.
    assert la[|sa|] == ':' && lb[|sb|] == ':';
    assert forall i | 0 <= i < |sa| :: la[i] == sa[i];
    assert forall i | 0 <= i < |sb| :: lb[i] == sb[i];
    assert |sa| == |sb|;
    assert sa == la[..|sa|] == lb[..|sb|] == sb;
    NatToStringInjective(a, b);
  }
}
