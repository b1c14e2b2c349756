/** Decimal numerals as Python prints them, and ASCII. */
module Text {
  function Digit(d: nat): (c: char)
    requires d < 10
    ensures '0' <= c <= '9' && (c as int) - 48 == d
  {
    (48 + d) as char
  }

  function NatText(n: nat): string {
    if n < 10 then [Digit(n)] else NatText(n / 10) + [Digit(n % 10)]
  }

  predicate IsAscii(s: string) { forall i :: 0 <= i < |s| ==> s[i] as int < 128 }

  predicate IsDigits(s: string) { forall i :: 0 <= i < |s| ==> '0' <= s[i] <= '9' }

  function NatValue(s: string): nat
    requires IsDigits(s)
  {
    if s == "" then 0 else NatValue(s[..|s| - 1]) * 10 + (s[|s| - 1] as int - 48)
  }

  /** Reading a numeral back gives the number. */
  lemma {:induction false} NatTextReadsBack(n: nat)
    ensures NatText(n) != "" && IsDigits(NatText(n)) && NatValue(NatText(n)) == n
  {
    if n >= 10 {
      NatTextReadsBack(n / 10);
      assert NatText(n)[..|NatText(n)| - 1] == NatText(n / 10);
    } else {
      assert NatText(n)[..0] == "";
    }
  }

  /** A numeral with a leading zero if it would have one digit. */
  function TwoDigits(n: nat): string { if n < 10 then "0" + NatText(n) else NatText(n) }

  lemma TwoDigitsReadBack(n: nat)
    ensures IsDigits(TwoDigits(n)) && NatValue(TwoDigits(n)) == n
  {
    NatTextReadsBack(n);
    if n < 10 {
      assert TwoDigits(n)[..1] == "0" && "0"[..0] == "";
    }
  }

  function IntText(n: int): string { if n < 0 then "-" + NatText(-n) else NatText(n) }

  lemma IntTextIsInjective(m: int, n: int)
    requires IntText(m) == IntText(n)
    ensures m == n
  {
    NatTextReadsBack(if m < 0 then -m else m);
    NatTextReadsBack(if n < 0 then -n else n);
    assert m < 0 ==> IntText(m)[0] == '-' && IntText(m)[1..] == NatText(-m);
    assert n < 0 ==> IntText(n)[0] == '-' && IntText(n)[1..] == NatText(-n);
  }
}
