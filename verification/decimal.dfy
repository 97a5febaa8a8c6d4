/** Decimal rendering of naturals, as Rust's `format!("{}", n)` prints a `u32`,
    together with its parser: every rendering parses back to the number, so
    distinct numbers never share a rendering. */
module Decimal {

  predicate IsDigit(c: char) {
    '0' <= c <= '9'
  }

  predicate AllDigits(s: string) {
    forall i :: 0 <= i < |s| ==> IsDigit(s[i])
  }

  function DigitChar(d: nat): (c: char)
    requires d < 10
    ensures IsDigit(c)
  {
    (('0' as int) + d) as char
  }

  function DigitValue(c: char): (d: nat)
    requires IsDigit(c)
    ensures d < 10
    ensures DigitChar(d) == c
  {
    (c as int) - ('0' as int)
  }

  /** The shortest decimal rendering of `n` (no leading zeros). */
  function Show(n: nat): (s: string)
    ensures 1 <= |s|
    ensures AllDigits(s)
    ensures n < 10 <==> |s| == 1
    ensures n >= 10 ==> s[0] != '0'
  {
    if n < 10 then [DigitChar(n)] else Show(n / 10) + [DigitChar(n % 10)]
  }

  /** Reads a string of digits as a natural, most significant digit first. */
  function Parse(s: string): nat
    requires AllDigits(s)
  {
    if |s| == 0 then 0 else Parse(s[..|s| - 1]) * 10 + DigitValue(s[|s| - 1])
  }

  lemma {:induction false} ParseShow(n: nat)
    ensures Parse(Show(n)) == n
  {
    if n >= 10 {
      var s := Show(n);
      assert s[..|s| - 1] == Show(n / 10);
      assert s[|s| - 1] == DigitChar(n % 10);
      ParseShow(n / 10);
    }
  }

  lemma ShowInjective(a: nat, b: nat)
    ensures Show(a) == Show(b) <==> a == b
  {
    if Show(a) == Show(b) {
      ParseShow(a);
      ParseShow(b);
    }
  }
}
