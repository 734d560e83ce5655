/**
 * Strings of decimal digits: their value, the canonical rendering of a natural
 * number (what a JavaScript template literal produces for an integral id), and
 * when a digit string denotes a non-zero number.
 */
module Decimal {

  predicate IsDigit(c: char) {
    '0' <= c <= '9'
  }

  predicate AllDigits(s: string) {
    forall i :: 0 <= i < |s| ==> IsDigit(s[i])
  }

  /** Some character of `s` is a digit other than '0'. */
  predicate HasNonZeroDigit(s: string) {
    exists i :: 0 <= i < |s| && IsDigit(s[i]) && s[i] != '0'
  }

  function DigitValue(c: char): (d: nat)
    requires IsDigit(c)
    ensures d < 10
    ensures d == 0 <==> c == '0'
  {
    c as int - '0' as int
  }

  function DigitChar(d: nat): (c: char)
    requires d < 10
    ensures IsDigit(c) && DigitValue(c) == d
  {
    ('0' as int + d) as char
  }

  /** The number a digit string denotes, most significant digit first; "" denotes 0. */
  function Value(s: string): nat
    requires AllDigits(s)
  {
    if s == [] then 0 else Value(s[..|s| - 1]) * 10 + DigitValue(s[|s| - 1])
  }

  function Pow10(k: nat): (p: nat)
    ensures p >= 1
  {
    if k == 0 then 1 else 10 * Pow10(k - 1)
  }

  /** The decimal rendering of `n`: digits only, never empty, no leading zero. */
  function ToString(n: nat): (s: string)
    ensures |s| > 0 && AllDigits(s)
    ensures s[0] == '0' ==> n == 0
  {
    if n < 10 then [DigitChar(n)] else ToString(n / 10) + [DigitChar(n % 10)]
  }

  lemma {:induction false} ValueOfToString(n: nat)
    ensures Value(ToString(n)) == n
  {
    if n >= 10 {
      ValueOfToString(n / 10);
      var s := ToString(n);
      assert s[..|s| - 1] == ToString(n / 10);
    }
  }

  /** Distinct numbers render as distinct strings. */
  lemma ToStringInjective(m: nat, n: nat)
    requires ToString(m) == ToString(n)
    ensures m == n
  {
    ValueOfToString(m);
    ValueOfToString(n);
  }

  /** A digit string denotes a positive number exactly when one of its digits is not '0'. */
  lemma {:induction false} ValuePositiveIff(s: string)
    requires AllDigits(s)
    ensures Value(s) > 0 <==> HasNonZeroDigit(s)
  {
    if s != [] {
      var init := s[..|s| - 1];
      ValuePositiveIff(init);
      if HasNonZeroDigit(init) {
        var i :| 0 <= i < |init| && IsDigit(init[i]) && init[i] != '0';
        assert s[i] == init[i];
      }
      if HasNonZeroDigit(s) && s[|s| - 1] == '0' {
        var i :| 0 <= i < |s| && IsDigit(s[i]) && s[i] != '0';
        assert init[i] == s[i];
      }
    }
  }
}
