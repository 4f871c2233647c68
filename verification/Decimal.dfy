/** Decimal numerals, as `str(n)`, `str.isdigit` and `int(s)` treat them on ASCII text. */
module Decimal {

  predicate IsDigit(c: char) { '0' <= c <= '9' }

  predicate AllDigits(s: string) { forall i :: 0 <= i < |s| ==> IsDigit(s[i]) }

  function DigitChar(d: nat): (c: char)
    requires d < 10
    ensures IsDigit(c) && DigitValue(c) == d
  {
    ('0' as int + d) as char
  }

  function DigitValue(c: char): nat
    requires IsDigit(c)
  {
    c as int - '0' as int
  }

  function Value(s: string): nat
    requires AllDigits(s)
  {
    if s == "" then 0 else 10 * Value(s[..|s| - 1]) + DigitValue(s[|s| - 1])
  }

  lemma ValueOfDigit(d: nat)
    requires d < 10
    ensures Value([DigitChar(d)]) == d
  {
    assert [DigitChar(d)][..0] == "" && Value("") == 0;
  }

  lemma ValueOneMore(front: string, d: nat)
    requires AllDigits(front) && d < 10
    ensures AllDigits(front + [DigitChar(d)]) && Value(front + [DigitChar(d)]) == 10 * Value(front) + d
  {
    var s := front + [DigitChar(d)];
    assert s[..|s| - 1] == front;
  }

  lemma LastDigit(n: nat)
    ensures n == 10 * (n / 10) + n % 10
  {
  }

  function Digits(n: nat): (s: string)
    ensures s != "" && AllDigits(s) && Value(s) == n
  {
    if n < 10 then
      ValueOfDigit(n);
      [DigitChar(n)]
    else
      ValueOneMore(Digits(n / 10), n % 10);
      LastDigit(n);
      Digits(n / 10) + [DigitChar(n % 10)]
  }

  /** A numeral without leading zeros. */
  predicate Canonical(s: string) { s != "" && AllDigits(s) && (|s| == 1 || s[0] != '0') }

  lemma {:induction false} CanonicalValuePositive(s: string)
    requires Canonical(s) && s[0] != '0'
    ensures Value(s) > 0
  {
    if |s| > 1 { CanonicalValuePositive(s[..|s| - 1]); } else { assert s[..0] == ""; }
  }

  lemma {:induction false} DigitsOfValue(s: string)
    requires Canonical(s)
    ensures Digits(Value(s)) == s
  {
    var front := s[..|s| - 1];
    assert s == front + [s[|s| - 1]];
    if |s| > 1 {
      DigitsOfValue(front);
      CanonicalValuePositive(front);
    }
  }

  lemma {:induction false} DigitsCanonical(n: nat)
    ensures Canonical(Digits(n)) && (n > 0 ==> Digits(n)[0] != '0')
  {
    if n >= 10 { DigitsCanonical(n / 10); }
  }
}
