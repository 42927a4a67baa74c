/** Decimal digit strings: their numeric value and the canonical rendering of a natural number. */
module Decimal {

  /** An ASCII decimal digit, the `[0-9]` character class. */
  predicate IsDigit(c: char) {
    '0' <= c <= '9'
  }

  predicate AllDigits(s: string) {
    forall k | 0 <= k < |s| :: IsDigit(s[k])
  }

  function DigitValue(c: char): (d: nat)
    requires IsDigit(c)
    ensures d < 10
  {
    c as int - '0' as int
  }

  function DigitChar(d: nat): (c: char)
    requires d < 10
    ensures IsDigit(c) && DigitValue(c) == d
  {
    ('0' as int + d) as char
  }

  /** The number a string of digits denotes, read most significant digit first. */
  function Value(s: string): nat
    requires AllDigits(s)
    decreases |s|
  {
    if s == [] then 0 else Value(s[..|s| - 1]) * 10 + DigitValue(s[|s| - 1])
  }

  /** Appending one digit multiplies the value by ten and adds the digit. */
  lemma ValueSnoc(s: string, c: char)
    requires AllDigits(s) && IsDigit(c)
    ensures AllDigits(s + [c]) && Value(s + [c]) == Value(s) * 10 + DigitValue(c)
  {
    assert (s + [c])[..|s|] == s;
  }

  /** The value of a three-digit string, written out position by position. */
  lemma Value3(g: string)
    requires |g| == 3 && AllDigits(g)
    ensures Value(g) == 100 * DigitValue(g[0]) + 10 * DigitValue(g[1]) + DigitValue(g[2])
  {
    assert g[..2][..1] == g[..1] && g[..1][..0] == [];
    assert Value(g[..1]) == DigitValue(g[0]);
    assert Value(g[..2]) == 10 * DigitValue(g[0]) + DigitValue(g[1]);
  }

  /** A string of at most `n` digits denotes a number below 10^n (for n = 1, 2, 3). */
  lemma ValueBound(s: string)
    requires AllDigits(s)
    ensures |s| <= 1 ==> Value(s) < 10
    ensures |s| <= 2 ==> Value(s) < 100
    ensures |s| <= 3 ==> Value(s) < 1000
    decreases |s|
  {
    if s != [] {
      ValueBound(s[..|s| - 1]);
    }
  }

  /**
   * The shortest decimal rendering of `n`, as JavaScript's number-to-string
   * conversion writes a non-negative integer below 10^21.
   */
  function Digits(n: nat): (r: string)
    ensures 1 <= |r| && AllDigits(r) && Value(r) == n
    ensures r[0] == '0' ==> n == 0
    ensures n < 10 ==> |r| == 1
    ensures n < 100 ==> |r| <= 2
    ensures n < 1000 ==> |r| <= 3
    decreases n
  {
    if n < 10 then [DigitChar(n)]
    else
      var r := Digits(n / 10) + [DigitChar(n % 10)];
      ValueSnoc(Digits(n / 10), DigitChar(n % 10));
      r
  }

  /** Distinct numbers have distinct renderings. */
  lemma DigitsInjective(a: nat, b: nat)
    requires a != b
    ensures Digits(a) != Digits(b)
  {
  }
}
