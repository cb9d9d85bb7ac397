/** Decimal rendering of the average: `String.format("%.3f", x)` for a
    non-negative `x` given as a number of thousandths. */
module Decimal {

  predicate IsDigit(c: char) {
    '0' <= c <= '9'
  }

  predicate AllDigits(s: string) {
    forall i :: 0 <= i < |s| ==> IsDigit(s[i])
  }

  /** The digit character for `d`. */
  function DigitChar(d: nat): (c: char)
    requires d < 10
    ensures IsDigit(c)
  {
    ('0' as int + d) as char
  }

  /** The value of a digit character. */
  function DigitValue(c: char): (d: nat)
    requires IsDigit(c)
    ensures d < 10
  {
    c as int - '0' as int
  }

  /** The number a string of digits spells, most significant digit first. */
  function Value(s: string): nat
    requires AllDigits(s)
    decreases |s|
  {
    if s == [] then 0 else Value(s[..|s| - 1]) * 10 + DigitValue(s[|s| - 1])
  }

  /** `n` in decimal, without leading zeros. */
  function Decimal(n: nat): (s: string)
    ensures s != [] && AllDigits(s)
    ensures |s| > 1 ==> s[0] != '0'
    ensures Value(s) == n
    decreases n
  {
    if n < 10 then [DigitChar(n)]
    else
      var s := Decimal(n / 10) + [DigitChar(n % 10)];
      assert s[..|s| - 1] == Decimal(n / 10);
      s
  }

  /** `n` as exactly three digits, with leading zeros. */
  function ThreeDigits(n: nat): (s: string)
    requires n < 1000
    ensures |s| == 3 && AllDigits(s)
    ensures Value(s) == n
  {
    var s := [DigitChar(n / 100), DigitChar(n / 10 % 10), DigitChar(n % 10)];
    assert s[..|s| - 1] == s[..2] && s[..2][..1] == [s[0]] && [s[0]][..0] == [];
    assert Value([s[0]]) == n / 100;
    assert Value(s[..2]) == Value([s[0]]) * 10 + DigitValue(s[1]);
    assert Value(s[..2]) == (n / 100) * 10 + n / 10 % 10;
    assert n == (n / 10) * 10 + n % 10 && n / 10 == (n / 100) * 10 + n / 10 % 10;
    s
  }

  /** `t` thousandths written with three decimal places, as `%.3f` writes
      it: the integer part, a point, and exactly three digits, which read
      back as `t`. */
  function FixedThree(t: nat): (r: string)
    ensures |r| >= 5 && r[|r| - 4] == '.'
    ensures AllDigits(r[..|r| - 4]) && AllDigits(r[|r| - 3..])
    ensures Value(r[..|r| - 4]) * 1000 + Value(r[|r| - 3..]) == t
  {
    var whole := Decimal(t / 1000);
    var frac := ThreeDigits(t % 1000);
    var r := whole + "." + frac;
    assert r[..|r| - 4] == whole && r[|r| - 3..] == frac;
    r
  }

  /** Different amounts are written differently. */
  lemma FixedThreeInjective(a: nat, b: nat)
    requires FixedThree(a) == FixedThree(b)
    ensures a == b
  {
  }

  /** `num / den` rounded to the nearest thousandth, halves rounded up: the
      result `r` satisfies `r - 1/2 <= 1000 * num / den < r + 1/2`. */
  function HalfUpThousandths(num: nat, den: nat): (r: nat)
    requires den >= 1
    ensures 2 * den * r <= 2000 * num + den < 2 * den * (r + 1)
  {
    var a := 2000 * num + den;
    var b := 2 * den;
    var q := a / b;
    assert a == b * q + a % b && 0 <= a % b < b;
    q
  }
}
