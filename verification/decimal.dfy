/**
 * Decimal rendering of integers, as Go's `fmt.Sprintf("%d", n)` writes them,
 * and the reading that undoes it.
 */
module Decimal {
  import opened Wrappers

  predicate IsDigit(c: char) {
    '0' <= c <= '9'
  }

  predicate AllDigits(s: string) {
    forall i :: 0 <= i < |s| ==> IsDigit(s[i])
  }

  function DigitValue(c: char): nat
    requires IsDigit(c)
  {
    c as int - '0' as int
  }

  function Digit(d: nat): (c: char)
    requires d < 10
    ensures IsDigit(c) && DigitValue(c) == d
  {
    (d + '0' as int) as char
  }

  /** The number a string of decimal digits denotes (most significant first). */
  function ValueOf(s: string): nat
    requires AllDigits(s)
    decreases |s|
  {
    if s == [] then 0 else ValueOf(s[..|s| - 1]) * 10 + DigitValue(s[|s| - 1])
  }

  /** The digits of `n` without leading zeros. */
  function FormatNat(n: nat): (r: string)
    ensures |r| > 0 && AllDigits(r)
    ensures ValueOf(r) == n
    ensures r[0] == '0' ==> r == "0"
    decreases n
  {
    if n < 10 then [Digit(n)]
    else
      var front := FormatNat(n / 10);
      var r := front + [Digit(n % 10)];
      assert r[..|r| - 1] == front;
      r
  }

  /**
   * `%d`: a minus sign exactly for negative numbers, then the digits without
   * leading zeros, so every integer has one rendering.
   */
  function FormatInt(n: int): (r: string)
    ensures |r| > 0
    ensures forall i :: 0 <= i < |r| ==> IsDigit(r[i]) || (i == 0 && r[i] == '-')
    ensures ParseInt(r) == Some(n)
    ensures r[0] == '-' <==> n < 0
    ensures n < 0 ==> |r| >= 2 && r[1] != '0'
    ensures r[0] == '0' ==> r == "0"
  {
    if n < 0 then
      var digits := FormatNat(-n);
      assert ("-" + digits)[1..] == digits;
      "-" + digits
    else FormatNat(n)
  }

  function ParseNat(s: string): Option<nat> {
    if s != [] && AllDigits(s) then Some(ValueOf(s)) else None
  }

  /** Reads what `FormatInt` writes: an optional minus sign and at least one digit. */
  function ParseInt(s: string): Option<int> {
    if |s| > 0 && s[0] == '-' then
      match ParseNat(s[1..])
      case Some(v) => Some(-(v as int))
      case None => None
    else
      match ParseNat(s)
      case Some(v) => Some(v)
      case None => None
  }

  /** Two numbers with the same rendering are the same number. */
  lemma FormatIntInjective(m: int, n: int)
    requires FormatInt(m) == FormatInt(n)
    ensures m == n
  {
    assert ParseInt(FormatInt(m)) == Some(m);
  }
}
