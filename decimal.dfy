/** Python's `str(n)` for a non-negative int, and reading a number back out of a string. */
module Decimal {
  import opened Wrappers

  predicate IsDigit(c: char) {
    '0' <= c <= '9'
  }

  predicate AllDigits(s: string) {
    forall k :: 0 <= k < |s| ==> IsDigit(s[k])
  }

  function DigitChar(d: nat): (c: char)
    requires d < 10
    ensures IsDigit(c) && c as int - '0' as int == d
  {
    ('0' as int + d) as char
  }

  function DigitValue(c: char): nat
    requires IsDigit(c)
  {
    c as int - '0' as int
  }

  /** `str(n)`: the decimal digits of n, most significant first, without leading zeros. */
  function Show(n: nat): (s: string)
    ensures |s| >= 1 && AllDigits(s)
    ensures s[0] == '0' <==> n == 0
  {
    if n < 10 then [DigitChar(n)] else Show(n / 10) + [DigitChar(n % 10)]
  }

  /** `int(s)` for a string made only of decimal digits. */
  function Parse(s: string): nat
    requires AllDigits(s)
  {
    if s == [] then 0 else Parse(s[..|s| - 1]) * 10 + DigitValue(s[|s| - 1])
  }

  /** A string that is `str(n)` for some n in [lo, hi]. */
  predicate DecimalIn(s: string, lo: int, hi: int) {
    |s| >= 1 && AllDigits(s) && lo <= Parse(s) <= hi
  }

  predicate StartsWith(s: string, prefix: string) {
    |prefix| <= |s| && s[..|prefix|] == prefix
  }

  /** Reading `str(n)` back gives n. */
  lemma {:induction false} ParseShow(n: nat)
    ensures Parse(Show(n)) == n
  {
    if n >= 10 {
      ParseShow(n / 10);
      var s := Show(n);
      assert s[..|s| - 1] == Show(n / 10);
    }
  }

  /** `str` is injective on non-negative ints. */
  lemma ShowInjective(m: nat, n: nat)
    requires Show(m) == Show(n)
    ensures m == n
  {
    ParseShow(m);
    ParseShow(n);
  }

  /** `str(n)` for n in [lo, hi] is a decimal string whose value lies in [lo, hi]. */
  lemma ShowIn(n: nat, lo: int, hi: int)
    requires lo <= n <= hi
    ensures DecimalIn(Show(n), lo, hi)
  {
    ParseShow(n);
  }

  /** The length of the run of digits at the start of s. */
  function DigitRun(s: string): (n: nat)
    ensures n <= |s| && AllDigits(s[..n])
    ensures n < |s| ==> !IsDigit(s[n])
  {
    if s == [] || !IsDigit(s[0]) then 0 else 1 + DigitRun(s[1..])
  }

  /** The number written in s right after `prefix`, if s starts with `prefix` followed by a digit. */
  function NumberAfter(prefix: string, s: string): Option<nat> {
    if StartsWith(s, prefix) then
      var rest := s[|prefix|..];
      var run := DigitRun(rest);
      if run == 0 then None else Some(Parse(rest[..run]))
    else None
  }

  lemma {:induction false} DigitRunOfDigits(digits: string, rest: string)
    requires AllDigits(digits)
    requires rest == [] || !IsDigit(rest[0])
    ensures DigitRun(digits + rest) == |digits|
    decreases |digits|
  {
    if digits != [] {
      assert (digits + rest)[1..] == digits[1..] + rest;
      DigitRunOfDigits(digits[1..], rest);
    }
  }

  /** A title written as `prefix + str(n) + rest`, where rest does not start with a digit,
      carries the number n right after `prefix`. */
  lemma NumberAfterShow(prefix: string, n: nat, rest: string)
    requires rest == [] || !IsDigit(rest[0])
    ensures NumberAfter(prefix, prefix + Show(n) + rest) == Some(n)
  {
    var s := prefix + Show(n) + rest;
    assert s[..|prefix|] == prefix;
    assert s[|prefix|..] == Show(n) + rest;
    DigitRunOfDigits(Show(n), rest);
    assert (Show(n) + rest)[..|Show(n)|] == Show(n);
    ParseShow(n);
  }
}
