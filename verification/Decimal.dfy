// Decimal numerals as Go prints them (%d) and reads them back (strconv.ParseInt).
module Decimal {
  import opened Common

  predicate IsDigit(c: char) {
    '0' <= c <= '9'
  }

  predicate AllDigits(s: string) {
    forall i :: 0 <= i < |s| ==> IsDigit(s[i])
  }

  function DigitChar(d: nat): (c: char)
    requires d < 10
    ensures IsDigit(c) && DigitValue(c) == d
  {
    ('0' as int + d) as char
  }

  function DigitValue(c: char): (d: nat)
    requires IsDigit(c)
    ensures d < 10
  {
    c as int - '0' as int
  }

  // fmt's %d for a non-negative number.
  function Print(n: nat): (s: string)
    ensures |s| > 0 && AllDigits(s)
    ensures Value(s) == n
  {
    if n < 10 then
      [DigitChar(n)]
    else
      var s := Print(n / 10) + [DigitChar(n % 10)];
      assert s[..|s| - 1] == Print(n / 10);
      s
  }

  // The number a digit string denotes.
  function Value(s: string): nat
    requires AllDigits(s)
  {
    if s == [] then 0 else 10 * Value(s[..|s| - 1]) + DigitValue(s[|s| - 1])
  }

  lemma PrintInjective(m: nat, n: nat)
    requires Print(m) == Print(n)
    ensures m == n
  {
    assert Value(Print(m)) == Value(Print(n));
  }

  const MAX_INT64: int := 0x7fff_ffff_ffff_ffff
  const MIN_INT64: int := -0x8000_0000_0000_0000

  // strconv.ParseInt(s, 10, 64): an optional sign, at least one digit, nothing
  // else, and a value that fits in 64 bits.
  function ParseInt(s: string): Option<int> {
    var digits := if |s| > 0 && (s[0] == '+' || s[0] == '-') then s[1..] else s;
    if digits == [] || !AllDigits(digits) then
      None
    else
      var n: int := if s[0] == '-' then -(Value(digits) as int) else Value(digits);
      if MIN_INT64 <= n <= MAX_INT64 then Some(n) else None
  }

  // Reading back a printed number returns it.
  lemma ParsePrinted(n: nat)
    requires n <= MAX_INT64
    ensures ParseInt(Print(n)) == Some(n)
  {
    var s := Print(n);
    assert IsDigit(s[0]);
  }

  // Leading zeros and a sign are read as such; what does not fit in 64 bits or has
  // any other character is not a number.
  lemma SignedNumerals(n: nat)
    ensures ParseInt("+" + Print(n)) == if n <= MAX_INT64 then Some(n) else None
    ensures ParseInt("-" + Print(n)) == if n <= MAX_INT64 + 1 then Some(0 - n) else None
    ensures ParseInt(Print(n)) == if n <= MAX_INT64 then Some(n) else None
  {
    var s := Print(n);
    assert IsDigit(s[0]);
    assert ("+" + s)[1..] == s && ("-" + s)[1..] == s;
  }

  lemma NotANumeral(s: string, k: nat)
    requires k < |s| && !IsDigit(s[k]) && (k > 0 || (s[k] != '+' && s[k] != '-') || |s| == 1)
    ensures ParseInt(s).None? && ParseInt("").None?
  {
    var digits := if s[0] == '+' || s[0] == '-' then s[1..] else s;
    if k > 0 && (s[0] == '+' || s[0] == '-') {
      assert digits[k - 1] == s[k];
    }
  }
}
