/**
  The two number conversions the template expander relies on: Go's
  `strconv.Atoi` for a 64-bit `int` (an optional sign, then at least one
  decimal digit, within the int64 range; no underscores in base 10) and the
  `%d` rendering of an `int`.
 */
module Strconv {
  import opened Options

  const MaxInt64: int := 0x7fff_ffff_ffff_ffff
  const MinInt64: int := -0x8000_0000_0000_0000

  predicate IsDigit(c: char) { '0' <= c <= '9' }

  /** A non-empty run of decimal digits. */
  predicate IsDigits(s: string)
  {
    |s| > 0 && forall k :: 0 <= k < |s| ==> IsDigit(s[k])
  }

  /** The value of a digit string, read most significant digit first. */
  function DigitsValue(s: string): nat
    requires forall k :: 0 <= k < |s| ==> IsDigit(s[k])
    decreases |s|
  {
    if |s| == 0 then 0
    else
      assert IsDigit(s[|s| - 1]);
      10 * DigitsValue(s[..|s| - 1]) + (s[|s| - 1] as int - '0' as int)
  }

  function DigitChar(d: nat): (c: char)
    requires d < 10
    ensures IsDigit(c) && c as int - '0' as int == d
  {
    ('0' as int + d) as char
  }

  /** `strconv.Atoi` on a 64-bit platform; `None` stands for its error result. */
  function Atoi(s: string): (r: Option<int>)
    ensures r.Some? ==> MinInt64 <= r.value <= MaxInt64
    ensures IsDigits(s) ==> (r.Some? <==> DigitsValue(s) <= MaxInt64)
    ensures IsDigits(s) && r.Some? ==> r.value == DigitsValue(s)
    ensures (exists k :: 0 <= k < |s| && !IsDigit(s[k]) && (k > 0 || (s[0] != '+' && s[0] != '-'))) ==> r.None?
  {
    if |s| > 0 && (s[0] == '+' || s[0] == '-') then
      var digits := s[1..];
      if IsDigits(digits) then
        var v: int := if s[0] == '-' then 0 - DigitsValue(digits) as int else DigitsValue(digits);
        if MinInt64 <= v <= MaxInt64 then Some(v) else None
      else None
    else if IsDigits(s) && DigitsValue(s) <= MaxInt64 then Some(DigitsValue(s))
    else None
  }

  /** The shortest decimal spelling of `n`, as `%d` prints a non-negative int. */
  function NatToDecimal(n: nat): (r: string)
    ensures IsDigits(r)
    ensures DigitsValue(r) == n
    ensures r[0] == '0' ==> n == 0 && |r| == 1
    decreases n
  {
    if n < 10 then [DigitChar(n)]
    else
      var r := NatToDecimal(n / 10) + [DigitChar(n % 10)];
      assert r[..|r| - 1] == NatToDecimal(n / 10);
      r
  }

  /** `%d` of an int: a minus sign before the digits of a negative value. */
  function IntToDecimal(i: int): (r: string)
    ensures |r| > 0
    ensures i >= 0 ==> IsDigits(r) && DigitsValue(r) == i
    ensures i < 0 ==> r[0] == '-' && IsDigits(r[1..]) && DigitsValue(r[1..]) == -i
  {
    if i >= 0 then NatToDecimal(i) else "-" + NatToDecimal(-i)
  }

  /** A digit string that does not start with a redundant zero is worth at least 1 when it is not "0". */
  lemma {:induction false} LeadingDigitPositive(s: string)
    requires IsDigits(s) && s[0] != '0'
    ensures DigitsValue(s) >= 1
    decreases |s|
  {
    if |s| > 1 {
      LeadingDigitPositive(s[..|s| - 1]);
    }
  }

  /**
    `%d` gives back exactly the digits of a token that has no redundant leading
    zero: reading a canonical digit string and printing the value round-trips.
   */
  lemma {:induction false} DecimalRoundTrip(s: string)
    requires IsDigits(s) && (s[0] != '0' || |s| == 1)
    ensures NatToDecimal(DigitsValue(s)) == s
    decreases |s|
  {
    if |s| > 1 {
      var p := s[..|s| - 1];
      assert p[0] == s[0];
      LeadingDigitPositive(p);
      DecimalRoundTrip(p);
      var d := s[|s| - 1] as int - '0' as int;
      var v := DigitsValue(s);
      assert v == 10 * DigitsValue(p) + d;
      assert v / 10 == DigitsValue(p) && v % 10 == d;
      assert s == p + [s[|s| - 1]];
    }
  }

  /** Atoi reads back every value `%d` prints within the int64 range. */
  lemma AtoiOfDecimal(n: nat)
    requires n <= MaxInt64
    ensures Atoi(NatToDecimal(n)) == Some(n)
  {
  }
}
