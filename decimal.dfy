/**
 * Decimal text conversion of integers as the property tree performs it:
 * writing an int (or a size_t via lexical_cast) produces its decimal digits,
 * and reading an int back accepts an optional sign followed by digits whose
 * value fits a 32-bit int.
 */
module Decimal {
  import opened Wrappers

  const INT_MIN: int := -0x8000_0000
  const INT_MAX: int := 0x7fff_ffff

  /** The values of a C++ `int`. */
  type Int32 = i: int | -0x8000_0000 <= i <= 0x7fff_ffff

  predicate IsDigit(c: char) {
    '0' <= c <= '9'
  }

  predicate IsDigits(s: string) {
    |s| > 0 && forall k :: 0 <= k < |s| ==> IsDigit(s[k])
  }

  function DigitChar(d: nat): (c: char)
    requires d < 10
    ensures IsDigit(c) && c as int - '0' as int == d
  {
    ('0' as int + d) as char
  }

  /** Decimal representation of a natural number, most significant digit first. */
  function NatToString(n: nat): string
    decreases n
  {
    if n < 10 then [DigitChar(n)] else NatToString(n / 10) + [DigitChar(n % 10)]
  }

  /** What `stream << i` writes for an int. */
  function IntToString(i: int): string {
    if i < 0 then "-" + NatToString(-i) else NatToString(i)
  }

  /** Value of a string of decimal digits. */
  function DigitsValue(s: string): nat
    requires forall k :: 0 <= k < |s| ==> IsDigit(s[k])
  {
    if s == [] then 0
    else
      assert IsDigit(s[|s| - 1]);
      DigitsValue(s[..|s| - 1]) * 10 + (s[|s| - 1] as int - '0' as int)
  }

  /**
   * What reading an int from a string yields: an optional '+' or '-', then at
   * least one digit and nothing else, with the value in the 32-bit range;
   * anything else fails.
   */
  function ParseInt(s: string): (r: Option<Int32>)
    // only a sign or a digit may lead, and only digits follow
    ensures r.Some? ==> |s| > 0 && (IsDigit(s[0]) || s[0] == '-' || s[0] == '+')
    ensures r.Some? ==> forall k :: 1 <= k < |s| ==> IsDigit(s[k])
    // a sign alone is not a number
    ensures r.Some? ==> IsDigits(s) || (|s| > 1 && (s[0] == '+' || s[0] == '-') && IsDigits(s[1..]))
    // unsigned digits: accepted up to INT_MAX, with their value
    ensures IsDigits(s) ==> (r.Some? <==> DigitsValue(s) <= INT_MAX) && (r.Some? ==> r.value == DigitsValue(s))
    // '+' then digits: the same
    ensures |s| > 0 && s[0] == '+' && IsDigits(s[1..]) ==>
      (r.Some? <==> DigitsValue(s[1..]) <= INT_MAX) && (r.Some? ==> r.value == DigitsValue(s[1..]))
    // '-' then digits: accepted down to INT_MIN, negated
    ensures |s| > 0 && s[0] == '-' && IsDigits(s[1..]) ==>
      (r.Some? <==> DigitsValue(s[1..]) <= -INT_MIN) && (r.Some? ==> r.value == -(DigitsValue(s[1..]) as int))
  {
    var negative := |s| > 0 && s[0] == '-';
    var digits := if |s| > 0 && (s[0] == '-' || s[0] == '+') then s[1..] else s;
    if !IsDigits(digits) then None
    else
      var magnitude: int := DigitsValue(digits);
      var v := if negative then -magnitude else magnitude;
      if INT_MIN <= v <= INT_MAX then Some(v) else None
  }

  lemma {:induction false} NatToStringDigits(n: nat)
    ensures IsDigits(NatToString(n))
    ensures DigitsValue(NatToString(n)) == n
    decreases n
  {
    if n >= 10 {
      NatToStringDigits(n / 10);
      var s := NatToString(n / 10) + [DigitChar(n % 10)];
      assert s[..|s| - 1] == NatToString(n / 10);
      assert forall k :: 0 <= k < |s| ==> IsDigit(s[k]);
    }
  }

  /** Reading back what was written yields the same int. */
  lemma ParseIntToString(i: Int32)
    ensures ParseInt(IntToString(i)) == Some(i)
  {
    if i < 0 {
      NatToStringDigits(-(i as int));
      assert IntToString(i)[1..] == NatToString(-(i as int));
    } else {
      NatToStringDigits(i);
      assert IsDigit(NatToString(i)[0]);
    }
  }

  /** A natural number in the int range, written in decimal, reads back as the same number. */
  lemma ParseNatToString(n: nat)
    requires n <= INT_MAX
    ensures ParseInt(NatToString(n)) == Some(n)
  {
    ParseIntToString(n);
  }
}
