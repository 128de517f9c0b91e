/**
 * Decimal text of integers, as Swift renders them with `description` (and
 * string interpolation) and parses them with `FixedWidthInteger.init?(_:)`
 * in radix 10: an optional `+` or `-` sign followed by one or more ASCII
 * digits, nothing else, and a value within the bounds of the target type.
 */
module Decimal {
  import opened Wrappers

  const UInt64Max: int := 0xFFFF_FFFF_FFFF_FFFF
  const Int64Min: int := -0x8000_0000_0000_0000
  const Int64Max: int := 0x7FFF_FFFF_FFFF_FFFF

  predicate IsDigit(c: char) {
    '0' <= c <= '9'
  }

  predicate AllDigits(s: string) {
    forall i | 0 <= i < |s| :: IsDigit(s[i])
  }

  /** The shortest rendering of a natural number: digits only, no leading zero except "0" itself. */
  predicate Canonical(s: string) {
    |s| >= 1 && AllDigits(s) && (s[0] == '0' ==> |s| == 1)
  }

  function DigitChar(d: nat): (c: char)
    requires d < 10
    ensures IsDigit(c) && c as int - '0' as int == d
  {
    ('0' as int + d) as char
  }

  function DigitValue(c: char): (d: nat)
    requires IsDigit(c)
    ensures d < 10 && DigitChar(d) == c
  {
    c as int - '0' as int
  }

  /** Swift's `description` of a non-negative integer. */
  function NatToString(n: nat): (s: string)
    ensures Canonical(s)
    ensures (n < 10) == (|s| == 1)
    decreases n
  {
    if n < 10 then [DigitChar(n)]
    else
      var prefix := NatToString(n / 10);
      assert prefix[0] != '0';
      prefix + [DigitChar(n % 10)]
  }

  /** Swift's `description` of a signed integer. */
  function IntToString(i: int): (s: string)
    ensures |s| >= 1
    ensures i >= 0 ==> s == NatToString(i)
  {
    if i < 0 then "-" + NatToString(-i) else NatToString(i)
  }

  /** The value of a digit string, read most significant digit first. */
  function DigitsValue(s: string): nat
    requires AllDigits(s)
  {
    if s == [] then 0 else 10 * DigitsValue(s[..|s| - 1]) + DigitValue(s[|s| - 1])
  }

  /** `T(text)` for an integer type whose values are `lo ... hi`. */
  function ParseInteger(s: string, lo: int, hi: int): (r: Option<int>)
    ensures r.Some? ==> lo <= r.value <= hi
    ensures r.Some? ==> |s| >= 1
  {
    var signed := |s| >= 1 && (s[0] == '+' || s[0] == '-');
    var digits := if signed then s[1..] else s;
    if |digits| == 0 || !AllDigits(digits) then None
    else
      var v: int := if signed && s[0] == '-' then 0 - DigitsValue(digits) as int else DigitsValue(digits);
      if lo <= v <= hi then Some(v) else None
  }

  /** Swift's `UInt64(text)`. */
  function ParseUInt64(s: string): Option<int> {
    ParseInteger(s, 0, UInt64Max)
  }

  /** Swift's `Int(text)` on a 64-bit platform. */
  function ParseInt(s: string): Option<int> {
    ParseInteger(s, Int64Min, Int64Max)
  }

  lemma {:induction false} DigitsValueOfNatToString(n: nat)
    ensures DigitsValue(NatToString(n)) == n
    decreases n
  {
    var s := NatToString(n);
    if n >= 10 {
      assert s[..|s| - 1] == NatToString(n / 10);
      DigitsValueOfNatToString(n / 10);
    }
  }

  lemma {:induction false} LeadingNonZeroIsPositive(s: string)
    requires |s| >= 1 && AllDigits(s) && s[0] != '0'
    ensures DigitsValue(s) >= 1
    decreases |s|
  {
    if |s| > 1 {
      LeadingNonZeroIsPositive(s[..|s| - 1]);
    }
  }

  /** Printing inverts reading on canonical digit strings. */
  lemma {:induction false} NatToStringOfDigitsValue(s: string)
    requires Canonical(s)
    ensures NatToString(DigitsValue(s)) == s
    decreases |s|
  {
    if |s| > 1 {
      var p := s[..|s| - 1];
      LeadingNonZeroIsPositive(p);
      NatToStringOfDigitsValue(p);
      var v := DigitsValue(s);
      assert v / 10 == DigitsValue(p) && v % 10 == DigitValue(s[|s| - 1]);
      assert s == p + [s[|s| - 1]];
    }
  }

  /** Reading back any rendered integer that fits the type gives the integer. */
  lemma ParseIntToString(i: int, lo: int, hi: int)
    requires lo <= i <= hi
    ensures ParseInteger(IntToString(i), lo, hi) == Some(i)
  {
    var s := IntToString(i);
    if i < 0 {
      var digits := NatToString(-i);
      assert s == "-" + digits && s[0] == '-';
      assert s[1..] == digits;
      DigitsValueOfNatToString(-i);
    } else {
      var digits := NatToString(i);
      assert s == digits && s[0] != '+' && s[0] != '-';
      DigitsValueOfNatToString(i);
    }
  }

  /** A canonical digit string read as a value within bounds renders back to itself. */
  lemma ParseCanonical(s: string, lo: int, hi: int)
    requires Canonical(s) && lo <= DigitsValue(s) <= hi
    ensures ParseInteger(s, lo, hi) == Some(DigitsValue(s))
    ensures NatToString(ParseInteger(s, lo, hi).value) == s
  {
    NatToStringOfDigitsValue(s);
  }
}
