/** Decimal numerals as a program prints and parses unsigned integers. */
module Decimal {
  import opened Basics

  const U64_LIMIT: nat := 0x1_0000_0000_0000_0000

  function DigitChar(d: nat): char
    requires d < 10
  {
    ('0' as int + d) as char
  }

  predicate IsDigit(c: char) {
    '0' <= c <= '9'
  }

  function DigitValue(c: char): (d: nat)
    requires IsDigit(c)
    ensures d < 10
  {
    c as int - '0' as int
  }

  function Print(n: nat): (s: string)
    ensures |s| > 0 && forall i :: 0 <= i < |s| ==> IsDigit(s[i])
  {
    if n < 10 then [DigitChar(n)] else Print(n / 10) + [DigitChar(n % 10)]
  }

  /** The value of a string of digits, if it is one. */
  function DigitsValue(s: string): Option<nat> {
    if |s| == 0 then Some(0)
    else
      var front := DigitsValue(s[..|s| - 1]);
      if front.Some? && IsDigit(s[|s| - 1]) then Some(10 * front.value + DigitValue(s[|s| - 1])) else None
  }

  /** The parser of u64: an optional plus sign, at least one digit, and no overflow. */
  function ParseU64(s: string): Option<nat> {
    var digits := if |s| > 0 && s[0] == '+' then s[1..] else s;
    var value := DigitsValue(digits);
    if |digits| > 0 && value.Some? && value.value < U64_LIMIT then value else None
  }

  lemma {:induction false} DigitsValuePrint(n: nat)
    ensures DigitsValue(Print(n)) == Some(n)
  {
    if n >= 10 {
      DigitsValuePrint(n / 10);
      assert Print(n)[..|Print(n)| - 1] == Print(n / 10);
    } else {
      assert [DigitChar(n)][..0] == [];
    }
  }

  /** Every u64 is read back, and no larger number is. */
  lemma ParsePrint(n: nat)
    ensures ParseU64(Print(n)) == if n <= 0xFFFF_FFFF_FFFF_FFFF then Some(n) else None
  {
    DigitsValuePrint(n);
    assert IsDigit(Print(n)[0]);
  }

  lemma {:induction false} PrintLength(n: nat, digits: nat)
    requires n < Pow10(digits) && digits > 0
    ensures |Print(n)| <= digits
  {
    if n >= 10 {
      PrintLength(n / 10, digits - 1);
    }
  }

  function Pow10(k: nat): nat {
    if k == 0 then 1 else 10 * Pow10(k - 1)
  }

  lemma U64HasTwentyDigits(n: nat)
    requires n < U64_LIMIT
    ensures |Print(n)| <= 20
  {
    assert Pow10(5) == 100_000;
    assert Pow10(10) == 10_000_000_000;
    assert Pow10(15) == 1_000_000_000_000_000;
    assert Pow10(20) == 100_000_000_000_000_000_000;
    PrintLength(n, 20);
  }

  /** Digits come most significant first. */
  lemma PrintedDigits()
    ensures Print(0) == "0" && Print(907) == "907"
  {
    assert Print(9) == ['9'];
    assert Print(90) == Print(9) + ['0'];
    assert Print(907) == Print(90) + ['7'];
  }
}
