/**
 * Decimal rendering of integers, as a JavaScript template literal prints a
 * whole number (`${n}`) up to 2^53 in magnitude: base-ten digits, no leading
 * zeros, a leading '-' for negatives. Larger numbers, which JavaScript holds
 * inexactly and from 10^21 on prints in exponent form, are not modelled. The
 * parser is the partner of the printer: it reads the digits back, which shows
 * that the printed text determines the number.
 *
 * The printers carry only small postconditions; what the digits are is
 * stated by the lemmas below, so that code which only prints a number does
 * not pay for reasoning about its digits.
 */
module Decimal {

  predicate IsDigit(c: char) {
    '0' <= c <= '9'
  }

  /** Every character of `s` is a decimal digit (checked from the last one back). */
  predicate AllDigits(s: string)
    decreases |s|
  {
    s == [] || (IsDigit(s[|s| - 1]) && AllDigits(s[..|s| - 1]))
  }

  function DigitChar(d: nat): char
    requires d < 10
  {
    ('0' as int + d) as char
  }

  function DigitValue(c: char): nat
    requires IsDigit(c)
  {
    c as int - '0' as int
  }

  /** The canonical decimal text of a natural number. */
  function NatToString(n: nat): string
    decreases n
  {
    if n < 10 then [DigitChar(n)] else NatToString(n / 10) + [DigitChar(n % 10)]
  }

  /** The decimal text of any integer, with a leading '-' when it is negative. */
  function IntToString(i: int): (s: string)
    ensures |s| > 0 && (s[0] == '-' <==> i < 0)
  {
    if i < 0 then
      NatToStringDigits(-i);
      "-" + NatToString(-i)
    else
      NatToStringDigits(i);
      NatToString(i)
  }

  /** The value of a string of decimal digits, most significant first. */
  function ParseDigits(s: string): nat
    requires AllDigits(s)
    decreases |s|
  {
    if s == [] then 0 else ParseDigits(s[..|s| - 1]) * 10 + DigitValue(s[|s| - 1])
  }

  /** Reads back a decimal integer; text that is not one reads as 0. */
  function ParseInt(s: string): int {
    if |s| > 0 && s[0] == '-' && AllDigits(s[1..]) then -(ParseDigits(s[1..]) as int)
    else if AllDigits(s) then ParseDigits(s)
    else 0
  }

  /** A natural number prints as a non-empty run of digits without a leading zero. */
  lemma {:induction false} NatToStringDigits(n: nat)
    ensures |NatToString(n)| > 0 && AllDigits(NatToString(n))
    ensures IsDigit(NatToString(n)[0])
    ensures n > 0 ==> NatToString(n)[0] != '0'
    ensures n < 10 <==> |NatToString(n)| == 1
    decreases n
  {
    var s := NatToString(n);
    if n < 10 {
      assert s[..0] == [];
    } else {
      var front := NatToString(n / 10);
      NatToStringDigits(n / 10);
      assert s[..|s| - 1] == front;
      assert s[0] == front[0];
    }
  }

  /** An integer prints as digits, without a leading zero, after a '-' exactly when it is negative. */
  lemma IntToStringShape(i: int)
    ensures i > 0 ==> IntToString(i)[0] != '0'
    ensures i < 0 ==> |IntToString(i)| > 1 && IntToString(i)[1] != '0'
    ensures i >= 0 ==> AllDigits(IntToString(i))
    ensures i < 0 ==> AllDigits(IntToString(i)[1..])
  {
    if i < 0 {
      NatToStringDigits(-i);
      assert IntToString(i)[1..] == NatToString(-i);
    } else {
      NatToStringDigits(i);
    }
  }

  lemma {:induction false} ParseNatToString(n: nat)
    ensures AllDigits(NatToString(n)) && ParseDigits(NatToString(n)) == n
    decreases n
  {
    NatToStringDigits(n);
    var s := NatToString(n);
    if n < 10 {
      assert s[..0] == [];
    } else {
      ParseNatToString(n / 10);
      assert s[..|s| - 1] == NatToString(n / 10);
    }
  }

  lemma ParseIntToString(i: int)
    ensures ParseInt(IntToString(i)) == i
  {
    IntToStringShape(i);
    if i < 0 {
      assert IntToString(i)[1..] == NatToString(-i);
      ParseNatToString(-i);
    } else {
      ParseNatToString(i);
    }
  }

  /** Two integers that print alike are equal. */
  lemma IntToStringInjective(i: int, j: int)
    requires IntToString(i) == IntToString(j)
    ensures i == j
  {
    ParseIntToString(i);
    ParseIntToString(j);
  }

  /** A string of digits holds no character that is not a digit. */
  lemma {:induction false} DigitsHaveNo(s: string, c: char)
    requires AllDigits(s) && !IsDigit(c)
    ensures c !in s
    decreases |s|
  {
    if s != [] {
      DigitsHaveNo(s[..|s| - 1], c);
      assert s == s[..|s| - 1] + [s[|s| - 1]];
    }
  }

  /** Printed integers hold nothing but digits and '-', so no separator of an episode line. */
  lemma IntToStringHasNo(i: int, c: char)
    requires !IsDigit(c) && c != '-'
    ensures c !in IntToString(i)
  {
    IntToStringShape(i);
    var s := IntToString(i);
    if i < 0 {
      DigitsHaveNo(s[1..], c);
      assert s == [s[0]] + s[1..];
    } else {
      DigitsHaveNo(s, c);
    }
  }
}
