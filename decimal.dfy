/** Decimal rendering of integers, as Java's String.valueOf(int) produces it:
    an optional minus sign followed by the digits, without leading zeros. */
module Decimal {

  predicate IsDigit(c: char) {
    '0' <= c <= '9'
  }

  function DigitChar(d: nat): (c: char)
    requires d < 10
    ensures IsDigit(c)
    ensures DigitValue(c) == d
  {
    ('0' as int + d) as char
  }

  function DigitValue(c: char): int {
    c as int - '0' as int
  }

  predicate AllDigits(s: string) {
    forall i :: 0 <= i < |s| ==> IsDigit(s[i])
  }

  /** A non-empty digit string with no leading zero (except "0" itself). */
  predicate IsNumeral(s: string) {
    |s| >= 1 && AllDigits(s) && (s[0] == '0' ==> |s| == 1)
  }

  /** The strings String.valueOf(int) can produce. */
  predicate IsCanonical(s: string) {
    if |s| >= 1 && s[0] == '-' then IsNumeral(s[1..]) && s[1] != '0'
    else IsNumeral(s)
  }

  /** The digits of a natural number, most significant first. */
  function Digits(n: nat): (s: string)
    ensures IsNumeral(s)
    ensures s[0] == '0' <==> n == 0
  {
    if n < 10 then [DigitChar(n)]
    else Digits(n / 10) + [DigitChar(n % 10)]
  }

  /** String.valueOf(int). */
  function DecimalString(n: int): (s: string)
    ensures IsCanonical(s)
    ensures s[0] == '-' <==> n < 0
  {
    if n < 0 then "-" + Digits(-n) else Digits(n)
  }

  /** The value of a digit string; the left inverse of Digits. */
  function ParseDigits(s: string): int {
    if s == [] then 0 else 10 * ParseDigits(s[..|s| - 1]) + DigitValue(s[|s| - 1])
  }

  /** The value of a string as written by DecimalString; the left inverse of DecimalString. */
  function ParseDecimal(s: string): int {
    if |s| >= 1 && s[0] == '-' then -ParseDigits(s[1..]) else ParseDigits(s)
  }

  lemma {:induction false} DigitsRoundTrip(n: nat)
    ensures ParseDigits(Digits(n)) == n
  {
    if n >= 10 {
      var s := Digits(n);
      assert s[..|s| - 1] == Digits(n / 10);
      DigitsRoundTrip(n / 10);
    }
  }

  /** Reading back the decimal string of any integer gives that integer. */
  lemma DecimalRoundTrip(n: int)
    ensures ParseDecimal(DecimalString(n)) == n
  {
    if n < 0 {
      assert DecimalString(n)[1..] == Digits(-n);
      DigitsRoundTrip(-n);
    } else {
      DigitsRoundTrip(n);
    }
  }

  /** Distinct integers have distinct decimal strings. */
  lemma DecimalStringInjective(a: int, b: int)
    requires DecimalString(a) == DecimalString(b)
    ensures a == b
  {
    DecimalRoundTrip(a);
    DecimalRoundTrip(b);
  }

  lemma {:induction false} ParseDigitsPositive(s: string)
    requires IsNumeral(s) && s[0] != '0'
    ensures ParseDigits(s) >= 1
  {
    if |s| > 1 {
      var init := s[..|s| - 1];
      assert init[0] == s[0];
      ParseDigitsPositive(init);
    }
  }

  lemma {:induction false} NumeralRoundTrip(s: string)
    requires IsNumeral(s)
    ensures ParseDigits(s) >= 0
    ensures Digits(ParseDigits(s)) == s
  {
    var init := s[..|s| - 1];
    var d := DigitValue(s[|s| - 1]);
    if |s| == 1 {
      assert init == [];
    } else {
      assert init[0] == s[0];
      NumeralRoundTrip(init);
      ParseDigitsPositive(init);
      var n := ParseDigits(s);
      assert n / 10 == ParseDigits(init) && n % 10 == d;
      assert s == init + [s[|s| - 1]];
    }
  }

  /** Every string String.valueOf(int) can produce is the decimal string of the integer it denotes. */
  lemma CanonicalRoundTrip(s: string)
    requires IsCanonical(s)
    ensures DecimalString(ParseDecimal(s)) == s
  {
    if |s| >= 1 && s[0] == '-' {
      var t := s[1..];
      NumeralRoundTrip(t);
      ParseDigitsPositive(t);
      assert s == "-" + t;
    } else {
      NumeralRoundTrip(s);
    }
  }
}
