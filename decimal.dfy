/**
 * Decimal text for integers: `str.isdigit` (restricted to ASCII), `int(s)` on a digit
 * string, and the `%d` conversion of Python's string formatting.
 */
module Decimal {

  predicate IsDigit(c: char) {
    '0' <= c <= '9'
  }

  /** Every character is an ASCII digit (the empty string included). */
  predicate AllDigits(s: string) {
    forall i :: 0 <= i < |s| ==> IsDigit(s[i])
  }

  /** `s.isdigit()` over ASCII: non-empty and made of digits only. */
  predicate IsDigitString(s: string) {
    |s| > 0 && AllDigits(s)
  }

  /** The form `%d` produces for a natural number: digits, no leading zero except for "0". */
  predicate Canonical(s: string) {
    IsDigitString(s) && (s[0] != '0' || s == "0")
  }

  function DigitValue(c: char): (d: nat)
    requires IsDigit(c)
    ensures d < 10
  {
    (c as int) - ('0' as int)
  }

  function DigitChar(d: nat): (c: char)
    requires d < 10
    ensures IsDigit(c) && DigitValue(c) == d
  {
    (('0' as int) + d) as char
  }

  /** 10 to the power `k`. */
  function Pow10(k: nat): (p: nat)
    ensures p >= 1
  {
    if k == 0 then 1 else 10 * Pow10(k - 1)
  }

  /** `int(s)` for a string of ASCII digits: a number below 10 to the power of its length. */
  function Parse(s: string): (r: nat)
    requires AllDigits(s)
    ensures r < Pow10(|s|)
  {
    if s == [] then 0 else Parse(s[..|s| - 1]) * 10 + DigitValue(s[|s| - 1])
  }

  /** `'%d' % n` for a natural number. */
  function FormatNat(n: nat): (r: string)
    ensures Canonical(r)
    ensures r[0] == '0' <==> n == 0
  {
    if n < 10 then [DigitChar(n)] else FormatNat(n / 10) + [DigitChar(n % 10)]
  }

  /** `'%d' % n` for any integer: a minus sign in front of a negative number. */
  function FormatInt(n: int): (r: string)
    ensures n >= 0 ==> Canonical(r)
    ensures n < 0 ==> |r| > 1 && r[0] == '-' && Canonical(r[1..])
    ensures n >= 0 ==> Parse(r) == n
    ensures n < 0 ==> Parse(r[1..]) == -n
  {
    if n < 0 then
      ParseFormatNat(-n);
      assert ("-" + FormatNat(-n))[1..] == FormatNat(-n);
      "-" + FormatNat(-n)
    else
      ParseFormatNat(n);
      FormatNat(n)
  }

  /** Reading back what `%d` wrote gives the number again. */
  lemma {:induction false} ParseFormatNat(n: nat)
    ensures Parse(FormatNat(n)) == n
  {
    if n >= 10 {
      var s := FormatNat(n);
      assert s[..|s| - 1] == FormatNat(n / 10);
      ParseFormatNat(n / 10);
    }
  }

  /** A digit string whose first digit is not zero denotes a positive number. */
  lemma {:induction false} ParsePositive(s: string)
    requires IsDigitString(s) && s[0] != '0'
    ensures Parse(s) > 0
  {
    if |s| > 1 {
      ParsePositive(s[..|s| - 1]);
    }
  }

  /** Formatting a parsed canonical digit string gives the same string back. */
  lemma {:induction false} FormatParse(s: string)
    requires Canonical(s)
    ensures FormatNat(Parse(s)) == s
  {
    if |s| > 1 {
      var t := s[..|s| - 1];
      assert Canonical(t);
      ParsePositive(t);
      FormatParse(t);
      assert s == t + [s[|s| - 1]];
    }
  }

  /** A leading zero does not change the value `int()` reads. */
  lemma {:induction false} ParseLeadingZero(s: string)
    requires AllDigits(s)
    ensures AllDigits("0" + s) && Parse("0" + s) == Parse(s)
  {
    if s != [] {
      var t := s[..|s| - 1];
      ParseLeadingZero(t);
      assert ("0" + s)[..|"0" + s| - 1] == "0" + t;
    }
  }
}
