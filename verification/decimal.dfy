/**
  Decimal rendering of the signed 16-bit value handed to IntToStr when a
  "Duty Cycle: ...%" status line is built. The library routine itself is
  not part of this model; this module gives the plain decimal text it
  stands for (a leading '-' for negative values, no padding) together with
  a parser, and proves the two are inverse to each other.
*/
module Decimal {

  predicate IsDigit(c: char) {
    '0' <= c <= '9'
  }

  predicate AllDigits(s: string) {
    forall i :: 0 <= i < |s| ==> IsDigit(s[i])
  }

  /** Canonical decimal text of a natural number: digits only, no leading zero. */
  predicate Canonical(s: string) {
    |s| > 0 && AllDigits(s) && (s[0] == '0' ==> |s| == 1)
  }

  function DigitValue(c: char): (d: nat)
    requires IsDigit(c)
    ensures d < 10
  {
    c as int - '0' as int
  }

  function DigitChar(d: nat): (c: char)
    requires d < 10
    ensures IsDigit(c) && DigitValue(c) == d
  {
    ('0' as int + d) as char
  }

  /** The decimal digits of n, most significant first. */
  function NatToDecimal(n: nat): (r: string)
    ensures Canonical(r)
    ensures r[0] == '0' <==> n == 0
    decreases n
  {
    if n < 10 then [DigitChar(n)] else NatToDecimal(n / 10) + [DigitChar(n % 10)]
  }

  /** The value of a string of decimal digits (the empty string reads as 0). */
  function ParseNat(s: string): nat
    requires AllDigits(s)
    decreases |s|
  {
    if s == [] then 0 else 10 * ParseNat(s[..|s| - 1]) + DigitValue(s[|s| - 1])
  }

  /** Decimal text of a signed value: '-' followed by the magnitude's digits when negative. */
  function IntToDecimal(n: int): (r: string)
    ensures |r| > 0
    ensures r[0] == '-' <==> n < 0
    ensures n < 0 ==> Canonical(r[1..])
    ensures n >= 0 ==> Canonical(r)
  {
    if n < 0 then "-" + NatToDecimal(-n) else NatToDecimal(n)
  }

  /** Text accepted by ParseInt: a canonical magnitude, optionally preceded by '-'. */
  predicate SignedCanonical(s: string) {
    |s| > 0 && if s[0] == '-' then Canonical(s[1..]) && s[1..] != "0" else Canonical(s)
  }

  function ParseInt(s: string): int
    requires SignedCanonical(s)
  {
    if s[0] == '-' then -(ParseNat(s[1..]) as int) else ParseNat(s)
  }

  lemma {:induction false} ParseNatToDecimal(n: nat)
    ensures ParseNat(NatToDecimal(n)) == n
    decreases n
  {
    if n >= 10 {
      var r := NatToDecimal(n);
      assert r[..|r| - 1] == NatToDecimal(n / 10);
      ParseNatToDecimal(n / 10);
    }
  }

  /** A canonical string with a non-zero leading digit denotes a positive number. */
  lemma {:induction false} ParseNatPositive(s: string)
    requires |s| > 0 && AllDigits(s) && s[0] != '0'
    ensures ParseNat(s) > 0
    decreases |s|
  {
    if |s| > 1 {
      ParseNatPositive(s[..|s| - 1]);
    }
  }

  lemma {:induction false} NatToDecimalParse(s: string)
    requires Canonical(s)
    ensures NatToDecimal(ParseNat(s)) == s
    decreases |s|
  {
    if |s| > 1 {
      var init, last := s[..|s| - 1], s[|s| - 1];
      assert Canonical(init);
      ParseNatPositive(init);
      NatToDecimalParse(init);
      var q, d := ParseNat(init), DigitValue(last);
      assert ParseNat(s) == 10 * q + d;
      assert (10 * q + d) / 10 == q && (10 * q + d) % 10 == d;
      assert DigitChar(d) == last;
      assert s == init + [last];
    }
  }

  /** Formatting then parsing gives the number back. */
  lemma ParseIntToDecimal(n: int)
    ensures SignedCanonical(IntToDecimal(n))
    ensures ParseInt(IntToDecimal(n)) == n
  {
    var r := IntToDecimal(n);
    if n < 0 {
      assert r[1..] == NatToDecimal(-n);
      ParseNatToDecimal(-n);
    } else {
      ParseNatToDecimal(n);
    }
  }

  /** Parsing then formatting gives the text back: the rendering is one-to-one. */
  lemma IntToDecimalParse(s: string)
    requires SignedCanonical(s)
    ensures IntToDecimal(ParseInt(s)) == s
  {
    if s[0] == '-' {
      NatToDecimalParse(s[1..]);
      assert s == "-" + s[1..];
    } else {
      NatToDecimalParse(s);
    }
  }
}
