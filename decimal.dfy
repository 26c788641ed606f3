/**
 * Decimal digit strings: what `parseInt(digits, 10)` reads from a run of
 * ASCII digits, and the plain decimal text of a non-negative integer, which
 * is what `Number.prototype.toString()` writes for the limits 60 and 100.
 */
module Decimal {

  /** The characters the regular-expression class `\d` matches (ASCII only). */
  predicate IsDigit(c: char) {
    '0' <= c <= '9'
  }

  predicate AllDigits(s: string) {
    forall i :: 0 <= i < |s| ==> IsDigit(s[i])
  }

  /** A digit string as `toString()` writes it: no leading zero except "0" itself. */
  predicate Canonical(s: string) {
    |s| >= 1 && AllDigits(s) && (s[0] == '0' ==> |s| == 1)
  }

  function Pow10(k: nat): (p: nat)
    ensures p >= 1
  {
    if k == 0 then 1 else 10 * Pow10(k - 1)
  }

  function DigitValue(c: char): (d: nat)
    requires IsDigit(c)
    ensures d < 10
    ensures (d == 0) == (c == '0')
  {
    c as int - '0' as int
  }

  function DigitChar(d: nat): (c: char)
    requires d < 10
    ensures IsDigit(c) && DigitValue(c) == d
  {
    ('0' as int + d) as char
  }

  /**
   * The value `parseInt(s, 10)` gives for a string of digits, read most
   * significant digit first. The result is an unbounded natural number.
   */
  function DecimalValue(s: string): (v: nat)
    requires AllDigits(s)
    ensures v < Pow10(|s|)
  {
    if |s| == 0 then 0 else DecimalValue(s[..|s| - 1]) * 10 + DigitValue(s[|s| - 1])
  }

  /**
   * The plain decimal text of `n`; for 60 and 100, the text JavaScript's
   * `n.toString()` writes.
   */
  function NatToDecimal(n: nat): (s: string)
    ensures Canonical(s)
    ensures |s| == 1 <==> n < 10
  {
    if n < 10 then [DigitChar(n)] else NatToDecimal(n / 10) + [DigitChar(n % 10)]
  }

  /** Reading back what `toString()` wrote gives the number again. */
  lemma {:induction false} DecimalOfNatToDecimal(n: nat)
    ensures DecimalValue(NatToDecimal(n)) == n
  {
    if n >= 10 {
      var s := NatToDecimal(n);
      assert s[..|s| - 1] == NatToDecimal(n / 10);
      DecimalOfNatToDecimal(n / 10);
    }
  }

  /** A leading '0' does not change what `parseInt` reads ("0100" is 100). */
  lemma {:induction false} LeadingZeroIgnored(s: string)
    requires AllDigits(s)
    ensures AllDigits("0" + s) && DecimalValue("0" + s) == DecimalValue(s)
  {
    if |s| > 0 {
      var t := "0" + s;
      assert t[..|t| - 1] == "0" + s[..|s| - 1];
      LeadingZeroIgnored(s[..|s| - 1]);
    }
  }

  /** Any number of leading zeros are ignored. */
  lemma {:induction false} LeadingZerosIgnored(z: string, s: string)
    requires forall i :: 0 <= i < |z| ==> z[i] == '0'
    requires AllDigits(s)
    ensures AllDigits(z + s) && DecimalValue(z + s) == DecimalValue(s)
  {
    if |z| > 0 {
      LeadingZerosIgnored(z[1..], s);
      assert z + s == "0" + (z[1..] + s);
      LeadingZeroIgnored(z[1..] + s);
    } else {
      assert z + s == s;
    }
  }

  /** A digit string without a leading zero is at least 10^(length - 1). */
  lemma {:induction false} CanonicalLowerBound(s: string)
    requires Canonical(s) && |s| >= 2
    ensures DecimalValue(s) >= Pow10(|s| - 1)
  {
    var p := s[..|s| - 1];
    if |s| > 2 {
      CanonicalLowerBound(p);
    } else {
      assert DecimalValue(p) == DigitValue(s[0]) >= 1;
    }
  }

  /** Writing back a canonical digit string that was read gives the same text. */
  lemma {:induction false} NatToDecimalOfDecimal(s: string)
    requires Canonical(s)
    ensures NatToDecimal(DecimalValue(s)) == s
  {
    var v := DecimalValue(s);
    if |s| == 1 {
      assert v == DigitValue(s[0]);
    } else {
      var p := s[..|s| - 1];
      CanonicalLowerBound(s);
      assert v >= 10;
      assert v / 10 == DecimalValue(p) && v % 10 == DigitValue(s[|s| - 1]);
      NatToDecimalOfDecimal(p);
      assert s == p + [s[|s| - 1]];
    }
  }
}
