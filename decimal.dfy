/**
 * Decimal rendering of integers, as `string.Format("{0}", n)` produces it
 * for `uint` and `int` in the invariant culture, and its inverse.
 */
module Decimal {
  import opened Wrappers

  predicate IsDigit(c: char) {
    '0' <= c <= '9'
  }

  predicate AllDigits(s: string) {
    forall i :: 0 <= i < |s| ==> IsDigit(s[i])
  }

  /** A decimal numeral without superfluous leading zeros. */
  predicate Canonical(s: string) {
    s != [] && AllDigits(s) && (s[0] == '0' ==> |s| == 1)
  }

  /** The value of a digit; other characters count as 0. */
  function DigitValue(c: char): (d: nat)
    ensures d < 10
  {
    if IsDigit(c) then c as int - '0' as int else 0
  }

  function DigitChar(d: nat): (c: char)
    requires d < 10
    ensures IsDigit(c) && DigitValue(c) == d
  {
    "0123456789"[d]
  }

  lemma DigitCharValue(c: char)
    requires IsDigit(c)
    ensures DigitChar(DigitValue(c)) == c
  {
  }

  /** The decimal numeral of `n`: most significant digit first. */
  function NatToDecimal(n: nat): string {
    if n < 10 then [DigitChar(n)] else NatToDecimal(n / 10) + [DigitChar(n % 10)]
  }

  /** The numeral is made of digits and has no leading zero. */
  lemma {:induction false} NatToDecimalCanonical(n: nat)
    ensures Canonical(NatToDecimal(n))
    ensures n > 0 ==> NatToDecimal(n)[0] != '0'
  {
    if n >= 10 {
      NatToDecimalCanonical(n / 10);
    }
  }

  /** The value of a string of digits (the empty string reads as 0). */
  function DecimalToNat(s: string): nat {
    if s == [] then 0 else DecimalToNat(s[..|s| - 1]) * 10 + DigitValue(s[|s| - 1])
  }

  lemma {:induction false} DecimalToNatOfNatToDecimal(n: nat)
    ensures DecimalToNat(NatToDecimal(n)) == n
  {
    NatToDecimalCanonical(n);
    if n >= 10 {
      var s := NatToDecimal(n);
      assert s[..|s| - 1] == NatToDecimal(n / 10);
      DecimalToNatOfNatToDecimal(n / 10);
    }
  }

  /** A numeral that does not start with '0' has a positive value. */
  lemma {:induction false} LeadingDigitPositive(s: string)
    requires s != [] && AllDigits(s) && s[0] != '0'
    ensures DecimalToNat(s) > 0
  {
    if |s| > 1 {
      LeadingDigitPositive(s[..|s| - 1]);
    }
  }

  lemma {:induction false} NatToDecimalOfDecimalToNat(s: string)
    requires Canonical(s)
    ensures NatToDecimal(DecimalToNat(s)) == s
  {
    var p, c := s[..|s| - 1], s[|s| - 1];
    DigitCharValue(c);
    if p == [] {
      assert s == [c];
    } else {
      assert Canonical(p) && p[0] == s[0];
      LeadingDigitPositive(p);
      NatToDecimalOfDecimalToNat(p);
      var n := DecimalToNat(s);
      assert n / 10 == DecimalToNat(p) && n % 10 == DigitValue(c);
      assert s == p + [c];
    }
  }

  /** The numeral of an `int`: a '-' sign followed by the numeral of the magnitude. */
  function IntToDecimal(i: int): string {
    if i < 0 then "-" + NatToDecimal(-i) else NatToDecimal(i)
  }

  /** Only the first character can be other than a digit, and it is '-' exactly for negatives. */
  lemma IntToDecimalShape(i: int)
    ensures IntToDecimal(i) != [] && (IntToDecimal(i)[0] == '-' <==> i < 0)
    ensures forall k :: 0 < k < |IntToDecimal(i)| ==> IsDigit(IntToDecimal(i)[k])
    ensures IsDigit(IntToDecimal(i)[0]) || IntToDecimal(i)[0] == '-'
  {
    NatToDecimalCanonical(if i < 0 then -i else i);
  }

  /** Reads a whole string as a non-negative numeral. */
  function ParseNat(s: string): Option<nat> {
    if s != [] && AllDigits(s) then Some(DecimalToNat(s)) else None
  }

  /** Reads a whole string as an optionally negative numeral. */
  function ParseInt(s: string): Option<int> {
    if s != [] && s[0] == '-' then
      match ParseNat(s[1..])
      case Some(n) => Some(-(n as int))
      case None => None
    else
      match ParseNat(s)
      case Some(n) => Some(n)
      case None => None
  }

  lemma ParseNatOfNatToDecimal(n: nat)
    ensures ParseNat(NatToDecimal(n)) == Some(n)
  {
    NatToDecimalCanonical(n);
    DecimalToNatOfNatToDecimal(n);
  }

  /** Every canonical numeral is the rendering of the number it parses to. */
  lemma NatToDecimalOfParseNat(s: string)
    requires Canonical(s)
    ensures ParseNat(s).Some? && NatToDecimal(ParseNat(s).value) == s
  {
    NatToDecimalOfDecimalToNat(s);
  }

  lemma ParseIntOfIntToDecimal(i: int)
    ensures ParseInt(IntToDecimal(i)) == Some(i)
  {
    var s := IntToDecimal(i);
    if i < 0 {
      var m: nat := -i;
      var t := NatToDecimal(m);
      assert s == "-" + t;
      assert s != [] && s[0] == '-' && s[1..] == t;
      ParseNatOfNatToDecimal(m);
      assert ParseNat(s[1..]) == Some(m);
    } else {
      NatToDecimalCanonical(i);
      assert s[0] != '-';
      ParseNatOfNatToDecimal(i);
    }
  }
}
