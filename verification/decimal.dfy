/**
 * Decimal text: JavaScript's parseInt(s, 10) restricted to strings without
 * leading whitespace or sign, and the decimal rendering that a template
 * literal gives a number.
 */
module Decimal {
  import opened Wrappers

  predicate IsDigit(c: char) {
    '0' <= c <= '9'
  }

  predicate AllDigits(s: string) {
    forall i :: 0 <= i < |s| ==> IsDigit(s[i])
  }

  function DigitValue(c: char): (d: nat)
    requires IsDigit(c)
    ensures d < 10
  {
    c as int - '0' as int
  }

  function DigitChar(d: nat): (c: char)
    requires d < 10
    ensures IsDigit(c) && DigitValue(c) == d
  {
    ('0' as int + d) as char
  }

  /** The longest prefix of s made of decimal digits: the part parseInt reads. */
  function LeadingDigits(s: string): (p: string)
    ensures p <= s && AllDigits(p)
    ensures |p| < |s| ==> !IsDigit(s[|p|])
  {
    if s == [] || !IsDigit(s[0]) then [] else [s[0]] + LeadingDigits(s[1..])
  }

  /** The value of a digit string, most significant digit first. */
  function DigitsValue(s: string): nat
    requires AllDigits(s)
  {
    if s == [] then 0 else DigitsValue(s[..|s| - 1]) * 10 + DigitValue(s[|s| - 1])
  }

  /** parseInt(s, 10): None stands for NaN, the result when s does not start with a digit. */
  function ParseInt(s: string): (r: Option<nat>)
    ensures r.None? <==> s == [] || !IsDigit(s[0])
  {
    var p := LeadingDigits(s);
    if p == [] then None else Some(DigitsValue(p))
  }

  /** parseInt(s, 10) || 0: NaN (and 0) become 0, so the result is always a number. */
  function ParseIntOrZero(s: string): (n: nat)
    ensures ParseInt(s).Some? ==> n == ParseInt(s).value
    ensures ParseInt(s).None? ==> n == 0
  {
    match ParseInt(s)
    case None => 0
    case Some(v) => v
  }

  /** The decimal rendering of a natural number, without leading zeros. */
  function NatToString(n: nat): (s: string)
    ensures |s| >= 1 && AllDigits(s)
    ensures s[0] == '0' ==> n == 0
  {
    if n < 10 then [DigitChar(n)] else NatToString(n / 10) + [DigitChar(n % 10)]
  }

  /** The decimal rendering of an integer, with a leading '-' when it is negative. */
  function IntToString(i: int): (s: string)
    ensures i >= 0 ==> s == NatToString(i)
    ensures i < 0 ==> |s| >= 2 && s[0] == '-' && ParseInt(s).None?
  {
    if i < 0 then "-" + NatToString(-i) else NatToString(i)
  }

  lemma {:induction false} DigitsValueOfNatToString(n: nat)
    ensures DigitsValue(NatToString(n)) == n
  {
    if n >= 10 {
      var s := NatToString(n);
      assert s[..|s| - 1] == NatToString(n / 10);
      DigitsValueOfNatToString(n / 10);
    }
  }

  /** parseInt stops at the first character that is not a digit. */
  lemma {:induction false} LeadingDigitsOfDigitsThen(p: string, rest: string)
    requires AllDigits(p)
    requires rest == [] || !IsDigit(rest[0])
    ensures LeadingDigits(p + rest) == p
  {
    if p != [] {
      assert (p + rest)[1..] == p[1..] + rest;
      LeadingDigitsOfDigitsThen(p[1..], rest);
    }
  }

  /** Reading back a rendered number gives the number, whatever non-digit text follows it. */
  lemma ParseNatToString(n: nat, rest: string)
    requires rest == [] || !IsDigit(rest[0])
    ensures ParseInt(NatToString(n) + rest) == Some(n)
    ensures ParseIntOrZero(NatToString(n) + rest) == n
  {
    LeadingDigitsOfDigitsThen(NatToString(n), rest);
    DigitsValueOfNatToString(n);
  }

  /** A number below 100 zero-padded to two digits, as the vendor's mode and speed codes are written. */
  function ZeroPad2(n: nat): (s: string)
    requires n < 100
    ensures |s| == 2 && AllDigits(s)
    ensures ParseIntOrZero(s) == n
  {
    if n < 10 then
      var s := "0" + NatToString(n);
      assert s == ['0', DigitChar(n)] && s + [] == s;
      LeadingDigitsOfDigitsThen(s, []);
      assert DigitsValue(s[..1]) == 0;
      s
    else
      ParseNatToString(n, []);
      assert NatToString(n) + [] == NatToString(n);
      NatToString(n)
  }
}
