/** How JavaScript renders an integral number inside a template literal
    (`${n}`): optional minus sign, then decimal digits without leading zeros;
    and a reader for that text, so that rendering can be shown lossless. */
module Decimal {
  import opened Wrappers

  predicate IsDigit(c: char) {
    '0' <= c <= '9'
  }

  function DigitChar(d: nat): (c: char)
    requires d < 10
    ensures IsDigit(c)
  {
    ['0', '1', '2', '3', '4', '5', '6', '7', '8', '9'][d]
  }

  function DigitValue(c: char): (d: nat)
    requires IsDigit(c)
    ensures d < 10 && DigitChar(d) == c
  {
    (c as int - '0' as int) as nat
  }

  /** The decimal digits of `n`, most significant first. */
  function NatToDigits(n: nat): (s: string)
    ensures s != [] && forall i :: 0 <= i < |s| ==> IsDigit(s[i])
  {
    if n < 10 then [DigitChar(n)] else NatToDigits(n / 10) + [DigitChar(n % 10)]
  }

  /** JavaScript's rendering of an integral number whose magnitude is below
      10^21; larger numbers switch to exponent form, which is not modelled. */
  function NumberToString(n: int): string {
    if n < 0 then "-" + NatToDigits(-n) else NatToDigits(n)
  }

  /** The value of a string of digits. */
  function DigitsValue(s: string): nat
    requires forall i :: 0 <= i < |s| ==> IsDigit(s[i])
  {
    if s == [] then 0 else DigitsValue(s[..|s| - 1]) * 10 + DigitValue(s[|s| - 1])
  }

  lemma {:induction false} DigitsRoundTrip(n: nat)
    ensures DigitsValue(NatToDigits(n)) == n
  {
    if n >= 10 {
      var s := NatToDigits(n);
      assert s[..|s| - 1] == NatToDigits(n / 10);
      DigitsRoundTrip(n / 10);
    }
  }

  /** How many digits `s` starts with. */
  function LeadingDigits(s: string): (k: nat)
    ensures k <= |s|
    ensures forall i :: 0 <= i < k ==> IsDigit(s[i])
    ensures k == |s| || !IsDigit(s[k])
  {
    if s != [] && IsDigit(s[0]) then 1 + LeadingDigits(s[1..]) else 0
  }

  /** Reads a run of at least one digit at the front of `s`, returning its
      value and the rest of `s`. */
  function ReadDigits(s: string): Option<(nat, string)> {
    var k := LeadingDigits(s);
    if k == 0 then None else Some((DigitsValue(s[..k]), s[k..]))
  }

  /** Reads an optionally signed run of digits at the front of `s`. */
  function ReadNumber(s: string): Option<(int, string)> {
    if s != [] && s[0] == '-' then
      match ReadDigits(s[1..])
      case Some((v, rest)) => Some((-(v as int), rest))
      case None => None
    else
      match ReadDigits(s)
      case Some((v, rest)) => Some((v, rest))
      case None => None
  }

  lemma {:induction false} LeadingDigitsOfDigits(d: string, rest: string)
    requires forall i :: 0 <= i < |d| ==> IsDigit(d[i])
    requires rest == [] || !IsDigit(rest[0])
    ensures LeadingDigits(d + rest) == |d|
  {
    if d != [] {
      assert (d + rest)[1..] == d[1..] + rest;
      LeadingDigitsOfDigits(d[1..], rest);
    }
  }

  /** Reading back a rendered number, followed by anything that does not start
      with a digit, yields the number and exactly that remainder. */
  lemma ReadNumberRoundTrip(n: int, rest: string)
    requires rest == [] || !IsDigit(rest[0])
    ensures ReadNumber(NumberToString(n) + rest) == Some((n, rest))
  {
    if n < 0 {
      ReadNegative(-n, rest);
    } else {
      ReadNonNegative(n, rest);
    }
  }

  lemma ReadNegative(m: nat, rest: string)
    requires m > 0
    requires rest == [] || !IsDigit(rest[0])
    ensures ReadNumber(NumberToString(-(m as int)) + rest) == Some((-(m as int), rest))
  {
    var d := NatToDigits(m);
    var s := NumberToString(-(m as int)) + rest;
    assert s == "-" + (d + rest);
    assert s[1..] == d + rest;
    ReadDigitsRoundTrip(m, rest);
  }

  lemma ReadNonNegative(m: nat, rest: string)
    requires rest == [] || !IsDigit(rest[0])
    ensures ReadNumber(NumberToString(m) + rest) == Some((m, rest))
  {
    var s := NumberToString(m) + rest;
    assert IsDigit(s[0]);
    ReadDigitsRoundTrip(m, rest);
  }

  lemma ReadDigitsRoundTrip(m: nat, rest: string)
    requires rest == [] || !IsDigit(rest[0])
    ensures ReadDigits(NatToDigits(m) + rest) == Some((m, rest))
  {
    var d := NatToDigits(m);
    var body := d + rest;
    LeadingDigitsOfDigits(d, rest);
    assert body[..|d|] == d && body[|d|..] == rest;
    DigitsRoundTrip(m);
  }
}
