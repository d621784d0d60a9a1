/**
 * Decimal numerals of non-negative integers, as JavaScript writes a whole
 * number below 10^21 inside a template literal (`${port}`, `${days}`); from
 * 10^21 on JavaScript switches to exponent notation, which is not modelled.
 * Also the reading back of such a numeral.
 */
module Decimal {
  import opened Optional

  predicate IsDigit(c: char) {
    '0' <= c <= '9'
  }

  predicate AllDigits(s: string) {
    forall i :: 0 <= i < |s| ==> IsDigit(s[i])
  }

  function DigitChar(d: nat): (c: char)
    requires d < 10
    ensures IsDigit(c) && c as int - '0' as int == d
  {
    ('0' as int + d) as char
  }

  /** The shortest numeral of n: digits only, no leading zero. */
  function NatToString(n: nat): (s: string)
    ensures |s| > 0 && AllDigits(s)
    ensures s[0] == '0' <==> n == 0
    ensures n == 0 ==> s == "0"
    decreases n
  {
    if n < 10 then [DigitChar(n)] else NatToString(n / 10) + [DigitChar(n % 10)]
  }

  /** The value of a string of digits, most significant digit first. */
  function ParseNat(s: string): (n: nat)
    requires AllDigits(s)
  {
    if s == [] then 0 else ParseNat(s[..|s| - 1]) * 10 + (s[|s| - 1] as int - '0' as int)
  }

  /** The length of the longest prefix of s made of digits. */
  function LeadingDigits(s: string): (k: nat)
    ensures k <= |s|
    ensures AllDigits(s[..k])
    ensures k < |s| ==> !IsDigit(s[k])
  {
    if s == [] || !IsDigit(s[0]) then 0
    else
      var k := 1 + LeadingDigits(s[1..]);
      assert s[..k] == [s[0]] + s[1..][..k - 1];
      k
  }

  /** Reading a numeral back gives the number that was written. */
  lemma {:induction false} ParseNatToString(n: nat)
    ensures ParseNat(NatToString(n)) == n
    decreases n
  {
    if n >= 10 {
      var s := NatToString(n);
      ParseNatToString(n / 10);
      assert s[..|s| - 1] == NatToString(n / 10);
    }
  }

  /** Different numbers have different numerals. */
  lemma NatToStringInjective(a: nat, b: nat)
    requires NatToString(a) == NatToString(b)
    ensures a == b
  {
    ParseNatToString(a);
    ParseNatToString(b);
  }

  /** A digit string followed by anything that does not start with a digit
      has exactly that many leading digits. */
  lemma {:induction false} LeadingDigitsOfPrefix(d: string, rest: string)
    requires AllDigits(d)
    requires rest == [] || !IsDigit(rest[0])
    ensures LeadingDigits(d + rest) == |d|
    decreases |d|
  {
    if d != [] {
      assert (d + rest)[1..] == d[1..] + rest;
      LeadingDigitsOfPrefix(d[1..], rest);
    }
  }

  /** Reads a numeral off the front of s when `sep` follows it; gives the number and what comes after `sep`. */
  function ReadNumeral(s: string, sep: string): Option<(nat, string)> {
    var k := LeadingDigits(s);
    if k > 0 && k + |sep| <= |s| && s[k..k + |sep|] == sep then Some((ParseNat(s[..k]), s[k + |sep|..]))
    else None
  }

  /** A printed numeral followed by a separator that does not start with a digit reads back. */
  lemma ReadNumeralAfterPrint(n: nat, sep: string, rest: string)
    requires |sep| > 0 && !IsDigit(sep[0])
    ensures ReadNumeral(NatToString(n) + sep + rest, sep) == Some((n, rest))
  {
    var d := NatToString(n);
    var s := d + sep + rest;
    assert s == d + (sep + rest);
    LeadingDigitsOfPrefix(d, sep + rest);
    assert s[..|d|] == d;
    assert s[|d|..|d| + |sep|] == sep;
    assert s[|d| + |sep|..] == rest;
    ParseNatToString(n);
  }
}
