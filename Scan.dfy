/**
 * Decimal integers as JavaScript prints a Number that holds an integer
 * (`${n}` in a template literal, `JSON.stringify(n)`), a parser for them,
 * and matching of literal text. Parsers return the value and the rest of
 * the input.
 */
module Scan {
  import opened Wrappers

  predicate IsDigit(c: char) { '0' <= c <= '9' }

  function DigitChar(d: nat): (c: char)
    requires d < 10
    ensures IsDigit(c) && DigitValue(c) == d
  {
    ('0' as int + d) as char
  }

  function DigitValue(c: char): nat
    requires IsDigit(c)
  {
    c as int - '0' as int
  }

  /** The decimal digits of `n`, most significant first, with no leading zero. */
  function NatToDigits(n: nat): (s: string)
    ensures |s| > 0
    ensures forall i :: 0 <= i < |s| ==> IsDigit(s[i])
    ensures |s| > 1 ==> s[0] != '0'
    decreases n
  {
    if n < 10 then [DigitChar(n)] else NatToDigits(n / 10) + [DigitChar(n % 10)]
  }

  /** The decimal text of `i`: a minus sign exactly for negatives, then only digits. */
  function IntToString(i: int): (r: string)
    ensures |r| > 0 && (r[0] == '-' <==> i < 0)
    ensures forall k :: (if i < 0 then 1 else 0) <= k < |r| ==> IsDigit(r[k])
  {
    if i < 0 then "-" + NatToDigits(-i) else NatToDigits(i)
  }

  /** The value of a string of decimal digits, read most significant first. */
  function DigitsValue(ds: string): nat
    requires forall i :: 0 <= i < |ds| ==> IsDigit(ds[i])
  {
    if |ds| == 0 then 0 else DigitsValue(ds[..|ds| - 1]) * 10 + DigitValue(ds[|ds| - 1])
  }

  /** The length of the longest prefix of `s` made of decimal digits. */
  function DigitSpan(s: string): (k: nat)
    ensures k <= |s|
    ensures forall i :: 0 <= i < k ==> IsDigit(s[i])
    ensures k < |s| ==> !IsDigit(s[k])
  {
    if |s| == 0 || !IsDigit(s[0]) then 0 else 1 + DigitSpan(s[1..])
  }

  /**
   * Reads an unsigned JSON integer: one or more digits, no leading zero
   * unless the integer is `0` itself.
   */
  function ParseNat(s: string): (r: Option<(nat, string)>)
    ensures r.Some? ==> |r.value.1| < |s|
  {
    var k := DigitSpan(s);
    if k == 0 || (k > 1 && s[0] == '0') then None
    else Some((DigitsValue(s[..k]), s[k..]))
  }

  /** Reads an optionally negative JSON integer. */
  function ParseInt(s: string): (r: Option<(int, string)>)
    ensures r.Some? ==> |r.value.1| < |s|
  {
    if |s| > 0 && s[0] == '-' then
      match ParseNat(s[1..])
      case None => None
      case Some((n, rest)) => var m: int := n; Some((-m, rest))
    else
      match ParseNat(s)
      case None => None
      case Some((n, rest)) => Some((n as int, rest))
  }

  /** Consumes the literal text `lit` at the front of `s`. */
  function Expect(lit: string, s: string): (r: Option<string>)
    ensures r.Some? <==> lit <= s
    ensures r.Some? ==> r.value == s[|lit|..]
  {
    if lit <= s then Some(s[|lit|..]) else None
  }

  lemma ExpectPrefix(lit: string, t: string)
    ensures Expect(lit, lit + t) == Some(t)
  {
    assert (lit + t)[|lit|..] == t;
  }

  /** A string of digits followed by a non-digit spans exactly those digits. */
  lemma {:induction false} DigitSpanOf(ds: string, rest: string)
    requires forall i :: 0 <= i < |ds| ==> IsDigit(ds[i])
    requires rest == [] || !IsDigit(rest[0])
    ensures DigitSpan(ds + rest) == |ds|
  {
    if |ds| > 0 {
      assert (ds + rest)[1..] == ds[1..] + rest;
      DigitSpanOf(ds[1..], rest);
    }
  }

  lemma {:induction false} DigitsValueOf(n: nat)
    ensures DigitsValue(NatToDigits(n)) == n
    decreases n
  {
    if n >= 10 {
      var s := NatToDigits(n);
      assert s[..|s| - 1] == NatToDigits(n / 10);
      DigitsValueOf(n / 10);
    }
  }

  /** Printing a natural number and reading it back gives the number and the rest. */
  lemma NatRoundTrip(n: nat, rest: string)
    requires rest == [] || !IsDigit(rest[0])
    ensures ParseNat(NatToDigits(n) + rest) == Some((n, rest))
  {
    var ds := NatToDigits(n);
    DigitSpanOf(ds, rest);
    assert (ds + rest)[..|ds|] == ds;
    assert (ds + rest)[|ds|..] == rest;
    DigitsValueOf(n);
  }

  /** Printing an integer and reading it back gives the integer and the rest. */
  lemma ParseIntMinus(t: string, n: nat, rest: string)
    requires ParseNat(t) == Some((n, rest))
    ensures ParseInt("-" + t) == Some((-(n as int), rest))
  {
    assert ("-" + t)[1..] == t;
  }

  lemma ParseIntDigits(t: string, n: nat, rest: string)
    requires ParseNat(t) == Some((n, rest))
    ensures ParseInt(t) == Some((n, rest))
  {
  }

  /** Printing an integer and reading it back gives the integer and the rest. */
  lemma IntRoundTrip(i: int, rest: string)
    requires rest == [] || !IsDigit(rest[0])
    ensures ParseInt(IntToString(i) + rest) == Some((i, rest))
  {
    if i < 0 {
      var t := NatToDigits(-i) + rest;
      NatRoundTrip(-i, rest);
      ParseIntMinus(t, -i, rest);
      assert IntToString(i) + rest == "-" + t;
    } else {
      NatRoundTrip(i, rest);
      ParseIntDigits(NatToDigits(i) + rest, i, rest);
    }
  }
}
