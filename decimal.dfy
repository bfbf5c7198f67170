/**
 * Decimal text of integers, as a template literal renders a whole number of
 * magnitude below 10^21: digits without leading zeros, a leading '-' for
 * negatives. ParseInt is its inverse.
 */
module Decimal {

  import opened Wrappers

  predicate IsDigit(c: char)
  {
    '0' <= c <= '9'
  }

  predicate AllDigits(s: string)
  {
    forall i :: 0 <= i < |s| ==> IsDigit(s[i])
  }

  function DigitValue(c: char): (v: nat)
    requires IsDigit(c)
    ensures v < 10
  {
    c as int - '0' as int
  }

  function DigitChar(v: nat): (c: char)
    requires v < 10
    ensures IsDigit(c) && DigitValue(c) == v
  {
    "0123456789"[v]
  }

  /** Decimal digits of `n`, most significant first. */
  function NatText(n: nat): (s: string)
    ensures 1 <= |s| && AllDigits(s)
    ensures |s| == 1 <==> n < 10
    ensures s[0] == '0' <==> n == 0
  {
    if n < 10 then [DigitChar(n)] else NatText(n / 10) + [DigitChar(n % 10)]
  }

  /** Value of a string of digits, most significant first (0 for the empty string). */
  function ParseNat(s: string): nat
    requires AllDigits(s)
  {
    if s == [] then 0 else ParseNat(s[..|s| - 1]) * 10 + DigitValue(s[|s| - 1])
  }

  lemma {:induction false} ParseNatText(n: nat)
    ensures ParseNat(NatText(n)) == n
  {
    if n >= 10 {
      var s := NatText(n / 10);
      ParseNatText(n / 10);
      assert NatText(n)[..|NatText(n)| - 1] == s;
    }
  }

  /** Text of an integer: '-' followed by the digits of its magnitude when negative. */
  function IntText(n: int): (s: string)
    ensures s != [] && ',' !in s && ' ' !in s
  {
    if n < 0 then "-" + NatText(-n) else NatText(n)
  }

  function ParseInt(s: string): Option<int>
  {
    if 2 <= |s| && s[0] == '-' && AllDigits(s[1..]) then Some(0 - ParseNat(s[1..]) as int)
    else if s != [] && AllDigits(s) then Some(ParseNat(s))
    else None
  }

  lemma IntTextRoundTrip(n: int)
    ensures ParseInt(IntText(n)) == Some(n)
  {
    if n < 0 {
      ParseNatText(-n);
      SignedParse(NatText(-n), -n);
    } else {
      ParseNatText(n);
      UnsignedParse(NatText(n), n);
    }
  }

  /** A '-' in front of a non-empty digit string negates its value. */
  lemma SignedParse(t: string, m: nat)
    requires t != [] && AllDigits(t) && ParseNat(t) == m
    ensures ParseInt("-" + t) == Some(0 - m)
  {
    assert ("-" + t)[1..] == t;
  }

  /** A non-empty digit string parses as its value. */
  lemma UnsignedParse(t: string, m: nat)
    requires t != [] && AllDigits(t) && ParseNat(t) == m
    ensures ParseInt(t) == Some(m)
  {
    assert IsDigit(t[0]);
  }

  /** Distinct integers are rendered as distinct texts. */
  lemma IntTextInjective(m: int, n: int)
    ensures IntText(m) == IntText(n) <==> m == n
  {
    if IntText(m) == IntText(n) {
      IntTextRoundTrip(m);
      IntTextRoundTrip(n);
    }
  }
}
