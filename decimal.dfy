/** Decimal text of integers, as JavaScript writes an integral number of magnitude below
    10^21 into a template literal or a string concatenation. From 10^21 on JavaScript
    switches to exponent form (`1e+21`), which this module does not produce. */
module Decimal {
  predicate IsDigit(c: char) {
    '0' <= c <= '9'
  }

  function DigitChar(d: nat): (c: char)
    requires d < 10
    ensures IsDigit(c)
    ensures c as int - '0' as int == d
  {
    ('0' as int + d) as char
  }

  /** Decimal digits of a natural number, without leading zeros. */
  function NatText(n: nat): (r: string)
    ensures |r| > 0
    ensures forall i :: 0 <= i < |r| ==> IsDigit(r[i])
    ensures |r| == 1 <==> n < 10
  {
    if n < 10 then [DigitChar(n)] else NatText(n / 10) + [DigitChar(n % 10)]
  }

  /** Decimal text of an integer: a minus sign before the digits of a negative one. */
  function IntText(n: int): (r: string)
    ensures |r| > 0
    ensures n < 0 <==> r[0] == '-'
    ensures forall i :: 0 <= i < |r| ==> r[i] != ' '
  {
    if n < 0 then "-" + NatText(-n) else NatText(n)
  }

  /** Different natural numbers have different decimal text. */
  lemma {:induction false} NatTextInjective(a: nat, b: nat)
    requires NatText(a) == NatText(b)
    ensures a == b
  {
    var t := NatText(a);
    if a < 10 {
      assert |NatText(b)| == 1;
      assert t == [DigitChar(a)] && NatText(b) == [DigitChar(b)];
    } else {
      assert b >= 10;
      assert t == NatText(a / 10) + [DigitChar(a % 10)];
      assert t == NatText(b / 10) + [DigitChar(b % 10)];
      assert NatText(a / 10) == t[..|t| - 1] == NatText(b / 10);
      assert DigitChar(a % 10) == t[|t| - 1] == DigitChar(b % 10);
      NatTextInjective(a / 10, b / 10);
    }
  }

  /** Different integers have different decimal text. */
  lemma IntTextInjective(a: int, b: int)
    requires IntText(a) == IntText(b)
    ensures a == b
  {
    if a < 0 {
      assert b < 0;
      assert NatText(-a) == IntText(a)[1..] == IntText(b)[1..] == NatText(-b);
      NatTextInjective(-a, -b);
    } else {
      assert b >= 0;
      NatTextInjective(a, b);
    }
  }
}
