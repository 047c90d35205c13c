/** Decimal rendering of natural numbers, as the standard integer formatting produces it. */
module Decimal {
  predicate IsDigit(c: char) {
    '0' <= c <= '9'
  }

  predicate AllDigits(s: string) {
    forall i :: 0 <= i < |s| ==> IsDigit(s[i])
  }

  /** The character of the digit d. */
  function DigitChar(d: nat): (c: char)
    requires d < 10
    ensures IsDigit(c)
    ensures c as int - '0' as int == d
  {
    ('0' as int + d) as char
  }

  /** The decimal digits of n, most significant first, without leading zeros. */
  function NatToString(n: nat): (s: string)
    ensures s != [] && AllDigits(s)
    ensures |s| == 1 <==> n < 10
  {
    if n < 10 then [DigitChar(n)] else NatToString(n / 10) + [DigitChar(n % 10)]
  }

  /** Distinct numbers have distinct decimal renderings. */
  lemma {:induction false} NatToStringInjective(a: nat, b: nat)
    requires NatToString(a) == NatToString(b)
    ensures a == b
  {
    var s := NatToString(a);
    assert s[|s| - 1] as int - '0' as int == a % 10 && s[|s| - 1] as int - '0' as int == b % 10;
    if a >= 10 && b >= 10 {
      assert NatToString(a / 10) == s[..|s| - 1] == NatToString(b / 10);
      NatToStringInjective(a / 10, b / 10);
    }
  }

  /** The length of the run of digits that starts s. */
  function LeadingDigits(s: string): nat {
    if s == [] || !IsDigit(s[0]) then 0 else 1 + LeadingDigits(s[1..])
  }

  lemma {:induction false} LeadingDigitsOfRun(d: string, x: string)
    requires AllDigits(d)
    requires x != [] && !IsDigit(x[0])
    ensures LeadingDigits(d + x) == |d|
  {
    if d != [] {
      assert (d + x)[1..] == d[1..] + x;
      LeadingDigitsOfRun(d[1..], x);
    }
  }

  /**
   * A run of digits followed by a non-digit is read back unambiguously: if
   * d1 + x1 == d2 + x2 where d1 and d2 are digits and x1, x2 start with a
   * non-digit, then d1 == d2 and x1 == x2.
   */
  lemma DigitRunDetermined(d1: string, x1: string, d2: string, x2: string)
    requires AllDigits(d1) && AllDigits(d2)
    requires x1 != [] && !IsDigit(x1[0])
    requires x2 != [] && !IsDigit(x2[0])
    requires d1 + x1 == d2 + x2
    ensures d1 == d2 && x1 == x2
  {
    LeadingDigitsOfRun(d1, x1);
    LeadingDigitsOfRun(d2, x2);
    assert d1 == (d1 + x1)[..|d1|];
    assert d2 == (d2 + x2)[..|d2|];
    assert x1 == (d1 + x1)[|d1|..];
    assert x2 == (d2 + x2)[|d2|..];
  }
}
