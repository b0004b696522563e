/** Decimal text of integers, as produced by JavaScript's `String(n)` and
    template literals and as read back by `parseInt(s, 10)` on a string of
    ASCII digits. */
module Decimal {
  predicate IsDigit(c: char)
  {
    '0' <= c <= '9'
  }

  predicate AllDigits(s: string)
  {
    forall i :: 0 <= i < |s| ==> IsDigit(s[i])
  }

  /** The strings matched by the pattern `^\d+$`: one or more ASCII digits. */
  predicate IsDigitString(s: string)
  {
    |s| > 0 && AllDigits(s)
  }

  function DigitChar(d: nat): (c: char)
    requires d < 10
    ensures IsDigit(c)
  {
    ('0' as int + d) as char
  }

  function DigitValue(c: char): (d: nat)
    requires IsDigit(c)
    ensures d < 10
  {
    c as int - '0' as int
  }

  /** The base-10 value of a string of digits, most significant digit first;
      leading zeros add nothing, so "007" reads as 7. */
  function DigitsValue(s: string): nat
    requires AllDigits(s)
  {
    if s == [] then 0 else DigitsValue(s[..|s| - 1]) * 10 + DigitValue(s[|s| - 1])
  }

  /** The shortest decimal text of a natural number. */
  function NatToDecimal(n: nat): (s: string)
    ensures IsDigitString(s)
    ensures |s| > 1 ==> s[0] != '0'
  {
    if n < 10 then [DigitChar(n)] else NatToDecimal(n / 10) + [DigitChar(n % 10)]
  }

  /** The decimal text of an integer, with a leading '-' when negative. */
  function IntToDecimal(i: int): (s: string)
    ensures |s| > 0
    ensures i >= 0 <==> s[0] != '-'
  {
    if i < 0 then "-" + NatToDecimal(-i) else NatToDecimal(i)
  }

  /** Reading back the text of a number gives the number. */
  lemma {:induction false} DecimalRoundTrip(n: nat)
    ensures DigitsValue(NatToDecimal(n)) == n
  {
    if n >= 10 {
      var s := NatToDecimal(n);
      assert s[..|s| - 1] == NatToDecimal(n / 10);
      DecimalRoundTrip(n / 10);
    }
  }

  /** Different numbers have different texts, so a decimal id identifies its
      number. */
  lemma DecimalInjective(m: nat, n: nat)
    requires NatToDecimal(m) == NatToDecimal(n)
    ensures m == n
  {
    DecimalRoundTrip(m);
    DecimalRoundTrip(n);
  }

  /** A digit string with no leading zero is the text of its own value, so
      parsing then printing gives the string back. */
  lemma {:induction false} CanonicalDigitsRoundTrip(s: string)
    requires IsDigitString(s)
    requires |s| > 1 ==> s[0] != '0'
    ensures NatToDecimal(DigitsValue(s)) == s
  {
    if |s| > 1 {
      var init := s[..|s| - 1];
      var last := DigitValue(s[|s| - 1]);
      CanonicalDigitsRoundTrip(init);
      assert DigitsValue(init) > 0 by {
        PositiveLeadingDigit(init);
      }
      var v := DigitsValue(s);
      assert v == DigitsValue(init) * 10 + last;
      assert v / 10 == DigitsValue(init) && v % 10 == last;
      assert NatToDecimal(v) == NatToDecimal(DigitsValue(init)) + [DigitChar(last)];
    }
  }

  lemma {:induction false} PositiveLeadingDigit(s: string)
    requires IsDigitString(s) && s[0] != '0'
    ensures DigitsValue(s) > 0
  {
    if |s| > 1 {
      PositiveLeadingDigit(s[..|s| - 1]);
    }
  }
}
