/**
 * Decimal digit strings: Python's `str(n)` for a non-negative integer and the
 * value of a string of ASCII digits, with the two round trips between them.
 */
module Decimal {

  predicate IsDigit(c: char) {
    '0' <= c <= '9'
  }

  predicate AllDigits(s: string) {
    forall i :: 0 <= i < |s| ==> IsDigit(s[i])
  }

  /** A digit string as `str(n)` writes it: non-empty, no leading zero unless it is "0". */
  predicate Canonical(s: string) {
    |s| > 0 && AllDigits(s) && (s[0] == '0' ==> |s| == 1)
  }

  function DigitChar(d: nat): (c: char)
    requires d < 10
    ensures IsDigit(c) && (c == '0' <==> d == 0)
  {
    ('0' as int + d) as char
  }

  function DigitValue(c: char): (d: nat)
    requires IsDigit(c)
    ensures d < 10 && DigitChar(d) == c
  {
    c as int - '0' as int
  }

  function Pow10(k: nat): (p: nat)
    ensures p >= 1
  {
    if k == 0 then 1 else 10 * Pow10(k - 1)
  }

  /** `str(n)` for `n >= 0`. */
  function NatToString(n: nat): (s: string)
    ensures Canonical(s)
    ensures s[0] == '0' <==> n == 0
  {
    if n < 10 then [DigitChar(n)] else NatToString(n / 10) + [DigitChar(n % 10)]
  }

  /** The value of a string of decimal digits, most significant first ("" has value 0). */
  function Value(s: string): nat
    requires AllDigits(s)
  {
    if s == [] then 0 else Value(s[..|s| - 1]) * 10 + DigitValue(s[|s| - 1])
  }

  lemma {:induction false} ValueOfNatToString(n: nat)
    ensures Value(NatToString(n)) == n
  {
    if n >= 10 {
      var s := NatToString(n);
      assert s[..|s| - 1] == NatToString(n / 10);
      ValueOfNatToString(n / 10);
    }
  }

  lemma {:induction false} ValueBound(s: string)
    requires AllDigits(s)
    ensures Value(s) < Pow10(|s|)
  {
    if s != [] {
      ValueBound(s[..|s| - 1]);
    }
  }

  /** A canonical string has a most significant digit that is not 0 (unless it is "0"). */
  lemma {:induction false} ValueLowerBound(s: string)
    requires Canonical(s) && |s| >= 2
    ensures Value(s) >= Pow10(|s| - 1)
  {
    var init := s[..|s| - 1];
    if |s| == 2 {
      assert init == [s[0]];
      assert DigitValue(s[0]) >= 1;
    } else {
      assert init[0] == s[0];
      ValueLowerBound(init);
    }
  }

  lemma {:induction false} NatToStringOfValue(s: string)
    requires Canonical(s)
    ensures NatToString(Value(s)) == s
  {
    var n := Value(s);
    var init := s[..|s| - 1];
    var last := s[|s| - 1];
    if |s| == 1 {
      assert init == [] && Value(init) == 0;
      assert n == DigitValue(last);
      assert s == [last];
    } else {
      ValueLowerBound(s);
      assert Canonical(init) by {
        assert init[0] == s[0];
      }
      assert n / 10 == Value(init) && n % 10 == DigitValue(last);
      NatToStringOfValue(init);
      assert s == init + [last];
    }
  }

  /** `str(n)` has at most `k` digits exactly when `n < 10^k` (for `k >= 1`: "0" has one digit). */
  lemma {:induction false} LengthOfNatToString(n: nat, k: nat)
    requires k >= 1
    ensures |NatToString(n)| <= k <==> n < Pow10(k)
  {
    var s := NatToString(n);
    ValueOfNatToString(n);
    ValueBound(s);
    if |s| <= k {
      Pow10Monotone(|s|, k);
    } else {
      ValueLowerBound(s);
      Pow10Monotone(k, |s| - 1);
    }
  }

  lemma {:induction false} Pow10Monotone(i: nat, j: nat)
    requires i <= j
    ensures Pow10(i) <= Pow10(j)
  {
    if i < j {
      Pow10Monotone(i, j - 1);
    }
  }

  lemma NatToStringInjective(a: nat, b: nat)
    requires NatToString(a) == NatToString(b)
    ensures a == b
  {
    ValueOfNatToString(a);
    ValueOfNatToString(b);
  }
}
