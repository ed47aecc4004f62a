/**
 * The two Python number conversions the front end applies to text it reads:
 * `int(s)` on the pieces of the port field and `float(s)` on the payload of a
 * progress line, for base-10 text over ASCII.
 */
module Numbers {
  import opened Options
  import opened Decimal
  import opened Strings

  /**
   * The digits of a base-10 integer literal as `int()` accepts them: at least
   * one digit, and every underscore stands between two digits.
   */
  predicate Grouped(s: string) {
    && |s| >= 1
    && (forall i :: 0 <= i < |s| ==> IsDigit(s[i]) || s[i] == '_')
    && IsDigit(s[0])
    && IsDigit(s[|s| - 1])
    && SingleUnderscores(s)
  }

  /** No two underscores stand next to each other. */
  predicate SingleUnderscores(s: string) {
    |s| < 2 || (!(s[0] == '_' && s[1] == '_') && SingleUnderscores(s[1..]))
  }

  /** The digits of `s` with the underscores dropped. */
  function Ungrouped(s: string): (r: string)
    requires forall i :: 0 <= i < |s| ==> IsDigit(s[i]) || s[i] == '_'
    ensures AllDigits(r)
    ensures AllDigits(s) ==> r == s
  {
    if s == [] then []
    else (if s[0] == '_' then [] else [s[0]]) + Ungrouped(s[1..])
  }

  /**
   * `int(s)` for a string with no minus sign: surrounding whitespace, then an
   * optional '+', then digits grouped by single underscores. `None` stands for
   * the `ValueError` Python raises.
   */
  function ParseInt(s: string): Option<nat>
    requires '-' !in s
  {
    var t := Strip(s);
    ParseGrouped(if t != [] && t[0] == '+' then t[1..] else t)
  }

  /** The value of grouped digits, or `None`. */
  function ParseGrouped(body: string): Option<nat> {
    if Grouped(body) then Some(Value(Ungrouped(body))) else None
  }

  /** `int(str(n)) == n`. */
  lemma ParseIntOfNatToString(n: nat)
    ensures '-' !in NatToString(n) && ParseInt(NatToString(n)) == Some(n)
  {
    var s := NatToString(n);
    assert forall i :: 0 <= i < |s| ==> IsDigit(s[i]);
    StripUnchanged(s);
    DigitsGrouped(s);
    ValueOfNatToString(n);
  }

  /** A plain run of digits is grouped, and ungrouping leaves it as it is. */
  lemma DigitsGrouped(s: string)
    requires |s| >= 1 && AllDigits(s)
    ensures Grouped(s) && ParseGrouped(s) == Some(Value(s))
  {
    DigitsSingleUnderscores(s);
  }

  lemma {:induction false} DigitsSingleUnderscores(s: string)
    requires AllDigits(s)
    ensures SingleUnderscores(s)
  {
    if |s| >= 2 {
      DigitsSingleUnderscores(s[1..]);
    }
  }

  // ---------------------------------------------------------------------------
  // float()

  /** A run of digits: `AllDigits` and non-empty. */
  predicate Digits(s: string) {
    |s| >= 1 && AllDigits(s)
  }

  /** `10^k` as a real. */
  function Scale(k: int): (r: real)
    ensures r > 0.0
    decreases if k < 0 then -k else k
  {
    if k == 0 then 1.0 else if k > 0 then 10.0 * Scale(k - 1) else Scale(k + 1) / 10.0
  }

  /** The value of an optional sign followed by a run of digits (an exponent), or `None`. */
  function ParseExponent(s: string): Option<int> {
    if s != [] && (s[0] == '+' || s[0] == '-') then
      if Digits(s[1..]) then
        var magnitude: int := Value(s[1..]);
        Some(if s[0] == '-' then -magnitude else magnitude)
      else None
    else if Digits(s) then Some(Value(s))
    else None
  }

  /**
   * The value of an unsigned decimal: digits, optionally a point and more
   * digits (at least one digit in all), optionally `e` or `E` and an exponent.
   */
  function ParseUnsignedDecimal(s: string): Option<real> {
    var mantissaEnd := FirstOf(s, 'e', 'E');
    var mantissa := s[..mantissaEnd];
    var exponent := if mantissaEnd < |s| then ParseExponent(s[mantissaEnd + 1..]) else Some(0);
    var parts := Split(mantissa, '.');
    if exponent.None? || |parts| > 2 then None
    else
      var whole := parts[0];
      var fraction := if |parts| == 2 then parts[1] else "";
      if AllDigits(whole) && AllDigits(fraction) && |whole| + |fraction| >= 1 then
        Some((Value(whole + fraction) as real) / Scale(|fraction|) * Scale(exponent.value))
      else None
  }

  /** The index of the first occurrence of `a` or `b` in `s`, or `|s|`. */
  function FirstOf(s: string, a: char, b: char): (k: nat)
    ensures k <= |s|
    ensures forall i :: 0 <= i < k ==> s[i] != a && s[i] != b
    ensures k < |s| ==> s[k] == a || s[k] == b
  {
    if s == [] || s[0] == a || s[0] == b then 0 else 1 + FirstOf(s[1..], a, b)
  }

  /**
   * `float(s)` for finite decimal text: surrounding whitespace, an optional
   * sign, then an unsigned decimal. `None` stands for the `ValueError`.
   */
  function ParseFloat(s: string): Option<real> {
    var t := Strip(s);
    if t != [] && (t[0] == '+' || t[0] == '-') then
      match ParseUnsignedDecimal(t[1..])
      case Some(v) => Some(if t[0] == '-' then -v else v)
      case None => None
    else ParseUnsignedDecimal(t)
  }

  /**
   * `float(str(n) + ".0") == n`. Below `10^16` this is how Python writes a
   * whole-valued float; from `10^16` on it writes an exponent (`1e+16`).
   */
  lemma ParseFloatOfWhole(n: nat)
    ensures ParseFloat(NatToString(n) + ".0") == Some(n as real)
  {
    var w := NatToString(n);
    var s := w + "." + "0";
    assert s[0] == w[0] && s[|s| - 1] == '0';
    UnsignedFloat(s);
    PointDecimal(w, "0");
    TrailingZero(w);
    ValueOfNatToString(n);
    assert w + ".0" == s;
  }

  /** A zero after the point does not change the value. */
  lemma TrailingZero(w: string)
    requires AllDigits(w)
    ensures (Value(w + "0") as real) / Scale(1) == Value(w) as real
  {
    assert (w + "0")[..|w|] == w;
    assert Value(w + "0") == Value(w) * 10;
    assert Scale(1) == 10.0;
  }

  /** Text that starts with a digit and does not end in whitespace is read as an unsigned decimal. */
  lemma UnsignedFloat(s: string)
    requires s != [] && IsDigit(s[0]) && !IsSpace(s[|s| - 1])
    ensures ParseFloat(s) == ParseUnsignedDecimal(s)
  {
    StripUnchanged(s);
  }

  /**
   * Digits, a point and digits (at least one digit in all) are read as the
   * digits together, scaled down by the number of digits after the point.
   */
  lemma PointDecimal(whole: string, fraction: string)
    requires AllDigits(whole) && AllDigits(fraction) && |whole| + |fraction| >= 1
    ensures ParseUnsignedDecimal(whole + "." + fraction)
         == Some((Value(whole + fraction) as real) / Scale(|fraction|))
  {
    var s := whole + "." + fraction;
    PointNoExponent(whole, fraction);
    assert '.' !in whole && '.' !in fraction by {
      assert forall c :: c in whole ==> IsDigit(c);
      assert forall c :: c in fraction ==> IsDigit(c);
    }
    SplitAfterPiece(whole, '.', fraction);
    MantissaOnly(s, whole, fraction);
  }

  /** Digits, a point and digits hold no exponent marker. */
  lemma PointNoExponent(whole: string, fraction: string)
    requires AllDigits(whole) && AllDigits(fraction)
    ensures FirstOf(whole + "." + fraction, 'e', 'E') == |whole| + 1 + |fraction|
  {
    var s := whole + "." + fraction;
    forall i | 0 <= i < |s|
      ensures IsDigit(s[i]) || s[i] == '.'
    {
      if i < |whole| {
        assert s[i] == whole[i];
      } else if i > |whole| {
        assert s[i] == fraction[i - |whole| - 1];
      }
    }
    FirstOfDigits(s);
  }

  /** Text with no exponent marker that splits at its one point into two digit runs. */
  lemma MantissaOnly(s: string, whole: string, fraction: string)
    requires AllDigits(whole) && AllDigits(fraction) && |whole| + |fraction| >= 1
    requires FirstOf(s, 'e', 'E') == |s| && Split(s, '.') == [whole, fraction]
    ensures ParseUnsignedDecimal(s) == Some((Value(whole + fraction) as real) / Scale(|fraction|))
  {
    assert s[..|s|] == s;
    assert Scale(0) == 1.0;
  }

  /** Text made of digits and points has no exponent marker. */
  lemma FirstOfDigits(s: string)
    requires forall i :: 0 <= i < |s| ==> IsDigit(s[i]) || s[i] == '.'
    ensures FirstOf(s, 'e', 'E') == |s|
  {
  }
}
