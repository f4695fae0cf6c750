/**
 * The fixed-point decimal carried in every price, quantity and rate: an integer mantissa and
 * a scale, the number of fractional digits as written. `0.0001` is (1, 4) and `0.0100` is
 * (100, 4), so two decimals with the same value may differ in scale. `ToString` is the
 * textual form the decimal is displayed and serialised in; `Parse` reads the plain
 * `[-]digits[.digits]` form back.
 */
module Decimals {
  import opened Wrappers
  import opened Text

  datatype Decimal = Decimal(mantissa: int, scale: nat)

  function Pow10(n: nat): (r: nat)
    ensures r >= 1
  {
    if n == 0 then 1 else 10 * Pow10(n - 1)
  }

  function Abs(x: int): nat {
    if x < 0 then -x else x
  }

  /** The last `w` digits of `n`, with leading zeros. */
  function PadDigits(n: nat, w: nat): (s: string)
    ensures |s| == w && AllDigits(s)
  {
    if w == 0 then "" else PadDigits(n / 10, w - 1) + [DigitChar(n % 10)]
  }

  /** The number of characters after the first '.', or 0 when there is none. */
  function FractionDigits(s: string): nat {
    var i := IndexOf(s, '.');
    if i < |s| then |s| - i - 1 else 0
  }

  /**
   * The text of a magnitude `n` at scale `scale`: the integer part, then '.' and exactly
   * `scale` digits. Built one trailing digit at a time, so only division by ten is involved.
   */
  function Unsigned(n: nat, scale: nat): (s: string)
    ensures s != [] && IsDigit(s[0])
  {
    if scale == 0 then NatToString(n)
    else if scale == 1 then NatToString(n / 10) + "." + [DigitChar(n % 10)]
    else Unsigned(n / 10, scale - 1) + [DigitChar(n % 10)]
  }

  lemma ModBelow(n: nat, p: nat)
    requires p >= 1
    ensures 0 <= n % p < p && n / p >= 0
    ensures (n / p) * p + n % p == n
  {
  }

  /**
   * The display form: an optional '-', the integer part without leading zeros, and when the
   * scale is positive a '.' followed by exactly `scale` digits (trailing zeros kept).
   */
  function ToString(d: Decimal): string
  {
    var sign := if d.mantissa < 0 then "-" else "";
    sign + Unsigned(Abs(d.mantissa), d.scale)
  }

  /** The text carries exactly `scale` fractional digits, whatever the value. */
  lemma ToStringFractionDigits(d: Decimal)
    ensures FractionDigits(ToString(d)) == d.scale
  {
    var sign := if d.mantissa < 0 then "-" else "";
    UnsignedFractionDigits(sign, Abs(d.mantissa), d.scale);
  }

  lemma DigitsAppend(a: string, b: string)
    requires AllDigits(a) && AllDigits(b)
    ensures AllDigits(a + b)
  {
    assert forall i :: 0 <= i < |a + b| ==> (a + b)[i] == if i < |a| then a[i] else b[i - |a|];
  }

  /** Reads `digits[.digits]` into a magnitude and a scale. */
  function ParseUnsigned(body: string): (r: Option<(nat, nat)>)
    ensures r.Some? ==> r.value.1 == FractionDigits(body)
  {
    var i := IndexOf(body, '.');
    var whole := body[..i];
    var frac := if i < |body| then body[i + 1..] else "";
    if whole == [] || !AllDigits(whole) || (i < |body| && (frac == [] || !AllDigits(frac))) then
      None
    else
      DigitsAppend(whole, frac);
      Some((DigitsValue(whole + frac), |frac|))
  }

  /**
   * Reads `[-]digits[.digits]`; the scale is the number of digits after the point.
   * Anything else is an invalid decimal.
   */
  function Parse(s: string): (r: Option<Decimal>)
    ensures r.Some? ==> r.value.scale == FractionDigits(s)
  {
    if s != [] && s[0] == '-' then
      FractionDigitsSign(s);
      match ParseUnsigned(s[1..])
      case Some((m, k)) => Some(Decimal(-(m as int), k))
      case None => None
    else
      match ParseUnsigned(s)
      case Some((m, k)) => Some(Decimal(m, k))
      case None => None
  }

  /** Numeric equality, which ignores the scale: 0.01 and 0.0100 are the same value. */
  predicate SameValue(a: Decimal, b: Decimal) {
    a.mantissa * Pow10(b.scale) == b.mantissa * Pow10(a.scale)
  }

  lemma IndexOfAbsent(s: string, c: char)
    requires c !in s
    ensures IndexOf(s, c) == |s|
  {
  }

  lemma FractionDigitsAfter(w: string, f: string)
    requires '.' !in w
    ensures FractionDigits(w + "." + f) == |f|
  {
    IndexOfAfter(w, '.', f);
  }

  /** Division with remainder has one answer. */
  lemma DivModUnique(n: nat, d: nat, q: nat, r: nat)
    requires d >= 1 && r < d && n == q * d + r
    ensures n / d == q && n % d == r
  {
    ModBelow(n, d);
    var q', r' := n / d, n % d;
    if q' < q {
      MulLe(q' + 1, q, d);
      assert false;
    } else if q' > q {
      MulLe(q + 1, q', d);
      assert false;
    }
  }

  lemma MulLe(a: nat, b: nat, d: nat)
    requires a <= b
    ensures a * d + (b - a) * d == b * d && a * d <= b * d
  {
  }

  /** Peels the last digit off a division by `10 * p`. */
  lemma DivModTen(n: nat, p: nat)
    requires p >= 1
    ensures n / (10 * p) == (n / 10) / p
    ensures n % (10 * p) == 10 * ((n / 10) % p) + n % 10
  {
    var q, r0 := n / 10, n % 10;
    ModBelow(n, 10);
    ModBelow(q, p);
    var hi, lo := q / p, q % p;
    assert n == hi * (10 * p) + (10 * lo + r0) by {
      assert n == 10 * q + r0;
      assert q == hi * p + lo;
    }
    DivModUnique(n, 10 * p, hi, 10 * lo + r0);
  }

  /** The integer part of the magnitude `n` at scale `scale`. */
  function IntPart(n: nat, scale: nat): nat {
    var p := Pow10(scale);
    ModBelow(n, p);
    n / p
  }

  /** The fractional digits of the magnitude `n` at scale `scale`, as a number. */
  function FracPart(n: nat, scale: nat): nat {
    var p := Pow10(scale);
    ModBelow(n, p);
    n % p
  }

  /** The digit-by-digit text is the integer part, '.', and the remainder padded to `scale` digits. */
  lemma {:induction false} UnsignedSplit(n: nat, scale: nat)
    requires scale >= 1
    ensures Unsigned(n, scale) == NatToString(IntPart(n, scale)) + "." + PadDigits(FracPart(n, scale), scale)
  {
    ModBelow(n, Pow10(scale));
    if scale == 1 {
      assert Pow10(1) == 10;
      assert PadDigits(n % 10, 1) == [DigitChar(n % 10)] by {
        assert (n % 10) / 10 == 0;
        assert (n % 10) % 10 == n % 10;
      }
    } else {
      var p := Pow10(scale - 1);
      UnsignedSplit(n / 10, scale - 1);
      DivModTen(n, p);
      var r := n % Pow10(scale);
      assert r / 10 == (n / 10) % p && r % 10 == n % 10 by {
        ModBelow(n / 10, p);
        DivModUnique(r, 10, (n / 10) % p, n % 10);
      }
      assert PadDigits(r, scale) == PadDigits((n / 10) % p, scale - 1) + [DigitChar(n % 10)];
    }
  }

  lemma UnsignedFractionDigits(sign: string, n: nat, scale: nat)
    requires sign == "" || sign == "-"
    ensures FractionDigits(sign + Unsigned(n, scale)) == scale
  {
    if scale == 0 {
      DigitsHaveNo(NatToString(n), '.');
      IndexOfAbsent(sign + NatToString(n), '.');
    } else {
      var p := Pow10(scale);
      ModBelow(n, p);
      UnsignedSplit(n, scale);
      var whole := sign + NatToString(n / p);
      var frac := PadDigits(n % p, scale);
      DigitsHaveNo(NatToString(n / p), '.');
      assert sign + Unsigned(n, scale) == whole + "." + frac;
      FractionDigitsAfter(whole, frac);
    }
  }

  lemma FractionDigitsSign(s: string)
    requires s != [] && s[0] == '-'
    ensures FractionDigits(s) == FractionDigits(s[1..])
  {
    var t := s[1..];
    var i := IndexOf(t, '.');
    if i < |t| {
      var w, f := t[..i], t[i + 1..];
      assert t == w + "." + f;
      assert s == ("-" + w) + "." + f;
      PointParts(w, f);
      PointParts("-" + w, f);
    } else {
      assert '.' !in s;
      IndexOfAbsent(s, '.');
    }
  }

  lemma {:induction false} PadDigitsValue(n: nat, w: nat)
    requires n < Pow10(w)
    ensures DigitsValue(PadDigits(n, w)) == n
  {
    if w > 0 {
      PadDigitsValue(n / 10, w - 1);
      DigitsValueSnoc(PadDigits(n / 10, w - 1), DigitChar(n % 10));
    }
  }

  lemma ParseUnsignedPlain(w: string)
    requires w != [] && AllDigits(w)
    ensures ParseUnsigned(w) == Some((DigitsValue(w), 0))
  {
    DigitsHaveNo(w, '.');
    IndexOfAbsent(w, '.');
    assert w[..|w|] == w;
    assert w[..|w|] + "" == w;
  }

  /** The parts on either side of the first point. */
  lemma PointParts(w: string, f: string)
    requires '.' !in w
    ensures var body, i := w + "." + f, IndexOf(w + "." + f, '.');
      i == |w| && i < |body| && body[..i] == w && body[i + 1..] == f
  {
    IndexOfAfter(w, '.', f);
    var body := w + "." + f;
    assert body[..|w|] == w;
    assert body[|w| + 1..] == f;
  }

  lemma ParseUnsignedPoint(w: string, f: string)
    requires w != [] && AllDigits(w) && f != [] && AllDigits(f)
    ensures AllDigits(w + f) && ParseUnsigned(w + "." + f) == Some((DigitsValue(w + f), |f|))
  {
    DigitsHaveNo(w, '.');
    PointParts(w, f);
  }

  /** The value of two digit strings written one after the other. */
  lemma {:induction false} DigitsValueAppend(a: string, b: string)
    requires AllDigits(a) && AllDigits(b)
    ensures AllDigits(a + b) && DigitsValue(a + b) == DigitsValue(a) * Pow10(|b|) + DigitsValue(b)
  {
    if b == [] {
      assert a + b == a;
    } else {
      var b', c := b[..|b| - 1], b[|b| - 1];
      assert b == b' + [c];
      assert a + b == (a + b') + [c];
      DigitsValueAppend(a, b');
      DigitsValueSnoc(a + b', c);
      DigitsValueSnoc(b', c);
      ShiftDigit(DigitsValue(a), Pow10(|b'|), DigitsValue(b'), DigitValue(c));
    }
  }

  lemma ShiftDigit(x: int, p: int, y: int, d: int)
    ensures (x * p + y) * 10 + d == x * (10 * p) + (y * 10 + d)
  {
  }

  lemma ParseUnsignedRoundTrip(n: nat, scale: nat)
    ensures ParseUnsigned(Unsigned(n, scale)) == Some((n, scale))
  {
    if scale == 0 {
      ParseUnsignedPlain(NatToString(n));
      NatToStringValue(n);
    } else {
      var p := Pow10(scale);
      ModBelow(n, p);
      UnsignedSplit(n, scale);
      var q, r := n / p, n % p;
      var digits, frac := NatToString(q), PadDigits(r, scale);
      ParseUnsignedPoint(digits, frac);
      NatToStringValue(q);
      PadDigitsValue(r, scale);
      DigitsValueAppend(digits, frac);
      assert DigitsValue(digits + frac) == q * p + r;
    }
  }

  lemma ParseNegative(body: string, m: nat, k: nat)
    requires ParseUnsigned(body) == Some((m, k))
    ensures Parse("-" + body) == Some(Decimal(-(m as int), k))
  {
    assert ("-" + body)[1..] == body;
  }

  lemma ParseNonNegative(body: string, m: nat, k: nat)
    requires body != [] && IsDigit(body[0]) && ParseUnsigned(body) == Some((m, k))
    ensures Parse(body) == Some(Decimal(m, k))
  {
  }

  /** `whole.frac` reads as the digits of `whole` and `frac` together, at scale `|frac|`. */
  lemma ParsePositivePoint(w: string, f: string)
    requires w != [] && AllDigits(w) && f != [] && AllDigits(f)
    ensures AllDigits(w + f) && Parse(w + "." + f) == Some(Decimal(DigitsValue(w + f), |f|))
  {
    ParseUnsignedPoint(w, f);
    ParseNonNegative(w + "." + f, DigitsValue(w + f), |f|);
  }

  /** `-whole.frac` reads as the negated digits of `whole` and `frac` together, at scale `|frac|`. */
  lemma ParseNegativePoint(w: string, f: string, s: string)
    requires w != [] && AllDigits(w) && f != [] && AllDigits(f) && s == "-" + (w + "." + f)
    ensures Parse(s) == Some(Decimal(-(DigitsValue(w + f) as int), |f|))
  {
    var body := w + "." + f;
    ParseUnsignedPoint(w, f);
    var m := DigitsValue(w + f);
    ParseNegative(body, m, |f|);
  }

  /** A leading zero does not change the value of a digit string. */
  lemma {:induction false} LeadingZero(f: string)
    requires AllDigits(f)
    ensures AllDigits("0" + f) && DigitsValue("0" + f) == DigitsValue(f)
  {
    if f == [] {
      assert "0" + f == "0";
    } else {
      var f', c := f[..|f| - 1], f[|f| - 1];
      assert f == f' + [c];
      assert "0" + f == ("0" + f') + [c];
      LeadingZero(f');
      DigitsValueSnoc("0" + f', c);
      DigitsValueSnoc(f', c);
    }
  }

  /** Displaying a decimal and reading it back gives the same mantissa and scale. */
  lemma ParseToString(d: Decimal)
    ensures Parse(ToString(d)) == Some(d)
  {
    var n := Abs(d.mantissa);
    var body := Unsigned(n, d.scale);
    ParseUnsignedRoundTrip(n, d.scale);
    if d.mantissa < 0 {
      assert ToString(d) == "-" + body;
      ParseNegative(body, n, d.scale);
    } else {
      assert ToString(d) == body;
      ParseNonNegative(body, n, d.scale);
    }
  }

  /** Reading a decimal and displaying it again keeps the number of fractional digits. */
  lemma ScalePreserved(s: string)
    requires Parse(s).Some?
    ensures FractionDigits(ToString(Parse(s).value)) == FractionDigits(s)
  {
    ToStringFractionDigits(Parse(s).value);
  }

  lemma {:induction false} UnsignedHasNo(n: nat, scale: nat, c: char)
    requires !IsDigit(c) && c != '.'
    ensures c !in Unsigned(n, scale)
  {
    if scale == 0 {
      DigitsHaveNo(NatToString(n), c);
    } else if scale == 1 {
      DigitsHaveNo(NatToString(n / 10), c);
    } else {
      UnsignedHasNo(n / 10, scale - 1, c);
    }
  }

  /** The display form holds only digits, '-' and '.', so it never contains a URL separator. */
  lemma ToStringHasNo(d: Decimal, c: char)
    requires !IsDigit(c) && c != '.' && c != '-'
    ensures c !in ToString(d)
  {
    UnsignedHasNo(Abs(d.mantissa), d.scale, c);
  }
}
