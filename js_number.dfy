/**
 * The part of ECMAScript's Number semantics that the raster transforms use:
 * division, Math.max, Math.floor, multiplication, the `<` comparison, and the
 * ToUint8Clamp conversion a Uint8ClampedArray applies to every value stored
 * into it (section 7.1.11 of ECMA-262, 6th edition).
 *
 * Finite values are exact rationals, so no IEEE-754 rounding happens; the
 * non-finite values keep their ECMAScript meaning. Signed zero is not
 * distinguished.
 */
module JsNumber {

  /** One element of a Uint8ClampedArray. */
  type Byte = x: int | 0 <= x <= 255

  datatype Num = Finite(v: real) | PosInf | NegInf | NaN

  /** The relational comparison `a < b`: false whenever either side is NaN. */
  predicate Less(a: Num, b: Num) {
    if a.NaN? || b.NaN? then false
    else if a.Finite? && b.Finite? then a.v < b.v
    else if a.NegInf? then !b.NegInf?
    else b.PosInf? && !a.PosInf?
  }

  /** Math.max(a, b): NaN if either argument is NaN, otherwise the larger one. */
  function Max(a: Num, b: Num): (r: Num)
    ensures r.NaN? <==> a.NaN? || b.NaN?
    ensures !r.NaN? ==> (r == a || r == b) && !Less(r, a) && !Less(r, b)
  {
    if a.NaN? || b.NaN? then NaN
    else if Less(a, b) then b
    else a
  }

  /** The `/` operator. */
  function Div(a: Num, b: Num): (r: Num)
    ensures a.Finite? && b.Finite? && b.v != 0.0 ==> r == Finite(a.v / b.v)
    ensures a == Finite(0.0) && b == Finite(0.0) ==> r.NaN?
    ensures a.NaN? || b.NaN? ==> r.NaN?
  {
    if a.NaN? || b.NaN? then NaN
    else if a.Finite? && b.Finite? then
      if b.v != 0.0 then Finite(a.v / b.v)
      else if a.v == 0.0 then NaN
      else if a.v > 0.0 then PosInf
      else NegInf
    else if a.Finite? then Finite(0.0)
    else if b.Finite? then (if (b.v >= 0.0) == a.PosInf? then PosInf else NegInf)
    else NaN
  }

  /** The `*` operator. */
  function Mul(a: Num, b: Num): (r: Num)
    ensures a.Finite? && b.Finite? ==> r.Finite? && r.v == a.v * b.v
    ensures a.NaN? || b.NaN? ==> r.NaN?
  {
    if a.NaN? || b.NaN? then NaN
    else if a.Finite? && b.Finite? then Finite(a.v * b.v)
    else if a.Finite? then (if a.v == 0.0 then NaN else if (a.v > 0.0) == b.PosInf? then PosInf else NegInf)
    else if b.Finite? then (if b.v == 0.0 then NaN else if (b.v > 0.0) == a.PosInf? then PosInf else NegInf)
    else if a == b then PosInf
    else NegInf
  }

  /** Math.floor: the largest integer not above a finite argument; other values unchanged. */
  function Floor(a: Num): (r: Num)
    ensures a.Finite? ==> r.Finite? && r.v <= a.v < r.v + 1.0 && r.v == r.v.Floor as real
    ensures !a.Finite? ==> r == a
  {
    match a
    case Finite(x) => Finite(x.Floor as real)
    case _ => a
  }

  /**
   * ToUint8Clamp of a finite value: clamp to [0, 255], then round to the
   * nearest integer, ties going to the even neighbour.
   */
  function ClampReal(x: real): (r: Byte)
    ensures x <= 0.0 ==> r == 0
    ensures x >= 255.0 ==> r == 255
    ensures 0.0 <= x <= 255.0 ==> -0.5 <= r as real - x <= 0.5
    ensures 0.0 <= x <= 255.0 && (r as real - x == 0.5 || x - r as real == 0.5) ==> r % 2 == 0
  {
    if x <= 0.0 then 0
    else if x >= 255.0 then 255
    else
      var f := x.Floor;
      if f as real + 0.5 < x then f + 1
      else if x < f as real + 0.5 then f
      else if f % 2 == 1 then f + 1
      else f
  }

  /** ToUint8Clamp (section 7.1.11 of ECMA-262): NaN and -Infinity store 0, +Infinity stores 255. */
  function ToUint8Clamp(a: Num): (r: Byte)
    ensures a.NaN? || a.NegInf? ==> r == 0
    ensures a.PosInf? ==> r == 255
    ensures a.Finite? ==> r == ClampReal(a.v)
  {
    match a
    case NaN => 0
    case PosInf => 255
    case NegInf => 0
    case Finite(x) => ClampReal(x)
  }

  /** An integer already in byte range is stored unchanged. */
  lemma ClampIntegral(k: int)
    requires 0 <= k <= 255
    ensures ClampReal(k as real) == k
  {
    assert (k as real).Floor == k;
  }

  /** The integer part of a value in [0, 255] is stored exactly. */
  lemma FloorStoredExactly(a: Num)
    ensures a.Finite? && 0.0 <= a.v <= 255.0 ==> ToUint8Clamp(Floor(a)) == a.v.Floor
  {
    if a.Finite? && 0.0 <= a.v <= 255.0 {
      ClampIntegral(a.v.Floor);
    }
  }

  /**
   * A third of an integer never lies halfway between two integers, so
   * ToUint8Clamp of it is plain rounding: `(s + 1) div 3`.
   */
  lemma RoundedThird(s: int)
    requires 0 <= s <= 765
    ensures ClampReal(s as real / 3.0) == (s + 1) / 3
  {
    var q, m := s / 3, s % 3;
    var x := s as real / 3.0;
    assert s == 3 * q + m;
    assert x == q as real + m as real / 3.0;
    assert x.Floor == q;
    if m == 0 {
      assert x == q as real;
      ClampIntegral(q);
    } else if m == 1 {
      assert q as real < x < q as real + 0.5;
    } else {
      assert q as real + 0.5 < x < q as real + 1.0;
    }
  }

  /** The floor of an exact quotient of naturals is their integer quotient. */
  lemma FloorOfQuotient(n: int, d: int)
    requires n >= 0 && d > 0
    ensures (n as real / d as real).Floor == n / d
  {
    var q, m := n / d, n % d;
    assert n == q * d + m && 0 <= m < d;
    var x := n as real / d as real;
    assert x == q as real + m as real / d as real;
    assert 0.0 <= m as real / d as real < 1.0;
  }

  /** Dividing by a positive number keeps the sign. */
  lemma QuotientSign(x: real, y: real)
    requires y > 0.0
    ensures x / y < 0.0 <==> x < 0.0
  {
    var q := x / y;
    assert q * y == x;
    if q < 0.0 {
      assert (-q) * y > 0.0;
    }
  }

  /** Comparing two exact fractions is comparing their cross products. */
  lemma QuotientLess(n: int, d: int, a: int, b: int)
    requires d > 0 && b > 0
    ensures n as real / d as real < a as real / b as real <==> n * b < a * d
  {
    assert n as real / d as real - a as real / b as real == (n * b - a * d) as real / (d * b) as real;
    QuotientSign((n * b - a * d) as real, (d * b) as real);
  }

  /** A positive factor can be cancelled from a strict inequality between products. */
  lemma MulLessCancel(x: int, y: int, d: int)
    requires d > 0 && x * d < y * d
    ensures x < y
  {
  }

  /** Quotients by a positive divisor are monotone. */
  lemma DivMonotone(a: int, b: int, d: int)
    requires 0 <= a <= b && d > 0
    ensures a / d <= b / d
  {
    var qa, qb := a / d, b / d;
    assert qa * d <= a;
    assert b < (qb + 1) * d;
    MulLessCancel(qa, qb + 1, d);
  }

  /** Multiplying by a positive divisor and dividing again gives back the factor. */
  lemma MulDivCancel(a: int, d: int)
    requires d > 0
    ensures a * d / d == a
  {
    var q := a * d / d;
    assert q * d <= a * d < (q + 1) * d;
    MulLessCancel(q, a + 1, d);
    MulLessCancel(a, q + 1, d);
  }
}
