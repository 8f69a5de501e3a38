/**
 * Swift's numeric conversions, integer division and CGFloat comparisons, written out
 * because Dafny's `.Floor` rounds down, its `/` on `int` is Euclidean and its `real`
 * division by zero is undefined.
 */
module Numeric {

  /** `Int(x)` for a CGFloat `x`: truncation toward zero. */
  function Trunc(x: real): (n: int)
    ensures 0.0 <= x ==> 0 <= n && n as real <= x < n as real + 1.0
    ensures x < 0.0 ==> n <= 0 && n as real - 1.0 < x <= n as real
  {
    if x >= 0.0 then x.Floor else -((-x).Floor)
  }

  /** Truncation leaves whole numbers unchanged. */
  lemma TruncOfInt(n: int)
    ensures Trunc(n as real) == n
  {
  }

  /** A whole number below a real value stays below its truncation. */
  lemma TruncAtLeast(x: real, n: int)
    requires 0 <= n && n as real <= x
    ensures n <= Trunc(x)
  {
  }

  /** Swift's `a / 2` on `Int`: the quotient is truncated toward zero. */
  function HalfTowardZero(a: int): (q: int)
    ensures 0 <= a ==> 0 <= q && 2 * q <= a <= 2 * q + 1
    ensures a < 0 ==> q <= 0 && 2 * q - 1 <= a <= 2 * q
  {
    if a >= 0 then a / 2 else -((-a) / 2)
  }

  /** Dividing by a non-zero value and multiplying back cancels. */
  lemma MulDivCancel(a: real, b: real)
    requires b != 0.0
    ensures b * (a / b) == a && (a / b) * b == a
  {
  }

  /** A positive common factor does not change the order of two products. */
  lemma CancelPositiveFactor(a: real, b: real, c: real)
    requires c > 0.0
    ensures a * c >= b * c <==> a >= b
    ensures a * c > b * c <==> a > b
  {
    if a >= b {
      assert (a - b) * c >= 0.0;
    } else {
      assert (b - a) * c > 0.0;
    }
  }

  /** Scaling `x` by `num / den` and multiplying back by `den` gives `x * num`. */
  lemma ScaledProduct(x: real, num: real, den: real)
    requires den != 0.0
    ensures x * (num / den) * den == x * num
  {
    MulDivCancel(num, den);
    assert x * (num / den) * den == x * ((num / den) * den);
  }

  /** If `x * num` reaches `target * den`, then `x` scaled by `num / den` reaches `target`. */
  lemma ScaledAtLeast(x: real, num: real, den: real, target: real)
    requires den > 0.0 && x * num >= target * den
    ensures x * (num / den) >= target
  {
    ScaledProduct(x, num, den);
    CancelPositiveFactor(x * (num / den), target, den);
  }

  /** The strict form of `ScaledAtLeast`. */
  lemma ScaledAbove(x: real, num: real, den: real, target: real)
    requires den > 0.0 && x * num > target * den
    ensures x * (num / den) > target
  {
    ScaledProduct(x, num, den);
    CancelPositiveFactor(x * (num / den), target, den);
  }

  /** For positive denominators, comparing quotients is comparing cross products. */
  lemma CrossMultiplyOrder(a: real, b: real, c: real, d: real)
    requires b > 0.0 && d > 0.0
    ensures a * d >= c * b <==> a / b >= c / d
  {
    MulDivCancel(a, b);
    MulDivCancel(c, d);
    assert a * d == (a / b) * (b * d) by {
      assert a * d == ((a / b) * b) * d;
    }
    assert c * b == (c / d) * (b * d) by {
      assert c * b == ((c / d) * d) * b;
    }
    CancelPositiveFactor(a / b, c / d, b * d);
  }

  /** A CGFloat value: a finite number, an infinity or NaN. */
  datatype Float = Finite(value: real) | PosInf | NegInf | NaN

  /** IEEE division of two finite CGFloats; a zero divisor is `+0.0`, as `CGFloat(0)` is. */
  function FloatDiv(a: real, b: real): (q: Float)
    ensures b != 0.0 ==> q.Finite? && q.value * b == a
    ensures b == 0.0 ==> (q == PosInf <==> a > 0.0) && (q == NegInf <==> a < 0.0) && (q == NaN <==> a == 0.0)
  {
    if b != 0.0 then (MulDivCancel(a, b); Finite(a / b))
    else if a > 0.0 then PosInf
    else if a < 0.0 then NegInf
    else NaN
  }

  /** IEEE `x >= y`: false whenever either side is NaN. */
  predicate FloatAtLeast(x: Float, y: Float)
  {
    match (x, y)
    case (NaN, _) => false
    case (_, NaN) => false
    case (PosInf, _) => true
    case (_, NegInf) => true
    case (Finite(a), Finite(b)) => a >= b
    case (_, _) => false
  }
}
