/**
 The square root used by the Euclidean distances (`np.sqrt`). Dafny's
 reals have no built-in root, so the scoring functions take the root as
 a parameter and demand only the two facts that characterise it on the
 non-negative reals; every other property is derived here.
 */
module RealSqrt {
  import opened Basics

  /** `sqrt` is the non-negative square root on the non-negative reals. */
  ghost predicate IsSqrt(sqrt: real -> real) {
    forall x: real :: 0.0 <= x ==> 0.0 <= sqrt(x) && sqrt(x) * sqrt(x) == x
  }

  /** Squaring is strictly increasing on the non-negative reals. */
  lemma SquareStrictlyIncreasing(a: real, b: real)
    requires 0.0 <= a < b
    ensures a * a < b * b
  {
    var p, q, r := a * a, a * b, b * b;
    assert p <= q by {
      assert a * (b - a) >= 0.0;
    }
    assert q < r by {
      assert b * (b - a) > 0.0;
    }
  }

  /** Squaring preserves order on the non-negative reals. */
  lemma SquareMonotone(a: real, b: real)
    requires 0.0 <= a <= b
    ensures a * a <= b * b
  {
    if a < b {
      SquareStrictlyIncreasing(a, b);
    }
  }

  /** The root is zero exactly at zero. */
  lemma ZeroIff(sqrt: real -> real, x: real)
    requires IsSqrt(sqrt)
    requires 0.0 <= x
    ensures sqrt(x) == 0.0 <==> x == 0.0
    ensures 0.0 < x ==> 0.0 < sqrt(x)
  {
    var s := sqrt(x);
    assert 0.0 <= s && s * s == x;
    if 0.0 < s {
      SquareStrictlyIncreasing(0.0, s);
    }
  }

  /** The root preserves order. */
  lemma Monotone(sqrt: real -> real, x: real, y: real)
    requires IsSqrt(sqrt)
    requires 0.0 <= x <= y
    ensures sqrt(x) <= sqrt(y)
  {
    var a, b := sqrt(x), sqrt(y);
    assert 0.0 <= a && a * a == x;
    assert 0.0 <= b && b * b == y;
    if b < a {
      SquareStrictlyIncreasing(b, a);
    }
  }

  /** The root undoes squaring of a non-negative number. */
  lemma OfSquare(sqrt: real -> real, x: real)
    requires IsSqrt(sqrt)
    requires 0.0 <= x
    ensures sqrt(x * x) == x
  {
    var s := sqrt(x * x);
    assert 0.0 <= s && s * s == x * x;
    if s < x {
      SquareStrictlyIncreasing(s, x);
    } else if x < s {
      SquareStrictlyIncreasing(x, s);
    }
  }

  /** The same fact stated for `Square`. */
  lemma SqrtOfSquare(sqrt: real -> real, x: real)
    requires IsSqrt(sqrt)
    requires 0.0 <= x
    ensures sqrt(Square(x)) == x
  {
    OfSquare(sqrt, x);
    var p := x * x;
    assert Square(x) == p;
  }
}
