/** Real arithmetic the engine takes from kotlin.math. Doubles are modelled as
    reals; `sqrt` is not definable over the reals by a Dafny expression, so the
    model takes it as a parameter that must behave as the non-negative square
    root. */
module RealMath {

  /** `sqrt` returns the non-negative square root of every non-negative real. */
  ghost predicate IsSqrt(sqrt: real -> real)
  {
    forall x: real :: 0.0 <= x ==> 0.0 <= sqrt(x) && sqrt(x) * sqrt(x) == x
  }

  /** Non-negative reals with equal squares are equal. */
  lemma SquareInjective(a: real, b: real)
    requires 0.0 <= a && 0.0 <= b
    requires a * a == b * b
    ensures a == b
  {
    assert (a - b) * (a + b) == a * a - b * b;
    if a + b == 0.0 {
    } else {
      assert a - b == 0.0;
    }
  }

  /** The square root of `c*c*x` is `c` times the square root of `x`. */
  lemma SqrtOfScaled(sqrt: real -> real, c: real, x: real)
    requires IsSqrt(sqrt)
    requires 0.0 <= c && 0.0 <= x
    ensures sqrt(c * c * x) == c * sqrt(x)
  {
    var s := sqrt(x);
    assert 0.0 <= s && s * s == x;
    assert 0.0 <= c * c * x;
    var t := sqrt(c * c * x);
    assert 0.0 <= t && t * t == c * c * x;
    assert (c * s) * (c * s) == c * c * (s * s);
    SquareInjective(t, c * s);
  }

  /** Only zero squares to zero. */
  lemma ZeroSquare(x: real)
    requires x * x == 0.0
    ensures x == 0.0
  {
    if x < 0.0 {
      SquareInjective(-x, 0.0);
    } else {
      SquareInjective(x, 0.0);
    }
  }

  /** The square root of `s` is at most `bound` exactly when `bound` is
      non-negative and `s` is at most its square. */
  lemma SqrtAtMost(sqrt: real -> real, s: real, bound: real)
    requires IsSqrt(sqrt) && 0.0 <= s
    ensures sqrt(s) <= bound <==> 0.0 <= bound && s <= bound * bound
  {
    SquareAtMost(sqrt(s), s, bound);
  }

  /** A non-negative `t` is at most `bound` exactly when `bound` is
      non-negative and the square of `t` is at most the square of `bound`. */
  lemma SquareAtMost(t: real, s: real, bound: real)
    requires 0.0 <= t && t * t == s
    ensures t <= bound <==> 0.0 <= bound && s <= bound * bound
  {
    if t <= bound {
      ProductNonNegative(bound - t, bound + t);
      assert (bound - t) * (bound + t) == bound * bound - t * t;
    } else if 0.0 <= bound {
      ProductPositive(t - bound, t + bound);
      assert (t - bound) * (t + bound) == t * t - bound * bound;
    }
  }

  lemma ProductNonNegative(a: real, b: real)
    requires 0.0 <= a && 0.0 <= b
    ensures 0.0 <= a * b
  {
  }

  lemma ProductPositive(a: real, b: real)
    requires 0.0 < a && 0.0 < b
    ensures 0.0 < a * b
  {
  }
}
