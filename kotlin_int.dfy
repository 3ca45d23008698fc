/** Kotlin's 32-bit `Int` and its operators where they differ from Dafny's
    unbounded, Euclidean integers: `*` wraps around modulo 2^32, and `/` and
    `%` truncate toward zero. */
module KotlinInts {

  const TwoTo31: int := 0x8000_0000
  const TwoTo32: int := 0x1_0000_0000

  /** Values of Kotlin's `Int`. */
  type Int32 = z: int | -0x8000_0000 <= z < 0x8000_0000

  /** The two's-complement wrap-around of an `Int` operation's exact result. */
  function Wrap32(z: int): (r: int)
    ensures -TwoTo31 <= r < TwoTo31
    ensures (z - r) % TwoTo32 == 0
    ensures -TwoTo31 <= z < TwoTo31 ==> r == z
  {
    (z + TwoTo31) % TwoTo32 - TwoTo31
  }

  /** Kotlin's `a / b` for a positive divisor: the quotient truncated toward
      zero, by repeated subtraction of the divisor from the magnitude. */
  function KDiv(a: int, b: int): (r: int)
    requires 0 < b
    decreases if a < 0 then 1 - a else a
    ensures 0 <= a ==> 0 <= r <= a
  {
    if a < 0 then -KDiv(-a, b)
    else if a < b then 0
    else 1 + KDiv(a - b, b)
  }

  /** Kotlin's `a % b` for a positive divisor: what the subtraction leaves,
      with the sign of the dividend. */
  function KRem(a: int, b: int): (r: int)
    requires 0 < b
    decreases if a < 0 then 1 - a else a
    ensures 0 <= a ==> 0 <= r < b
    ensures a < 0 ==> -b < r <= 0
  {
    if a < 0 then -KRem(-a, b)
    else if a < b then a
    else KRem(a - b, b)
  }

  /** Truncating quotient and remainder recompose the dividend. */
  lemma {:induction false} KDivKRem(a: int, b: int)
    requires 0 < b
    decreases if a < 0 then 1 - a else a
    ensures a == b * KDiv(a, b) + KRem(a, b)
  {
    if a < 0 {
      KDivKRem(-a, b);
      Negated(-a, b, KDiv(-a, b), KRem(-a, b));
    } else if a >= b {
      KDivKRem(a - b, b);
      OneMore(a, b, KDiv(a - b, b), KRem(a - b, b));
    }
  }

  /** Recomposition survives negating dividend, quotient and remainder. */
  lemma Negated(a: int, b: int, q: int, r: int)
    requires a == b * q + r
    ensures -a == b * -q + -r
  {
  }

  /** Recomposition survives adding the divisor once more. */
  lemma OneMore(a: int, b: int, q: int, r: int)
    requires a - b == b * q + r
    ensures a == b * (1 + q) + r
  {
  }

  /** On non-negative operands Kotlin's and Dafny's division agree. */
  lemma {:induction false} KDivNonNegative(a: int, b: int)
    requires 0 <= a && 0 < b
    ensures KDiv(a, b) == a / b && KRem(a, b) == a % b
  {
    KDivKRem(a, b);
    var q, r := KDiv(a, b), KRem(a, b);
    assert a == b * q + r && 0 <= r < b;
    assert a == b * (a / b) + a % b && 0 <= a % b < b;
    EuclideanUnique(a, b, q, r);
  }

  /** Quotient and remainder are the only pair with `a == b*q + r` and
      `0 <= r < b`. */
  lemma EuclideanUnique(a: int, b: int, q: int, r: int)
    requires 0 < b && a == b * q + r && 0 <= r < b
    ensures q == a / b && r == a % b
  {
    var q', r' := a / b, a % b;
    assert b * (q - q') == r' - r;
    if q > q' {
      AtLeastDivisor(q - q', b);
    } else if q < q' {
      AtLeastDivisor(q' - q, b);
    }
  }

  /** A positive multiple of `b` is at least `b`. */
  lemma AtLeastDivisor(k: int, b: int)
    requires 0 < k && 0 < b
    ensures b <= b * k
  {
  }

  /** Dividing by one is the identity. */
  lemma {:induction false} KDivByOne(a: int)
    decreases if a < 0 then 1 - a else a
    ensures KDiv(a, 1) == a && KRem(a, 1) == 0
  {
    if a < 0 {
      KDivByOne(-a);
    } else if a >= 1 {
      KDivByOne(a - 1);
    }
  }

  /** Truncating division rounds toward zero: `-1 / 2` is `0` in Kotlin, where
      Dafny's Euclidean division gives `-1`. */
  lemma KDivTruncates()
    ensures KDiv(-1, 2) == 0 && KRem(-1, 2) == -1
    ensures -1 / 2 == -1 && -1 % 2 == 1
  {
  }
}
