/** Vector.kt: a vector is a list of doubles of any length. The arithmetic
    operators build new vectors with `map`/`zip`; `+=`/`-=` and the named
    accessors update the receiver's list in place. */
module Vectors {
  import opened Exceptions
  import opened RealMath

  // ----- Kotlin collection primitives the operators are built from -----

  /** Kotlin's `zip { }`: combines components pairwise, up to the shorter operand. */
  function Zip(a: seq<real>, b: seq<real>, f: (real, real) -> real): (r: seq<real>)
    ensures |r| == if |a| <= |b| then |a| else |b|
    ensures forall i :: 0 <= i < |r| ==> r[i] == f(a[i], b[i])
  {
    if |a| == 0 || |b| == 0 then [] else [f(a[0], b[0])] + Zip(a[1..], b[1..], f)
  }

  /** Kotlin's `map { }` over the components. */
  function MapComponents(a: seq<real>, f: real -> real): (r: seq<real>)
    ensures |r| == |a|
    ensures forall i :: 0 <= i < |a| ==> r[i] == f(a[i])
  {
    if |a| == 0 then [] else [f(a[0])] + MapComponents(a[1..], f)
  }

  /** `sumOf { x -> x*x }`: the squared length. */
  function SumOfSquares(v: seq<real>): real
  {
    if |v| == 0 then 0.0 else v[0] * v[0] + SumOfSquares(v[1..])
  }

  /** `zip(other) { a, b -> a * b }.sum()`: the value of the dot product. */
  function SumOfProducts(a: seq<real>, b: seq<real>): real
  {
    if |a| == 0 || |b| == 0 then 0.0 else a[0] * b[0] + SumOfProducts(a[1..], b[1..])
  }

  // ----- the operators of Vector -----

  /** `plus`: throws on differing sizes, otherwise adds componentwise. */
  function Plus(a: seq<real>, b: seq<real>): (r: Result<seq<real>>)
    ensures r.Err? <==> |a| != |b|
    ensures r.Err? ==> r.error == IllegalArgument
    ensures r.Ok? ==> |r.value| == |a| && forall i :: 0 <= i < |a| ==> r.value[i] == a[i] + b[i]
  {
    if |a| != |b| then Err(IllegalArgument) else Ok(Zip(a, b, (x, y) => x + y))
  }

  /** `minus`: throws on differing sizes, otherwise subtracts componentwise. */
  function Minus(a: seq<real>, b: seq<real>): (r: Result<seq<real>>)
    ensures r.Err? <==> |a| != |b|
    ensures r.Err? ==> r.error == IllegalArgument
    ensures r.Ok? ==> |r.value| == |a| && forall i :: 0 <= i < |a| ==> r.value[i] == a[i] - b[i]
  {
    if |a| != |b| then Err(IllegalArgument) else Ok(Zip(a, b, (x, y) => x - y))
  }

  /** `times`: scales every component by `factor`. */
  function Times(v: seq<real>, factor: real): (r: seq<real>)
    ensures |r| == |v|
    ensures forall i :: 0 <= i < |v| ==> r[i] == v[i] * factor
  {
    MapComponents(v, x => x * factor)
  }

  /** `div`: divides every component by `factor`. */
  function Div(v: seq<real>, factor: real): (r: seq<real>)
    requires factor != 0.0
    ensures |r| == |v|
    ensures forall i :: 0 <= i < |v| ==> r[i] * factor == v[i]
  {
    MapComponents(v, x => x / factor)
  }

  /** `unaryMinus`: negates every component. */
  function Negate(v: seq<real>): (r: seq<real>)
    ensures |r| == |v|
    ensures forall i :: 0 <= i < |v| ==> r[i] + v[i] == 0.0
  {
    MapComponents(v, x => -x)
  }

  /** `dot`: throws on differing sizes, otherwise the sum of the pairwise products. */
  function Dot(a: seq<real>, b: seq<real>): (r: Result<real>)
    ensures r.Err? <==> |a| != |b|
    ensures r.Err? ==> r.error == IllegalArgument
    ensures r.Ok? ==> r.value == SumOfProducts(a, b) == SumOfProducts(b, a)
  {
    if |a| != |b| then Err(IllegalArgument)
    else
      SumOfProductsSymmetric(a, b);
      Ok(SumOfProducts(a, b))
  }

  /** `length`: the square root of the sum of squares (`LengthSquared`). */
  function Length(v: seq<real>, sqrt: real -> real): (r: real)
    requires IsSqrt(sqrt)
    ensures 0.0 <= r
  {
    SumOfSquaresNonNegative(v);
    sqrt(SumOfSquares(v))
  }

  /** `normalize`: the vector divided by its length (`NormalizeScales`,
      `NormalizeUnitLength`). A zero-length vector would divide by zero. */
  function Normalize(v: seq<real>, sqrt: real -> real): (r: seq<real>)
    requires IsSqrt(sqrt)
    requires Length(v, sqrt) != 0.0
    ensures |r| == |v|
  {
    Div(v, Length(v, sqrt))
  }

  /** A zero `max` below a positive `min` is rejected by the range check
      before the length is looked at, whatever the vector. */
  lemma CoerceZeroMaxBelowMin(v: seq<real>, min: real, sqrt: real -> real)
    requires IsSqrt(sqrt) && 0.0 < min
    ensures CoerceLengthWithin(v, min, 0.0, sqrt) == Err(IllegalArgument)
  {
  }

  /** `coerceLengthWithin(min, max)`, as written: a length below `min` is scaled
      up to `min`, but a length above `max` is multiplied by `length/max`. A
      zero `max` with a non-positive `min` and a non-zero vector divides by
      zero (an IEEE infinity), which the reals cannot express; with a
      positive `min` the range check throws first. */
  function CoerceLengthWithin(v: seq<real>, min: real, max: real, sqrt: real -> real): (r: Result<seq<real>>)
    requires IsSqrt(sqrt)
    requires max == 0.0 && min <= 0.0 ==> Length(v, sqrt) == 0.0
    ensures r.Err? && r.error == IllegalArgument <==> max < 0.0 || max < min
    ensures r.Err? && r.error == Arithmetic <==>
              0.0 <= max && min <= max && Length(v, sqrt) == 0.0 && 0.0 < min
    ensures r.Err? ==> r.error in {IllegalArgument, Arithmetic}
    ensures r.Ok? ==> |r.value| == |v|
    ensures r.Ok? && min <= Length(v, sqrt) <= max ==> r.value == v
    ensures r.Ok? && Length(v, sqrt) < min ==> r.value == Times(v, min / Length(v, sqrt))
    ensures r.Ok? && max < Length(v, sqrt) ==> r.value == Times(v, Length(v, sqrt) / max)
  {
    if max < 0.0 then Err(IllegalArgument)
    else if max < min then Err(IllegalArgument)
    else
      var len := Length(v, sqrt);
      if len < min then
        if len <= 0.0 then Err(Arithmetic) else Ok(Times(v, min / len))
      else if len > max then
        Ok(Times(v, len / max))
      else
        Ok(v)
  }

  /** `deflect(prohibitor)`: a vector whose dot product with the prohibitor is
      negative loses `prohibitor * (this · normalize(prohibitor))`; any other
      vector is returned unchanged. */
  function Deflect(v: seq<real>, prohibitor: seq<real>, sqrt: real -> real): (r: Result<seq<real>>)
    requires IsSqrt(sqrt)
    ensures r.Err? <==> |v| != |prohibitor|
    ensures r.Err? ==> r.error == IllegalArgument
    ensures r.Ok? ==> |r.value| == |v|
    ensures r.Ok? && SumOfProducts(v, prohibitor) >= 0.0 ==> r.value == v
  {
    var d :- Dot(v, prohibitor);
    if d < 0.0 then
      ZeroLengthAnnihilates(v, prohibitor);
      LengthSquared(prohibitor, sqrt);
      var n := Normalize(prohibitor, sqrt);
      var along := Dot(v, n).value;
      Minus(v, Times(prohibitor, along))
    else
      Ok(v)
  }

  // ----- lemmas -----

  /** The length squares to the sum of squares, and only the zero vector has
      length zero. */
  lemma LengthSquared(v: seq<real>, sqrt: real -> real)
    requires IsSqrt(sqrt)
    ensures Length(v, sqrt) * Length(v, sqrt) == SumOfSquares(v)
    ensures Length(v, sqrt) == 0.0 <==> SumOfSquares(v) == 0.0
  {
    SumOfSquaresNonNegative(v);
    if SumOfSquares(v) == 0.0 {
      ZeroSquare(Length(v, sqrt));
    }
  }

  lemma {:induction false} SumOfSquaresNonNegative(v: seq<real>)
    ensures 0.0 <= SumOfSquares(v)
  {
    if |v| > 0 {
      SumOfSquaresNonNegative(v[1..]);
      assert 0.0 <= v[0] * v[0];
    }
  }

  lemma {:induction false} SumOfProductsSymmetric(a: seq<real>, b: seq<real>)
    ensures SumOfProducts(a, b) == SumOfProducts(b, a)
  {
    if |a| > 0 && |b| > 0 {
      SumOfProductsSymmetric(a[1..], b[1..]);
    }
  }

  /** A vector's dot product with itself is its squared length. */
  lemma {:induction false} SumOfProductsSelf(v: seq<real>)
    ensures SumOfProducts(v, v) == SumOfSquares(v)
  {
    if |v| > 0 {
      SumOfProductsSelf(v[1..]);
    }
  }

  /** A zero-length vector has a zero dot product with every vector. */
  lemma {:induction false} ZeroLengthAnnihilates(v: seq<real>, p: seq<real>)
    ensures SumOfSquares(p) == 0.0 ==> SumOfProducts(v, p) == 0.0
  {
    if |v| > 0 && |p| > 0 && SumOfSquares(p) == 0.0 {
      SumOfSquaresNonNegative(p[1..]);
      assert 0.0 <= p[0] * p[0];
      assert p[0] * p[0] == 0.0 && SumOfSquares(p[1..]) == 0.0;
      ZeroSquare(p[0]);
      ZeroLengthAnnihilates(v[1..], p[1..]);
      assert v[0] * p[0] == 0.0;
    }
  }

  /** Scaling every component by `k` scales the squared length by `k*k`. */
  lemma {:induction false} SumOfSquaresScaled(v: seq<real>, r: seq<real>, k: real)
    requires |r| == |v|
    requires forall i :: 0 <= i < |v| ==> r[i] == v[i] * k
    ensures SumOfSquares(r) == k * k * SumOfSquares(v)
  {
    if |v| > 0 {
      SumOfSquaresScaled(v[1..], r[1..], k);
      assert r[0] * r[0] == k * k * (v[0] * v[0]);
    }
  }

  /** Scaling the left operand by `k` scales the dot product by `k`. */
  lemma {:induction false} SumOfProductsScaled(a: seq<real>, r: seq<real>, b: seq<real>, k: real)
    requires |r| == |a|
    requires forall i :: 0 <= i < |a| ==> r[i] == a[i] * k
    ensures SumOfProducts(r, b) == k * SumOfProducts(a, b)
  {
    if |a| > 0 && |b| > 0 {
      SumOfProductsScaled(a[1..], r[1..], b[1..], k);
    }
  }

  /** The dot product distributes over a componentwise difference on the left. */
  lemma {:induction false} SumOfProductsDifference(a: seq<real>, b: seq<real>, d: seq<real>, c: seq<real>)
    requires |a| == |b| == |d|
    requires forall i :: 0 <= i < |d| ==> d[i] == a[i] - b[i]
    ensures SumOfProducts(d, c) == SumOfProducts(a, c) - SumOfProducts(b, c)
  {
    if |a| > 0 && |c| > 0 {
      SumOfProductsDifference(a[1..], b[1..], d[1..], c[1..]);
    }
  }

  /** Round trip of the operators: `(a + b) - b == a` for equal sizes. */
  lemma PlusMinusRoundTrip(a: seq<real>, b: seq<real>)
    requires |a| == |b|
    ensures Plus(a, b).Ok?
    ensures Minus(Plus(a, b).value, b) == Ok(a)
  {
    var s := Plus(a, b).value;
    assert Minus(s, b).value == a;
  }

  /** Negation is an involution and `v + (-v)` is the zero vector. */
  lemma NegateInverse(v: seq<real>)
    ensures Negate(Negate(v)) == v
    ensures Plus(v, Negate(v)) == Ok(Times(v, 0.0))
  {
    assert Negate(Negate(v)) == v;
    assert Plus(v, Negate(v)).value == Times(v, 0.0);
  }

  /** A non-zero factor cancels from both sides of an equation. */
  lemma CancelFactor(a: real, b: real, k: real)
    requires k != 0.0 && a * k == b * k
    ensures a == b
  {
    assert (a - b) * k == 0.0;
  }

  /** `q*k == x` and `t == x*(1/k)` with `k` non-zero force `q == t`. */
  lemma QuotientIsScale(q: real, x: real, t: real, k: real)
    requires k != 0.0 && q * k == x && t == x * (1.0 / k)
    ensures q == t
  {
  }

  /** Division undoes multiplication by the same non-zero factor. */
  lemma DivTimesRoundTrip(v: seq<real>, k: real)
    requires k != 0.0
    ensures Div(Times(v, k), k) == v
  {
    var t := Times(v, k);
    var d := Div(t, k);
    forall i | 0 <= i < |v| ensures d[i] == v[i] {
      DivOfProduct(d[i], t[i], v[i], k);
    }
  }

  /** `d*k == x*k` through the intermediate `t`, with `k` non-zero, forces `d == x`. */
  lemma DivOfProduct(d: real, t: real, x: real, k: real)
    requires k != 0.0 && d * k == t && t == x * k
    ensures d == x
  {
    CancelFactor(d, x, k);
  }

  /** Scaling by a non-negative factor scales the length by that factor. */
  lemma LengthOfScaled(v: seq<real>, k: real, sqrt: real -> real)
    requires IsSqrt(sqrt)
    requires 0.0 <= k
    ensures Length(Times(v, k), sqrt) == k * Length(v, sqrt)
  {
    var len := Length(v, sqrt);
    var r := Times(v, k);
    LengthSquared(v, sqrt);
    LengthSquared(r, sqrt);
    SumOfSquaresScaled(v, r, k);
    assert k * k * (len * len) == (k * len) * (k * len);
    SquareInjective(Length(r, sqrt), k * len);
  }

  /** Below `min`, a non-zero vector is scaled so that its length becomes `min`. */
  lemma CoerceBelowMinReachesMin(v: seq<real>, min: real, max: real, sqrt: real -> real)
    requires IsSqrt(sqrt)
    requires 0.0 < max && min <= max
    requires 0.0 < Length(v, sqrt) < min
    ensures CoerceLengthWithin(v, min, max, sqrt).Ok?
    ensures Length(CoerceLengthWithin(v, min, max, sqrt).value, sqrt) == min
  {
    var len := Length(v, sqrt);
    LengthOfScaled(v, min / len, sqrt);
  }

  /** Above `max`, the result's length is `length*length/max`, which exceeds `max`:
      the upper branch pushes the vector further out of the range. */
  lemma CoerceAboveMaxOvershoots(v: seq<real>, min: real, max: real, sqrt: real -> real)
    requires IsSqrt(sqrt)
    requires 0.0 < max && min <= max
    requires Length(v, sqrt) > max
    ensures CoerceLengthWithin(v, min, max, sqrt).Ok?
    ensures Length(CoerceLengthWithin(v, min, max, sqrt).value, sqrt)
            == Length(v, sqrt) * Length(v, sqrt) / max
    ensures Length(CoerceLengthWithin(v, min, max, sqrt).value, sqrt) > max
  {
    var len := Length(v, sqrt);
    LengthOfScaled(v, len / max, sqrt);
    Overshoot(len, max);
  }

  /** For `0 < max < len`, `(len/max) * len` is `len*len/max` and exceeds `max`. */
  lemma Overshoot(len: real, max: real)
    requires 0.0 < max < len
    ensures (len / max) * len == len * len / max
    ensures (len / max) * len > max
  {
    assert len / max > 1.0;
    assert (len / max) * len > 1.0 * len;
  }

  /** With a prohibitor of length two, an opposing velocity is not made
      orthogonal: `[-1]` against `[2]` deflects to `[1]`, whose dot product with
      the prohibitor is `2`. */
  lemma DeflectNonUnitCounterexample(sqrt: real -> real)
    requires IsSqrt(sqrt)
    ensures Deflect([-1.0], [2.0], sqrt) == Ok([1.0])
    ensures SumOfProducts([1.0], [2.0]) == 2.0
  {
    var v, p := [-1.0], [2.0];
    assert SumOfProducts(v, p) == -2.0;
    assert SumOfSquares(p) == 4.0;
    SquareInjective(sqrt(4.0), 2.0);
    assert Length(p, sqrt) == 2.0;
    var n := Normalize(p, sqrt);
    assert n[0] * 2.0 == 2.0;
    assert n == [1.0];
    assert SumOfProducts(v, n) == -1.0;
    var t := Times(p, -1.0);
    assert t == [-2.0];
    assert Minus(v, t).value == [1.0];
    DeflectOpposing(v, p, sqrt);
  }

  /** Removing `p * along` from `v` lowers the dot product with `p` by `along`
      times `p · p`. */
  lemma {:induction false} DeflectedProduct(v: seq<real>, p: seq<real>, along: real)
    requires |v| == |p|
    ensures Minus(v, Times(p, along)).Ok?
    ensures SumOfProducts(Minus(v, Times(p, along)).value, p)
            == SumOfProducts(v, p) - along * SumOfProducts(p, p)
  {
    var t := Times(p, along);
    SumOfProductsDifference(v, t, Minus(v, t).value, p);
    SumOfProductsScaled(p, t, p, along);
  }

  /** The opposing branch of `deflect`, unfolded. */
  lemma DeflectOpposing(v: seq<real>, p: seq<real>, sqrt: real -> real)
    requires IsSqrt(sqrt)
    requires |v| == |p| && SumOfProducts(v, p) < 0.0
    ensures Length(p, sqrt) != 0.0
    ensures Deflect(v, p, sqrt) == Minus(v, Times(p, SumOfProducts(v, Normalize(p, sqrt))))
  {
    ZeroLengthAnnihilates(v, p);
    LengthSquared(p, sqrt);
  }

  /** What `deflect` removes: an opposing vector's dot product with the
      prohibitor `p` is multiplied by `1 - |p|`. For a unit prohibitor the
      result is orthogonal to it; for any other it is not. */
  lemma {:induction false} DeflectScalesOpposition(v: seq<real>, p: seq<real>, sqrt: real -> real)
    requires IsSqrt(sqrt)
    requires |v| == |p| && SumOfProducts(v, p) < 0.0
    ensures Deflect(v, p, sqrt).Ok?
    ensures SumOfProducts(Deflect(v, p, sqrt).value, p)
            == (1.0 - Length(p, sqrt)) * SumOfProducts(v, p)
  {
    DeflectOpposing(v, p, sqrt);
    OppositionArithmetic(v, p, sqrt);
    OppositionScaled(v, p, SumOfProducts(v, Normalize(p, sqrt)), Length(p, sqrt));
  }

  /** With `along` the component of `v` along the normalised `p`, taking
      `along * (p · p)` from `v · p` leaves `(1 - |p|)` times it. */
  lemma OppositionArithmetic(v: seq<real>, p: seq<real>, sqrt: real -> real)
    requires IsSqrt(sqrt) && Length(p, sqrt) != 0.0
    ensures SumOfProducts(v, p) - SumOfProducts(v, Normalize(p, sqrt)) * SumOfProducts(p, p)
            == (1.0 - Length(p, sqrt)) * SumOfProducts(v, p)
  {
    AlongNormalized(v, p, sqrt);
    SelfProductIsSquaredLength(p, sqrt);
    RemovedPart(SumOfProducts(v, p), Length(p, sqrt), SumOfProducts(v, Normalize(p, sqrt)), SumOfProducts(p, p));
  }

  /** Subtracting `along` times `p` from `v` scales `v · p` by `1 - len`
      whenever taking `along * (p · p)` from `v · p` does. */
  lemma OppositionScaled(v: seq<real>, p: seq<real>, along: real, len: real)
    requires |v| == |p|
    requires SumOfProducts(v, p) - along * SumOfProducts(p, p) == (1.0 - len) * SumOfProducts(v, p)
    ensures Minus(v, Times(p, along)).Ok?
    ensures SumOfProducts(Minus(v, Times(p, along)).value, p) == (1.0 - len) * SumOfProducts(v, p)
  {
    DeflectedProduct(v, p, along);
  }

  /** The dot product of `p` with itself is its length squared. */
  lemma SelfProductIsSquaredLength(p: seq<real>, sqrt: real -> real)
    requires IsSqrt(sqrt)
    ensures SumOfProducts(p, p) == Length(p, sqrt) * Length(p, sqrt)
  {
    SumOfProductsSelf(p);
    LengthSquared(p, sqrt);
  }

  /** The component along the normalised prohibitor is `v · p / |p|`. */
  lemma {:induction false} AlongNormalized(v: seq<real>, p: seq<real>, sqrt: real -> real)
    requires IsSqrt(sqrt) && Length(p, sqrt) != 0.0
    ensures SumOfProducts(v, Normalize(p, sqrt)) * Length(p, sqrt) == SumOfProducts(v, p)
  {
    var inverse := 1.0 / Length(p, sqrt);
    NormalizeIsScaled(p, sqrt);
    ScaledRightOperand(v, p, inverse);
    ReciprocalCancels(SumOfProducts(v, Normalize(p, sqrt)), Length(p, sqrt), SumOfProducts(v, p));
  }

  /** Scaling the right operand by `k` scales the dot product by `k`. */
  lemma ScaledRightOperand(v: seq<real>, p: seq<real>, k: real)
    ensures SumOfProducts(v, Times(p, k)) == k * SumOfProducts(v, p)
  {
    var t := Times(p, k);
    SumOfProductsSymmetric(v, t);
    SumOfProductsScaled(p, t, v, k);
    SumOfProductsSymmetric(p, v);
  }

  /** `(y / k) * k == y`. */
  lemma ReciprocalCancels(x: real, k: real, y: real)
    requires k != 0.0 && x == (1.0 / k) * y
    ensures x * k == y
  {
    assert (1.0 / k) * k == 1.0;
  }

  /** `d - along * len*len` is `(1 - len) * d` when `along * len == d`. */
  lemma RemovedPart(d: real, len: real, along: real, pp: real)
    requires along * len == d && pp == len * len
    ensures d - along * pp == (1.0 - len) * d
  {
    assert along * pp == (along * len) * len;
  }

  /** Against a unit prohibitor, `deflect` leaves exactly the part of an
      opposing vector orthogonal to it. */
  lemma {:induction false} DeflectUnitOrthogonal(v: seq<real>, p: seq<real>, sqrt: real -> real)
    requires IsSqrt(sqrt)
    requires |v| == |p| && SumOfProducts(v, p) < 0.0 && Length(p, sqrt) == 1.0
    ensures Deflect(v, p, sqrt).Ok? && SumOfProducts(Deflect(v, p, sqrt).value, p) == 0.0
  {
    DeflectScalesOpposition(v, p, sqrt);
  }

  /** Normalising divides every component by the length. */
  lemma NormalizeScales(v: seq<real>, sqrt: real -> real)
    requires IsSqrt(sqrt)
    requires Length(v, sqrt) != 0.0
    ensures forall i :: 0 <= i < |v| ==> Normalize(v, sqrt)[i] * Length(v, sqrt) == v[i]
  {
  }

  /** Normalising is scaling by the reciprocal of the length. */
  lemma NormalizeIsScaled(v: seq<real>, sqrt: real -> real)
    requires IsSqrt(sqrt)
    requires Length(v, sqrt) != 0.0
    ensures Normalize(v, sqrt) == Times(v, 1.0 / Length(v, sqrt))
  {
    DivIsTimesReciprocal(v, Length(v, sqrt));
  }

  /** Dividing by `k` is multiplying by `1/k`. */
  lemma DivIsTimesReciprocal(v: seq<real>, k: real)
    requires k != 0.0
    ensures Div(v, k) == Times(v, 1.0 / k)
  {
    var d := Div(v, k);
    var inverse := 1.0 / k;
    var t := Times(v, inverse);
    forall i | 0 <= i < |v| ensures d[i] == t[i] {
      assert t[i] == v[i] * inverse;
      QuotientIsScale(d[i], v[i], t[i], k);
    }
  }

  /** A normalised vector has length one. */
  lemma NormalizeUnitLength(v: seq<real>, sqrt: real -> real)
    requires IsSqrt(sqrt)
    requires Length(v, sqrt) != 0.0
    ensures Length(Normalize(v, sqrt), sqrt) == 1.0
  {
    var len := Length(v, sqrt);
    NormalizeIsScaled(v, sqrt);
    LengthOfScaled(v, 1.0 / len, sqrt);
    Reciprocal(len);
  }

  /** A positive real times its reciprocal is one. */
  lemma Reciprocal(x: real)
    requires 0.0 < x
    ensures 0.0 < 1.0 / x && (1.0 / x) * x == 1.0
  {
  }

  // ----- the mutable wrapper -----

  /** Names of the first four slots: x/y/z/w positionally and r/g/b/a as a colour
      share the same storage. */
  datatype Component = X | Y | Z | W | R | G | B | A {
    function Slot(): nat
    {
      match this
      case X | R => 0
      case Y | G => 1
      case Z | B => 2
      case W | A => 3
    }
  }

  /** The Kotlin `Vector` object: a wrapped mutable list of doubles. */
  class Vector {
    var list: seq<real>

    constructor (list: seq<real>)
      ensures this.list == list
    {
      this.list := list;
    }

    /** The accessor getter: reads the component's slot. */
    function Get(c: Component): (r: Result<real>)
      reads this
      ensures r.Ok? <==> c.Slot() < |list|
      ensures r.Ok? ==> r.value == list[c.Slot()]
      ensures r.Err? ==> r.error == IndexOutOfBounds
    {
      if c.Slot() < |list| then Ok(list[c.Slot()]) else Err(IndexOutOfBounds)
    }

    /** The accessor setter: writes only the component's slot; the size never changes. */
    method Set(c: Component, value: real) returns (r: Outcome)
      modifies this
      ensures old(c.Slot() < |list|) ==> r == Pass && list == old(list)[c.Slot() := value]
      ensures old(c.Slot() >= |list|) ==> r == Fail(IndexOutOfBounds) && list == old(list)
      ensures |list| == old(|list|)
    {
      if c.Slot() < |list| {
        list := list[c.Slot() := value];
        r := Pass;
      } else {
        r := Fail(IndexOutOfBounds);
      }
    }

    /** `plusAssign`: checks sizes, then adds `other` index by index in place. */
    method PlusAssign(other: Vector) returns (r: Outcome)
      modifies this
      ensures |old(list)| != |old(other.list)| ==> r == Fail(IllegalArgument) && list == old(list)
      ensures |old(list)| == |old(other.list)| ==> r == Pass && Plus(old(list), old(other.list)) == Ok(list)
      ensures other != this ==> other.list == old(other.list)
    {
      if |list| != |other.list| {
        return Fail(IllegalArgument);
      }
      var i := 0;
      while i < |list|
        invariant 0 <= i <= |list| == |old(list)| == |old(other.list)|
        invariant other != this ==> other.list == old(other.list)
        invariant forall k :: 0 <= k < i ==> list[k] == old(list)[k] + old(other.list)[k]
        invariant forall k :: i <= k < |list| ==> list[k] == old(list)[k]
      {
        list := list[i := list[i] + other.list[i]];
        i := i + 1;
      }
      r := Pass;
      assert Plus(old(list), old(other.list)).value == list;
    }

    /** `minusAssign`: checks sizes, then subtracts `other` index by index in place. */
    method MinusAssign(other: Vector) returns (r: Outcome)
      modifies this
      ensures |old(list)| != |old(other.list)| ==> r == Fail(IllegalArgument) && list == old(list)
      ensures |old(list)| == |old(other.list)| ==> r == Pass && Minus(old(list), old(other.list)) == Ok(list)
      ensures other != this ==> other.list == old(other.list)
    {
      if |list| != |other.list| {
        return Fail(IllegalArgument);
      }
      var i := 0;
      while i < |list|
        invariant 0 <= i <= |list| == |old(list)| == |old(other.list)|
        invariant other != this ==> other.list == old(other.list)
        invariant forall k :: 0 <= k < i ==> list[k] == old(list)[k] - old(other.list)[k]
        invariant forall k :: i <= k < |list| ==> list[k] == old(list)[k]
      {
        list := list[i := list[i] - other.list[i]];
        i := i + 1;
      }
      r := Pass;
      assert Minus(old(list), old(other.list)).value == list;
    }
  }
}
