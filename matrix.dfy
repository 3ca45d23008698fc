/** Matrix.kt: an m-by-n matrix over a flat mutable list. Element (i, j) lives at
    the flat index `i/n + j%n` (Kotlin's truncating `/` and `%`), which is not
    the row-major `i*n + j`: distinct elements share a slot as soon as the
    matrix has two rows and two columns. */
module Matrices {
  import opened Exceptions
  import opened KotlinInts
  import Vectors

  // ----- construction -----

  /** The `init` block: `m` and `n` must be positive and the list must hold
      `m*n` elements, where `m*n` is a 32-bit product that wraps around. */
  function InitCheck(m: int, n: int, count: int): (r: Outcome)
    ensures r == Pass <==> 0 < m && 0 < n && count == Wrap32(m * n)
    ensures r.Fail? ==> r.error == IllegalArgument
  {
    if m <= 0 then Fail(IllegalArgument)
    else if n <= 0 then Fail(IllegalArgument)
    else if count != Wrap32(m * n) then Fail(IllegalArgument)
    else Pass
  }

  /** Without overflow, the size test in `init` accepts exactly the lists of `m*n` elements. */
  lemma InitCheckExact(m: int, n: int, count: int)
    requires 0 < m && 0 < n && m * n < TwoTo31
    ensures InitCheck(m, n, count) == Pass <==> count == m * n
  {
  }

  /** The wrap-around lets a 65536-by-65536 matrix with no elements through:
      `65536*65536` is `0` as an `Int`. */
  lemma InitCheckOverflow()
    ensures InitCheck(65536, 65536, 0) == Pass
  {
    assert 65536 * 65536 == TwoTo32;
    assert Wrap32(TwoTo32) == 0;
  }

  // ----- the flat index -----

  /** The flat slot of element (i, j) in a matrix of `n` columns: `i/n + j%n`. */
  function Flat(n: int, i: int, j: int): int
    requires 0 < n
  {
    KDiv(i, n) + KRem(j, n)
  }

  /** Inside the matrix the flat index never leaves the list: it is at most
      `(m-1) + (n-1)`, which is below `m*n`. */
  lemma FlatInBounds(m: int, n: int, i: int, j: int)
    requires 0 < m && 0 < n && 0 <= i < m && 0 <= j < n
    ensures 0 <= Flat(n, i, j) <= (m - 1) + (n - 1) < m * n
  {
    KDivNonNegative(i, n);
    KDivNonNegative(j, n);
    SumBelowProduct(m, n);
  }

  /** `(m-1) + (n-1) < m*n` for positive `m` and `n`. */
  lemma SumBelowProduct(m: int, n: int)
    requires 0 < m && 0 < n
    ensures (m - 1) + (n - 1) < m * n
  {
    if n > 1 {
      AtLeastDivisor(m, n - 1);
      assert m * n == (n - 1) * m + m;
    }
  }

  /** No two elements of an m-by-n matrix share a slot. */
  ghost predicate FlatInjective(m: int, n: int)
    requires 0 < n
  {
    forall i, j, i', j' ::
      0 <= i < m && 0 <= j < n && 0 <= i' < m && 0 <= j' < n &&
      Flat(n, i, j) == Flat(n, i', j')
      ==> i == i' && j == j'
  }

  /** The flat index keeps elements apart exactly for a single row or a single
      column; otherwise (0, 0) and (1, 0) share slot 0. */
  lemma FlatInjectiveIff(m: int, n: int)
    requires 0 < m && 0 < n
    ensures FlatInjective(m, n) <==> m == 1 || n == 1
    ensures 1 < m && 1 < n ==> Flat(n, 0, 0) == Flat(n, 1, 0) == 0
  {
    if m == 1 {
      forall i, j, i', j' |
        0 <= i < m && 0 <= j < n && 0 <= i' < m && 0 <= j' < n &&
        Flat(n, i, j) == Flat(n, i', j')
        ensures i == i' && j == j'
      {
      }
    } else if n == 1 {
      forall i, j, i', j' |
        0 <= i < m && 0 <= j < n && 0 <= i' < m && 0 <= j' < n &&
        Flat(n, i, j) == Flat(n, i', j')
        ensures i == i' && j == j'
      {
        KDivNonNegative(i, n);
        KDivNonNegative(i', n);
      }
    } else {
      assert !FlatInjective(m, n) by {
        assert Flat(n, 0, 0) == Flat(n, 1, 0);
      }
    }
  }

  // ----- reading a matrix -----

  /** The state of a `Matrix`: its dimensions and its flat element list. */
  datatype MatrixValue = MatrixValue(m: int, n: int, x: seq<real>) {

    /** Dimensions positive and exactly `m*n` elements (no wrap-around). */
    predicate Sized()
    {
      0 < m && 0 < n && |x| == m * n
    }

    /** `get(index)`: the list element, or IndexOutOfBounds. */
    function Get(index: int): (r: Result<real>)
      ensures r.Ok? <==> 0 <= index < |x|
      ensures r.Ok? ==> r.value == x[index]
      ensures r.Err? ==> r.error == IndexOutOfBounds
    {
      if 0 <= index < |x| then Ok(x[index]) else Err(IndexOutOfBounds)
    }

    /** `get(i, j)`: the element at the flat index `i/n + j%n`. */
    function GetAt(i: int, j: int): (r: Result<real>)
      requires 0 < n
      ensures r.Ok? <==> 0 <= Flat(n, i, j) < |x|
      ensures r.Ok? ==> r.value == x[Flat(n, i, j)]
      ensures Sized() && 0 <= i < m && 0 <= j < n ==> r.Ok?
    {
      assert Sized() && 0 <= i < m && 0 <= j < n ==> 0 <= Flat(n, i, j) < |x| by {
        if Sized() && 0 <= i < m && 0 <= j < n {
          FlatInBounds(m, n, i, j);
        }
      }
      Get(Flat(n, i, j))
    }

    /** `get(i, jRange)`: row `i` over the columns `first..last`, in order. */
    function RowRange(i: int, first: int, last: int): (r: Result<seq<real>>)
      requires 0 < n
      decreases last - first
      ensures r.Err? ==> r.error == IndexOutOfBounds
    {
      if first > last then Ok([])
      else
        var e :- GetAt(i, first);
        var rest :- RowRange(i, first + 1, last);
        Ok([e] + rest)
    }

    /** `get(iRange, j)`: column `j` over the rows `first..last`, in order. */
    function ColumnRange(first: int, last: int, j: int): (r: Result<seq<real>>)
      requires 0 < n
      decreases last - first
      ensures r.Err? ==> r.error == IndexOutOfBounds
    {
      if first > last then Ok([])
      else
        var e :- GetAt(first, j);
        var rest :- ColumnRange(first + 1, last, j);
        Ok([e] + rest)
    }

    /** `toVector`: a single row or a single column as a list; anything wider
        and taller is a TypeCastException. */
    function ToVector(): (r: Result<seq<real>>)
      requires 0 < n
      ensures r.Err? && r.error == TypeCast <==> 1 < m && 1 < n
    {
      if 1 < m && 1 < n then Err(TypeCast)
      else if m == 1 then RowRange(0, 0, n - 1)
      else ColumnRange(0, m - 1, 0)
    }
  }

  /** A single row holds `n` elements. */
  lemma RowSize(a: MatrixValue)
    requires a.Sized() && a.m == 1
    ensures |a.x| == a.n
  {
    assert a.m * a.n == 1 * a.n;
  }

  /** A single column holds `m` elements. */
  lemma ColumnSize(a: MatrixValue)
    requires a.Sized() && a.n == 1
    ensures |a.x| == a.m
  {
    assert a.m * a.n == a.m * 1;
  }

  /** Reading a single row visits the list in order. */
  lemma RowInOrder(a: MatrixValue)
    requires a.Sized() && a.m == 1
    ensures |a.x| == a.n
    ensures a.RowRange(0, 0, a.n - 1).Ok? && |a.RowRange(0, 0, a.n - 1).value| == a.n
    ensures forall k :: 0 <= k < a.n ==> a.RowRange(0, 0, a.n - 1).value[k] == a.x[k]
  {
    RowSize(a);
    RowElements(a, 0);
    var r := a.RowRange(0, 0, a.n - 1);
    forall k | 0 <= k < a.n ensures r.value[k] == a.x[k] {
      FlatOfRow(a.n, k);
    }
  }

  /** A single row reads back as exactly its element list. */
  lemma RowVector(a: MatrixValue)
    requires a.Sized() && a.m == 1
    ensures a.RowRange(0, 0, a.n - 1) == Ok(a.x)
  {
    RowInOrder(a);
    var r := a.RowRange(0, 0, a.n - 1);
    SameElements(r.value, a.x);
  }

  /** Sequences with the same length and the same elements are equal. */
  lemma SameElements(s: seq<real>, t: seq<real>)
    requires |s| == |t| && forall k :: 0 <= k < |s| ==> s[k] == t[k]
    ensures s == t
  {
  }

  /** In a single row the flat index of column `j` is `j`. */
  lemma FlatOfRow(n: int, j: int)
    requires 0 <= j < n
    ensures Flat(n, 0, j) == j
  {
  }

  /** In a single column the flat index of row `i` is `i`. */
  lemma FlatOfColumn(i: int)
    requires 0 <= i
    ensures Flat(1, i, 0) == i
  {
    KDivByOne(i);
  }

  /** Reading a single column visits the list in order. */
  lemma ColumnInOrder(a: MatrixValue)
    requires a.Sized() && a.n == 1
    ensures |a.x| == a.m
    ensures a.ColumnRange(0, a.m - 1, 0).Ok? && |a.ColumnRange(0, a.m - 1, 0).value| == a.m
    ensures forall k :: 0 <= k < a.m ==> a.ColumnRange(0, a.m - 1, 0).value[k] == a.x[k]
  {
    ColumnSize(a);
    ColumnElements(a, 0);
    var r := a.ColumnRange(0, a.m - 1, 0);
    forall k | 0 <= k < a.m ensures r.value[k] == a.x[k] {
      FlatOfColumn(k);
    }
  }

  /** A single column reads back as exactly its element list. */
  lemma ColumnVector(a: MatrixValue)
    requires a.Sized() && a.n == 1
    ensures a.ColumnRange(0, a.m - 1, 0) == Ok(a.x)
  {
    ColumnInOrder(a);
    var r := a.ColumnRange(0, a.m - 1, 0);
    SameElements(r.value, a.x);
  }

  /** `toVector` of a single row or column is exactly its element list. */
  lemma ToVectorReturnsElements(a: MatrixValue)
    requires a.Sized() && (a.m == 1 || a.n == 1)
    ensures a.ToVector() == Ok(a.x)
  {
    if a.m == 1 {
      RowVector(a);
    } else {
      ColumnVector(a);
    }
  }

  // ----- the product -----

  /** A row range succeeds exactly when every flat index it visits is inside
      the list, and then holds those elements in column order. */
  lemma {:induction false} RowRangeReads(a: MatrixValue, i: int, first: int, last: int)
    requires 0 < a.n
    decreases last - first
    ensures a.RowRange(i, first, last).Ok? <==>
              forall j :: first <= j <= last ==> 0 <= Flat(a.n, i, j) < |a.x|
    ensures a.RowRange(i, first, last).Ok? ==>
              |a.RowRange(i, first, last).value| == (if first <= last then last - first + 1 else 0)
    ensures a.RowRange(i, first, last).Ok? ==>
              forall k :: 0 <= k < |a.RowRange(i, first, last).value| ==>
                a.RowRange(i, first, last).value[k] == a.x[Flat(a.n, i, first + k)]
  {
    if first <= last {
      RowRangeReads(a, i, first + 1, last);
    }
  }

  /** A column range succeeds exactly when every flat index it visits is
      inside the list, and then holds those elements in row order. */
  lemma {:induction false} ColumnRangeReads(a: MatrixValue, first: int, last: int, j: int)
    requires 0 < a.n
    decreases last - first
    ensures a.ColumnRange(first, last, j).Ok? <==>
              forall i :: first <= i <= last ==> 0 <= Flat(a.n, i, j) < |a.x|
    ensures a.ColumnRange(first, last, j).Ok? ==>
              |a.ColumnRange(first, last, j).value| == (if first <= last then last - first + 1 else 0)
    ensures a.ColumnRange(first, last, j).Ok? ==>
              forall k :: 0 <= k < |a.ColumnRange(first, last, j).value| ==>
                a.ColumnRange(first, last, j).value[k] == a.x[Flat(a.n, first + k, j)]
  {
    if first <= last {
      ColumnRangeReads(a, first + 1, last, j);
    }
  }

  /** In a sized matrix every full row can be read. */
  lemma RowReadable(a: MatrixValue, i: int)
    requires a.Sized() && 0 <= i < a.m
    ensures a.RowRange(i, 0, a.n - 1).Ok?
    ensures |a.RowRange(i, 0, a.n - 1).value| == a.n
  {
    RowRangeReads(a, i, 0, a.n - 1);
    forall j | 0 <= j <= a.n - 1 ensures 0 <= Flat(a.n, i, j) < |a.x| {
      FlatInBounds(a.m, a.n, i, j);
    }
  }

  /** Row `i` of a sized matrix lists the elements at its flat indices. */
  lemma RowElements(a: MatrixValue, i: int)
    requires a.Sized() && 0 <= i < a.m
    ensures a.RowRange(i, 0, a.n - 1).Ok? && |a.RowRange(i, 0, a.n - 1).value| == a.n
    ensures forall k :: 0 <= k < a.n ==>
              0 <= Flat(a.n, i, k) < |a.x| && a.RowRange(i, 0, a.n - 1).value[k] == a.x[Flat(a.n, i, k)]
  {
    RowReadable(a, i);
    RowRangeReads(a, i, 0, a.n - 1);
  }

  /** In a sized matrix every full column can be read. */
  lemma ColumnReadable(a: MatrixValue, j: int)
    requires a.Sized() && 0 <= j < a.n
    ensures a.ColumnRange(0, a.m - 1, j).Ok?
    ensures |a.ColumnRange(0, a.m - 1, j).value| == a.m
  {
    ColumnRangeReads(a, 0, a.m - 1, j);
    forall i | 0 <= i <= a.m - 1 ensures 0 <= Flat(a.n, i, j) < |a.x| {
      FlatInBounds(a.m, a.n, i, j);
    }
  }

  /** Column `j` of a sized matrix lists the elements at its flat indices. */
  lemma ColumnElements(a: MatrixValue, j: int)
    requires a.Sized() && 0 <= j < a.n
    ensures a.ColumnRange(0, a.m - 1, j).Ok? && |a.ColumnRange(0, a.m - 1, j).value| == a.m
    ensures forall k :: 0 <= k < a.m ==>
              0 <= Flat(a.n, k, j) < |a.x| && a.ColumnRange(0, a.m - 1, j).value[k] == a.x[Flat(a.n, k, j)]
  {
    ColumnReadable(a, j);
    ColumnRangeReads(a, 0, a.m - 1, j);
  }

  /** Entry (i, j) of `a * b`: row `i` of `a` zipped with column `j` of `b`,
      summed pairwise products, both read through the flat index. */
  function Entry(a: MatrixValue, b: MatrixValue, i: int, j: int): real
    requires a.Sized() && b.Sized() && a.n == b.m
    requires 0 <= i < a.m && 0 <= j < b.n
  {
    RowReadable(a, i);
    ColumnReadable(b, j);
    Vectors.SumOfProducts(a.RowRange(i, 0, a.n - 1).value, b.ColumnRange(0, b.m - 1, j).value)
  }

  /** `m*n` zeros: the result list `times` starts from. */
  function Zeros(k: nat): (r: seq<real>)
    ensures |r| == k && forall p :: 0 <= p < k ==> r[p] == 0.0
  {
    seq(k, _ => 0.0)
  }

  /** The result list after the inner loop has written columns `0..j-1` of row
      `i` onto `s`, each at its flat index in the `a.m`-by-`b.n` result. */
  function RowWrites(a: MatrixValue, b: MatrixValue, s: seq<real>, i: int, j: int): (r: seq<real>)
    requires a.Sized() && b.Sized() && a.n == b.m
    requires 0 <= i < a.m && 0 <= j <= b.n && |s| == a.m * b.n
    ensures |r| == |s|
  {
    if j == 0 then s
    else
      FlatInBounds(a.m, b.n, i, j - 1);
      RowWrites(a, b, s, i, j - 1)[Flat(b.n, i, j - 1) := Entry(a, b, i, j - 1)]
  }

  /** The inner loop's step: writing entry (i, j) at its flat index extends
      the writes of row `i` by one column. */
  lemma RowWritesNext(a: MatrixValue, b: MatrixValue, x: seq<real>, s: seq<real>, i: int, j: int)
    requires a.Sized() && b.Sized() && a.n == b.m
    requires 0 <= i < a.m && 0 <= j < b.n && |s| == a.m * b.n
    requires x == RowWrites(a, b, s, i, j)
    ensures 0 <= Flat(b.n, i, j) < |x|
    ensures RowWrites(a, b, s, i, j + 1) == x[Flat(b.n, i, j) := Entry(a, b, i, j)]
  {
    FlatInBounds(a.m, b.n, i, j);
  }

  /** The result list after the outer loop has finished rows `0..k-1`. */
  function RowsDone(a: MatrixValue, b: MatrixValue, k: int): (r: seq<real>)
    requires a.Sized() && b.Sized() && a.n == b.m
    requires 0 <= k <= a.m
    ensures |r| == a.m * b.n
  {
    if k == 0 then Zeros(a.m * b.n)
    else RowWrites(a, b, RowsDone(a, b, k - 1), k - 1, b.n)
  }

  /** The element list `times` returns: every (i, j) written in row-major order
      at its flat index, later writes overwriting earlier ones. */
  function Product(a: MatrixValue, b: MatrixValue): (r: seq<real>)
    requires a.Sized() && b.Sized() && a.n == b.m
    ensures |r| == a.m * b.n
  {
    RowsDone(a, b, a.m)
  }

  /** With a collision-free index, writing row `i` leaves the slots of every
      other row alone. */
  lemma {:induction false} RowWritesOutside(a: MatrixValue, b: MatrixValue, s: seq<real>, i: int, j: int, i0: int, j0: int)
    requires a.Sized() && b.Sized() && a.n == b.m && FlatInjective(a.m, b.n)
    requires 0 <= i < a.m && 0 <= j <= b.n && |s| == a.m * b.n
    requires 0 <= i0 < a.m && 0 <= j0 < b.n && i0 != i
    ensures 0 <= Flat(b.n, i0, j0) < |s|
    ensures RowWrites(a, b, s, i, j)[Flat(b.n, i0, j0)] == s[Flat(b.n, i0, j0)]
  {
    FlatInBounds(a.m, b.n, i0, j0);
    if j > 0 {
      RowWritesOutside(a, b, s, i, j - 1, i0, j0);
      FlatInBounds(a.m, b.n, i, j - 1);
      assert Flat(b.n, i, j - 1) != Flat(b.n, i0, j0);
    }
  }

  /** With a collision-free index, writing row `i` stores every entry of it. */
  lemma {:induction false} RowWritesStores(a: MatrixValue, b: MatrixValue, s: seq<real>, i: int, j: int, j0: int)
    requires a.Sized() && b.Sized() && a.n == b.m && FlatInjective(a.m, b.n)
    requires 0 <= i < a.m && 0 <= j0 < j <= b.n && |s| == a.m * b.n
    ensures 0 <= Flat(b.n, i, j0) < |s|
    ensures RowWrites(a, b, s, i, j)[Flat(b.n, i, j0)] == Entry(a, b, i, j0)
  {
    FlatInBounds(a.m, b.n, i, j0);
    if j0 < j - 1 {
      RowWritesStores(a, b, s, i, j - 1, j0);
      FlatInBounds(a.m, b.n, i, j - 1);
      assert Flat(b.n, i, j - 1) != Flat(b.n, i, j0);
    }
  }

  /** With a collision-free index, the rows finished so far hold their entries. */
  lemma {:induction false} RowsDoneStores(a: MatrixValue, b: MatrixValue, k: int, i: int, j: int)
    requires a.Sized() && b.Sized() && a.n == b.m && FlatInjective(a.m, b.n)
    requires 0 <= i < k <= a.m && 0 <= j < b.n
    ensures 0 <= Flat(b.n, i, j) < a.m * b.n
    ensures RowsDone(a, b, k)[Flat(b.n, i, j)] == Entry(a, b, i, j)
  {
    FlatInBounds(a.m, b.n, i, j);
    if i == k - 1 {
      RowWritesStores(a, b, RowsDone(a, b, k - 1), k - 1, b.n, j);
    } else {
      RowsDoneStores(a, b, k - 1, i, j);
      RowsDoneKeeps(a, b, k, i, j);
    }
  }

  /** With a collision-free index, finishing row `k-1` keeps what the
      earlier rows stored. */
  lemma RowsDoneKeeps(a: MatrixValue, b: MatrixValue, k: int, i: int, j: int)
    requires a.Sized() && b.Sized() && a.n == b.m && FlatInjective(a.m, b.n)
    requires 0 <= i < k - 1 && k <= a.m && 0 <= j < b.n
    ensures 0 <= Flat(b.n, i, j) < a.m * b.n
    ensures RowsDone(a, b, k)[Flat(b.n, i, j)] == RowsDone(a, b, k - 1)[Flat(b.n, i, j)]
  {
    RowWritesOutside(a, b, RowsDone(a, b, k - 1), k - 1, b.n, i, j);
  }

  /** For a single-row or single-column result, `times` is the matrix product:
      element (i, j) of the result is row `i` of `a` times column `j` of `b`. */
  lemma ProductCorrectWhenInjective(a: MatrixValue, b: MatrixValue)
    requires a.Sized() && b.Sized() && a.n == b.m
    requires a.m == 1 || b.n == 1
    ensures forall i, j :: 0 <= i < a.m && 0 <= j < b.n ==>
              MatrixValue(a.m, b.n, Product(a, b)).GetAt(i, j) == Ok(Entry(a, b, i, j))
  {
    FlatInjectiveIff(a.m, b.n);
    forall i, j | 0 <= i < a.m && 0 <= j < b.n
      ensures MatrixValue(a.m, b.n, Product(a, b)).GetAt(i, j) == Ok(Entry(a, b, i, j))
    {
      RowsDoneStores(a, b, a.m, i, j);
    }
  }

  /** In a 2-by-2 result, column 0 of either row goes to slot 0. */
  lemma FirstWriteTwoByTwo(a: MatrixValue, b: MatrixValue, s: seq<real>, i: int)
    requires a.Sized() && b.Sized() && a.n == b.m
    requires a.m == 2 && b.n == 2 && |s| == 4 && 0 <= i < 2
    ensures RowWrites(a, b, s, i, 1) == s[0 := Entry(a, b, i, 0)]
  {
    assert a.m * b.n == 2 * 2;
    assert Flat(b.n, i, 0) == 0;
  }

  /** In a 2-by-2 result, column 1 of either row goes to slot 1. */
  lemma SecondWriteTwoByTwo(a: MatrixValue, b: MatrixValue, s: seq<real>, i: int)
    requires a.Sized() && b.Sized() && a.n == b.m
    requires a.m == 2 && b.n == 2 && |s| == 4 && 0 <= i < 2
    ensures RowWrites(a, b, s, i, 2) == RowWrites(a, b, s, i, 1)[1 := Entry(a, b, i, 1)]
  {
    assert a.m * b.n == 2 * 2;
    assert Flat(b.n, i, 1) == 1;
  }

  /** A 2-by-2 result shows the collision: row 1 overwrites row 0 in slots 0
      and 1, and slots 2 and 3 keep their initial zeros. */
  lemma ProductTwoByTwo(a: MatrixValue, b: MatrixValue)
    requires a.Sized() && b.Sized() && a.n == b.m
    requires a.m == 2 && b.n == 2
    ensures Product(a, b) == [Entry(a, b, 1, 0), Entry(a, b, 1, 1), 0.0, 0.0]
  {
    assert a.m * b.n == 2 * 2;
    var z := RowsDone(a, b, 0);
    var row0 := RowsDone(a, b, 1);
    var row1 := RowsDone(a, b, 2);
    assert row0 == RowWrites(a, b, z, 0, 2);
    assert row1 == RowWrites(a, b, row0, 1, 2);
    FirstWriteTwoByTwo(a, b, z, 0);
    SecondWriteTwoByTwo(a, b, z, 0);
    FirstWriteTwoByTwo(a, b, row0, 1);
    SecondWriteTwoByTwo(a, b, row0, 1);
    assert row1 == z[0 := Entry(a, b, 0, 0)][1 := Entry(a, b, 0, 1)][0 := Entry(a, b, 1, 0)][1 := Entry(a, b, 1, 1)];
    SameElements(row1, [Entry(a, b, 1, 0), Entry(a, b, 1, 1), 0.0, 0.0]);
  }

  // ----- the mutable matrix -----

  /** The Kotlin `Matrix` data class: fixed dimensions and a mutable flat list. */
  class Matrix {
    const m: Int32
    const n: Int32
    var x: seq<real>

    /** The invariant `init` establishes. */
    predicate Valid()
      reads this
    {
      InitCheck(m, n, |x|) == Pass
    }

    /** The current state as a value. */
    function Value(): MatrixValue
      reads this
    {
      MatrixValue(m, n, x)
    }

    /** The primary constructor, once `init` has passed. */
    constructor (m: Int32, n: Int32, x: seq<real>)
      requires InitCheck(m, n, |x|) == Pass
      ensures this.m == m && this.n == n && this.x == x
      ensures Valid()
    {
      this.m := m;
      this.n := n;
      this.x := x;
    }

    /** Construction with the `init` checks: IllegalArgumentException or a new matrix. */
    static method Create(m: Int32, n: Int32, x: seq<real>) returns (r: Result<Matrix>)
      ensures r.Ok? <==> InitCheck(m, n, |x|) == Pass
      ensures r.Err? ==> r.error == IllegalArgument
      ensures r.Ok? ==> fresh(r.value) && r.value.m == m && r.value.n == n && r.value.x == x
    {
      var check := InitCheck(m, n, |x|);
      if check.Fail? {
        return Err(check.error);
      }
      var mat := new Matrix(m, n, x);
      return Ok(mat);
    }

    /** `set(index, value)`: writes one list slot, or IndexOutOfBounds. */
    method Set(index: int, value: real) returns (r: Outcome)
      modifies this
      ensures 0 <= index < old(|x|) ==> r == Pass && x == old(x)[index := value]
      ensures !(0 <= index < old(|x|)) ==> r == Fail(IndexOutOfBounds) && x == old(x)
    {
      if 0 <= index < |x| {
        x := x[index := value];
        r := Pass;
      } else {
        r := Fail(IndexOutOfBounds);
      }
    }

    /** `set(i, j, value)`: writes the slot at the flat index `i/n + j%n`. */
    method SetAt(i: int, j: int, value: real) returns (r: Outcome)
      requires 0 < n
      modifies this
      ensures 0 <= Flat(n, i, j) < old(|x|) ==> r == Pass && x == old(x)[Flat(n, i, j) := value]
      ensures !(0 <= Flat(n, i, j) < old(|x|)) ==> r == Fail(IndexOutOfBounds) && x == old(x)
    {
      r := Set(Flat(n, i, j), value);
    }

    /** The inner loop of `times`: writes entry (i, j) of the product into
        `result` for every column `j` of `other`, in order. */
    method FillRow(other: Matrix, result: Matrix, i: int)
      requires Value().Sized() && other.Value().Sized() && n == other.m
      requires result != this && result != other
      requires 0 <= i < m && result.n == other.n && |result.x| == m * other.n
      modifies result
      ensures result.n == other.n
      ensures result.x == RowWrites(Value(), other.Value(), old(result.x), i, other.n)
    {
      var a, b := Value(), other.Value();
      ghost var s := result.x;
      for j := 0 to other.n
        invariant result.x == RowWrites(a, b, s, i, j)
      {
        RowWritesNext(a, b, result.x, s, i, j);
        var _ := result.SetAt(i, j, Entry(a, b, i, j));
      }
    }

    /** `times`: IllegalArgumentException unless `this.n == other.m`; otherwise a
        new `this.m`-by-`other.n` matrix filled by the nested loops. Neither
        operand changes. */
    method Times(other: Matrix) returns (r: Result<Matrix>)
      requires Value().Sized() && other.Value().Sized()
      requires m * other.n < TwoTo31
      ensures r.Err? <==> n != other.m
      ensures r.Err? ==> r.error == IllegalArgument
      ensures r.Ok? ==> fresh(r.value) && r.value.m == m && r.value.n == other.n
      ensures r.Ok? ==> r.value.x == Product(Value(), other.Value()) && r.value.Valid()
    {
      if n != other.m {
        return Err(IllegalArgument);
      }
      var a, b := Value(), other.Value();
      var result := new Matrix(m, other.n, Zeros(m * other.n));
      for i := 0 to m
        invariant fresh(result) && result.m == m && result.n == other.n
        invariant result.x == RowsDone(a, b, i)
      {
        FillRow(other, result, i);
      }
      return Ok(result);
    }
  }

  /** `Vector.toMatrix(column)`: passes the vector's `x` component, not its
      list, so the matrix gets one element; an empty vector has no `x`. */
  method ToMatrix(v: seq<real>, column: bool) returns (r: Result<Matrix>)
    requires |v| < TwoTo31
    ensures |v| == 0 ==> r == Err(IndexOutOfBounds)
    ensures 0 < |v| ==> (r.Ok? <==> |v| == 1)
    ensures 1 < |v| ==> r == Err(IllegalArgument)
    ensures r.Ok? ==> fresh(r.value) && r.value.x == [v[0]] && r.value.m == 1 && r.value.n == 1
  {
    if |v| == 0 {
      return Err(IndexOutOfBounds);
    }
    var size := |v|;
    r := Matrix.Create(if column then size else 1, if column then 1 else size, [v[0]]);
  }
}
