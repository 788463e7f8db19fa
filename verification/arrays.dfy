/** Flattening of N-dimensional struct fields to one dimension
    (`get_Nd_array_size_as_1d` and `get_Nd_array_index_as_1d` of
    src/translators/clib.rb). */
module ArrayFlattening {
  import opened Results
  import opened Ruby

  /** The product of the dimensions, the value an N-dimensional array of
      these sizes has as its element count. */
  function Product(dims: seq<int>): int {
    if dims == [] then 1 else dims[0] * Product(dims[1..])
  }

  /** The block of `inject(:*)`: multiply the accumulator by each dimension
      from left to right. */
  function FoldMul(acc: int, dims: seq<int>): (r: int)
    ensures r == acc * Product(dims)
    decreases dims
  {
    if dims == [] then acc
    else
      assert acc * dims[0] * Product(dims[1..]) == acc * (dims[0] * Product(dims[1..]));
      FoldMul(acc * dims[0], dims[1..])
  }

  /** `array_dimension_sizes.inject(:*)`: the product of the dimensions,
      or `nil` when there are none (`inject` without a start value). */
  function ArraySizeAs1d(dims: seq<int>): (r: Option<int>)
    ensures r.None? <==> dims == []
    ensures r.Some? ==> r.value == Product(dims)
  {
    if dims == [] then None else Some(FoldMul(dims[0], dims[1..]))
  }

  lemma {:induction false} ProductAppend(a: seq<int>, b: seq<int>)
    ensures Product(a + b) == Product(a) * Product(b)
  {
    if a == [] {
      assert a + b == b;
    } else {
      assert (a + b)[1..] == a[1..] + b;
      ProductAppend(a[1..], b);
      assert Product(a + b) == a[0] * (Product(a[1..]) * Product(b));
    }
  }

  /** Removing the dimension at `k` divides it out of the product. */
  lemma {:induction false} ProductRemove(a: seq<int>, k: nat)
    requires k < |a|
    ensures Product(a) == a[k] * Product(a[..k] + a[k + 1..])
  {
    if k == 0 {
      assert a[..0] + a[1..] == a[1..];
    } else {
      var tail := a[1..];
      ProductRemove(tail, k - 1);
      var others := tail[..k - 1] + tail[k..];
      assert a[..k] + a[k + 1..] == [a[0]] + others;
      assert ([a[0]] + others)[1..] == others;
      var x, y, p := a[0], a[k], Product(others);
      assert Product(a) == x * (y * p);
      assert Product(a[..k] + a[k + 1..]) == x * p;
      assert x * (y * p) == y * (x * p);
    }
  }

  /** The flattened size does not depend on the order of the dimensions:
      [2, 3, 4] and [4, 2, 3] both flatten to 24 elements. */
  lemma {:induction false} SizeIgnoresDimensionOrder(a: seq<int>, b: seq<int>)
    requires multiset(a) == multiset(b)
    ensures ArraySizeAs1d(a) == ArraySizeAs1d(b)
    ensures Product(a) == Product(b)
    decreases |a|
  {
    if a == [] {
      assert |b| == |multiset(b)| == 0;
    } else {
      assert a[0] in multiset(b);
      var k :| 0 <= k < |b| && b[k] == a[0];
      var rest := b[..k] + b[k + 1..];
      assert b == b[..k] + [b[k]] + b[k + 1..];
      assert multiset(b) == multiset(b[..k]) + multiset{b[k]} + multiset(b[k + 1..]);
      assert multiset(rest) == multiset(b[..k]) + multiset(b[k + 1..]);
      assert a == [a[0]] + a[1..];
      assert multiset(a) == multiset{a[0]} + multiset(a[1..]);
      assert multiset(a[1..]) == multiset(a) - multiset{a[0]};
      assert multiset(rest) == multiset(b) - multiset{b[k]};
      assert multiset(a[1..]) == multiset(rest);
      SizeIgnoresDimensionOrder(a[1..], rest);
      ProductRemove(b, k);
      assert |b| == |multiset(b)| == |multiset(a)| == |a|;
    }
  }

  /** The subscript text "[a][b]" of a two-dimensional access: the two
      one-dimensional subscripts, one after the other. */
  function Subscript2(a: int, b: int): (r: string)
    ensures r == Subscript1(a) + Subscript1(b)
  {
    var x, y := IntToString(a), IntToString(b);
    assert "[" + x + "][" + y + "]" == ("[" + x + "]") + ("[" + y + "]");
    "[" + x + "][" + y + "]"
  }

  /** The subscript text "[i]" of a one-dimensional access: brackets around
      a decimal text that reads back as the index. */
  function Subscript1(i: int): (r: string)
    ensures |r| >= 3 && r[0] == '[' && r[|r| - 1] == ']'
    ensures IsIntText(r[1..|r| - 1]) && ParseInt(r[1..|r| - 1]) == i
  {
    IntToStringRoundTrip(i);
    var r := "[" + IntToString(i) + "]";
    assert r[1..|r| - 1] == IntToString(i);
    r
  }

  /** `get_Nd_array_index_as_1d`, as written: for exactly two dimensions the
      row is the flat index divided (floored) by the FIRST dimension and the
      column the flat index modulo the second; a zero divisor raises
      ZeroDivisionError. Every other number of dimensions keeps the flat
      index. (`c = dims[1] || dims[0]` never falls back: with two dimensions
      `dims[1]` is an integer.) */
  function NdArrayIndexAs1d(dims: seq<int>, idx: int): (r: Result<string>)
    ensures r.Err? <==> |dims| == 2 && (dims[0] == 0 || dims[1] == 0)
    ensures r.Err? ==> r.error == ZeroDivision
    ensures |dims| != 2 ==> r == Ok(Subscript1(idx))
    ensures |dims| == 2 && r.Ok? ==> r.value == Subscript2(FloorDiv(idx, dims[0]), FloorMod(idx, dims[1]))
  {
    if |dims| == 2 then
      var rows := dims[0];
      var cols := dims[1];
      if rows == 0 || cols == 0 then Err(ZeroDivision)
      else Ok(Subscript2(FloorDiv(idx, rows), FloorMod(idx, cols)))
    else
      Ok(Subscript1(idx))
  }

  /** For a square array the formula as written is the inverse of
      row-major flattening: every flat index of an n-by-n array becomes the
      in-range coordinates (i, j) with i * n + j == idx. */
  lemma SquareIndexIsRowMajor(n: int, idx: int)
    requires n > 0 && 0 <= idx < n * n
    ensures exists i, j | 0 <= i < n && 0 <= j < n ::
      i * n + j == idx && NdArrayIndexAs1d([n, n], idx) == Ok(Subscript2(i, j))
  {
    var i, j := FloorDiv(idx, n), FloorMod(idx, n);
    assert 0 <= i < n;
    assert 0 <= j < n;
    assert i * n + j == idx;
    assert NdArrayIndexAs1d([n, n], idx) == Ok(Subscript2(i, j));
  }

  /** The subscripts the formula as written produces, once its floored
      division and modulo are known. */
  lemma IndexAt(dims: seq<int>, idx: int, i: int, j: int)
    requires |dims| == 2 && dims[0] != 0 && dims[1] != 0
    requires FloorDiv(idx, dims[0]) == i && FloorMod(idx, dims[1]) == j
    ensures NdArrayIndexAs1d(dims, idx) == Ok(Subscript2(i, j))
  {
  }

  /** On arrays that are not square the formula as written goes wrong. In
      the 2-by-3 array, flat index 5 (row 1, column 2 in row-major order)
      becomes row 2, which does not exist. */
  lemma NonSquareIndexOutOfRange()
    ensures FloorDiv(5, 2) == 2
    ensures NdArrayIndexAs1d([2, 3], 5) == Ok("[2][2]")
  {
    var q := FloorDiv(5, 2);
    assert q == 2;
    var m := FloorMod(5, 3);
    assert m == 2;
    IndexAt([2, 3], 5, 2, 2);
    SmallSubscripts();
  }

  /** In the 3-by-2 array, flat indices 0 and 2 (rows 0 and 1 of column 0)
      both become element [0][0]. */
  lemma NonSquareIndicesCollide()
    ensures NdArrayIndexAs1d([3, 2], 0) == NdArrayIndexAs1d([3, 2], 2) == Ok("[0][0]")
  {
    var q0, m0 := FloorDiv(0, 3), FloorMod(0, 2);
    assert q0 == 0 && m0 == 0;
    var q2, m2 := FloorDiv(2, 3), FloorMod(2, 2);
    assert q2 == 0 && m2 == 0;
    IndexAt([3, 2], 0, 0, 0);
    IndexAt([3, 2], 2, 0, 0);
    SmallSubscripts();
  }

  lemma SmallSubscripts()
    ensures Subscript2(2, 2) == "[2][2]"
    ensures Subscript2(0, 0) == "[0][0]"
  {
    assert NatToString(2) == "2" && NatToString(0) == "0";
  }

  /** The evidently intended index: row and column both come from dividing
      by the number of columns, the inverse of row-major flattening. */
  function RowMajorIndexAs1d(dims: seq<int>, idx: int): (r: Result<string>)
    ensures r.Err? <==> |dims| == 2 && dims[1] == 0
    ensures |dims| != 2 ==> r == Ok(Subscript1(idx))
  {
    if |dims| == 2 then
      var cols := dims[1];
      if cols == 0 then Err(ZeroDivision)
      else Ok(Subscript2(FloorDiv(idx, cols), FloorMod(idx, cols)))
    else
      Ok(Subscript1(idx))
  }

  /** For every rows-by-columns array and every flat index in range, the
      corrected index renders in-range coordinates (i, j) with
      i * cols + j == idx; `RowMajorCoordinatesUnique` shows they are the
      only ones. */
  lemma RowMajorIndexInverts(rows: int, cols: int, idx: int)
    requires rows > 0 && cols > 0 && 0 <= idx < rows * cols
    ensures exists i, j | 0 <= i < rows && 0 <= j < cols ::
      i * cols + j == idx && RowMajorIndexAs1d([rows, cols], idx) == Ok(Subscript2(i, j))
  {
    var i, j := FloorDiv(idx, cols), FloorMod(idx, cols);
    assert 0 <= i < rows;
    assert 0 <= j < cols;
    assert i * cols + j == idx;
    assert RowMajorIndexAs1d([rows, cols], idx) == Ok(Subscript2(i, j));
  }

  /** Row-major coordinates are unique: two column positions in range that
      flatten to the same index belong to the same row and column. */
  lemma RowMajorCoordinatesUnique(cols: int, i: int, j: int, i2: int, j2: int)
    requires 0 <= j < cols && 0 <= j2 < cols
    requires i * cols + j == i2 * cols + j2
    ensures i == i2 && j == j2
  {
    var d := i2 - i;
    assert d * cols == j - j2 by {
      assert d * cols == i2 * cols - i * cols;
    }
    if d > 0 {
      MulAtLeast(d, cols);
    } else if d < 0 {
      MulAtLeast(-d, cols);
    }
  }

  lemma MulAtLeast(d: int, c: int)
    requires d >= 1 && c > 0
    ensures d * c >= c
  {
    assert d * c == (d - 1) * c + c;
  }

  /** On square arrays the corrected index and the one as written agree. */
  lemma CorrectionAgreesOnSquareArrays(n: int, idx: int)
    requires n != 0
    ensures RowMajorIndexAs1d([n, n], idx) == NdArrayIndexAs1d([n, n], idx)
  {
  }
}
