/** Row-major repacking helpers: slice, concatenate and permute tensors of any rank.  Each method is
    the block copy or odometer of the source, proved against a definition by multi-index. */
module TensorLayout {
  import opened RowMajor
  import opened Permutations

  datatype Result<+V> = Ok(value: V) | Err(error: LayoutError)

  datatype LayoutError =
    | NegativeDim | WrongLength
    | DimOutOfRange | WindowOutOfRange
    | NoTensors | RankMismatch | IncompatibleDims
    | InvalidPermutation

  datatype Tensor<T> = Tensor(data: seq<T>, dims: seq<int>) {
    /** What checkTensorDims accepts. */
    predicate Valid() {
      NonNegative(dims) && |data| == Size(dims)
    }
  }

  /** The element at a multi-index. */
  function Get<T>(t: Tensor<T>, i: seq<int>): T
    requires t.Valid() && InBounds(i, t.dims)
  {
    FlatInRange(i, t.dims);
    t.data[Flat(i, t.dims)]
  }

  lemma SameTensor<T>(a: Tensor<T>, b: Tensor<T>)
    requires a.Valid() && b.Valid() && a.dims == b.dims
    requires forall i | InBounds(i, a.dims) :: Get(a, i) == Get(b, i)
    ensures a == b
  {
    forall n | 0 <= n < |a.data| ensures a.data[n] == b.data[n] {
      assert Get(a, Unflat(n, a.dims)) == Get(b, Unflat(n, a.dims));
    }
  }

  // ----- definitions by multi-index

  /** Elements [start, end) along axis d. */
  function Slice<T>(t: Tensor<T>, d: nat, start: int, end: int): (r: Tensor<T>)
    requires t.Valid() && d < |t.dims| && 0 <= start <= end <= t.dims[d]
    ensures r.Valid() && r.dims == t.dims[d := end - start]
  {
    var dims := t.dims[d := end - start];
    SizeNonNegative(dims);
    Tensor(seq(Size(dims), n requires 0 <= n < Size(dims) => SliceAt(t, d, start, end, Unflat(n, dims))), dims)
  }

  function SliceAt<T>(t: Tensor<T>, d: nat, start: int, end: int, j: seq<int>): T
    requires t.Valid() && d < |t.dims| && 0 <= start <= end <= t.dims[d]
    requires InBounds(j, t.dims[d := end - start])
  {
    ShiftInBounds(j, t.dims, d, start, end);
    Get(t, j[d := j[d] + start])
  }

  /** The parts of a concatenation along d: valid, same rank, same dims away from d. */
  predicate Compatible<T>(parts: seq<Tensor<T>>, d: int) {
    && |parts| > 0
    && 0 <= d < |parts[0].dims|
    && forall p :: 0 <= p < |parts| ==> Fits(parts[p], parts[0].dims, d)
  }

  predicate Fits<T>(t: Tensor<T>, dims: seq<int>, d: int) {
    t.Valid() && |t.dims| == |dims| && forall k :: 0 <= k < |dims| && k != d ==> t.dims[k] == dims[k]
  }

  /** Extents along d. */
  function Widths<T>(parts: seq<Tensor<T>>, d: nat): (w: seq<int>)
    requires Compatible(parts, d)
    ensures |w| == |parts| && NonNegative(w)
    ensures forall p :: 0 <= p < |parts| ==> w[p] == parts[p].dims[d]
  {
    seq(|parts|, p requires 0 <= p < |parts| => parts[p].dims[d])
  }

  function Sum(w: seq<int>): int {
    if w == [] then 0 else Sum(w[..|w|-1]) + w[|w|-1]
  }

  /** Which part coordinate x along the axis falls in, and where in that part. */
  function Locate(w: seq<int>, x: int): (py: (nat, int))
    requires NonNegative(w) && 0 <= x < Sum(w)
    ensures py.0 < |w| && 0 <= py.1 < w[py.0] && x == Sum(w[..py.0]) + py.1
  {
    var n := |w| - 1;
    if x < Sum(w[..n]) then
      var py := Locate(w[..n], x);
      assert w[..n][..py.0] == w[..py.0];
      py
    else (n, x - Sum(w[..n]))
  }

  function ConcatDims<T>(parts: seq<Tensor<T>>, d: nat): (dims: seq<int>)
    requires Compatible(parts, d)
    ensures |dims| == |parts[0].dims| && NonNegative(dims)
    ensures dims == parts[0].dims[d := Sum(Widths(parts, d))]
  {
    SumNonNegative(Widths(parts, d));
    parts[0].dims[d := Sum(Widths(parts, d))]
  }

  /** The parts joined along axis d. */
  function Concat<T>(parts: seq<Tensor<T>>, d: nat): (r: Tensor<T>)
    requires Compatible(parts, d)
    ensures r.Valid() && r.dims == ConcatDims(parts, d)
  {
    var dims := ConcatDims(parts, d);
    SizeNonNegative(dims);
    Tensor(seq(Size(dims), n requires 0 <= n < Size(dims) => ConcatAt(parts, d, Unflat(n, dims))), dims)
  }

  function ConcatAt<T>(parts: seq<Tensor<T>>, d: nat, j: seq<int>): T
    requires Compatible(parts, d) && InBounds(j, ConcatDims(parts, d))
  {
    var w := Widths(parts, d);
    assert 0 <= j[d] < ConcatDims(parts, d)[d];
    var (p, y) := Locate(w, j[d]);
    PartInBounds(parts, d, j, p, y);
    Get(parts[p], j[d := y])
  }

  function PermuteDims(dims: seq<int>, perm: seq<int>): (r: seq<int>)
    requires IsPermutation(perm, |dims|)
    ensures |r| == |dims| && forall k :: 0 <= k < |dims| ==> r[k] == dims[perm[k]]
  {
    seq(|dims|, k requires 0 <= k < |dims| => dims[perm[k]])
  }

  /** Axis k of the result is axis perm[k] of the source. */
  function Permute<T>(t: Tensor<T>, perm: seq<int>): (r: Tensor<T>)
    requires t.Valid() && IsPermutation(perm, |t.dims|)
    ensures r.Valid() && r.dims == PermuteDims(t.dims, perm)
  {
    var dims := PermuteDims(t.dims, perm);
    SizePermute(t.dims, perm);
    Tensor(seq(|t.data|, n requires 0 <= n < |t.data| => PermuteAt(t, perm, Unflat(n, dims))), dims)
  }

  function PermuteAt<T>(t: Tensor<T>, perm: seq<int>, j: seq<int>): T
    requires t.Valid() && IsPermutation(perm, |t.dims|)
    requires InBounds(j, PermuteDims(t.dims, perm))
  {
    ScatterInBounds(j, t.dims, perm);
    Get(t, Scatter(j, perm, |t.dims|, 0))
  }

  // ----- facts about the definitions

  lemma ShiftInBounds(j: seq<int>, dims: seq<int>, d: nat, start: int, end: int)
    requires d < |dims| && 0 <= start <= end <= dims[d]
    requires InBounds(j, dims[d := end - start])
    ensures InBounds(j[d := j[d] + start], dims)
  {
    forall k | 0 <= k < |j| ensures 0 <= j[d := j[d] + start][k] < dims[k] {
      assert 0 <= j[k] < dims[d := end - start][k];
    }
  }

  lemma PartInBounds<T>(parts: seq<Tensor<T>>, d: nat, j: seq<int>, p: nat, y: int)
    requires Compatible(parts, d) && InBounds(j, ConcatDims(parts, d))
    requires p < |parts| && 0 <= y < Widths(parts, d)[p]
    ensures InBounds(j[d := y], parts[p].dims)
  {
    assert Fits(parts[p], parts[0].dims, d);
    forall k | 0 <= k < |j| ensures 0 <= j[d := y][k] < parts[p].dims[k] {
      assert 0 <= j[k] < ConcatDims(parts, d)[k];
    }
  }

  /** Reading the results back by multi-index. */
  lemma GetSlice<T>(t: Tensor<T>, d: nat, start: int, end: int, j: seq<int>)
    requires t.Valid() && d < |t.dims| && 0 <= start <= end <= t.dims[d]
    requires InBounds(j, t.dims[d := end - start])
    ensures InBounds(j[d := j[d] + start], t.dims)
    ensures Get(Slice(t, d, start, end), j) == Get(t, j[d := j[d] + start])
  {
    ShiftInBounds(j, t.dims, d, start, end);
    UnflatFlat(j, t.dims[d := end - start]);
  }

  lemma GetConcat<T>(parts: seq<Tensor<T>>, d: nat, j: seq<int>, p: nat, y: int)
    requires Compatible(parts, d) && InBounds(j, ConcatDims(parts, d))
    requires 0 <= j[d] < Sum(Widths(parts, d)) && Locate(Widths(parts, d), j[d]) == (p, y)
    ensures InBounds(j[d := y], parts[p].dims)
    ensures Get(Concat(parts, d), j) == Get(parts[p], j[d := y])
  {
    PartInBounds(parts, d, j, p, y);
    UnflatFlat(j, ConcatDims(parts, d));
  }

  lemma GetPermute<T>(t: Tensor<T>, perm: seq<int>, j: seq<int>)
    requires t.Valid() && IsPermutation(perm, |t.dims|)
    requires InBounds(j, PermuteDims(t.dims, perm))
    ensures InBounds(Scatter(j, perm, |t.dims|, 0), t.dims)
    ensures Get(Permute(t, perm), j) == Get(t, Scatter(j, perm, |t.dims|, 0))
  {
    ScatterInBounds(j, t.dims, perm);
    UnflatFlat(j, PermuteDims(t.dims, perm));
  }

  lemma {:induction false} SumNonNegative(w: seq<int>)
    requires NonNegative(w)
    ensures 0 <= Sum(w)
  {
    if w != [] { SumNonNegative(w[..|w|-1]); }
  }

  lemma ScatterInBounds(j: seq<int>, dims: seq<int>, perm: seq<int>)
    requires IsPermutation(perm, |dims|) && InBounds(j, PermuteDims(dims, perm))
    ensures InBounds(Scatter(j, perm, |dims|, 0), dims)
  {
    hide Scatter, Distinct;
    var i := Scatter(j, perm, |dims|, 0);
    forall m | 0 <= m < |dims| ensures 0 <= i[m] < dims[m] { ScatterBound(j, dims, perm, m); }
  }

  lemma ScatterBound(j: seq<int>, dims: seq<int>, perm: seq<int>, m: nat)
    requires IsPermutation(perm, |dims|) && InBounds(j, PermuteDims(dims, perm)) && m < |dims|
    ensures 0 <= Scatter(j, perm, |dims|, 0)[m] < dims[m]
  {
    hide Scatter, Distinct, InBounds;
    Onto(perm, |dims|, m);
    var k :| 0 <= k < |perm| && perm[k] == m;
    ScatterAt(j, dims, perm, k);
  }

  lemma ScatterAt(j: seq<int>, dims: seq<int>, perm: seq<int>, k: nat)
    requires IsPermutation(perm, |dims|) && InBounds(j, PermuteDims(dims, perm)) && k < |perm|
    ensures 0 <= perm[k] < |dims| && 0 <= Scatter(j, perm, |dims|, 0)[perm[k]] < dims[perm[k]]
  {
    hide Scatter, Distinct;
    assert Scatter(j, perm, |dims|, 0)[perm[k]] == j[k];
    assert 0 <= j[k] < PermuteDims(dims, perm)[k];
  }

  /** Multiplying in one more axis. */
  lemma {:induction false} SizeUpdate(dims: seq<int>, k: nat, v: int)
    requires k < |dims| && dims[k] == 1
    ensures Size(dims[k := v]) == Size(dims) * v
  {
    SizeAxis(dims, k);
    SizeAxis(dims[k := v], k);
    assert dims[k := v][..k] == dims[..k] && dims[k := v][k+1..] == dims[k+1..];
    var a, b := Size(dims[..k]), Size(dims[k+1..]);
    assert a * 1 * b == a * b;
    assert a * v * b == a * b * v;
  }

  lemma {:induction false} SizeOnes(dims: seq<int>)
    requires forall k :: 0 <= k < |dims| ==> dims[k] == 1
    ensures Size(dims) == 1
  {
    if dims != [] { SizeOnes(dims[1..]); }
  }

  lemma {:induction false} SizeScatter(j: seq<int>, p: seq<int>, n: nat)
    requires |j| == |p| && Distinct(p) && forall k :: 0 <= k < |p| ==> 0 <= p[k] < n
    ensures Size(Scatter(j, p, n, 1)) == Size(j)
  {
    if p == [] {
      SizeOnes(Scatter(j, p, n, 1));
    } else {
      var t := |p| - 1;
      SizeScatter(j[..t], p[..t], n);
      assert p[t] !in p[..t];
      SizeUpdate(Scatter(j[..t], p[..t], n, 1), p[t], j[t]);
      SizeSplit(j, t);
      assert j[t..] == [j[t]] && [j[t]][1..] == [];
      assert Size([j[t]]) == j[t] * Size([]) == j[t];
    }
  }

  lemma SizePermute(dims: seq<int>, perm: seq<int>)
    requires IsPermutation(perm, |dims|)
    ensures Size(PermuteDims(dims, perm)) == Size(dims)
  {
    SizeScatter(PermuteDims(dims, perm), perm, |dims|);
    ScatterUnique(PermuteDims(dims, perm), perm, |dims|, 1, dims);
  }

  /** Walking the output with permuted strides visits the source position of the scattered index. */
  lemma {:induction false} DotScatter(j: seq<int>, p: seq<int>, strides: seq<int>, picked: seq<int>)
    requires |j| == |p| == |picked| && Distinct(p)
    requires forall k :: 0 <= k < |p| ==> 0 <= p[k] < |strides| && picked[k] == strides[p[k]]
    ensures Dot(j, picked) == Dot(Scatter(j, p, |strides|, 0), strides)
  {
    if p == [] {
      DotZero(Scatter(j, p, |strides|, 0), strides);
    } else {
      var t := |p| - 1;
      DotScatter(j[..t], p[..t], strides, picked[..t]);
      assert p[t] !in p[..t];
      DotUpdate(Scatter(j[..t], p[..t], |strides|, 0), strides, p[t], j[t]);
      DotSnoc(j, picked);
    }
  }

  lemma {:induction false} DotSnoc(i: seq<int>, strides: seq<int>)
    requires |i| == |strides| > 0
    ensures Dot(i, strides) == Dot(i[..|i|-1], strides[..|i|-1]) + i[|i|-1] * strides[|i|-1]
  {
    var t := |i| - 1;
    if t > 0 {
      DotSnoc(i[1..], strides[1..]);
      assert i[1..][..t-1] == i[..t][1..] && strides[1..][..t-1] == strides[..t][1..];
    }
  }
}
