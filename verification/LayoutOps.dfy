/** compatmigrate/tensor_layout.go: the block copies and the odometer, proved against TensorLayout. */
module LayoutOps {
  import opened RowMajor
  import opened Permutations
  import opened TensorLayout

  method TensorSize(dims: seq<int>) returns (n: int)
    ensures n == Size(dims)
  {
    n := 1;
    for i := 0 to |dims|
      invariant n * Size(dims[i..]) == Size(dims)
    {
      assert dims[i..][1..] == dims[i+1..];
      MulAssociative(n, dims[i], Size(dims[i+1..]));
      n := n * dims[i];
    }
  }

  /** The error checkTensorDims reports, if any. */
  function DimsError<T>(t: Tensor<T>): Result<()> {
    if !NonNegative(t.dims) then Err(NegativeDim)
    else if |t.data| != Size(t.dims) then Err(WrongLength)
    else Ok(())
  }

  method CheckTensorDims<T>(t: Tensor<T>) returns (r: Result<()>)
    ensures r == DimsError(t)
    ensures r.Ok? <==> t.Valid()
  {
    for i := 0 to |t.dims|
      invariant forall k :: 0 <= k < i ==> 0 <= t.dims[k]
    {
      if t.dims[i] < 0 {
        return Err(NegativeDim);
      }
    }
    var want := TensorSize(t.dims);
    if |t.data| != want {
      return Err(WrongLength);
    }
    return Ok(());
  }

  // ----- rows of equal width

  function Row<T>(s: seq<T>, q: int, width: int): (r: seq<T>)
    requires 0 <= q && 0 <= width && (q + 1) * width <= |s|
    ensures |r| == width
    ensures 0 <= q * width
    ensures forall w :: 0 <= w < width ==> r[w] == s[q * width + w]
  {
    MulNonNegative(q, width);
    MulDistributes(q, 1, width);
    s[q * width..(q + 1) * width]
  }

  lemma RowInRange(q: int, n: int, width: int)
    requires 0 <= q < n && 0 <= width
    ensures 0 <= q * width <= (q + 1) * width <= n * width
  {
    MulNonNegative(q, width);
    MulMonotone(q, q + 1, width);
    MulMonotone(q + 1, n, width);
  }

  lemma RowRead<T>(s: seq<T>, q: int, width: int, x: int)
    requires 0 <= q && 0 <= x < width && (q + 1) * width <= |s|
    ensures 0 <= q * width + x < |s| && Row(s, q, width)[x] == s[q * width + x]
  {
    MulNonNegative(q, width);
    MulDistributes(q, 1, width);
  }

  lemma GetAt<T>(t: Tensor<T>, i: seq<int>, n: int)
    requires t.Valid() && InBounds(i, t.dims) && n == Flat(i, t.dims)
    ensures 0 <= n < |t.data| && Get(t, i) == t.data[n]
  {
    FlatInRange(i, t.dims);
  }

  lemma RowAppend<T>(s: seq<T>, x: seq<T>, n: nat, width: nat)
    requires |s| == n * width && |x| == width
    ensures |s + x| == (n + 1) * width
    ensures Row(s + x, n, width) == x
  {
    MulDistributes(n, 1, width);
  }

  lemma RowKept<T>(s: seq<T>, x: seq<T>, q: nat, width: nat)
    requires (q + 1) * width <= |s|
    ensures (q + 1) * width <= |s + x| && Row(s + x, q, width) == Row(s, q, width)
  {
    MulDistributes(q, 1, width);
    MulNonNegative(q, width);
  }

  /** Row q of out is the window [start, end) of outer block q. */
  ghost predicate SliceRow<T>(out: seq<T>, data: seq<T>, dim: int, inner: int, start: int, width: int, q: int) {
    && 0 <= q && 0 <= width && (q + 1) * width <= |out|
    && 0 <= (q * dim + start) * inner <= (q * dim + start) * inner + width <= |data|
    && Row(out, q, width) == data[(q * dim + start) * inner..(q * dim + start) * inner + width]
  }

  /** out is the outer slices of data, row by row. */
  ghost predicate RowsAreSlices<T>(out: seq<T>, t: Tensor<T>, d: nat, start: int, end: int, n: int)
    requires t.Valid() && d < |t.dims| && 0 <= start <= end <= t.dims[d]
  {
    var inner := Size(t.dims[d+1..]);
    var width := (end - start) * inner;
    && 0 <= width && |out| == n * width
    && forall q :: 0 <= q < n ==> SliceRow(out, t.data, t.dims[d], inner, start, width, q)
  }

  lemma SliceRowStep<T>(out: seq<T>, t: Tensor<T>, d: nat, start: int, end: int, o: nat)
    requires t.Valid() && d < |t.dims| && 0 <= start <= end <= t.dims[d] && o < Size(t.dims[..d])
    requires RowsAreSlices(out, t, d, start, end, o)
    ensures var inner := Size(t.dims[d+1..]);
      var base, width := (o * t.dims[d] + start) * inner, (end - start) * inner;
      && 0 <= base <= base + width <= |t.data|
      && RowsAreSlices(out + t.data[base..base + width], t, d, start, end, o + 1)
  {
    var inner := Size(t.dims[d+1..]);
    var base, width := (o * t.dims[d] + start) * inner, (end - start) * inner;
    SizeAxis(t.dims, d);
    SizeNonNegative(t.dims[d+1..]);
    WindowOfRow(o, Size(t.dims[..d]), t.dims[d], start, end, inner);
    var x := t.data[base..base + width];
    RowAppend(out, x, o, width);
    forall q | 0 <= q < o + 1
      ensures SliceRow(out + x, t.data, t.dims[d], inner, start, width, q)
    {
      if q < o {
        assert SliceRow(out, t.data, t.dims[d], inner, start, width, q);
        RowKept(out, x, q, width);
      }
    }
  }

  lemma WindowOfRow(q: int, outer: int, dim: int, start: int, end: int, inner: int)
    requires 0 <= q < outer && 0 <= start <= end <= dim && 0 <= inner
    ensures 0 <= (q * dim + start) * inner
    ensures (q * dim + start) * inner + (end - start) * inner <= outer * dim * inner
  {
    MulNonNegative(q, dim);
    MulNonNegative(q * dim + start, inner);
    MulDistributes(q * dim + start, end - start, inner);
    MulDistributes(q, 1, dim);
    MulMonotone(q + 1, outer, dim);
    MulMonotone(q * dim + end, outer * dim, inner);
  }

  /** Where index j of a slice and index i of its source lie in their rows. */
  lemma SlicePositions(j: seq<int>, i: seq<int>, dims: seq<int>, source: seq<int>, d: nat, start: int)
    returns (q: int, w: int)
    requires |source| == |dims| && d < |dims| && InBounds(j, dims) && i == j[d := j[d] + start]
    requires dims[..d] == source[..d] && dims[d+1..] == source[d+1..] && 0 <= start <= start + dims[d] <= source[d]
    ensures 0 <= q < Size(source[..d]) && 0 <= w < dims[d] * Size(source[d+1..])
    ensures Flat(j, dims) == q * (dims[d] * Size(source[d+1..])) + w
    ensures Flat(i, source) == (q * source[d] + start) * Size(source[d+1..]) + w
  {
    var inner := Size(source[d+1..]);
    assert i[..d] == j[..d] && i[d+1..] == j[d+1..];
    AxisParts(j, dims, d);
    var z := Flat(j[d+1..], dims[d+1..]);
    q, w := Flat(j[..d], dims[..d]), j[d] * inner + z;
    FlatAxis(j, dims, d);
    FlatAxis(i, source, d);
    RowPosition(q, dims[d], j[d], inner, z);
    MulDistributes(q * source[d] + start, j[d], inner);
  }

  lemma SliceFromRowsAt<T>(out: seq<T>, t: Tensor<T>, d: nat, start: int, end: int, j: seq<int>)
    requires t.Valid() && d < |t.dims| && 0 <= start <= end <= t.dims[d]
    requires RowsAreSlices(out, t, d, start, end, Size(t.dims[..d]))
    requires InBounds(j, t.dims[d := end - start]) && InBounds(j[d := j[d] + start], t.dims)
    requires Tensor(out, t.dims[d := end - start]).Valid()
    ensures Get(Tensor(out, t.dims[d := end - start]), j) == Get(t, j[d := j[d] + start])
  {
    hide Size;
    var dims, i := t.dims[d := end - start], j[d := j[d] + start];
    var inner := Size(t.dims[d+1..]);
    assert dims[..d] == t.dims[..d] && dims[d+1..] == t.dims[d+1..];
    var q, w := SlicePositions(j, i, dims, t.dims, d, start);
    SliceRowRead(out, t.data, t.dims[d], inner, start, (end - start) * inner, q, w);
    GetAt(Tensor(out, dims), j, q * ((end - start) * inner) + w);
    GetAt(t, i, (q * t.dims[d] + start) * inner + w);
  }

  lemma SliceRowRead<T>(out: seq<T>, data: seq<T>, dim: int, inner: int, start: int, width: int, q: int, w: int)
    requires SliceRow(out, data, dim, inner, start, width, q) && 0 <= w < width
    ensures 0 <= q * width + w < |out| && 0 <= (q * dim + start) * inner + w < |data|
    ensures out[q * width + w] == data[(q * dim + start) * inner + w]
  {
    RowRead(out, q, width, w);
  }

  /** The block, axis and offset coordinates of an in-bounds index. */
  lemma AxisParts(j: seq<int>, dims: seq<int>, d: nat)
    requires InBounds(j, dims) && d < |dims|
    ensures 0 <= Flat(j[..d], dims[..d]) < Size(dims[..d])
    ensures 0 <= j[d] < dims[d]
    ensures 0 <= Flat(j[d+1..], dims[d+1..]) < Size(dims[d+1..])
  {
    FlatInRange(j[..d], dims[..d]);
    FlatInRange(j[d+1..], dims[d+1..]);
  }

  lemma RowPosition(q: int, dim: int, x: int, inner: int, z: int)
    requires 0 <= x < dim && 0 <= z < inner
    ensures (q * dim + x) * inner + z == q * (dim * inner) + (x * inner + z)
    ensures 0 <= x * inner + z < dim * inner
  {
    MulDistributes(q * dim, x, inner);
    MulAssociative(q, dim, inner);
    MulNonNegative(x, inner);
    MulMonotone(x + 1, dim, inner);
    MulDistributes(x, 1, inner);
  }

  lemma SliceFromRows<T>(out: seq<T>, t: Tensor<T>, d: nat, start: int, end: int)
    requires t.Valid() && d < |t.dims| && 0 <= start <= end <= t.dims[d]
    requires RowsAreSlices(out, t, d, start, end, Size(t.dims[..d]))
    ensures out == Slice(t, d, start, end).data
  {
    var dims := t.dims[d := end - start];
    var r := Tensor(out, dims);
    SizeAxis(dims, d);
    assert dims[..d] == t.dims[..d] && dims[d+1..] == t.dims[d+1..];
    MulAssociative(Size(dims[..d]), dims[d], Size(dims[d+1..]));
    forall j | InBounds(j, dims) ensures Get(r, j) == Get(Slice(t, d, start, end), j) {
      GetSlice(t, d, start, end, j);
      SliceFromRowsAt(out, t, d, start, end, j);
    }
    SameTensor(r, Slice(t, d, start, end));
  }

  function SliceError<T>(t: Tensor<T>, dim: int): LayoutError {
    if DimsError(t).Err? then DimsError(t).error
    else if 0 <= dim < |t.dims| then WindowOutOfRange
    else DimOutOfRange
  }

  method SliceTensorDim<T>(t: Tensor<T>, dim: int, start: int, end: int) returns (r: Result<seq<T>>)
    ensures r.Ok? <==> t.Valid() && 0 <= dim < |t.dims| && 0 <= start <= end <= t.dims[dim]
    ensures r.Ok? ==> r.value == Slice(t, dim, start, end).data
    ensures r.Err? ==> r.error == SliceError(t, dim)
  {
    var e := CheckTensorDims(t);
    if e.Err? {
      return Err(e.error);
    }
    if dim < 0 || dim >= |t.dims| {
      return Err(DimOutOfRange);
    }
    if start < 0 || end < start || end > t.dims[dim] {
      return Err(WindowOutOfRange);
    }
    var outer := TensorSize(t.dims[..dim]);
    var inner := TensorSize(t.dims[dim+1..]);
    SizeNonNegative(t.dims[..dim]);
    SizeNonNegative(t.dims[dim+1..]);
    MulNonNegative(end - start, inner);
    var width := (end - start) * inner;
    var out: seq<T> := [];
    for o := 0 to outer
      invariant RowsAreSlices(out, t, dim, start, end, o)
    {
      var base := (o * t.dims[dim] + start) * inner;
      SliceRowStep(out, t, dim, start, end, o);
      out := out + t.data[base..base + width];
    }
    SliceFromRows(out, t, dim, start, end);
    return Ok(out);
  }

  // ----- concatenation

  /** Pieces side by side. */
  function Join<T>(rows: seq<seq<T>>): seq<T> {
    if rows == [] then [] else Join(rows[..|rows|-1]) + rows[|rows|-1]
  }

  lemma {:induction false} JoinAt<T>(rows: seq<seq<T>>, p: nat, x: nat)
    requires p < |rows| && x < |rows[p]|
    ensures |Join(rows[..p])| + x < |Join(rows)|
    ensures Join(rows)[|Join(rows[..p])| + x] == rows[p][x]
  {
    var n := |rows| - 1;
    if p < n {
      JoinAt(rows[..n], p, x);
      assert rows[..n][..p] == rows[..p];
    }
  }

  lemma PartRow<T>(parts: seq<Tensor<T>>, d: nat, p: nat, q: int)
    requires Compatible(parts, d) && p < |parts| && 0 <= q < Size(parts[0].dims[..d])
    ensures 0 <= parts[p].dims[d] * Size(parts[0].dims[d+1..])
    ensures 0 <= q * (parts[p].dims[d] * Size(parts[0].dims[d+1..]))
    ensures (q + 1) * (parts[p].dims[d] * Size(parts[0].dims[d+1..])) <= |parts[p].data|
    ensures parts[p].dims[..d] == parts[0].dims[..d] && parts[p].dims[d+1..] == parts[0].dims[d+1..]
  {
    assert Fits(parts[p], parts[0].dims, d);
    var dims := parts[p].dims;
    assert dims[..d] == parts[0].dims[..d] && dims[d+1..] == parts[0].dims[d+1..];
    SizeAxis(dims, d);
    SizeNonNegative(dims[d+1..]);
    MulNonNegative(dims[d], Size(dims[d+1..]));
    MulAssociative(Size(dims[..d]), dims[d], Size(dims[d+1..]));
    RowInRange(q, Size(dims[..d]), dims[d] * Size(dims[d+1..]));
  }

  /** Row q of every part. */
  function PartRows<T>(parts: seq<Tensor<T>>, d: nat, q: int): (rows: seq<seq<T>>)
    requires Compatible(parts, d) && 0 <= q < Size(parts[0].dims[..d])
    ensures |rows| == |parts|
    ensures forall p :: 0 <= p < |rows| ==> |rows[p]| == parts[p].dims[d] * Size(parts[0].dims[d+1..])
  {
    seq(|parts|, p requires 0 <= p < |parts| =>
      PartRow(parts, d, p, q);
      Row(parts[p].data, q, parts[p].dims[d] * Size(parts[0].dims[d+1..])))
  }

  lemma {:induction false} JoinLength<T>(parts: seq<Tensor<T>>, d: nat, q: int, n: nat)
    requires Compatible(parts, d) && n <= |parts| && 0 <= q < Size(parts[0].dims[..d])
    ensures |Join(PartRows(parts, d, q)[..n])| == Sum(Widths(parts, d)[..n]) * Size(parts[0].dims[d+1..])
  {
    hide Size;
    if n > 0 {
      var rows, w := PartRows(parts, d, q), Widths(parts, d);
      JoinLength(parts, d, q, n - 1);
      assert rows[..n][..n-1] == rows[..n-1];
      SumOfPrefix(w, n - 1);
      MulDistributes(Sum(w[..n-1]), w[n-1], Size(parts[0].dims[d+1..]));
    }
  }

  /** Row q of out is row q of every part, side by side. */
  ghost predicate JoinedRow<T>(out: seq<T>, parts: seq<Tensor<T>>, d: nat, width: int, q: int)
    requires Compatible(parts, d)
  {
    && 0 <= q < Size(parts[0].dims[..d]) && 0 <= width && (q + 1) * width <= |out|
    && Row(out, q, width) == Join(PartRows(parts, d, q))
  }

  ghost predicate RowsAreJoined<T>(out: seq<T>, parts: seq<Tensor<T>>, d: nat, n: int)
    requires Compatible(parts, d) && n <= Size(parts[0].dims[..d])
  {
    var width := Sum(Widths(parts, d)) * Size(parts[0].dims[d+1..]);
    && 0 <= width && |out| == n * width
    && forall q :: 0 <= q < n ==> JoinedRow(out, parts, d, width, q)
  }

  /** A piece's element inside the joined row q of the output. */
  lemma JoinedAt<T>(out: seq<T>, rows: seq<seq<T>>, w: seq<int>, inner: int, q: int, p: nat, y: int, z: int)
    requires NonNegative(w) && p < |w| == |rows| && 0 <= q && 0 <= y < w[p] && 0 <= z < inner
    requires 0 <= Sum(w) * inner && (q + 1) * (Sum(w) * inner) <= |out|
    requires Row(out, q, Sum(w) * inner) == Join(rows)
    requires |Join(rows[..p])| == Sum(w[..p]) * inner && |rows[p]| == w[p] * inner
    ensures 0 <= y * inner + z < |rows[p]|
    ensures 0 <= (q * Sum(w) + (Sum(w[..p]) + y)) * inner + z < |out|
    ensures out[(q * Sum(w) + (Sum(w[..p]) + y)) * inner + z] == rows[p][y * inner + z]
  {
    RowPosition(q, w[p], y, inner, z);
    JoinAt(rows, p, y * inner + z);
    PieceBound(w, p, y);
    RowPosition(q, Sum(w), Sum(w[..p]) + y, inner, z);
    MulDistributes(Sum(w[..p]), y, inner);
    RowRead(out, q, Sum(w) * inner, (Sum(w[..p]) + y) * inner + z);
  }

  lemma PartRowAt<T>(parts: seq<Tensor<T>>, d: nat, q: int, p: nat, y: int, z: int)
    requires Compatible(parts, d) && p < |parts| && 0 <= q < Size(parts[0].dims[..d])
    requires 0 <= y < parts[p].dims[d] && 0 <= z < Size(parts[0].dims[d+1..])
    ensures var inner := Size(parts[0].dims[d+1..]);
      && 0 <= y * inner + z < |PartRows(parts, d, q)[p]|
      && 0 <= (q * parts[p].dims[d] + y) * inner + z < |parts[p].data|
      && PartRows(parts, d, q)[p][y * inner + z] == parts[p].data[(q * parts[p].dims[d] + y) * inner + z]
  {
    var inner, v := Size(parts[0].dims[d+1..]), parts[p].dims[d];
    PartRow(parts, d, p, q);
    RowPosition(q, v, y, inner, z);
    RowRead(parts[p].data, q, v * inner, y * inner + z);
  }

  lemma {:induction false} PieceBound(w: seq<int>, p: nat, y: int)
    requires NonNegative(w) && p < |w| && 0 <= y < w[p]
    ensures 0 <= Sum(w[..p]) + y < Sum(w)
  {
    SumNonNegative(w[..p]);
    var n := |w| - 1;
    if p < n {
      assert w[..n][..p] == w[..p];
      PieceBound(w[..n], p, y);
    }
  }

  /** Block and offset of an index, shared by every tensor that differs only along axis d. */
  lemma BlockAndOffset(j: seq<int>, dims: seq<int>, d: nat, like: seq<int>) returns (q: int, z: int)
    requires InBounds(j, dims) && d < |dims| == |like|
    requires dims[..d] == like[..d] && dims[d+1..] == like[d+1..]
    ensures 0 <= q < Size(like[..d]) && 0 <= z < Size(like[d+1..])
    ensures q == Flat(j[..d], like[..d]) && z == Flat(j[d+1..], like[d+1..])
    ensures 0 <= j[d] < dims[d]
    ensures Flat(j, dims) == (q * dims[d] + j[d]) * Size(like[d+1..]) + z
  {
    AxisParts(j, dims, d);
    FlatAxis(j, dims, d);
    q, z := Flat(j[..d], dims[..d]), Flat(j[d+1..], dims[d+1..]);
  }

  lemma ConcatFromRowsAt<T>(out: seq<T>, parts: seq<Tensor<T>>, d: nat, j: seq<int>, p: nat, y: int)
    requires Compatible(parts, d) && RowsAreJoined(out, parts, d, Size(parts[0].dims[..d]))
    requires InBounds(j, ConcatDims(parts, d)) && Tensor(out, ConcatDims(parts, d)).Valid()
    requires p < |parts| && 0 <= y < Widths(parts, d)[p] && j[d] == Sum(Widths(parts, d)[..p]) + y
    requires InBounds(j[d := y], parts[p].dims)
    ensures parts[p].Valid() && Get(Tensor(out, ConcatDims(parts, d)), j) == Get(parts[p], j[d := y])
  {
    hide Size, RowsAreJoined, Sum;
    assert Fits(parts[p], parts[0].dims, d);
    var w, like := Widths(parts, d), parts[0].dims;
    var q, z := BlockAndOffset(j, ConcatDims(parts, d), d, like);
    var q', z' := BlockAndOffset(j[d := y], parts[p].dims, d, like);
    assert q' == q && z' == z by {
      assert j[d := y][..d] == j[..d] && j[d := y][d+1..] == j[d+1..];
    }
    PartAtWindow(out, parts, d, q, j[d], p, y, z);
    var inner := Size(like[d+1..]);
    GetAt(Tensor(out, ConcatDims(parts, d)), j, (q * ConcatDims(parts, d)[d] + j[d]) * inner + z);
    GetAt(parts[p], j[d := y], (q * parts[p].dims[d] + y) * inner + z);
  }

  /** The same element of part p, in the output and in the part. */
  lemma PartAtWindow<T>(out: seq<T>, parts: seq<Tensor<T>>, d: nat, q: int, x: int, p: nat, y: int, z: int)
    requires Compatible(parts, d) && RowsAreJoined(out, parts, d, Size(parts[0].dims[..d]))
    requires 0 <= q < Size(parts[0].dims[..d]) && p < |parts| && x == Sum(Widths(parts, d)[..p]) + y
    requires 0 <= y < parts[p].dims[d] && 0 <= z < Size(parts[0].dims[d+1..])
    ensures var inner := Size(parts[0].dims[d+1..]);
      var a := (q * ConcatDims(parts, d)[d] + x) * inner + z;
      var b := (q * parts[p].dims[d] + y) * inner + z;
      0 <= a < |out| && 0 <= b < |parts[p].data| && out[a] == parts[p].data[b]
  {
    hide Size, Sum, Join, PartRows;
    var inner, w, rows := Size(parts[0].dims[d+1..]), Widths(parts, d), PartRows(parts, d, q);
    assert |Join(rows[..p])| == Sum(w[..p]) * inner by { JoinLength(parts, d, q, p); }
    assert JoinedRow(out, parts, d, Sum(w) * inner, q);
    JoinedAt(out, rows, w, inner, q, p, y, z);
    assert rows[p][y * inner + z] == parts[p].data[(q * parts[p].dims[d] + y) * inner + z] by {
      PartRowAt(parts, d, q, p, y, z);
    }
    PartRowAt(parts, d, q, p, y, z);
  }

  lemma ConcatFromRows<T>(out: seq<T>, parts: seq<Tensor<T>>, d: nat)
    requires Compatible(parts, d) && RowsAreJoined(out, parts, d, Size(parts[0].dims[..d]))
    ensures Tensor(out, ConcatDims(parts, d)) == Concat(parts, d)
  {
    var dims := ConcatDims(parts, d);
    SizeAxis(dims, d);
    assert dims[..d] == parts[0].dims[..d] && dims[d+1..] == parts[0].dims[d+1..];
    MulAssociative(Size(dims[..d]), dims[d], Size(dims[d+1..]));
    forall j | InBounds(j, dims) ensures Get(Tensor(out, dims), j) == Get(Concat(parts, d), j) {
      assert 0 <= j[d] < dims[d];
      var (p, y) := Locate(Widths(parts, d), j[d]);
      GetConcat(parts, d, j, p, y);
      ConcatFromRowsAt(out, parts, d, j, p, y);
    }
    SameTensor(Tensor(out, dims), Concat(parts, d));
  }

  lemma RowsAreJoinedStep<T>(out: seq<T>, parts: seq<Tensor<T>>, d: nat, o: nat)
    requires Compatible(parts, d) && o < Size(parts[0].dims[..d]) && RowsAreJoined(out, parts, d, o)
    ensures RowsAreJoined(out + Join(PartRows(parts, d, o)), parts, d, o + 1)
  {
    hide Fits, JoinedRow, Size, Sum, Join, PartRows;
    var width := Sum(Widths(parts, d)) * Size(parts[0].dims[d+1..]);
    var row := Join(PartRows(parts, d, o));
    JoinedLength(parts, d, o);
    RowAppend(out, row, o, width);
    forall q | 0 <= q < o + 1 ensures JoinedRow(out + row, parts, d, width, q) {
      if q < o {
        assert JoinedRow(out, parts, d, width, q);
        JoinedRowKept(out, row, parts, d, width, q);
      } else {
        JoinedRowLast(out + row, parts, d, width, o);
      }
    }
  }

  lemma JoinedLength<T>(parts: seq<Tensor<T>>, d: nat, o: nat)
    requires Compatible(parts, d) && o < Size(parts[0].dims[..d])
    ensures 0 <= |Join(PartRows(parts, d, o))| == Sum(Widths(parts, d)) * Size(parts[0].dims[d+1..])
  {
    hide Size, Sum, Join;
    var rows, w := PartRows(parts, d, o), Widths(parts, d);
    assert rows[..|parts|] == rows && w[..|w|] == w;
    JoinLength(parts, d, o, |parts|);
  }

  lemma JoinedRowKept<T>(out: seq<T>, x: seq<T>, parts: seq<Tensor<T>>, d: nat, width: int, q: int)
    requires Compatible(parts, d) && JoinedRow(out, parts, d, width, q)
    ensures JoinedRow(out + x, parts, d, width, q)
  {
    hide Fits, Size, Join, PartRows;
    RowKept(out, x, q, width);
  }

  lemma JoinedRowLast<T>(out: seq<T>, parts: seq<Tensor<T>>, d: nat, width: int, q: nat)
    requires Compatible(parts, d) && q < Size(parts[0].dims[..d]) && 0 <= width && |out| == (q + 1) * width
    requires Row(out, q, width) == Join(PartRows(parts, d, q))
    ensures JoinedRow(out, parts, d, width, q)
  {}

  lemma SumOfPrefix(w: seq<int>, n: nat)
    requires n < |w|
    ensures Sum(w[..n+1]) == Sum(w[..n]) + w[n]
  {
    assert w[..n+1][..n] == w[..n];
  }

  /** The extents of the first n parts. */
  function ExtentsOf<T>(parts: seq<Tensor<T>>, dim: nat, n: nat): (w: seq<int>)
    requires n <= |parts|
    ensures |w| == n
  {
    seq(n, p requires 0 <= p < n => if dim < |parts[p].dims| then parts[p].dims[dim] else 0)
  }

  lemma NextExtent<T>(parts: seq<Tensor<T>>, dim: nat, n: nat)
    requires n < |parts| && dim < |parts[n].dims|
    ensures Sum(ExtentsOf(parts, dim, n + 1)) == Sum(ExtentsOf(parts, dim, n)) + parts[n].dims[dim]
  {
    var w := ExtentsOf(parts, dim, n + 1);
    SumOfPrefix(w, n);
    assert w[..n + 1] == w && w[..n] == ExtentsOf(parts, dim, n);
  }

  lemma AllExtents<T>(parts: seq<Tensor<T>>, dim: nat, dims: seq<int>)
    requires Compatible(parts, dim) && |dims| == |parts[0].dims| && dims[dim] == Sum(ExtentsOf(parts, dim, |parts|))
    requires forall k :: 0 <= k < |dims| && k != dim ==> dims[k] == parts[0].dims[k]
    ensures dims == ConcatDims(parts, dim)
  {
    hide Sum;
    assert Widths(parts, dim) == ExtentsOf(parts, dim, |parts|);
  }

  lemma NoExtents<T>(parts: seq<Tensor<T>>, dim: nat)
    ensures Sum(ExtentsOf(parts, dim, 0)) == 0
  {}

  /** One part's checks: its own dims, and their agreement with the others' away from dim. */
  method CheckPart<T>(p: Tensor<T>, dims: seq<int>, dim: nat, ghost like: seq<int>) returns (r: Result<()>)
    requires |dims| == |like| && forall k :: 0 <= k < |dims| && k != dim ==> dims[k] == like[k]
    ensures r.Ok? <==> Fits(p, like, dim)
  {
    hide DimsError;
    var e := CheckTensorDims(p);
    if e.Err? {
      return Err(e.error);
    }
    if |p.dims| != |dims| {
      return Err(RankMismatch);
    }
    for i := 0 to |dims|
      invariant forall k :: 0 <= k < i && k != dim ==> p.dims[k] == dims[k]
    {
      if i != dim && p.dims[i] != dims[i] {
        return Err(IncompatibleDims);
      }
    }
    return Ok(());
  }

  /** The prefix checks of concatTensorDim: every part fits and the axis extents add up. */
  method CheckConcat<T>(dim: nat, parts: seq<Tensor<T>>) returns (r: Result<seq<int>>)
    requires |parts| > 0 && dim < |parts[0].dims|
    ensures r.Ok? <==> Compatible(parts, dim)
    ensures r.Ok? ==> r.value == ConcatDims(parts, dim)
  {
    hide Sum, ExtentsOf, ConcatDims;
    var dims := parts[0].dims[dim := 0];
    NoExtents(parts, dim);
    for n := 0 to |parts|
      invariant forall p :: 0 <= p < n ==> Fits(parts[p], parts[0].dims, dim)
      invariant |dims| == |parts[0].dims| && dims[dim] == Sum(ExtentsOf(parts, dim, n))
      invariant forall k :: 0 <= k < |dims| && k != dim ==> dims[k] == parts[0].dims[k]
    {
      var p := parts[n];
      var e := CheckPart(p, dims, dim, parts[0].dims);
      if e.Err? {
        return Err(e.error);
      }
      NextExtent(parts, dim, n);
      dims := dims[dim := dims[dim] + p.dims[dim]];
    }
    AllExtents(parts, dim, dims);
    return Ok(dims);
  }

  lemma NextPiece<T>(parts: seq<Tensor<T>>, d: nat, n: nat, o: int, span: int)
    requires Compatible(parts, d) && n < |parts| && 0 <= o < Size(parts[0].dims[..d])
    requires span == parts[n].dims[d] * Size(parts[0].dims[d+1..])
    ensures 0 <= o * span <= (o + 1) * span <= |parts[n].data|
    ensures Join(PartRows(parts, d, o)[..n+1])
         == Join(PartRows(parts, d, o)[..n]) + parts[n].data[o * span..(o + 1) * span]
  {
    var rows := PartRows(parts, d, o);
    PartRow(parts, d, n, o);
    MulDistributes(o, 1, span);
    assert rows[..n+1][..n] == rows[..n];
  }

  /** The inner copy loop: row o of every part. */
  method CopyRows<T>(out0: seq<T>, dim: nat, parts: seq<Tensor<T>>, o: nat, inner: nat) returns (out: seq<T>)
    requires Compatible(parts, dim) && o < Size(parts[0].dims[..dim]) && inner == Size(parts[0].dims[dim+1..])
    ensures out == out0 + Join(PartRows(parts, dim, o))
  {
    out := out0;
    ghost var rows := PartRows(parts, dim, o);
    for n := 0 to |parts|
      invariant out == out0 + Join(rows[..n])
    {
      var p := parts[n];
      var span := p.dims[dim] * inner;
      NextPiece(parts, dim, n, o, span);
      out := out + p.data[o * span..(o + 1) * span];
    }
    assert rows[..|parts|] == rows;
  }

  /** The copy loops: every part's row o, for each o in turn. */
  method ConcatRows<T>(dim: nat, parts: seq<Tensor<T>>, outer: nat, inner: nat) returns (out: seq<T>)
    requires Compatible(parts, dim)
    requires outer == Size(parts[0].dims[..dim]) && inner == Size(parts[0].dims[dim+1..])
    ensures RowsAreJoined(out, parts, dim, outer)
  {
    SumNonNegative(Widths(parts, dim));
    MulNonNegative(Sum(Widths(parts, dim)), inner);
    out := [];
    for o := 0 to outer
      invariant RowsAreJoined(out, parts, dim, o)
    {
      RowsAreJoinedStep(out, parts, dim, o);
      out := CopyRows(out, dim, parts, o, inner);
    }
  }

  method ConcatTensorDim<T>(dim: int, parts: seq<Tensor<T>>) returns (r: Result<Tensor<T>>)
    ensures r.Ok? <==> Compatible(parts, dim)
    ensures r.Ok? ==> r.value == Concat(parts, dim)
    ensures parts == [] ==> r == Err(NoTensors)
    ensures parts != [] && !(0 <= dim < |parts[0].dims|) ==> r == Err(DimOutOfRange)
  {
    if |parts| == 0 {
      return Err(NoTensors);
    }
    if dim < 0 || dim >= |parts[0].dims| {
      return Err(DimOutOfRange);
    }
    var checked := CheckConcat(dim, parts);
    if checked.Err? {
      return Err(checked.error);
    }
    var dims := checked.value;
    assert dims[..dim] == parts[0].dims[..dim] && dims[dim+1..] == parts[0].dims[dim+1..];
    var outer := TensorSize(dims[..dim]);
    var inner := TensorSize(dims[dim+1..]);
    SizeNonNegative(dims[..dim]);
    SizeNonNegative(dims[dim+1..]);
    var out := ConcatRows(dim, parts, outer, inner);
    ConcatFromRows(out, parts, dim);
    return Ok(Tensor(out, dims));
  }
}
