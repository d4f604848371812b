/** Row-major addressing: dims[0] is the outermost dimension.  A multi-index and its flat position
    determine each other, and a flat position is the dot product of the index with the strides. */
module RowMajor {

  /** Number of elements of a tensor with the given dims; 1 for rank 0. */
  function Size(dims: seq<int>): int {
    if dims == [] then 1 else dims[0] * Size(dims[1..])
  }

  predicate NonNegative(dims: seq<int>) {
    forall k :: 0 <= k < |dims| ==> 0 <= dims[k]
  }

  /** `i` addresses one element of a tensor with the given dims. */
  predicate InBounds(i: seq<int>, dims: seq<int>) {
    |i| == |dims| && forall k :: 0 <= k < |i| ==> 0 <= i[k] < dims[k]
  }

  /** Flat position of a multi-index. */
  function Flat(i: seq<int>, dims: seq<int>): int
    requires |i| == |dims|
  {
    if i == [] then 0 else i[0] * Size(dims[1..]) + Flat(i[1..], dims[1..])
  }

  /** Multi-index of a flat position. */
  function Unflat(n: int, dims: seq<int>): (i: seq<int>)
    requires NonNegative(dims) && 0 <= n < Size(dims)
    ensures InBounds(i, dims)
    ensures Flat(i, dims) == n
    decreases |dims|
  {
    if dims == [] then []
    else
      SizeNonNegative(dims[1..]);
      MulPositive(dims[0], Size(dims[1..]));
      DivideBound(n, dims[0], Size(dims[1..]));
      [n / Size(dims[1..])] + Unflat(n % Size(dims[1..]), dims[1..])
  }

  lemma SizeNonNegative(dims: seq<int>)
    requires NonNegative(dims)
    ensures 0 <= Size(dims)
  {
    if dims != [] {
      SizeNonNegative(dims[1..]);
      MulNonNegative(dims[0], Size(dims[1..]));
    }
  }

  lemma MulNonNegative(a: int, b: int)
    requires 0 <= a && 0 <= b
    ensures 0 <= a * b
  {}

  /** A positive product of non-negative factors has positive factors. */
  lemma MulPositive(a: int, b: int)
    requires 0 <= a && 0 <= b && 0 < a * b
    ensures 0 < a && 0 < b
  {}

  lemma DivideBound(n: int, a: int, b: int)
    requires 0 <= n < a * b && 0 < b
    ensures 0 <= n / b < a && 0 <= n % b < b
  {
    if n / b >= a {
      MulMonotone(a, n / b, b);
    }
  }

  lemma MulMonotone(a: int, b: int, c: int)
    requires a <= b && 0 <= c
    ensures a * c <= b * c
  {}

  /** Flat positions of in-bounds indices stay in range ... */
  lemma {:induction false} FlatInRange(i: seq<int>, dims: seq<int>)
    requires InBounds(i, dims)
    ensures NonNegative(dims)
    ensures 0 <= Flat(i, dims) < Size(dims)
  {
    DimsNonNegative(i, dims);
    if i != [] {
      FlatInRange(i[1..], dims[1..]);
      FlatStep(i[0], dims[0], Size(dims[1..]), Flat(i[1..], dims[1..]));
    }
  }

  lemma DimsNonNegative(i: seq<int>, dims: seq<int>)
    requires InBounds(i, dims)
    ensures NonNegative(dims)
  {
    forall k | 0 <= k < |dims| ensures 0 <= dims[k] {
      assert i[k] < dims[k];
    }
  }

  lemma FlatStep(x: int, dim: int, inner: int, rest: int)
    requires 0 <= x < dim && 0 <= rest < inner
    ensures 0 <= x * inner + rest < dim * inner
  {
    MulMonotone(x + 1, dim, inner);
    MulNonNegative(x, inner);
  }

  /** ... and are distinct, so Unflat inverts Flat. */
  lemma {:induction false} UnflatFlat(i: seq<int>, dims: seq<int>)
    requires InBounds(i, dims)
    ensures NonNegative(dims) && 0 <= Flat(i, dims) < Size(dims)
    ensures Unflat(Flat(i, dims), dims) == i
  {
    FlatInRange(i, dims);
    if i != [] {
      var inner := Size(dims[1..]);
      var rest := Flat(i[1..], dims[1..]);
      FlatInRange(i[1..], dims[1..]);
      DivideSum(i[0], inner, rest);
      UnflatFlat(i[1..], dims[1..]);
      assert i == [i[0]] + i[1..];
    }
  }

  lemma DivideSum(a: int, b: int, r: int)
    requires 0 <= r < b
    ensures (a * b + r) / b == a && (a * b + r) % b == r
  {
    var q := (a * b + r) / b;
    var m := (a * b + r) % b;
    assert (a - q) * b == m - r;
    if a - q >= 1 { MulMonotone(1, a - q, b); }
    if a - q <= -1 { MulMonotone(a - q, -1, b); }
  }

  /** Size and Flat split at any axis. */
  lemma {:induction false} SizeSplit(dims: seq<int>, d: nat)
    requires d <= |dims|
    ensures Size(dims) == Size(dims[..d]) * Size(dims[d..])
  {
    if d == 0 {
      assert dims[..0] == [] && dims[0..] == dims;
    } else {
      SizeSplit(dims[1..], d - 1);
      assert dims[..d][1..] == dims[1..][..d-1];
      assert dims[d..] == dims[1..][d-1..];
      MulAssociative(dims[0], Size(dims[1..][..d-1]), Size(dims[d..]));
    }
  }

  lemma MulAssociative(a: int, b: int, c: int)
    ensures a * (b * c) == (a * b) * c
  {}

  lemma MulDistributes(a: int, b: int, c: int)
    ensures (a + b) * c == a * c + b * c
  {}

  lemma {:induction false} FlatSplit(i: seq<int>, dims: seq<int>, d: nat)
    requires |i| == |dims| && d <= |dims|
    ensures Flat(i, dims) == Flat(i[..d], dims[..d]) * Size(dims[d..]) + Flat(i[d..], dims[d..])
  {
    if d == 0 {
      assert dims[..0] == [] && dims[0..] == dims && i[..0] == [] && i[0..] == i;
    } else {
      FlatSplit(i[1..], dims[1..], d - 1);
      assert dims[..d][1..] == dims[1..][..d-1] && i[..d][1..] == i[1..][..d-1];
      assert dims[d..] == dims[1..][d-1..] && i[d..] == i[1..][d-1..];
      var t := Size(dims[d..]);
      SizeSplit(dims[1..], d - 1);
      MulAssociative(i[0], Size(dims[1..][..d-1]), t);
      MulDistributes(i[0] * Size(dims[1..][..d-1]), Flat(i[1..][..d-1], dims[1..][..d-1]), t);
    }
  }

  /** Flat position written with one axis singled out: block, position along the axis, offset. */
  lemma FlatAxis(i: seq<int>, dims: seq<int>, d: nat)
    requires |i| == |dims| && d < |dims|
    ensures Flat(i, dims)
         == (Flat(i[..d], dims[..d]) * dims[d] + i[d]) * Size(dims[d+1..]) + Flat(i[d+1..], dims[d+1..])
  {
    FlatSplit(i, dims, d);
    assert i[d..][1..] == i[d+1..] && dims[d..][1..] == dims[d+1..];
    var inner := Size(dims[d+1..]);
    MulAssociative(Flat(i[..d], dims[..d]), dims[d], inner);
    MulDistributes(Flat(i[..d], dims[..d]) * dims[d], i[d], inner);
  }

  lemma SizeAxis(dims: seq<int>, d: nat)
    requires d < |dims|
    ensures Size(dims) == Size(dims[..d]) * dims[d] * Size(dims[d+1..])
  {
    SizeSplit(dims, d);
    assert dims[d..][1..] == dims[d+1..];
    MulAssociative(Size(dims[..d]), dims[d], Size(dims[d+1..]));
  }

  // ----- strides

  function Dot(i: seq<int>, strides: seq<int>): int
    requires |i| == |strides|
  {
    if i == [] then 0 else i[0] * strides[0] + Dot(i[1..], strides[1..])
  }

  function Strides(dims: seq<int>): (s: seq<int>)
    ensures |s| == |dims|
    ensures forall k :: 0 <= k < |dims| ==> s[k] == Size(dims[k+1..])
  {
    seq(|dims|, k requires 0 <= k < |dims| => Size(dims[k+1..]))
  }

  lemma {:induction false} DotStrides(i: seq<int>, dims: seq<int>)
    requires |i| == |dims|
    ensures Dot(i, Strides(dims)) == Flat(i, dims)
  {
    if i != [] {
      DotStrides(i[1..], dims[1..]);
      assert Strides(dims)[1..] == Strides(dims[1..]) by {
        forall k | 0 <= k < |dims| - 1
          ensures Strides(dims)[1..][k] == Strides(dims[1..])[k]
        {
          assert dims[k+2..] == dims[1..][k+1..];
        }
      }
    }
  }

  /** Moving one coordinate moves the dot product by that coordinate's stride. */
  lemma {:induction false} DotUpdate(i: seq<int>, strides: seq<int>, k: nat, v: int)
    requires |i| == |strides| && k < |i|
    ensures Dot(i[k := v], strides) == Dot(i, strides) + (v - i[k]) * strides[k]
  {
    if k == 0 {
      assert i[0 := v][1..] == i[1..];
      MulDistributes(v - i[0], i[0], strides[0]);
    } else {
      DotUpdate(i[1..], strides[1..], k - 1, v);
      assert i[k := v][1..] == i[1..][k-1 := v];
    }
  }

  lemma {:induction false} DotZero(i: seq<int>, strides: seq<int>)
    requires |i| == |strides| && forall k :: 0 <= k < |i| ==> i[k] == 0
    ensures Dot(i, strides) == 0
  {
    if i != [] { DotZero(i[1..], strides[1..]); }
  }

  /** The index after `i`: carry out of the axes after `axis`, which are all at their last value. */
  lemma {:induction false} FlatCarry(i: seq<int>, j: seq<int>, dims: seq<int>, axis: nat)
    requires |i| == |j| == |dims| && axis < |dims|
    requires forall k :: 0 <= k < axis ==> j[k] == i[k]
    requires j[axis] == i[axis] + 1
    requires forall k :: axis < k < |dims| ==> i[k] == dims[k] - 1 && j[k] == 0
    ensures Flat(j, dims) == Flat(i, dims) + 1
  {
    if axis == 0 {
      FlatLast(i[1..], dims[1..]);
      FlatZero(j[1..], dims[1..]);
      MulDistributes(i[0], 1, Size(dims[1..]));
    } else {
      FlatCarry(i[1..], j[1..], dims[1..], axis - 1);
    }
  }

  lemma {:induction false} FlatLast(i: seq<int>, dims: seq<int>)
    requires |i| == |dims| && forall k :: 0 <= k < |i| ==> i[k] == dims[k] - 1
    ensures Flat(i, dims) == Size(dims) - 1
  {
    if i != [] {
      FlatLast(i[1..], dims[1..]);
      MulDistributes(i[0], 1, Size(dims[1..]));
    }
  }

  lemma {:induction false} FlatZero(i: seq<int>, dims: seq<int>)
    requires |i| == |dims| && forall k :: 0 <= k < |i| ==> i[k] == 0
    ensures Flat(i, dims) == 0
  {
    if i != [] { FlatZero(i[1..], dims[1..]); }
  }
}
