/** Laws of the layout operations, for every rank and shape. */
module LayoutLaws {
  import opened RowMajor
  import opened Permutations
  import opened TensorLayout

  // ----- permutation

  /** numpy.transpose: out at j is data at the i with i[perm[k]] = j[k]. */
  lemma PermuteMeaning<T>(t: Tensor<T>, perm: seq<int>, i: seq<int>, j: seq<int>)
    requires t.Valid() && IsPermutation(perm, |t.dims|)
    requires InBounds(j, PermuteDims(t.dims, perm))
    requires |i| == |t.dims| && forall k :: 0 <= k < |i| ==> i[perm[k]] == j[k]
    ensures InBounds(i, t.dims)
    ensures Get(Permute(t, perm), j) == Get(t, i)
  {
    ScatterUnique(j, perm, |t.dims|, 0, i);
    GetPermute(t, perm, j);
  }

  /** Two permutes are one permute by the composed permutation. */
  lemma PermuteCompose<T>(t: Tensor<T>, p: seq<int>, q: seq<int>)
    requires t.Valid() && IsPermutation(p, |t.dims|) && IsPermutation(q, |t.dims|)
    ensures IsPermutation(Compose(p, q), |t.dims|)
    ensures Permute(Permute(t, p), q) == Permute(t, Compose(p, q))
  {
    var r := Compose(p, q);
    ComposeIsPermutation(p, q, |t.dims|);
    var d := PermuteDims(t.dims, r);
    assert PermuteDims(PermuteDims(t.dims, p), q) == d;
    forall j | InBounds(j, d)
      ensures Get(Permute(Permute(t, p), q), j) == Get(Permute(t, r), j)
    {
      GetPermute(Permute(t, p), q, j);
      var mid := Scatter(j, q, |q|, 0);
      GetPermute(t, p, mid);
      var i := Scatter(mid, p, |p|, 0);
      forall k | 0 <= k < |r| ensures i[r[k]] == j[k] {
        assert i[p[q[k]]] == mid[q[k]];
      }
      PermuteMeaning(t, r, i, j);
    }
    SameTensor(Permute(Permute(t, p), q), Permute(t, r));
  }

  lemma PermuteIdentity<T>(t: Tensor<T>)
    requires t.Valid()
    ensures Permute(t, Identity(|t.dims|)) == t
  {
    var id := Identity(|t.dims|);
    assert PermuteDims(t.dims, id) == t.dims;
    forall j | InBounds(j, t.dims)
      ensures Get(Permute(t, id), j) == Get(t, j)
    {
      PermuteMeaning(t, id, j, j);
    }
    SameTensor(Permute(t, id), t);
  }

  /** A permute followed by its inverse restores data and dims. */
  lemma PermuteInverse<T>(t: Tensor<T>, p: seq<int>)
    requires t.Valid() && IsPermutation(p, |t.dims|)
    ensures IsPermutation(Inverse(p, |t.dims|), |t.dims|)
    ensures Permute(Permute(t, p), Inverse(p, |t.dims|)) == t
  {
    InverseIsPermutation(p, |t.dims|);
    PermuteCompose(t, p, Inverse(p, |t.dims|));
    PermuteIdentity(t);
  }

  // ----- slice and concatenate

  lemma {:induction false} SumMonotone(w: seq<int>, m: nat, n: nat)
    requires NonNegative(w) && m <= n <= |w|
    ensures 0 <= Sum(w[..m]) <= Sum(w[..n])
  {
    if m < n {
      SumMonotone(w, m, n - 1);
      assert w[..n][..n-1] == w[..n-1];
    } else {
      SumNonNegative(w[..m]);
    }
  }

  /** Windows do not overlap. */
  lemma WindowsDisjoint(w: seq<int>, p: nat, y: int, q: nat, z: int)
    requires NonNegative(w) && p < |w| && 0 <= y < w[p] && q < |w| && 0 <= z < w[q]
    requires Sum(w[..p]) + y == Sum(w[..q]) + z
    ensures p == q && y == z
  {
    if p < q {
      assert w[..p+1][..p] == w[..p];
      SumMonotone(w, p + 1, q);
    } else if q < p {
      assert w[..q+1][..q] == w[..q];
      SumMonotone(w, q + 1, p);
    }
  }

  /** A coordinate is found in the one window that holds it. */
  lemma LocateUnique(w: seq<int>, p: nat, y: int)
    requires NonNegative(w) && p < |w| && 0 <= y < w[p]
    ensures 0 <= Sum(w[..p]) + y < Sum(w)
    ensures Locate(w, Sum(w[..p]) + y) == (p, y)
  {
    PieceInRange(w, p);
    var (q, z) := Locate(w, Sum(w[..p]) + y);
    WindowsDisjoint(w, p, y, q, z);
  }

  /** Where part p lies along the axis of a concatenation. */
  ghost predicate Window<T>(parts: seq<Tensor<T>>, d: nat, p: nat, start: int, end: int)
    requires Compatible(parts, d)
  {
    p < |parts| && start == Sum(Widths(parts, d)[..p]) && end == start + Widths(parts, d)[p]
  }

  lemma WindowInRange<T>(parts: seq<Tensor<T>>, d: nat, p: nat, start: int, end: int)
    requires Compatible(parts, d) && Window(parts, d, p, start, end)
    ensures 0 <= start <= end <= ConcatDims(parts, d)[d]
  {
    var w := Widths(parts, d);
    assert w[..p+1][..p] == w[..p] && w[..|w|] == w;
    SumMonotone(w, 0, p);
    SumMonotone(w, p + 1, |w|);
  }

  lemma WindowDims<T>(parts: seq<Tensor<T>>, d: nat, p: nat, start: int, end: int)
    requires Compatible(parts, d) && Window(parts, d, p, start, end)
    ensures parts[p].Valid() && ConcatDims(parts, d)[d := end - start] == parts[p].dims
  {
    assert Fits(parts[p], parts[0].dims, d);
  }

  lemma ConcatAtWindow<T>(parts: seq<Tensor<T>>, d: nat, p: nat, start: int, j: seq<int>, i: seq<int>)
    requires Compatible(parts, d) && p < |parts| && InBounds(j, parts[p].dims)
    requires d < |j| && start == Sum(Widths(parts, d)[..p]) && i == j[d := j[d] + start]
    requires InBounds(i, ConcatDims(parts, d))
    ensures parts[p].Valid() && Get(Concat(parts, d), i) == Get(parts[p], j)
  {
    assert Fits(parts[p], parts[0].dims, d);
    LocateUnique(Widths(parts, d), p, j[d]);
    GetConcat(parts, d, i, p, j[d]);
    assert i[d := j[d]] == j;
  }

  /** Slicing a concatenation at a part's window returns that part. */
  lemma SliceOfConcat<T>(parts: seq<Tensor<T>>, d: nat, p: nat, start: int, end: int)
    requires Compatible(parts, d) && Window(parts, d, p, start, end)
    ensures 0 <= start <= end <= ConcatDims(parts, d)[d]
    ensures Slice(Concat(parts, d), d, start, end) == parts[p]
  {
    WindowInRange(parts, d, p, start, end);
    WindowDims(parts, d, p, start, end);
    var c := Concat(parts, d);
    forall j | InBounds(j, parts[p].dims)
      ensures Get(Slice(c, d, start, end), j) == Get(parts[p], j)
    {
      GetSlice(c, d, start, end, j);
      ConcatAtWindow(parts, d, p, start, j, j[d := j[d] + start]);
    }
    SameTensor(Slice(c, d, start, end), parts[p]);
  }

  /** Consecutive windows that cover the axis. */
  ghost predicate Covers<T>(t: Tensor<T>, d: nat, w: seq<int>)
  {
    t.Valid() && d < |t.dims| && |w| > 0 && NonNegative(w) && Sum(w) == t.dims[d]
  }

  lemma PieceInRange(w: seq<int>, p: nat)
    requires NonNegative(w) && p < |w|
    ensures 0 <= Sum(w[..p]) <= Sum(w[..p]) + w[p] <= Sum(w)
  {
    assert w[..p+1][..p] == w[..p] && w[..|w|] == w;
    SumMonotone(w, 0, p);
    SumMonotone(w, p + 1, |w|);
  }

  /** The slice at window p. */
  function Piece<T>(t: Tensor<T>, d: nat, w: seq<int>, p: nat): (r: Tensor<T>)
    requires Covers(t, d, w) && p < |w|
    ensures r.Valid() && r.dims == t.dims[d := w[p]]
  {
    PieceInRange(w, p);
    Slice(t, d, Sum(w[..p]), Sum(w[..p]) + w[p])
  }

  function Pieces<T>(t: Tensor<T>, d: nat, w: seq<int>): (parts: seq<Tensor<T>>)
    requires Covers(t, d, w)
    ensures |parts| == |w|
    ensures forall p :: 0 <= p < |w| ==> parts[p] == Piece(t, d, w, p)
  {
    seq(|w|, p requires 0 <= p < |w| => Piece(t, d, w, p))
  }

  lemma PiecesCompatible<T>(t: Tensor<T>, d: nat, w: seq<int>)
    requires Covers(t, d, w)
    ensures Compatible(Pieces(t, d, w), d)
    ensures Widths(Pieces(t, d, w), d) == w
    ensures ConcatDims(Pieces(t, d, w), d) == t.dims
  {
    var parts := Pieces(t, d, w);
    forall p | 0 <= p < |parts| ensures Fits(parts[p], parts[0].dims, d) {}
  }

  lemma PieceIsSlice<T>(t: Tensor<T>, d: nat, w: seq<int>, p: nat, start: int)
    requires Covers(t, d, w) && p < |w| && start == Sum(w[..p])
    ensures 0 <= start <= start + w[p] <= t.dims[d]
    ensures Piece(t, d, w, p) == Slice(t, d, start, start + w[p])
  {
    PieceInRange(w, p);
  }

  lemma GetPiece<T>(t: Tensor<T>, d: nat, w: seq<int>, p: nat, y: int, j: seq<int>)
    requires Covers(t, d, w) && p < |w| && 0 <= y < w[p]
    requires InBounds(j, t.dims) && j[d] == Sum(w[..p]) + y
    requires InBounds(j[d := y], t.dims[d := w[p]])
    ensures Get(Piece(t, d, w, p), j[d := y]) == Get(t, j)
  {
    var start := Sum(w[..p]);
    PieceIsSlice(t, d, w, p, start);
    GetSlice(t, d, start, start + w[p], j[d := y]);
    assert j[d := y][d := y + start] == j;
  }

  /** Concatenating the slices of any covering list of windows rebuilds the tensor. */
  lemma ConcatOfSlices<T>(t: Tensor<T>, d: nat, w: seq<int>)
    requires Covers(t, d, w)
    ensures Compatible(Pieces(t, d, w), d)
    ensures Concat(Pieces(t, d, w), d) == t
  {
    var parts := Pieces(t, d, w);
    PiecesCompatible(t, d, w);
    forall j | InBounds(j, t.dims)
      ensures Get(Concat(parts, d), j) == Get(t, j)
    {
      assert 0 <= j[d] < t.dims[d];
      var (p, y) := Locate(w, j[d]);
      GetConcat(parts, d, j, p, y);
      GetPiece(t, d, w, p, y, j);
    }
    SameTensor(Concat(parts, d), t);
  }

  /** Two windows. */
  lemma TwoWindows(a: int, b: int)
    ensures [a, b][..0] == [] && [a, b][..1] == [a]
    ensures Sum([a]) == a && Sum([a, b]) == a + b
  {
    var w := [a, b];
    assert w[..1] == [a] && [a][..0] == [] && w[1] == b;
    assert Sum([a]) == Sum([]) + a;
    assert Sum(w) == Sum(w[..1]) + b;
  }
}
