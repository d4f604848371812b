/** compatmigrate/tensor_layout.go, permuteTensor: an odometer over the output that carries the
    source position along by strides instead of recomputing it. */
module PermuteOp {
  import opened RowMajor
  import opened Permutations
  import opened TensorLayout
  import opened LayoutOps

  /** The source strides seen along the output axes. */
  function OutStrides(dims: seq<int>, perm: seq<int>): (s: seq<int>)
    requires IsPermutation(perm, |dims|)
    ensures |s| == |dims| && forall k :: 0 <= k < |dims| ==> s[k] == Strides(dims)[perm[k]]
  {
    seq(|dims|, k requires 0 <= k < |dims| => Strides(dims)[perm[k]])
  }

  /** The odometer's two positions: `idx` is output position n and `src` its source position. */
  ghost predicate AtPosition(idx: seq<int>, src: int, n: int, dims: seq<int>, perm: seq<int>)
    requires IsPermutation(perm, |dims|)
  {
    && InBounds(idx, PermuteDims(dims, perm))
    && Flat(idx, PermuteDims(dims, perm)) == n
    && src == Dot(idx, OutStrides(dims, perm))
  }

  /** The carried source position is the position of the scattered index. */
  lemma SourceIndex(dims: seq<int>, perm: seq<int>, idx: seq<int>)
    requires IsPermutation(perm, |dims|) && |idx| == |dims|
    ensures Dot(idx, OutStrides(dims, perm)) == Flat(Scatter(idx, perm, |dims|, 0), dims)
  {
    DotScatter(idx, perm, Strides(dims), OutStrides(dims, perm));
    DotStrides(Scatter(idx, perm, |dims|, 0), dims);
  }

  /** At every position, src is in bounds and is where the element belongs. */
  lemma SourcePosition<T>(t: Tensor<T>, perm: seq<int>, idx: seq<int>, src: int, n: int)
    requires t.Valid() && IsPermutation(perm, |t.dims|)
    requires AtPosition(idx, src, n, t.dims, perm)
    ensures 0 <= src < |t.data| && 0 <= n < |Permute(t, perm).data|
    ensures t.data[src] == Permute(t, perm).data[n]
  {
    SourceIndex(t.dims, perm, idx);
    GetPermute(t, perm, idx);
    GetAt(Permute(t, perm), idx, n);
    GetAt(t, Scatter(idx, perm, |t.dims|, 0), src);
  }

  lemma StrideStep(dims: seq<int>, i: nat)
    requires i < |dims|
    ensures Size(dims[|dims|..]) == 1
    ensures Size(dims[i..]) == Size(dims[i+1..]) * dims[i]
  {
    assert dims[i..][1..] == dims[i+1..];
  }

  /** Row-major source strides, built from the innermost axis outwards. */
  method SourceStrides(dims: seq<int>) returns (srcStrides: array<int>)
    ensures fresh(srcStrides) && srcStrides[..] == Strides(dims)
  {
    hide Size;
    srcStrides := new int[|dims|];
    var stride := 1;
    var i := |dims| - 1;
    if i >= 0 { StrideStep(dims, i); }
    while i >= 0
      invariant -1 <= i < |dims|
      invariant i >= 0 ==> stride == Size(dims[i+1..])
      invariant forall k :: i < k < |dims| ==> srcStrides[k] == Size(dims[k+1..])
    {
      srcStrides[i] := stride;
      StrideStep(dims, i);
      stride := stride * dims[i];
      i := i - 1;
    }
    forall k | 0 <= k < |dims| ensures srcStrides[..][k] == Strides(dims)[k] {}
  }

  lemma NoneRepeated(perm: seq<int>)
    ensures Distinct(perm[..0])
  {}

  /** One more entry: new, or a repetition that no permutation has. */
  lemma DistinctPrefix(perm: seq<int>, i: nat)
    requires i < |perm| && Distinct(perm[..i])
    ensures if perm[i] in perm[..i] then !Distinct(perm) else Distinct(perm[..i+1])
  {
    if perm[i] in perm[..i] {
      var j :| 0 <= j < i && perm[..i][j] == perm[i];
      assert perm[j] == perm[i];
    } else {
      assert perm[..i+1] == perm[..i] + [perm[i]];
    }
  }

  /** The permutation checks, with the output dims and strides filled in as they pass. */
  method PlanPermutation(dims: seq<int>, perm: seq<int>, srcStrides: array<int>)
    returns (ok: bool, outDims: array<int>, strides: array<int>)
    requires |perm| == |dims| && srcStrides[..] == Strides(dims)
    ensures fresh(outDims) && fresh(strides)
    ensures ok <==> IsPermutation(perm, |dims|)
    ensures ok ==> outDims[..] == PermuteDims(dims, perm) && strides[..] == OutStrides(dims, perm)
  {
    hide Distinct, Strides;
    var seen := new bool[|dims|](_ => false);
    outDims := new int[|dims|];
    strides := new int[|dims|];
    ok := false;
    NoneRepeated(perm);
    for i := 0 to |perm|
      invariant forall k :: 0 <= k < i ==>
        0 <= perm[k] < |dims| && outDims[k] == dims[perm[k]]
        && strides[k] == srcStrides[perm[k]]
      invariant Distinct(perm[..i])
      invariant forall m :: 0 <= m < |dims| ==> (seen[m] <==> m in perm[..i])
      invariant srcStrides[..] == Strides(dims)
    {
      var p := perm[i];
      DistinctPrefix(perm, i);
      if p < 0 || p >= |dims| || seen[p] {
        return;
      }
      assert perm[..i+1] == perm[..i] + [p];
      seen[p] := true;
      outDims[i] := dims[p];
      strides[i] := srcStrides[p];
    }
    ok := true;
    assert perm[..|perm|] == perm;
    forall k | 0 <= k < |dims| ensures outDims[..][k] == PermuteDims(dims, perm)[k] {}
    forall k | 0 <= k < |dims| ensures strides[..][k] == OutStrides(dims, perm)[k] {
      assert srcStrides[perm[k]] == srcStrides[..][perm[k]];
    }
  }

  /** State inside one odometer step: axes after `axis` have wrapped to zero, the others are still
      at `was`, and src has followed. */
  ghost predicate Carrying(was: seq<int>, idx: seq<int>, src: int, axis: int, outDims: seq<int>, strides: seq<int>)
  {
    && |was| == |idx| == |outDims| == |strides| && -1 <= axis < |idx|
    && (forall k :: 0 <= k <= axis ==> idx[k] == was[k])
    && (forall k :: axis < k < |idx| ==> idx[k] == 0 && was[k] == outDims[k] - 1)
    && src == Dot(idx, strides)
  }

  lemma CarryStep(was: seq<int>, idx: seq<int>, src: int, axis: int, outDims: seq<int>, strides: seq<int>)
    requires Carrying(was, idx, src, axis, outDims, strides) && 0 <= axis && InBounds(was, outDims)
    ensures src + strides[axis] == Dot(idx[axis := idx[axis] + 1], strides)
    ensures idx[axis] + 1 < outDims[axis] ==>
      InBounds(idx[axis := idx[axis] + 1], outDims)
        && Flat(idx[axis := idx[axis] + 1], outDims) == Flat(was, outDims) + 1
    ensures idx[axis] + 1 >= outDims[axis] ==>
      Carrying(was, idx[axis := 0], src + strides[axis] - (idx[axis] + 1) * strides[axis], axis - 1, outDims, strides)
  {
    DotUpdate(idx, strides, axis, idx[axis] + 1);
    DotUpdate(idx, strides, axis, 0);
    MulDistributes(idx[axis], 1, strides[axis]);
    var next := idx[axis := idx[axis] + 1];
    if idx[axis] + 1 < outDims[axis] {
      FlatCarry(was, next, outDims, axis);
      forall k | 0 <= k < |next| ensures 0 <= next[k] < outDims[k] {
        assert 0 <= was[k] < outDims[k];
      }
    } else {
      assert 0 <= was[axis] < outDims[axis];
    }
  }

  /** One turn of the odometer: the next output position, or every axis wrapped at the last one. */
  method Advance(idx: array<int>, src0: int, outDims: array<int>, strides: array<int>) returns (src: int)
    requires idx.Length == outDims.Length == strides.Length && idx != outDims && idx != strides
    requires InBounds(idx[..], outDims[..]) && src0 == Dot(idx[..], strides[..])
    modifies idx
    ensures Flat(old(idx[..]), outDims[..]) + 1 < Size(outDims[..]) ==>
      InBounds(idx[..], outDims[..]) && Flat(idx[..], outDims[..]) == Flat(old(idx[..]), outDims[..]) + 1
    ensures src == Dot(idx[..], strides[..])
  {
    src := src0;
    ghost var was, d, s := idx[..], outDims[..], strides[..];
    var axis := idx.Length - 1;
    while axis >= 0
      invariant Carrying(was, idx[..], src, axis, d, s)
      invariant outDims[..] == d && strides[..] == s
    {
      ghost var before := idx[..];
      CarryStep(was, before, src, axis, d, s);
      idx[axis] := idx[axis] + 1;
      src := src + strides[axis];
      assert idx[..] == before[axis := before[axis] + 1];
      if idx[axis] < outDims[axis] {
        return;
      }
      src := src - idx[axis] * strides[axis];
      idx[axis] := 0;
      assert idx[..] == before[axis := 0];
      axis := axis - 1;
    }
    FlatLast(was, d);
  }

  method PermuteTensor<T(0)>(t: Tensor<T>, perm: seq<int>) returns (r: Result<Tensor<T>>)
    ensures r.Ok? <==> t.Valid() && IsPermutation(perm, |t.dims|)
    ensures r.Ok? ==> r.value == Permute(t, perm)
    ensures r.Err? ==> r.error == if DimsError(t).Err? then DimsError(t).error else InvalidPermutation
  {
    var e := CheckTensorDims(t);
    if e.Err? {
      return Err(e.error);
    }
    if |perm| != |t.dims| {
      return Err(InvalidPermutation);
    }
    var srcStrides := SourceStrides(t.dims);
    var ok, outDims, strides := PlanPermutation(t.dims, perm, srcStrides);
    if !ok {
      return Err(InvalidPermutation);
    }
    ghost var want := Permute(t, perm).data;
    forall idx, src, i | AtPosition(idx, src, i, t.dims, perm)
      ensures 0 <= src < |t.data| && 0 <= i < |want| && t.data[src] == want[i]
    {
      SourcePosition(t, perm, idx, src, i);
    }
    var out := WalkOutput(t, perm, outDims, strides, want);
    return Ok(Tensor(out, outDims[..]));
  }

  /** One odometer turn, from output position i to the next. */
  method Turn<T>(t: Tensor<T>, perm: seq<int>, idx: array<int>, src0: int, i: nat, outDims: array<int>,
                 strides: array<int>)
    returns (src: int)
    requires t.Valid() && IsPermutation(perm, |t.dims|) && idx != outDims && idx != strides
    requires outDims[..] == PermuteDims(t.dims, perm) && strides[..] == OutStrides(t.dims, perm)
    requires AtPosition(idx[..], src0, i, t.dims, perm)
    modifies idx
    ensures i + 1 < |t.data| ==> AtPosition(idx[..], src, i + 1, t.dims, perm)
  {
    ghost var was := idx[..];
    src := Advance(idx, src0, outDims, strides);
    NextPosition(t, perm, was, idx[..], src, i);
  }

  /** The copy loop: one odometer turn for each output element.  `want` is what the elements at the
      odometer's source positions spell out. */
  method WalkOutput<T(0)>(t: Tensor<T>, perm: seq<int>, outDims: array<int>, strides: array<int>, ghost want: seq<T>)
    returns (result: seq<T>)
    requires t.Valid() && IsPermutation(perm, |t.dims|)
    requires outDims[..] == PermuteDims(t.dims, perm) && strides[..] == OutStrides(t.dims, perm)
    requires |want| == |t.data|
    requires forall idx, src, i | AtPosition(idx, src, i, t.dims, perm) ::
      0 <= src < |t.data| && 0 <= i < |want| && t.data[src] == want[i]
    ensures result == want
  {
    hide AtPosition, PermuteDims, OutStrides, IsPermutation;
    var n := |t.data|;
    var out := new T[n];
    var idx := new int[|t.dims|](_ => 0);
    var src := 0;
    StartAtZero(t, perm, idx[..]);
    for i := 0 to n
      invariant idx.Length == |t.dims|
      invariant i < n ==> AtPosition(idx[..], src, i, t.dims, perm)
      invariant forall k :: 0 <= k < i ==> out[k] == want[k]
    {
      out[i] := t.data[src];
      src := Turn(t, perm, idx, src, i, outDims, strides);
    }
    result := out[..];
  }

  /** After a turn the odometer is at the next position, if there is one. */
  lemma NextPosition<T>(t: Tensor<T>, perm: seq<int>, was: seq<int>, idx: seq<int>, src: int, i: nat)
    requires t.Valid() && IsPermutation(perm, |t.dims|) && |idx| == |t.dims|
    requires InBounds(was, PermuteDims(t.dims, perm)) && Flat(was, PermuteDims(t.dims, perm)) == i
    requires i + 1 < Size(PermuteDims(t.dims, perm)) ==>
      InBounds(idx, PermuteDims(t.dims, perm)) && Flat(idx, PermuteDims(t.dims, perm)) == i + 1
    requires src == Dot(idx, OutStrides(t.dims, perm))
    ensures i + 1 < |t.data| ==> AtPosition(idx, src, i + 1, t.dims, perm)
  {
    SizePermute(t.dims, perm);
  }

  lemma StartAtZero<T>(t: Tensor<T>, perm: seq<int>, idx: seq<int>)
    requires t.Valid() && IsPermutation(perm, |t.dims|)
    requires |idx| == |t.dims| && forall k :: 0 <= k < |idx| ==> idx[k] == 0
    ensures 0 < |t.data| ==> AtPosition(idx, 0, 0, t.dims, perm)
  {
    SizePermute(t.dims, perm);
    DotZero(idx, OutStrides(t.dims, perm));
    if 0 < |t.data| { StartInBounds(idx, PermuteDims(t.dims, perm)); }
  }

  lemma {:induction false} StartInBounds(idx: seq<int>, dims: seq<int>)
    requires NonNegative(dims) && Size(dims) > 0
    requires |idx| == |dims| && forall k :: 0 <= k < |idx| ==> idx[k] == 0
    ensures InBounds(idx, dims) && Flat(idx, dims) == 0
  {
    var u := Unflat(0, dims);
    forall k | 0 <= k < |idx| ensures 0 <= idx[k] < dims[k] {
      assert 0 <= u[k] < dims[k];
    }
    FlatZero(idx, dims);
  }
}
