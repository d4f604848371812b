/** compatmigrate/glm47_flash.go: splitting kv_b into per-head K (transposed) and V tensors. */
module GlmRepacker {
  import opened RowMajor
  import opened Permutations
  import opened TensorLayout
  import opened LayoutOps
  import opened PermuteOp
  import opened LayoutLaws
  import opened SmallRanks

  datatype MLA = MLA(numHeads: nat, qkNope: nat, vHeadDim: nat, kvLoraRank: nat)

  function HeadDims(mla: MLA, heads: nat): (dims: seq<int>)
    ensures |dims| == 3 && NonNegative(dims)
  {
    [heads, mla.qkNope + mla.vHeadDim, mla.kvLoraRank]
  }

  const SwapLast: seq<int> := [0, 2, 1]
  const SwapTwo: seq<int> := [1, 0]

  lemma SwapsArePermutations()
    ensures IsPermutation(SwapLast, 3) && IsPermutation(SwapTwo, 2)
    ensures Compose(SwapLast, SwapLast) == Identity(3) && Compose(SwapTwo, SwapTwo) == Identity(2)
  {}

  /** kv_b is usable: it reads as [heads, k + v, rank], after a transpose when the rank axis comes first. */
  predicate Splittable<T>(mla: MLA, kvFirst: bool, heads: nat, source: Tensor<T>) {
    && (kvFirst ==> source.Valid() && |source.dims| == 2)
    && |source.data| == Size(HeadDims(mla, heads))
  }

  /** kv_b as a [heads, k + v, rank] tensor. */
  function HeadTensor<T>(mla: MLA, kvFirst: bool, heads: nat, source: Tensor<T>): (h: Tensor<T>)
    requires Splittable(mla, kvFirst, heads, source)
    ensures h.Valid() && h.dims == HeadDims(mla, heads)
  {
    SwapsArePermutations();
    Tensor(if kvFirst then Permute(source, SwapTwo).data else source.data, HeadDims(mla, heads))
  }

  /** The K half, rows and rank exchanged. */
  function KPart<T>(mla: MLA, h: Tensor<T>): (k: Tensor<T>)
    requires h.Valid() && |h.dims| == 3 && h.dims[1] == mla.qkNope + mla.vHeadDim
    ensures k.Valid() && k.dims == [h.dims[0], h.dims[2], mla.qkNope]
  {
    SwapsArePermutations();
    Permute(Slice(h, 1, 0, mla.qkNope), SwapLast)
  }

  function VPart<T>(mla: MLA, h: Tensor<T>): (v: Tensor<T>)
    requires h.Valid() && |h.dims| == 3 && h.dims[1] == mla.qkNope + mla.vHeadDim
    ensures v.Valid() && v.dims == [h.dims[0], mla.vHeadDim, h.dims[2]]
  {
    Slice(h, 1, mla.qkNope, mla.qkNope + mla.vHeadDim)
  }

  method RepackKVB<T(0)>(mla: MLA, extractK: bool, kvFirst: bool, heads: nat, source: Tensor<T>)
    returns (r: Result<seq<T>>)
    ensures r.Ok? <==> Splittable(mla, kvFirst, heads, source)
    ensures r.Ok? && extractK ==> r.value == KPart(mla, HeadTensor(mla, kvFirst, heads, source)).data
    ensures r.Ok? && !extractK ==> r.value == VPart(mla, HeadTensor(mla, kvFirst, heads, source)).data
  {
    SwapsArePermutations();
    var data := source.data;
    if kvFirst {
      var p := PermuteTensor(source, SwapTwo);
      if p.Err? {
        return Err(p.error);
      }
      data := p.value.data;
    }
    var headDims := HeadDims(mla, heads);
    var checked := CheckTensorDims(Tensor(data, headDims));
    if checked.Err? {
      return Err(checked.error);
    }
    if !extractK {
      r := SliceTensorDim(Tensor(data, headDims), 1, mla.qkNope, mla.qkNope + mla.vHeadDim);
      return;
    }
    var k := SliceTensorDim(Tensor(data, headDims), 1, 0, mla.qkNope);
    headDims := headDims[1 := mla.qkNope];
    var out := PermuteTensor(Tensor(k.value, headDims), SwapLast);
    return Ok(out.value.data);
  }

  /** K with its rows and rank exchanged back, joined with V, is the head tensor again ... */
  lemma HeadsRebuild<T>(mla: MLA, h: Tensor<T>)
    requires h.Valid() && |h.dims| == 3 && h.dims[1] == mla.qkNope + mla.vHeadDim
    ensures IsPermutation(SwapLast, 3)
    ensures var parts := [Permute(KPart(mla, h), SwapLast), VPart(mla, h)];
      Compatible(parts, 1) && Concat(parts, 1) == h
  {
    SwapsArePermutations();
    var k := Slice(h, 1, 0, mla.qkNope);
    PermuteCompose(k, SwapLast, SwapLast);
    PermuteIdentity(k);
    var w: seq<int> := [mla.qkNope, mla.vHeadDim];
    TwoWindows(mla.qkNope, mla.vHeadDim);
    PieceIsSlice(h, 1, w, 0, 0);
    PieceIsSlice(h, 1, w, 1, mla.qkNope);
    assert Pieces(h, 1, w) == [Permute(KPart(mla, h), SwapLast), VPart(mla, h)];
    ConcatOfSlices(h, 1, w);
  }

  /** ... and the head tensor is kv_b, transposed back when the rank axis came first: nothing is lost. */
  lemma SourceRebuild<T>(mla: MLA, kvFirst: bool, heads: nat, source: Tensor<T>)
    requires Splittable(mla, kvFirst, heads, source)
    ensures IsPermutation(SwapTwo, 2)
    ensures var h := HeadTensor(mla, kvFirst, heads, source).data;
      if kvFirst then
        var swapped := Tensor(h, [source.dims[1], source.dims[0]]);
        swapped.Valid() && Permute(swapped, SwapTwo) == source
      else h == source.data
  {
    SwapsArePermutations();
    if kvFirst {
      assert PermuteDims(source.dims, SwapTwo) == [source.dims[1], source.dims[0]];
      PermuteCompose(source, SwapTwo, SwapTwo);
      PermuteIdentity(source);
    }
  }

  // ----- glm47FlashSplitKVB

  datatype Output = Output(kShape: seq<nat>, vShape: seq<nat>, kvFirst: bool, heads: nat)

  /** Heads found in the axis that is not the rank axis. */
  function InferHeads(other: nat, kvPerHead: nat, fallback: nat): nat {
    if kvPerHead > 0 && other % kvPerHead == 0 then other / kvPerHead else fallback
  }

  method SplitKVB(mla: MLA, shape: seq<nat>) returns (r: Result<Output>)
    ensures r.Ok? <==> |shape| == 2 && (shape[0] == mla.kvLoraRank || shape[1] == mla.kvLoraRank)
    ensures r.Ok? ==>
      var kvFirst := shape[0] == mla.kvLoraRank;
      var other, per := if kvFirst then shape[1] else shape[0], mla.qkNope + mla.vHeadDim;
      var heads := if per > 0 && other % per == 0 then other / per else mla.numHeads;
      r.value == Output([mla.qkNope, mla.kvLoraRank, heads], [mla.kvLoraRank, mla.vHeadDim, heads], kvFirst, heads)
  {
    if |shape| != 2 {
      return Err(RankMismatch);
    }
    var kvPerHead := mla.qkNope + mla.vHeadDim;
    var heads := mla.numHeads;
    var kvFirst;
    if shape[0] == mla.kvLoraRank {
      if kvPerHead > 0 && shape[1] % kvPerHead == 0 {
        heads := shape[1] / kvPerHead;
      }
      kvFirst := true;
    } else if shape[1] == mla.kvLoraRank {
      if kvPerHead > 0 && shape[0] % kvPerHead == 0 {
        heads := shape[0] / kvPerHead;
      }
      kvFirst := false;
    } else {
      return Err(IncompatibleDims);
    }
    return Ok(Output([mla.qkNope, mla.kvLoraRank, heads], [mla.kvLoraRank, mla.vHeadDim, heads], kvFirst, heads));
  }

  /** When the other axis is a whole number of heads, both writers succeed on a complete kv_b and
      produce exactly as many elements as the shapes they declare. */
  lemma DeclaredShapesFilled<T>(mla: MLA, o: Output, source: Tensor<T>, other: nat)
    requires source.Valid() && |source.dims| == 2
    requires source.dims == if o.kvFirst then [mla.kvLoraRank, other] else [other, mla.kvLoraRank]
    requires o.heads == InferHeads(other, mla.qkNope + mla.vHeadDim, mla.numHeads)
    requires o.kShape == [mla.qkNope, mla.kvLoraRank, o.heads] && o.vShape == [mla.kvLoraRank, mla.vHeadDim, o.heads]
    ensures Splittable(mla, o.kvFirst, o.heads, source) <==>
      (o.heads * (mla.qkNope + mla.vHeadDim) == other || mla.kvLoraRank == 0)
    ensures Splittable(mla, o.kvFirst, o.heads, source) ==>
      var h := HeadTensor(mla, o.kvFirst, o.heads, source);
      |KPart(mla, h).data| == Size(o.kShape) && |VPart(mla, h).data| == Size(o.vShape)
  {
    var per, rank := mla.qkNope + mla.vHeadDim, mla.kvLoraRank;
    Size2(rank, other);
    Size2(other, rank);
    Size3(o.heads, per, rank);
    MulAssociative(o.heads, per, rank);
    if rank > 0 && o.heads * per * rank == other * rank {
      Cancel(o.heads * per, other, rank);
    }
    SizeReversed(o.heads, rank, mla.qkNope);
    SizeReversed(o.heads, mla.vHeadDim, rank);
  }

  /** A shape and the dims it reverses hold the same number of elements. */
  lemma SizeReversed(x: int, y: int, z: int)
    ensures Size([x, y, z]) == Size([z, y, x])
  {
    Size3(x, y, z);
    Size3(z, y, x);
    MulAssociative(x, y, z);
    MulAssociative(z, y, x);
    assert (x * y) * z == z * (y * x);
  }

  lemma Cancel(a: int, b: int, c: int)
    requires c > 0 && a * c == b * c
    ensures a == b
  {
    if a < b { MulMonotone(a + 1, b, c); MulDistributes(a, 1, c); }
    if b < a { MulMonotone(b + 1, a, c); MulDistributes(b, 1, c); }
  }
}
