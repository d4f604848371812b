/** Every output tensor writes exactly the bytes its declared type and shape set aside, so that in the written file the
    payloads fill their regions; the concatenation of stored bytes does so exactly if nothing was promoted. */
module FilledRegions {
  import opened RowMajor
  import opened TensorLayout
  import opened LayoutLaws
  import opened FloatPayload
  import W = GgufWriter
  import BlockFormat
  import RowReader
  import opened Repackers
  import opened PatchRepackers
  import opened GlmRepacker
  import opened SourceTensors
  import opened TensorOps
  import opened OutTensors
  import opened SmallRanks

  /** The output tensor as the writer of the file sees it. */
  function AsTensor(o: Out, payload: bytes): W.OutTensor { W.OutTensor(o.name, o.kind, o.shape, 0, payload) }

  function Declared(o: Out): nat { W.ByteSize(AsTensor(o, [])) }

  /** If it writes at all, it writes exactly the bytes it declares. */
  ghost predicate FillsRegion(o: Out, bits: Bits<Float>) {
    Succeeds(o.writer) ==> |Written(o.writer, bits)| == Declared(o)
  }

  lemma EncodedFills(o: Out, data: seq<Float>, bits: Bits<Float>)
    requires FloatKind(o.kind) && |data| == Size(o.shape)
    ensures |EncodedFloats(o.kind, data, bits)| == Declared(o)
  {
    FloatsFillRegion(AsTensor(o, []), data, bits);
  }

  lemma ConvertedFills(o: Out, bits: Bits<Float>)
    requires o.writer.Converted? && o.writer.kind == o.kind
    requires var w := o.writer; Succeeds(w) ==>
      |Repacked(w.repacker, Values(w.source), w.source.shape)| == Size(o.shape)
    ensures FillsRegion(o, bits)
  {
    hide Repacked, Values, Decodes, Takes, EncodedFloats;
    var w := o.writer;
    if Succeeds(w) { EncodedFills(o, Repacked(w.repacker, Values(w.source), w.source.shape), bits); }
  }

  /** Float sources decode, and what they are written in can be encoded. */
  lemma FloatsConvert(s: Source, name: bytes, mustBeF32: bytes -> bool)
    requires FloatKind(s.kind)
    ensures Decodes(s) && FloatKind(OutputKind(mustBeF32, name, s))
  {}

  // ----- one source

  lemma CopyFills(name: bytes, s: Source, mustBeF32: bytes -> bool, bits: Bits<Float>)
    requires Intact(s)
    ensures FillsRegion(CopyOut(name, s, mustBeF32), bits)
    ensures FloatKind(s.kind) ==> Succeeds(CopyOut(name, s, mustBeF32).writer)
  {
    if FloatKind(s.kind) { FloatsConvert(s, name, mustBeF32); }
    hide Decodes, Values, W.ByteSize;
    var o := CopyOut(name, s, mustBeF32);
    if o.writer.Copied? {
      StoredFills(o, s);
    } else {
      if Decodes(s) { ValuesFill(s); }
      ConvertedFills(o, bits);
    }
  }

  lemma StoredFills(o: Out, s: Source)
    requires Intact(s) && o.kind == s.kind && o.shape == s.shape
    ensures |s.stored| == Declared(o)
  {
    NumBytesIsByteSize(s.kind, s.shape);
  }

  lemma SplitFills(s: Source, dim: nat, name: bytes, n: nat, i: nat, mustBeF32: bytes -> bool, bits: Bits<Float>)
    requires Intact(s) && dim < |s.shape| && i < n && s.shape[dim] % n == 0
    ensures FillsRegion(SplitOut(s, dim, name, n, i, mustBeF32), bits)
    ensures FloatKind(s.kind) ==> Succeeds(SplitOut(s, dim, name, n, i, mustBeF32).writer)
  {
    hide Values, Repacked, Takes, Intact;
    var o := SplitOut(s, dim, name, n, i, mustBeF32);
    assert FloatKind(s.kind) ==> Decodes(s) && FloatKind(o.kind);
    hide Decodes;
    if Decodes(s) {
      SplitWindow(s, dim, name, n, i, mustBeF32);
      assert Pieces(TensorOf(s), dim, Equal(n, s.shape[dim] / n))[i].Valid();
    }
    ConvertedFills(o, bits);
  }

  lemma KVFit(mla: MLA, o: Output, data: seq<Float>, shape: seq<nat>)
    requires Tensor(data, shape).Valid() && |shape| == 2 && shape[if o.kvFirst then 0 else 1] == mla.kvLoraRank
    requires o.heads == InferHeads(shape[if o.kvFirst then 1 else 0], mla.qkNope + mla.vHeadDim, mla.numHeads)
    requires o.kShape == [mla.qkNope, mla.kvLoraRank, o.heads] && o.vShape == [mla.kvLoraRank, mla.vHeadDim, o.heads]
    ensures forall k ::
      var p := KVB(mla, k, o.kvFirst, o.heads);
      && (Takes(p, data, shape)
          <==> o.heads * (mla.qkNope + mla.vHeadDim) == shape[if o.kvFirst then 1 else 0] || mla.kvLoraRank == 0)
      && (Takes(p, data, shape) ==> |Repacked(p, data, shape)| == Size(if k then o.kShape else o.vShape))
  {
    hide KPart, VPart, HeadTensor, Splittable, InferHeads, Size;
    DeclaredShapesFilled(mla, o, Tensor(data, shape), shape[if o.kvFirst then 1 else 0]);
  }

  lemma KVFills(s: Source, mla: MLA, kName: bytes, vName: bytes, o: Output, bits: Bits<Float>, i: nat)
    requires Intact(s) && |s.shape| == 2 && i < 2
    requires s.shape[0] == mla.kvLoraRank || s.shape[1] == mla.kvLoraRank
    requires o.kvFirst == (s.shape[0] == mla.kvLoraRank)
    requires var other := if o.kvFirst then s.shape[1] else s.shape[0];
      o.heads == InferHeads(other, mla.qkNope + mla.vHeadDim, mla.numHeads)
    requires o.kShape == [mla.qkNope, mla.kvLoraRank, o.heads] && o.vShape == [mla.kvLoraRank, mla.vHeadDim, o.heads]
    ensures FillsRegion(KVOuts(s, mla, kName, vName, o)[i], bits)
    ensures FloatKind(s.kind) ==>
      (Succeeds(KVOuts(s, mla, kName, vName, o)[i].writer)
       <==>
       o.heads * (mla.qkNope + mla.vHeadDim) == (if o.kvFirst then s.shape[1] else s.shape[0])
       || mla.kvLoraRank == 0)
  {
    if FloatKind(s.kind) { FloatsConvert(s, kName, n => false); }
    hide Values, Decodes, Takes, Repacked, Intact, W.ByteSize, InferHeads;
    var out := KVOuts(s, mla, kName, vName, o)[i];
    if Decodes(s) {
      ValuesFill(s);
      KVFit(mla, o, Values(s), s.shape);
    }
    ConvertedFills(out, bits);
  }

  lemma PixtralFills(name: bytes, s: Source, visionHeads: nat, isVisionQK: bytes -> bool, isPatch: bytes -> bool,
                     mustBeF32: bytes -> bool, bits: Bits<Float>)
    requires Intact(s)
    ensures FillsRegion(PixtralOut(name, s, visionHeads, isVisionQK, isPatch, mustBeF32), bits)
    ensures FloatKind(s.kind) ==>
      (Succeeds(PixtralOut(name, s, visionHeads, isVisionQK, isPatch, mustBeF32).writer)
       <==> (isVisionQK(name) ==> visionHeads > 0 && |s.shape| == 2 && s.shape[0] % (visionHeads * 2) == 0))
  {
    if FloatKind(s.kind) { FloatsConvert(s, name, mustBeF32); }
    hide Decodes, Values, W.ByteSize, Intact;
    var o := PixtralOut(name, s, visionHeads, isVisionQK, isPatch, mustBeF32);
    if o.writer.Copied? {
      StoredFills(o, s);
    } else {
      if Decodes(s) {
        ValuesFill(s);
        if |s.shape| == 2 { PairShape(s.shape); }
        if isVisionQK(name) && Takes(PairRows(visionHeads), Values(s), s.shape) {
          PairsFill(Values(s), s.shape, visionHeads);
        }
      }
      ConvertedFills(o, bits);
    }
  }

  lemma PairShape(shape: seq<nat>)
    requires |shape| == 2
    ensures Size(shape) == shape[0] * shape[1]
  {
    Size2(shape[0], shape[1]);
    assert shape == [shape[0], shape[1]];
  }

  lemma PairsFill(data: seq<Float>, shape: seq<nat>, heads: nat)
    requires Takes(PairRows(heads), data, shape)
    ensures |Repacked(PairRows(heads), data, shape)| == Size(shape)
  {
    SwappedReady(data, shape, heads);
    PairShape(shape);
    var t := Tensor(data, [heads, 2, shape[0] / heads / 2, shape[1]]);
    assert Permute(t, PairSwap).Valid();
    SizePermute(t.dims, PairSwap);
  }

  lemma PatchFills(s: Source, channels: positive, name: bytes, ti: nat, mustBeF32: bytes -> bool, bits: Bits<Float>)
    requires Intact(s) && |s.shape| == 4 && s.shape[3] % channels == 0
    ensures FillsRegion(PatchOut(s, channels, name, ti, mustBeF32), bits)
    ensures FloatKind(s.kind) && ti < s.shape[2] ==> Succeeds(PatchOut(s, channels, name, ti, mustBeF32).writer)
  {
    hide Decodes, Values, W.ByteSize, Intact, PatchReachable, Repacked, FloatKind;
    var o := PatchOut(s, channels, name, ti, mustBeF32);
    if FloatKind(s.kind) && ti < s.shape[2] {
      FloatsConvert(s, name, mustBeF32);
      ValuesFill(s);
      ReversedShape(s.shape);
      CompletePatchReachable(Values(s), s.shape, channels, ti);
    }
    if Succeeds(o.writer) { PatchCounted(Values(s), s.shape, channels, ti); }
    ConvertedFills(o, bits);
  }

  lemma PatchCounted(data: seq<Float>, shape: seq<nat>, channels: positive, ti: nat)
    requires Takes(PatchHalf(channels, ti), data, shape)
    ensures |Repacked(PatchHalf(channels, ti), data, shape)|
      == Size([shape[0], shape[1], channels, shape[3] / channels])
  {
    hide PatchReachable, PatchCopied, PatchSource, Size;
    var w, h, flat := shape[0], shape[1], shape[3];
    PatchCount(flat, channels, h, w);
    Size4(w, h, channels, flat / channels);
    MulAssociative(w, h, channels * (flat / channels));
    MulAssociative(w * h, channels, flat / channels);
    assert |PatchPart(data, shape, channels, ti)| == Size([flat, h, w]);
  }

  lemma ReversedShape(shape: seq<nat>)
    requires |shape| == 4
    ensures Size([shape[3], shape[2], shape[1], shape[0]]) == Size(shape)
  {
    assert shape == [shape[0], shape[1], shape[2], shape[3]];
    assert Reverse(shape) == [shape[3], shape[2], shape[1], shape[0]];
    SizeReverse(shape);
  }

  // ----- several sources

  lemma AllConvert(sources: seq<Source>, name: bytes, mustBeF32: bytes -> bool)
    requires |sources| > 0 && forall i :: 0 <= i < |sources| ==> FloatKind(sources[i].kind)
    ensures AllDecode(sources) && FloatKind(OutputKind(mustBeF32, name, sources[0]))
  {
    hide Decodes;
    forall i | 0 <= i < |sources| ensures Decodes(sources[i]) { FloatsConvert(sources[i], name, mustBeF32); }
    FloatsConvert(sources[0], name, mustBeF32);
  }

  lemma ConcatFills(sources: seq<Source>, dim: nat, name: bytes, mustBeF32: bytes -> bool, bits: Bits<Float>)
    requires Joinable(sources, dim, name, mustBeF32) && AllIntact(sources)
    ensures var kind := OutputKind(mustBeF32, name, sources[0]);
      && FillsRegion(Out(name, kind, JoinedShape(sources, dim), Joined(dim, kind, sources)), bits)
      && ((forall i :: 0 <= i < |sources| ==> FloatKind(sources[i].kind)) ==> Succeeds(Joined(dim, kind, sources)))
  {
    hide Compatible, Concat, AllIntact, JoinedShape, EncodedFloats, FloatKind, AllDecode;
    if forall i :: 0 <= i < |sources| ==> FloatKind(sources[i].kind) {
      AllConvert(sources, name, mustBeF32);
      JoinFills(sources, dim, name, mustBeF32);
    }
    var kind := OutputKind(mustBeF32, name, sources[0]);
    var o := Out(name, kind, JoinedShape(sources, dim), Joined(dim, kind, sources));
    if Succeeds(o.writer) {
      JoinFills(sources, dim, name, mustBeF32);
      EncodedFills(o, Concat(Tensors(sources), dim).data, bits);
    }
  }

  lemma ConcatKindFills(sources: seq<Source>, dim: nat, name: bytes, kind: uint32, bits: Bits<Float>)
    requires Joinable(sources, dim, name, AnyName) && AllIntact(sources)
    ensures FillsRegion(Out(name, kind, JoinedShape(sources, dim), Joined(dim, kind, sources)), bits)
    ensures FloatKind(kind) && AllDecode(sources) ==> Succeeds(Joined(dim, kind, sources))
  {
    hide Compatible, Concat, AllIntact, JoinedShape, EncodedFloats, FloatKind;
    var o := Out(name, kind, JoinedShape(sources, dim), Joined(dim, kind, sources));
    if AllDecode(sources) && FloatKind(kind) {
      JoinFills(sources, dim, name, AnyName);
      EncodedFills(o, Concat(Tensors(sources), dim).data, bits);
    }
  }

  /** The elements of all sources. */
  function ElementsIn(sources: seq<Source>): nat {
    if sources == [] then 0 else ElementsIn(sources[..|sources| - 1]) + W.Elements(sources[|sources| - 1].shape)
  }

  lemma {:induction false} StoredOfKind(sources: seq<Source>, kind: uint32)
    requires AllIntact(sources) && AllOfKind(sources, kind)
    ensures ElementsIn(sources) % W.BlockSize(kind) == 0
    ensures |JoinStored(sources)| == ElementsIn(sources) / W.BlockSize(kind) * W.TypeSize(kind)
  {
    assert W.BlockSize(kind) > 0;
    hide W.BlockSize, W.TypeSize, W.Elements;
    var block, size := W.BlockSize(kind), W.TypeSize(kind);
    if sources == [] {
      DivideSum(0, block, 0);
    } else {
      var init, last := sources[..|sources| - 1], sources[|sources| - 1];
      StoredOfKind(init, kind);
      assert Intact(last) && last.kind == kind;
      SizeOfRows(last.shape, block);
      AddBlocks(ElementsIn(init), W.Elements(last.shape), block, size);
    }
  }

  lemma AddBlocks(a: nat, b: nat, block: nat, size: nat)
    requires block > 0 && a % block == 0 && b % block == 0
    ensures (a + b) % block == 0 && (a + b) / block * size == a / block * size + b / block * size
  {
    var k, l := a / block, b / block;
    assert a == k * block && b == l * block;
    MulDistributes(k, l, block);
    DivideSum(k + l, block, 0);
    MulDistributes(k, l, size);
  }

  /** Stored bytes of one type, back to back, fill a shape that holds all the elements. */
  lemma BackToBackFills(o: Out, sources: seq<Source>)
    requires AllIntact(sources) && AllOfKind(sources, o.kind) && Size(o.shape) == ElementsIn(sources)
    ensures |JoinStored(sources)| == Declared(o)
  {
    StoredOfKind(sources, o.kind);
    assert W.BlockSize(o.kind) > 0;
    hide W.BlockSize, W.TypeSize, ElementsIn, JoinStored, AllIntact, AllOfKind;
    WholeBlocksSize(ElementsIn(sources), W.BlockSize(o.kind), W.TypeSize(o.kind));
  }

  lemma WholeBlocksSize(n: nat, block: nat, size: nat)
    requires block > 0 && n % block == 0
    ensures n * size / block == n / block * size
  {
    assert n == n / block * block;
    MulAssociative(n / block, block, size);
    MulAssociative(n / block, size, block);
    DivideSum(n / block * size, block, 0);
  }

  lemma {:induction false} EqualElements(sources: seq<Source>, shape: seq<nat>)
    requires forall i :: 0 <= i < |sources| ==> sources[i].shape == shape
    ensures ElementsIn(sources) == |sources| * W.Elements(shape)
  {
    if sources != [] {
      EqualElements(sources[..|sources| - 1], shape);
      MulDistributes(|sources| - 1, 1, W.Elements(shape));
    }
  }

  lemma CopiedStackFills(o: Out, sources: seq<Source>)
    requires sources != [] && AllIntact(sources) && AllOfKind(sources, o.kind)
      && o.shape == StackShape(sources[0].shape, |sources|)
    requires forall i :: 0 <= i < |sources| ==> sources[i].shape == sources[0].shape
    ensures |JoinStored(sources)| == Declared(o)
  {
    hide AllIntact, AllOfKind, StackShape, Declared, JoinStored;
    EqualElements(sources, sources[0].shape);
    StackSize(sources[0].shape, |sources|);
    BackToBackFills(o, sources);
  }

  lemma EncodedStackFills(o: Out, sources: seq<Source>, name: bytes, mustBeF32: bytes -> bool, bits: Bits<Float>)
    requires Stackable(sources, name, mustBeF32) && AllIntact(sources)
      && o.shape == StackShape(sources[0].shape, |sources|)
    requires o.writer == Stacked(o.kind, sources)
    ensures FillsRegion(o, bits)
  {
    hide AllIntact, StackShape, EncodedFloats, FloatKind, JoinData, Declared, Stackable, Decodes;
    if Succeeds(o.writer) {
      StackIsConcat(sources, name, mustBeF32);
      EncodedFills(o, JoinData(Tensors(sources)), bits);
    }
  }

  /** Stacks fill their region, copied or encoded. */
  lemma StackFills(sources: seq<Source>, name: bytes, mustBeF32: bytes -> bool, bits: Bits<Float>)
    requires Stackable(sources, name, mustBeF32) && AllIntact(sources)
    ensures var kind := OutputKind(mustBeF32, name, sources[0]);
      FillsRegion(Out(name, kind, StackShape(sources[0].shape, |sources|),
                      if AllOfKind(sources, kind) then BackToBack(sources) else Stacked(kind, sources)), bits)
    ensures (forall i :: 0 <= i < |sources| ==> FloatKind(sources[i].kind)) ==>
      Succeeds(Stacked(OutputKind(mustBeF32, name, sources[0]), sources))
  {
    if forall i :: 0 <= i < |sources| ==> FloatKind(sources[i].kind) { AllConvert(sources, name, mustBeF32); }
    hide AllIntact, StackShape, Declared, OutputKind, AllOfKind, JoinStored, FloatKind, Decodes;
    var kind := OutputKind(mustBeF32, name, sources[0]);
    var o := Out(name, kind, StackShape(sources[0].shape, |sources|),
                 if AllOfKind(sources, kind) then BackToBack(sources) else Stacked(kind, sources));
    if AllOfKind(sources, kind) {
      CopiedStackFills(o, sources);
    } else {
      EncodedStackFills(o, sources, name, mustBeF32, bits);
    }
  }

  // ----- the concatenation of stored bytes

  lemma {:induction false} JoinedElements(sources: seq<Source>, dim: nat, front: seq<nat>)
    requires forall i :: 0 <= i < |sources| ==> dim == |sources[i].shape| - 1 && sources[i].shape[..dim] == front
    ensures ElementsIn(sources) == Size(front) * Sum(Extents(sources, dim))
  {
    if sources != [] {
      var init, last := sources[..|sources| - 1], sources[|sources| - 1];
      JoinedElements(init, dim, front);
      LastAxis(last.shape, dim);
      var w := Extents(sources, dim);
      assert w[..|w| - 1] == Extents(init, dim) && w[|w| - 1] == last.shape[dim];
      hide Size, Sum, Extents;
      SumLast(w);
      MulDistributesLeft(Size(front), Sum(Extents(init, dim)), last.shape[dim]);
    }
  }

  lemma SumLast(w: seq<int>)
    requires w != []
    ensures Sum(w) == Sum(w[..|w| - 1]) + w[|w| - 1]
  {}

  lemma MulDistributesLeft(a: int, b: int, c: int)
    ensures a * (b + c) == a * b + a * c
  {}

  lemma LastAxis(shape: seq<nat>, dim: nat)
    requires dim == |shape| - 1
    ensures Size(shape) == Size(shape[..dim]) * shape[dim]
  {
    SizeAxis(shape, dim);
    assert shape[dim + 1..] == [];
  }

  /** A joined shape holds the elements of all its sources. */
  lemma JoinedSize(sources: seq<Source>, dim: nat, name: bytes, mustBeF32: bytes -> bool)
    requires Joinable(sources, dim, name, mustBeF32) && dim == |sources[0].shape| - 1
    ensures Size(JoinedShape(sources, dim)) == ElementsIn(sources)
  {
    var front := sources[0].shape[..dim];
    forall i | 0 <= i < |sources| ensures dim == |sources[i].shape| - 1 && sources[i].shape[..dim] == front {
      assert SameAway(sources[i].shape, sources[0].shape, dim);
    }
    JoinedElements(sources, dim, front);
    var shape := JoinedShape(sources, dim);
    LastAxis(shape, dim);
    assert shape[..dim] == front;
  }

  /** Float sources no wider than the declared type: their bytes are at most what is declared, and as many exactly if
      each source is of the declared type. */
  lemma {:induction false} NarrowStored(sources: seq<Source>, kind: uint32)
    requires AllIntact(sources) && FloatKind(kind)
    requires forall i :: 0 <= i < |sources| ==> FloatKind(sources[i].kind) && (sources[i].kind == kind || kind == 0)
    ensures |JoinStored(sources)| <= ElementsIn(sources) * Width(kind)
    ensures |JoinStored(sources)| == ElementsIn(sources) * Width(kind) <==> AllOfKind(sources, kind)
  {
    if sources != [] {
      var init, last := sources[..|sources| - 1], sources[|sources| - 1];
      NarrowStored(init, kind);
      assert Intact(last) && FloatKind(last.kind) && (last.kind == kind || kind == 0);
      FloatBytes(last);
      MulDistributes(ElementsIn(init), W.Elements(last.shape), Width(kind));
      assert AllOfKind(sources, kind) <==> AllOfKind(init, kind) && last.kind == kind by {
        assert sources == init + [last];
      }
    }
  }

  lemma FloatBytes(s: Source)
    requires Intact(s) && FloatKind(s.kind)
    ensures |s.stored| == W.Elements(s.shape) * Width(s.kind) > 0 && W.Elements(s.shape) > 0
  {}

  /** The slow-dimension concatenation declares the promoted type but copies stored bytes: with float sources it never
      writes more than it declares, and fills its region exactly if no source was promoted. */
  lemma SlowConcatFills(sources: seq<Source>, dim: nat, name: bytes, mustBeF32: bytes -> bool, bits: Bits<Float>)
    requires Joinable(sources, dim, name, mustBeF32) && dim == |sources[0].shape| - 1 && AllIntact(sources)
    requires forall i :: 0 <= i < |sources| ==> FloatKind(sources[i].kind)
    ensures var kind := OutputKind(mustBeF32, name, sources[0]);
      var o := Out(name, kind, JoinedShape(sources, dim), BackToBack(sources));
      && |Written(o.writer, bits)| <= Declared(o)
      && (FillsRegion(o, bits) <==> AllOfKind(sources, kind))
  {
    hide JoinedShape, JoinStored, AllIntact, ElementsIn;
    var kind := OutputKind(mustBeF32, name, sources[0]);
    var o := Out(name, kind, JoinedShape(sources, dim), BackToBack(sources));
    forall i | 0 <= i < |sources| ensures sources[i].kind == kind || kind == 0 {
      assert OutputKind(mustBeF32, name, sources[i]) == kind;
    }
    assert FloatKind(kind) by { assert FloatKind(sources[0].kind); }
    NarrowStored(sources, kind);
    JoinedSize(sources, dim, name, mustBeF32);
    assert Declared(o) == ElementsIn(sources) * Width(kind);
  }

  /** Unpromoted sources of any type fill the region. */
  lemma SlowConcatOfKind(sources: seq<Source>, dim: nat, name: bytes, mustBeF32: bytes -> bool, bits: Bits<Float>)
    requires Joinable(sources, dim, name, mustBeF32) && dim == |sources[0].shape| - 1 && AllIntact(sources)
    requires AllOfKind(sources, OutputKind(mustBeF32, name, sources[0]))
    ensures var kind := OutputKind(mustBeF32, name, sources[0]);
      FillsRegion(Out(name, kind, JoinedShape(sources, dim), BackToBack(sources)), bits)
  {
    hide JoinedShape, JoinStored, AllIntact, ElementsIn, W.ByteSize;
    var kind := OutputKind(mustBeF32, name, sources[0]);
    JoinedSize(sources, dim, name, mustBeF32);
    BackToBackFills(Out(name, kind, JoinedShape(sources, dim), BackToBack(sources)), sources);
  }

  /** Two F16 values joined under a name that must be F32: eight bytes are set aside and four written. */
  lemma PromotedSlowConcatFallsShort(name: bytes, a: bytes, b: bytes, mustBeF32: bytes -> bool, bits: Bits<Float>)
    requires mustBeF32(name)
    ensures var sources := [Source(a, 1, [1], [0, 60]), Source(b, 1, [1], [0, 60])];
      && Joinable(sources, 0, name, mustBeF32) && AllIntact(sources)
      && var o := Out(name, 0, JoinedShape(sources, 0), BackToBack(sources));
         |Written(o.writer, bits)| == 4 && Declared(o) == 8 && !FillsRegion(o, bits)
  {
    var one, two := Source(a, 1, [1], [0, 60]), Source(b, 1, [1], [0, 60]);
    var sources := [one, two];
    assert Size([1]) == 1 by { assert [1][1..] == []; }
    assert Intact(one) && Intact(two);
    assert sources[..1] == [one] && [one][..0] == [];
    assert JoinStored([one]) == Octets(one.stored);
    assert JoinStored(sources) == JoinStored([one]) + Octets(two.stored);
    assert W.Elements(one.shape) == 1 && W.Elements(two.shape) == 1;
    assert ElementsIn([one]) == 1;
    assert ElementsIn(sources) == ElementsIn([one]) + 1;
    JoinedSize(sources, 0, name, mustBeF32);
  }

  // ----- what stored bytes back to back mean

  function StoredTogether(sources: seq<Source>): seq<BlockFormat.byte> {
    if sources == [] then [] else StoredTogether(sources[..|sources| - 1]) + sources[|sources| - 1].stored
  }

  lemma {:induction false} OctetsTogether(sources: seq<Source>)
    ensures Octets(StoredTogether(sources)) == JoinStored(sources)
  {
    if sources != [] {
      OctetsTogether(sources[..|sources| - 1]);
    }
  }

  /** Whole blocks after whole blocks are whole blocks. */
  lemma BlocksFit(kind: BlockFormat.Kind, a: seq<BlockFormat.byte>, n: nat, b: seq<BlockFormat.byte>, m: nat)
    requires BlockFormat.Fits(kind, a, n) && BlockFormat.Fits(kind, b, m)
    ensures BlockFormat.Fits(kind, a + b, n + m)
  {
    var len, size := BlockFormat.BlockLen(kind), BlockFormat.BlockBytes(kind);
    hide BlockFormat.BlockLen, BlockFormat.BlockBytes;
    var k, l := n / len, m / len;
    assert n == k * len && m == l * len;
    MulDistributes(k, l, len);
    DivideSum(k + l, len, 0);
    MulDistributes(k, l, size);
  }

  /** An element of one part is an element of the whole. */
  lemma EarlierElement(kind: BlockFormat.Kind, a: seq<BlockFormat.byte>, n: nat, b: seq<BlockFormat.byte>, m: nat,
                       e: nat)
    requires BlockFormat.Fits(kind, a, n) && BlockFormat.Fits(kind, a + b, n + m) && e < n
    ensures BlockFormat.Element(kind, a + b, n + m, e) == BlockFormat.Element(kind, a, n, e)
  {
    hide BlockFormat.BlockElement, BlockFormat.BlockLen, BlockFormat.BlockBytes;
    BlockFormat.BlockInRange(kind, n + m, e);
    BlockFormat.BlockInRange(kind, n, e);
    var q, size := e / BlockFormat.BlockLen(kind), BlockFormat.BlockBytes(kind);
    MulNonNegative(q, size);
    MulDistributes(q, 1, size);
    assert (a + b)[q * size..(q + 1) * size] == a[q * size..(q + 1) * size];
  }

  lemma LaterElement(kind: BlockFormat.Kind, a: seq<BlockFormat.byte>, n: nat, b: seq<BlockFormat.byte>, m: nat, e: nat)
    requires BlockFormat.Fits(kind, a, n) && BlockFormat.Fits(kind, b, m) && BlockFormat.Fits(kind, a + b, n + m)
      && e < m
    ensures BlockFormat.Element(kind, a + b, n + m, n + e) == BlockFormat.Element(kind, b, m, e)
  {
    hide BlockFormat.BlockElement, BlockFormat.BlockLen, BlockFormat.BlockBytes;
    var len := BlockFormat.BlockLen(kind);
    BlockFormat.BlockInRange(kind, n + m, n + e);
    BlockFormat.BlockInRange(kind, m, e);
    assert n == n / len * len;
    LaterBlock(n / len, len, e);
    BlockShift(kind, a, b, n / len, e / len);
  }

  lemma ElementsConcat(kind: BlockFormat.Kind, a: seq<BlockFormat.byte>, n: nat, b: seq<BlockFormat.byte>, m: nat)
    requires BlockFormat.Fits(kind, a, n) && BlockFormat.Fits(kind, b, m)
    ensures BlockFormat.Fits(kind, a + b, n + m)
    ensures BlockFormat.Elements(kind, a + b, n + m)
      == BlockFormat.Elements(kind, a, n) + BlockFormat.Elements(kind, b, m)
  {
    hide BlockFormat.Fits, BlockFormat.Element, BlockFormat.Elements;
    BlocksFit(kind, a, n, b, m);
    var whole, left, right := BlockFormat.Elements(kind, a + b, n + m), BlockFormat.Elements(kind, a, n),
      BlockFormat.Elements(kind, b, m);
    forall e: nat | e < n ensures whole[e] == left[e] {
      EarlierElement(kind, a, n, b, m, e);
      ElementIs(kind, a + b, n + m, e);
      ElementIs(kind, a, n, e);
    }
    forall e: nat | e < m ensures whole[n + e] == right[e] {
      LaterElement(kind, a, n, b, m, e);
      ElementIs(kind, a + b, n + m, n + e);
      ElementIs(kind, b, m, e);
    }
    SameByParts(whole, left, right);
  }

  lemma ElementIs(kind: BlockFormat.Kind, b: seq<BlockFormat.byte>, n: nat, e: nat)
    requires BlockFormat.Fits(kind, b, n) && e < n
    ensures BlockFormat.Elements(kind, b, n)[e] == BlockFormat.Element(kind, b, n, e)
  {}

  lemma SameByParts<T>(whole: seq<T>, left: seq<T>, right: seq<T>)
    requires |whole| == |left| + |right|
    requires forall e: nat :: e < |left| ==> whole[e] == left[e]
    requires forall e: nat :: e < |right| ==> whole[|left| + e] == right[e]
    ensures whole == left + right
  {
    assert whole[|left|..] == right;
    assert whole[..|left|] == left;
  }

  lemma LaterBlock(k: nat, len: nat, x: nat)
    requires len > 0
    ensures (k * len + x) / len == k + x / len && (k * len + x) % len == x % len
  {
    MulDistributes(k, x / len, len);
    assert x == x / len * len + x % len;
    DivideSum(k + x / len, len, x % len);
  }

  lemma BlockShift(kind: BlockFormat.Kind, a: seq<BlockFormat.byte>, b: seq<BlockFormat.byte>, k: nat, j: nat)
    requires |a| == k * BlockFormat.BlockBytes(kind) && (j + 1) * BlockFormat.BlockBytes(kind) <= |b|
    ensures (k + j + 1) * BlockFormat.BlockBytes(kind) <= |a + b|
    ensures BlockFormat.Block(kind, a + b, k + j) == BlockFormat.Block(kind, b, j)
  {
    var size := BlockFormat.BlockBytes(kind);
    MulDistributes(k, j, size);
    MulDistributes(k, j + 1, size);
    MulNonNegative(j, size);
    MulMonotone(j, j + 1, size);
    AfterPrefix(a, b, j * size, (j + 1) * size);
  }

  lemma AfterPrefix<T>(a: seq<T>, b: seq<T>, lo: nat, hi: nat)
    requires lo <= hi <= |b|
    ensures (a + b)[|a| + lo..|a| + hi] == b[lo..hi]
  {}

  lemma ValuesAreElements(s: Source)
    requires Intact(s) && Decodes(s)
    ensures BlockFormat.Fits(KindOf(s.kind), s.stored, W.Elements(s.shape))
    ensures Values(s) == BlockFormat.Elements(KindOf(s.kind), s.stored, W.Elements(s.shape))
  {
    hide BlockFormat.Elements;
    ValuesFill(s);
    KindSizes(s.kind);
    assert W.BlockSize(s.kind) > 0;
    SizeOfRows(s.shape, W.BlockSize(s.kind));
    DecodedCount(s);
  }

  lemma DecodedCount(s: Source)
    requires Decodes(s)
    ensures !FloatKind(s.kind) ==> |Values(s)| == RowReader.Cols(s.shape) * RowReader.Rows(s.shape)
    ensures FloatKind(s.kind) ==> |Values(s)| == RowReader.FloatCount(KindOf(s.kind), s.stored)
  {}

  /** Stored bytes of one type, back to back, decode to the sources' values, one after the other. */
  lemma {:induction false} StoredDecodes(sources: seq<Source>, kind: uint32)
    requires AllIntact(sources) && AllDecode(sources) && AllOfKind(sources, kind) && Known(kind)
    ensures BlockFormat.Fits(KindOf(kind), StoredTogether(sources), ElementsIn(sources))
    ensures BlockFormat.Elements(KindOf(kind), StoredTogether(sources), ElementsIn(sources))
      == JoinData(Tensors(sources))
  {
    hide Values, Decodes, Intact, KindOf, W.Elements, BlockFormat.Element;
    if sources != [] {
      var init, last := sources[..|sources| - 1], sources[|sources| - 1];
      StoredDecodes(init, kind);
      ValuesAreElements(last);
      ElementsConcat(KindOf(kind), StoredTogether(init), ElementsIn(init), last.stored, W.Elements(last.shape));
      assert Tensors(sources)[..|sources| - 1] == Tensors(init);
    }
  }

  // ----- one row of a tensor

  /** A row that is read fills its region, wherever in the file it lies. */
  lemma RowFills(name: bytes, s: Source, row: nat, file: seq<BlockFormat.byte>, at: nat, bits: Bits<Float>)
    requires s.shape != []
    ensures FillsRegion(RowOut(name, s, row, file, at), bits)
  {
    hide RowThere, RowValues, EncodedFloats, W.ByteSize;
    var o := RowOut(name, s, row, file, at);
    if Succeeds(o.writer) {
      assert Size(o.shape) == s.shape[0] * Size([]) == s.shape[0];
      EncodedFills(o, RowValues(s.kind, s.shape[0], row, file, at), bits);
    }
  }

  /** The file holds the tensor's stored bytes at `at`. */
  predicate Lies(s: Source, file: seq<BlockFormat.byte>, at: nat) {
    at + |s.stored| <= |file| && file[at..at + |s.stored|] == s.stored
  }

  /** A row of an intact tensor of a type that decodes is always written, and holds that row of the tensor decoded
      whole. */
  lemma RowIsTensors(name: bytes, s: Source, row: nat, file: seq<BlockFormat.byte>, at: nat)
    requires Intact(s) && Known(s.kind) && |s.shape| >= 2 && row < s.shape[1] && Lies(s, file, at)
    ensures Succeeds(RowOut(name, s, row, file, at).writer)
    ensures Decodes(s) ==>
      var cols := s.shape[0];
      && 0 <= row * cols <= (row + 1) * cols <= |Values(s)|
      && RowValues(s.kind, cols, row, file, at) == Values(s)[row * cols..(row + 1) * cols]
  {
    hide Values, Decodes, RowThere, RowValues, RowReader.RowBytes, BlockFormat.Elements, BlockFormat.BlockLen,
      BlockFormat.Fits, KindOf, W.Elements;
    var rows := StoredRows(s, row);
    RowOfStored(s.kind, s.shape[0], rows, row, file, at, s.stored);
    if Decodes(s) { ValuesAreElements(s); }
  }

  lemma RowOfStored(kind: uint32, cols: nat, rows: nat, row: nat, file: seq<BlockFormat.byte>, at: nat,
                    stored: seq<BlockFormat.byte>)
    requires Known(kind) && cols > 0 && row < rows && cols % BlockFormat.BlockLen(KindOf(kind)) == 0
    requires RowReader.RowBytes(KindOf(kind), cols) > 0 && |stored| == RowReader.RowBytes(KindOf(kind), cols) * rows
    requires at + |stored| <= |file| && file[at..at + |stored|] == stored
    ensures RowThere(kind, cols, row, file, at) && BlockFormat.Fits(KindOf(kind), stored, cols * rows)
    ensures 0 <= row * cols <= (row + 1) * cols <= cols * rows
    ensures RowValues(kind, cols, row, file, at)
         == BlockFormat.Elements(KindOf(kind), stored, cols * rows)[row * cols..(row + 1) * cols]
  {
    hide RowReader.RowBytes, BlockFormat.Elements, KindOf, BlockFormat.BlockLen, BlockFormat.Fits;
    var n := RowReader.RowBytes(KindOf(kind), cols);
    RowReader.RowByOffset(file, at, 0, KindOf(kind), cols, rows, row);
    assert RowReader.TensorBytes(file, at, n * rows) == stored;
    OwnBytes(file, at, n, rows, row);
    hide RowReader.RowAt, RowReader.TensorBytes;
  }

  lemma OwnBytes(file: seq<BlockFormat.byte>, at: nat, n: nat, rows: nat, row: nat)
    requires row < rows && at + n * rows <= |file|
    ensures 0 <= row * n && at + row * n + n == at + (row + 1) * n <= |file|
    ensures RowReader.RowAt(file, at, n, rows, row) == file[at + row * n..at + row * n + n]
  {
    RowReader.RowBounds(n, rows, row);
  }

  /** An intact tensor is stored as whole rows, at least as many as its second dimension. */
  lemma StoredRows(s: Source, row: nat) returns (rows: nat)
    requires Intact(s) && Known(s.kind) && |s.shape| >= 2 && row < s.shape[1]
    ensures row < rows && s.shape[0] > 0 && W.Elements(s.shape) == s.shape[0] * rows
    ensures s.shape[0] % BlockFormat.BlockLen(KindOf(s.kind)) == 0
    ensures RowReader.RowBytes(KindOf(s.kind), s.shape[0]) > 0
    ensures |s.stored| == RowReader.RowBytes(KindOf(s.kind), s.shape[0]) * rows
  {
    hide KindOf, W.BlockSize, W.TypeSize, BlockFormat.BlockLen, BlockFormat.BlockBytes;
    var cols := s.shape[0];
    KindSizes(s.kind);
    SizeNonNegative(s.shape[1..]);
    SizeNonNegative(s.shape[2..]);
    assert s.shape[1..][1..] == s.shape[2..];
    rows := Size(s.shape[1..]);
    RowReader.RowsFit(KindOf(s.kind), cols, rows);
    assert cols > 0 && rows > 0;
    MulMonotone(1, Size(s.shape[2..]), s.shape[1]);
  }
}
