/** Planning a source and writing the plan: where each expert's bytes end up. */
module ModelImport {
  import opened Text
  import opened ExpertNames
  import opened ImportPlan
  import opened ExpertGroups
  import opened ExpertStacks
  import opened PlanSources
  import opened BlockFP8Plan
  import opened PrequantPlan
  import opened Planner
  import opened BlobWriter

  // ----- slots of a stacked tensor

  /** Block i of the bytes, the blocks being of one size. */
  ghost predicate BlockAt(bytes: seq<int>, one: nat, i: nat, block: seq<int>) {
    0 <= i * one <= (i + 1) * one <= |bytes| && bytes[i * one..(i + 1) * one] == block
  }

  /** Block i is what is read for the source's own expert i of the projection. */
  ghost predicate ExpertBlocks(inv: Inventory, read: SourceTensor -> TensorData, group: string, proj: string,
                               bytes: seq<int>, n: nat, one: nat) {
    (forall i: nat :: i < n ==> ExpertName(group, i, proj) in inv)
    && |bytes| == n * one
    && forall i: nat :: i < n ==> BlockAt(bytes, one, i, read(inv[ExpertName(group, i, proj)]).bytes)
  }

  /** Block i is what is read for the scale of expert i. */
  ghost predicate ScaleBlocks(inv: Inventory, scales: Scales, read: SourceTensor -> TensorData, group: string,
                              proj: string, bytes: seq<int>, n: nat, one: nat)
  {
    && |bytes| == n * one
    && forall i: nat :: i < n ==> ScaleBlock(inv, scales, read, group, proj, bytes, one, i)
  }

  ghost predicate ScaleBlock(inv: Inventory, scales: Scales, read: SourceTensor -> TensorData, group: string,
                             proj: string, bytes: seq<int>, one: nat, i: nat)
  {
    && ExpertName(group, i, proj) in inv && ScaleOf(scales, inv[ExpertName(group, i, proj)]).Some?
    && BlockAt(bytes, one, i, read(ScaleOf(scales, inv[ExpertName(group, i, proj)]).value).bytes)
  }

  lemma BlocksOfStack(ds: seq<TensorData>, size: nat, i: nat)
    requires (forall k :: 0 <= k < |ds| ==> |ds[k].bytes| == size) && i < |ds|
    ensures |AllBytes(ds)| == |ds| * size && BlockAt(AllBytes(ds), size, i, ds[i].bytes)
  {
    BlockOfStack(ds, size, i);
  }

  /** The weights of a stack, back to back, are the experts' bytes in order ... */
  lemma SlotHoldsExpert(inv: Inventory, group: string, proj: string, scales: Scales,
                        quantizeOf: (string, seq<int>) -> string, t: TensorSpec, read: SourceTensor -> TensorData,
                        size: (string, seq<int>) -> nat)
    requires SlotsOf(inv, group, proj, scales, quantizeOf, t) && Reads(read, size)
    ensures var n, one := t.outShape.value[0], size(t.outDtype, t.outShape.value[1..]);
      n <= |t.sources| && ExpertBlocks(inv, read, group, proj, AllBytes(Resolve(read, t.sources)[..n]), n, one)
  {
    hide ExpertName, StackedName, AllBytes, Reads;
    var shape, n := t.outShape.value[1..], t.outShape.value[0];
    assert SlotOf(inv, group, proj, scales, t.sources, shape, t.outDtype, n, 0);
    var ds := Resolve(read, t.sources)[..n];
    forall k | 0 <= k < n ensures |ds[k].bytes| == size(t.outDtype, shape) && ds[k] == read(t.sources[k]) {
      assert SlotOf(inv, group, proj, scales, t.sources, shape, t.outDtype, n, k);
      ReadSize(read, size, t.sources[k]);
    }
    forall i: nat | i < n
      ensures ExpertName(group, i, proj) in inv
      ensures |AllBytes(ds)| == n * size(t.outDtype, shape)
      ensures BlockAt(AllBytes(ds), size(t.outDtype, shape), i, read(inv[ExpertName(group, i, proj)]).bytes)
    {
      assert SlotOf(inv, group, proj, scales, t.sources, shape, t.outDtype, n, i);
      BlocksOfStack(ds, size(t.outDtype, shape), i);
    }
  }

  lemma ReadSize(read: SourceTensor -> TensorData, size: (string, seq<int>) -> nat, s: SourceTensor)
    requires Reads(read, size)
    ensures |read(s).bytes| == size(s.dtype, s.shape)
  {
    assert ReadsAs(read(s), s, size);
  }

  /** ... and so are its scales, each expert's own. */
  lemma SlotHoldsScale(inv: Inventory, group: string, proj: string, scales: Scales,
                       quantizeOf: (string, seq<int>) -> string, t: TensorSpec, read: SourceTensor -> TensorData,
                       size: (string, seq<int>) -> nat)
    requires SlotsOf(inv, group, proj, scales, quantizeOf, t) && scales.Scales? && Reads(read, size)
    ensures var n := t.outShape.value[0];
      && |t.sources| == 2 * n
      && ScaleBlocks(inv, scales, read, group, proj, AllBytes(Resolve(read, t.sources)[n..]), n,
                     size(t.sources[n].dtype, t.sources[n].shape))
  {
    hide ExpertName, StackedName, AllBytes, Reads;
    var shape, n := t.outShape.value[1..], t.outShape.value[0];
    assert SlotOf(inv, group, proj, scales, t.sources, shape, t.outDtype, n, 0);
    var ds, one := Resolve(read, t.sources)[n..], size(t.sources[n].dtype, t.sources[n].shape);
    forall k: nat | k < n ensures |ds[k].bytes| == one && ScaleRead(inv, scales, read, group, proj, ds, k) {
      ScaleSlot(inv, group, proj, scales, quantizeOf, t, read, size, k);
    }
    BlocksOfStack(ds, one, 0);
    forall i: nat | i < n
      ensures |AllBytes(ds)| == n * one && ScaleBlock(inv, scales, read, group, proj, AllBytes(ds), one, i)
    {
      BlocksOfStack(ds, one, i);
    }
  }

  /** The k-th scale read is expert k's. */
  ghost predicate ScaleRead(inv: Inventory, scales: Scales, read: SourceTensor -> TensorData, group: string,
                            proj: string, ds: seq<TensorData>, k: nat)
  {
    && k < |ds| && ExpertName(group, k, proj) in inv && ScaleOf(scales, inv[ExpertName(group, k, proj)]).Some?
    && ds[k] == read(ScaleOf(scales, inv[ExpertName(group, k, proj)]).value)
  }

  lemma ScaleSlot(inv: Inventory, group: string, proj: string, scales: Scales, quantizeOf: (string, seq<int>) -> string,
                  t: TensorSpec, read: SourceTensor -> TensorData, size: (string, seq<int>) -> nat, k: nat)
    requires SlotsOf(inv, group, proj, scales, quantizeOf, t) && scales.Scales? && Reads(read, size)
      && k < t.outShape.value[0]
    ensures var n := t.outShape.value[0];
      && |t.sources| == 2 * n && ScaleRead(inv, scales, read, group, proj, Resolve(read, t.sources)[n..], k)
      && |Resolve(read, t.sources)[n..][k].bytes| == size(t.sources[n].dtype, t.sources[n].shape)
  {
    hide ExpertName, StackedName, Reads;
    var n := t.outShape.value[0];
    assert SlotOf(inv, group, proj, scales, t.sources, t.outShape.value[1..], t.outDtype, n, k);
    ReadSize(read, size, t.sources[n + k]);
    assert Resolve(read, t.sources)[n..][k] == read(t.sources[n + k]);
  }

  // ----- a written blob

  predicate Stacks(t: TensorSpec) { t.transform == StackExperts || t.transform == DecodeStackFP8 }

  /** What was written for tensor j: its quantizer input, or its packed tensor. */
  function OutputOf(c: Contents, j: nat): (ds: seq<TensorData>)
    requires j < if c.Quantized? then |c.items| else |c.tensors|
  {
    if c.Quantized? then c.items[j].input else [c.tensors[j]]
  }

  /** The stacked tensor holds expert i of one projection of a group in slot i, for every slot, and an FP8 stack comes
      with the experts' own scales in the same slots. */
  ghost predicate HoldsExperts(inv: Inventory, read: SourceTensor -> TensorData, size: (string, seq<int>) -> nat,
                               t: TensorSpec, ds: seq<TensorData>)
  {
    t.outShape.Some? && t.outShape.value != [] && t.outShape.value[0] > 0 && ds != [] && ds[0].name == t.name
      && ds[0].shape == t.outShape.value
    && exists group, proj :: t.name == StackedName(group, proj) && HoldsProjection(inv, read, size, t, ds, group, proj)
  }

  ghost predicate HoldsProjection(inv: Inventory, read: SourceTensor -> TensorData, size: (string, seq<int>) -> nat,
                                  t: TensorSpec, ds: seq<TensorData>, group: string, proj: string)
    requires t.outShape.Some? && t.outShape.value != [] && t.outShape.value[0] > 0 && ds != []
  {
    var n := t.outShape.value[0];
    && ExpertBlocks(inv, read, group, proj, ds[0].bytes, n, size(t.outDtype, t.outShape.value[1..]))
    && (t.transform == DecodeStackFP8 ==>
         |ds| == 2
         && exists one :: ScaleBlocks(inv, FP8Scales(inv), read, group, proj, ds[1].bytes, n, one))
  }

  /** Stacked by a plan: plain experts as they are, FP8 experts with their scales. */
  ghost predicate PlannedStack(inv: Inventory, t: TensorSpec) {
    exists g, p, scales, q :: SlotsOf(inv, g, p, scales, q, t) && (scales == NoScales || scales == FP8Scales(inv))
  }

  lemma StackWritten(inv: Inventory, t: TensorSpec, read: SourceTensor -> TensorData, size: (string, seq<int>) -> nat,
                     reciprocal: seq<int> -> Option<seq<int>>, ds: seq<TensorData>)
    requires PlannedStack(inv, t) && Reads(read, size)
    requires IsQuantizerInput(t, Resolve(read, t.sources), ds)
      || (|ds| == 1 && IsOutput(t, Resolve(read, t.sources), reciprocal, ds[0]))
    ensures HoldsExperts(inv, read, size, t, ds)
  {
    hide ExpertBlocks, ScaleBlocks, AllBytes, Reads, ScaleTensor, IsScalarF32, SlotOf;
    var g, p, scales, q :| SlotsOf(inv, g, p, scales, q, t) && (scales == NoScales || scales == FP8Scales(inv));
    var all, n := Resolve(read, t.sources), t.outShape.value[0];
    SourceCount(inv, g, p, scales, q, t);
    SlotHoldsExpert(inv, g, p, scales, q, t, read, size);
    if scales.Scales? {
      SlotHoldsScale(inv, g, p, scales, q, t, read, size);
    } else {
      assert all[..n] == all;
    }
    WhatIsStacked(t, all, reciprocal, ds);
    assert ExpertBlocks(inv, read, g, p, ds[0].bytes, n, size(t.outDtype, t.outShape.value[1..]));
    assert HoldsProjection(inv, read, size, t, ds, g, p);
  }

  /** Of a stack, what is written first are its weights back to back, and then, for FP8, its scales. */
  lemma WhatIsStacked(t: TensorSpec, all: seq<TensorData>, reciprocal: seq<int> -> Option<seq<int>>,
                      ds: seq<TensorData>)
    requires Stacks(t) && (IsQuantizerInput(t, all, ds) || (|ds| == 1 && IsOutput(t, all, reciprocal, ds[0])))
    ensures ds != [] && ds[0].name == t.name && ds[0].shape == ShapeOf(t)
    ensures t.transform == StackExperts ==> ds[0].bytes == AllBytes(all)
    ensures t.transform == DecodeStackFP8 ==>
      |ds| == 2 && ds[0].bytes == AllBytes(all[..|all| / 2]) && ds[1].bytes == AllBytes(all[|all| / 2..])
  {
    hide AllBytes, IsScalarF32;
  }

  lemma SourceCount(inv: Inventory, g: string, p: string, scales: Scales, q: (string, seq<int>) -> string,
                    t: TensorSpec)
    requires SlotsOf(inv, g, p, scales, q, t)
    ensures |t.sources| == if scales.Scales? then 2 * t.outShape.value[0] else t.outShape.value[0]
  {
    assert SlotOf(inv, g, p, scales, t.sources, t.outShape.value[1..], t.outDtype, t.outShape.value[0], 0);
  }

  // ----- which tensors of a plan stack experts

  lemma GroupStacked(inv: Inventory, chosen: set<string>, groupOf: string -> Option<string>, scales: Scales,
                     quantizeOf: (string, seq<int>) -> string, t: TensorSpec)
    requires StacksGroup(inv, chosen, groupOf, scales, quantizeOf, t)
    requires scales == NoScales || scales == FP8Scales(inv)
    ensures PlannedStack(inv, t)
  {
    hide OfGroup, FP8Scales, StackedName, ExpertName, SameLayout;
    var g, p :| SlotsOf(OfGroup(inv, chosen, groupOf, g), g, p, scales, quantizeOf, t);
    var own := OfGroup(inv, chosen, groupOf, g);
    forall i | 0 <= i < t.outShape.value[0]
      ensures SlotOf(inv, g, p, scales, t.sources, t.outShape.value[1..], t.outDtype, t.outShape.value[0], i)
    {
      assert SlotOf(own, g, p, scales, t.sources, t.outShape.value[1..], t.outDtype, t.outShape.value[0], i);
    }
    assert SlotsOf(inv, g, p, scales, quantizeOf, t);
  }

  lemma FloatStacks(inv: Inventory, quantizeOf: (string, seq<int>) -> string, groupOf: string -> Option<string>,
                    specs: seq<BlobSpec>, b: BlobSpec, t: TensorSpec)
    requires FloatPlan(inv, quantizeOf, groupOf, specs) && b in specs && t in b.tensors && Stacks(t)
    ensures PlannedStack(inv, t)
  {
    hide StacksGroup, PlannedStack, Experts;
    assert b in specs && t in b.tensors && !CopiesOne(inv, t);
    GroupStacked(inv, Experts(inv, groupOf), groupOf, NoScales, quantizeOf, t);
  }

  lemma FP8Stacks(inv: Inventory, groupOf: string -> Option<string>, quantizeOf: (string, seq<int>) -> string,
                  specs: seq<BlobSpec>, b: BlobSpec, t: TensorSpec)
    requires FP8Plan(inv, groupOf, quantizeOf, specs) && b in specs && t in b.tensors && Stacks(t)
    ensures PlannedStack(inv, t)
  {
    hide StacksGroup, FP8Scales, KeptAsIs, IsFP8Weight, FP8ScaleFor, KindOf, PlannedStack, OfKind;
    assert b in specs && t in b.tensors && !OneTensor(inv, groupOf, t);
    if StacksGroup(inv, OfKind(inv, groupOf, PlainStack), groupOf, NoScales, KeptAsIs, t) {
      GroupStacked(inv, OfKind(inv, groupOf, PlainStack), groupOf, NoScales, KeptAsIs, t);
    } else {
      GroupStacked(inv, OfKind(inv, groupOf, DecodedStack), groupOf, FP8Scales(inv), quantizeOf, t);
    }
  }

  lemma FusedStacksNothing(inv: Inventory, n: string, p: Pattern)
    requires n in inv && TrimSuffix(n, p.weightSuffix) + p.scaleSuffix in inv
    ensures forall i :: 0 <= i < |FusedTensors(inv, n, p)| ==> !Stacks(FusedTensors(inv, n, p)[i])
  {
    hide IsE4M3, TrimSuffix, IsU8, Quarter, WeightSuffix;
  }

  lemma PrequantStacksNothing(inv: Inventory, md: map<string, string>, specs: seq<BlobSpec>, b: BlobSpec, t: TensorSpec)
    requires OnlySpecs(inv, md, specs) && b in specs && t in b.tensors
    ensures !Stacks(t)
  {
    hide Match, ConsumedAny, Metadata, FusedTensors, Matches, RowOK, IsWeightExt, Ext, Stem, TrimSuffix, Stacks;
    var n :| n in inv && SpecOf(inv, md, n, b);
    if Match(inv, n).Some? {
      MatchFacts(inv, n);
      FusedStacksNothing(inv, n, Match(inv, n).value);
    } else {
      CopyStacksNothing(inv[n]);
    }
  }

  lemma CopyStacksNothing(t: SourceTensor)
    ensures CopyOf(t, "").tensors == [TensorSpec(t.name, [t], Copy, "", "", None)] && !Stacks(CopyOf(t, "").tensors[0])
  {}

  lemma PlanStacks(inv: Inventory, kind: SourceKind, quantize: string, md: map<string, string>, policy: Policy,
                   groupOf: string -> Option<string>, specs: seq<BlobSpec>, b: BlobSpec, t: TensorSpec)
    requires IsPlan(inv, kind, quantize, md, policy, groupOf, specs) && b in specs && t in b.tensors && Stacks(t)
    ensures PlannedStack(inv, t)
  {
    hide FloatPlan, FP8Plan, OnlySpecs, HasSpec, HasFP8Spec, QuantizeFor, PolicyFor, PlannedStack, Stacks;
    match kind
    case SourceFloat => FloatStacks(inv, QuantizeFor(quantize, policy), groupOf, specs, b, t);
    case SourceBlockFP8 => FP8Stacks(inv, groupOf, PolicyFor(policy, quantize), specs, b, t);
    case SourcePrequantized => PrequantStacksNothing(inv, md, specs, b, t);
    case OtherSource =>
  }

  // ----- the whole import

  datatype Import = Imported(blobs: seq<Contents>) | PlanRefused | DataRefused(why: Refusal)

  /** Every stacked tensor of the blob holds its experts. */
  ghost predicate ExpertsInPlace(inv: Inventory, read: SourceTensor -> TensorData, size: (string, seq<int>) -> nat,
                                 b: BlobSpec, c: Contents) {
    && |b.tensors| == (if c.Quantized? then |c.items| else |c.tensors|)
    && forall j :: 0 <= j < |b.tensors| && Stacks(b.tensors[j]) ==>
      HoldsExperts(inv, read, size, b.tensors[j], OutputOf(c, j))
  }

  lemma BlobInPlace(inv: Inventory, read: SourceTensor -> TensorData, size: (string, seq<int>) -> nat,
                    reciprocal: seq<int> -> Option<seq<int>>, b: BlobSpec, c: Contents)
    requires Reads(read, size) && WrittenAs(b, read, reciprocal, c)
    requires forall t :: t in b.tensors && Stacks(t) ==> PlannedStack(inv, t)
    ensures ExpertsInPlace(inv, read, size, b, c)
  {
    hide PlannedStack, HoldsExperts, IsQuantizerInput, IsOutput, Resolve, Reads, BlobNeedsMLX, Stacks;
    forall j | 0 <= j < |b.tensors| && Stacks(b.tensors[j])
      ensures HoldsExperts(inv, read, size, b.tensors[j], OutputOf(c, j))
    {
      assert b.tensors[j] in b.tensors;
      if c.Quantized? {
        assert ItemOf(b.tensors[j], read, c.items[j]);
      } else {
        assert PackedOf(b.tensors[j], read, reciprocal, c.tensors[j]);
      }
      StackWritten(inv, b.tensors[j], read, size, reciprocal, OutputOf(c, j));
    }
  }

  /** The blob is packed, and one of its scales is no scalar or zero. */
  ghost predicate Spoiled(b: BlobSpec, read: SourceTensor -> TensorData, reciprocal: seq<int> -> Option<seq<int>>) {
    !BlobNeedsMLX(b) && HasBadScale(b, read, reciprocal)
  }

  /** Plan and WriteBlobs: a source is refused exactly if its plan is, the writer has nothing to refuse but a bad scale,
      and every written tensor is made of its sources' bytes, with expert i of a stack in slot i. */
  method ImportModel(inv: Inventory, kind: SourceKind, quantize: string, md: map<string, string>, policy: Policy,
                     prefixOf: string -> string, read: SourceTensor -> TensorData,
                     reciprocal: seq<int> -> Option<seq<int>>, ghost size: (string, seq<int>) -> nat)
    returns (r: Import, ghost specs: seq<BlobSpec>)
    requires Indexed(inv) && Reads(read, size)
    ensures r == PlanRefused <==> !(Accepts(inv, kind, GroupOf(prefixOf)) && DistinctOutputs(specs))
    ensures r.DataRefused? ==> !PlanFault(r.why)
    ensures r.DataRefused? <==> r != PlanRefused && exists k :: 0 <= k < |specs| && Spoiled(specs[k], read, reciprocal)
    ensures r.Imported? ==> |r.blobs| == |specs| && IsPlan(inv, kind, quantize, md, policy, GroupOf(prefixOf), specs)
    ensures r.Imported? ==> Places(inv, kind, quantize, md, policy, prefixOf, specs)
    ensures r.Imported? ==> forall k :: 0 <= k < |specs| ==>
      WrittenAs(specs[k], read, reciprocal, r.blobs[k]) && ExpertsInPlace(inv, read, size, specs[k], r.blobs[k])
  {
    hide Accepts, DistinctOutputs, IsPlan, WrittenAs, ExpertsInPlace, Reads, Writable, Covers, WantedNames, GroupOf,
      HasBadScale, Stacks, PlannedStack, Places;
    var plan;
    plan, specs := Plan(inv, kind, quantize, md, policy, prefixOf);
    if plan.Failed? {
      return PlanRefused, specs;
    }
    var blobs: seq<Contents> := [];
    for k := 0 to |plan.value|
      invariant |blobs| == k && forall i :: 0 <= i < k ==> !Spoiled(specs[i], read, reciprocal)
      invariant forall i :: 0 <= i < k ==>
        WrittenAs(specs[i], read, reciprocal, blobs[i]) && ExpertsInPlace(inv, read, size, specs[i], blobs[i])
    {
      var b := plan.value[k];
      var written := WriteBlob(b, read, reciprocal, size);
      assert Writable(specs[k]);
      assert written.Refused? <==> Spoiled(specs[k], read, reciprocal);
      hide Spoiled;
      if written.Refused? {
        return DataRefused(written.why), specs;
      }
      assert b in specs;
      forall t | t in b.tensors && Stacks(t) ensures PlannedStack(inv, t) {
        PlanStacks(inv, kind, quantize, md, policy, GroupOf(prefixOf), specs, b, t);
      }
      BlobInPlace(inv, read, size, reciprocal, b, written.value);
      blobs := blobs + [written.value];
    }
    return Imported(blobs), specs;
  }
}
