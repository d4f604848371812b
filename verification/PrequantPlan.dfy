/** create/prequant.go: planning already-quantized sources. */
module PrequantPlan {
  import opened Text
  import opened ExpertNames
  import opened ImportPlan
  import opened PlanSources
  import opened BlockFP8Plan
  import opened ExpertStacks

  // ----- stems and extensions

  /** A dot and no other dots. */
  predicate IsExt(e: string) { e != "" && e[0] == '.' && forall k :: 0 < k < |e| ==> e[k] != '.' }

  /** What follows the last dot, with the dot. */
  function Ext(n: string): string {
    if n == "" then "" else if n[|n| - 1] == '.' then "."
      else Ext(n[..|n| - 1]) + (if Ext(n[..|n| - 1]) == "" then "" else [n[|n| - 1]])
  }

  function Stem(n: string): string { if HasSuffix(n, Ext(n)) then n[..|n| - |Ext(n)|] else n }

  lemma {:induction false} ExtOf(b: string, e: string)
    requires IsExt(e)
    ensures Ext(b + e) == e && Stem(b + e) == b
  {
    var n := b + e;
    if |e| == 1 {
      assert e == ".";
    } else {
      var e' := e[..|e| - 1];
      ExtOf(b, e');
      assert n[..|n| - 1] == b + e';
      assert e == e' + [e[|e| - 1]];
    }
    assert n[|n| - |e|..] == e;
  }

  lemma SuffixIsExt(n: string, e: string)
    requires IsExt(e)
    ensures HasSuffix(n, e) ==> Ext(n) == e && Stem(n) == TrimSuffix(n, e) && n == Stem(n) + e
  {
    if HasSuffix(n, e) {
      var b := TrimSuffix(n, e);
      assert n == b + e;
      ExtOf(b, e);
    }
  }

  // ----- the pattern table

  datatype Pattern = Pattern(
    weightSuffix: string, repackWeight: bool, scaleSuffix: string, scaleRelabelU8: bool, biasSuffix: string,
    globalSuffix: string, globalReciprocal: bool, ignoreSuffixes: seq<string>, forceQuantType: string,
      defaultGroupSize: string)

  const PackedSuffix := ".weight_packed"
  const InputScale := ".input_scale"
  const InputGlobalScale := ".input_global_scale"

  const MLX := Pattern(WeightSuffix, false, ".scales", false, ".biases", "", false, [], "", "")
  const CompressedTensors := Pattern(PackedSuffix, true, ".weight_scale", true, "", ".weight_global_scale", true,
                                     [InputScale, InputGlobalScale], "nvfp4", "16")
  const ModelOpt := Pattern(WeightSuffix, true, ".weight_scale", true, "", ".weight_scale_2", false,
                            [InputScale, InputGlobalScale], "nvfp4", "")

  const Patterns := [MLX, CompressedTensors, ModelOpt]

  /** What the table's rows have in common: their suffixes are extensions, and weights, companions and ignored scales
      are told apart by them. */
  predicate RowOK(p: Pattern) {
    && (p.weightSuffix == WeightSuffix || p.weightSuffix == PackedSuffix)
    && IsExt(p.scaleSuffix) && Companion(p.scaleSuffix)
    && (p.biasSuffix == "" || (IsExt(p.biasSuffix) && Companion(p.biasSuffix) && p.biasSuffix != p.scaleSuffix))
    && (p.globalSuffix == "" || (IsExt(p.globalSuffix) && Companion(p.globalSuffix) && p.globalSuffix != p.scaleSuffix))
    && (p.biasSuffix == "" || p.globalSuffix == "")
    && (forall i :: 0 <= i < |p.ignoreSuffixes| ==>
        p.ignoreSuffixes[i] == InputScale || p.ignoreSuffixes[i] == InputGlobalScale)
  }

  predicate IsWeightExt(e: string) { e == WeightSuffix || e == PackedSuffix }

  predicate IsInputExt(e: string) { e == InputScale || e == InputGlobalScale }

  predicate Companion(e: string) { !IsWeightExt(e) && !IsInputExt(e) }

  lemma ExtShapes()
    ensures IsExt(WeightSuffix) && IsExt(PackedSuffix) && IsExt(InputScale) && IsExt(InputGlobalScale)
    ensures !IsWeightExt(InputScale) && !IsWeightExt(InputGlobalScale) && WeightSuffix != PackedSuffix
  {
    assert |WeightSuffix| == 7 && |PackedSuffix| == 14 && |InputScale| == 12 && |InputGlobalScale| == 19;
  }

  lemma MLXRow()
    ensures RowOK(MLX)
  {
    assert |MLX.scaleSuffix| == 7 && |MLX.biasSuffix| == 7 && MLX.scaleSuffix[1] == 's' && MLX.biasSuffix[1] == 'b'
      && WeightSuffix[1] == 'w';
    assert |PackedSuffix| == 14 && |InputScale| == 12 && |InputGlobalScale| == 19;
  }

  /** The companions' suffixes of the NVFP4 rows. */
  lemma ScaleSuffixes()
    ensures IsExt(".weight_scale") && Companion(".weight_scale")
    ensures IsExt(".weight_global_scale") && Companion(".weight_global_scale")
      && ".weight_global_scale" != ".weight_scale"
    ensures IsExt(".weight_scale_2") && Companion(".weight_scale_2") && ".weight_scale_2" != ".weight_scale"
  {
    assert |".weight_scale"| == 13 && |".weight_global_scale"| == 20 && |".weight_scale_2"| == 15;
    assert |WeightSuffix| == 7 && |PackedSuffix| == 14 && |InputScale| == 12 && |InputGlobalScale| == 19;
  }

  lemma CompressedTensorsRow()
    ensures RowOK(CompressedTensors)
  {
    ScaleSuffixes();
    hide IsExt, Companion, WeightSuffix, PackedSuffix, InputScale, InputGlobalScale;
  }

  lemma ModelOptRow()
    ensures RowOK(ModelOpt)
  {
    ScaleSuffixes();
    hide IsExt, Companion, WeightSuffix, PackedSuffix, InputScale, InputGlobalScale;
  }

  lemma RowAt(i: nat)
    requires i < |Patterns|
    ensures RowOK(Patterns[i])
  {
    hide RowOK;
    MLXRow();
    CompressedTensorsRow();
    ModelOptRow();
  }

  // ----- matching a weight

  predicate Matches(inv: Inventory, n: string, p: Pattern) {
    HasSuffix(n, p.weightSuffix) && TrimSuffix(n, p.weightSuffix) + p.scaleSuffix in inv
  }

  /** The first row of the table that a weight's name and its scale match, from row i on. */
  function MatchFrom(inv: Inventory, n: string, i: nat): (r: Option<Pattern>)
    requires i <= |Patterns|
    ensures r.Some? ==> Matches(inv, n, r.value) && exists k :: i <= k < |Patterns| && Patterns[k] == r.value
    decreases |Patterns| - i
  {
    if i == |Patterns| then None
    else if Matches(inv, n, Patterns[i]) then Some(Patterns[i])
    else MatchFrom(inv, n, i + 1)
  }

  function Match(inv: Inventory, n: string): Option<Pattern> { MatchFrom(inv, n, 0) }

  /** A matched weight is a stem and a weight suffix, and its row is in order. */
  lemma MatchFacts(inv: Inventory, n: string)
    requires Match(inv, n).Some?
    ensures var p := Match(inv, n).value;
      && RowOK(p) && Matches(inv, n, p) && IsWeightExt(Ext(n)) && Ext(n) == p.weightSuffix
      && Stem(n) == TrimSuffix(n, p.weightSuffix) && n == Stem(n) + p.weightSuffix && Stem(n) + p.scaleSuffix in inv
  {
    var p := Match(inv, n).value;
    hide HasSuffix, Ext, Stem, IsExt;
    var k :| 0 <= k < |Patterns| && Patterns[k] == p;
    RowAt(k);
    ExtShapes();
    SuffixIsExt(n, p.weightSuffix);
  }

  /** The companions written with a weight: scale, and bias or global scale if there is one. */
  function Used(inv: Inventory, base: string, p: Pattern): seq<string>
  {
    [base + p.scaleSuffix]
    + (if p.biasSuffix != "" && base + p.biasSuffix in inv then [base + p.biasSuffix] else [])
    + (if p.globalSuffix != "" && base + p.globalSuffix in inv then [base + p.globalSuffix] else [])
  }

  function Present(inv: Inventory, base: string, suffixes: seq<string>): seq<string> {
    if suffixes == [] then []
    else
      var s := base + suffixes[|suffixes| - 1];
      Present(inv, base, suffixes[..|suffixes| - 1]) + if s in inv then [s] else []
  }

  /** Everything a weight consumes. */
  function ConsumedBy(inv: Inventory, base: string, p: Pattern): seq<string> {
    Used(inv, base, p) + Present(inv, base, p.ignoreSuffixes)
  }

  lemma {:induction false} PresentFacts(inv: Inventory, base: string, suffixes: seq<string>, c: string)
    requires forall i :: 0 <= i < |suffixes| ==> IsInputExt(suffixes[i])
    ensures c in Present(inv, base, suffixes) ==> c in inv && IsInputExt(Ext(c)) && Stem(c) == base
  {
    if suffixes != [] {
      var e := suffixes[|suffixes| - 1];
      PresentFacts(inv, base, suffixes[..|suffixes| - 1], c);
      ExtShapes();
      ExtOf(base, e);
    }
  }

  /** Companions are told by their extensions: never a weight, and never an input scale. */
  lemma UsedFacts(inv: Inventory, base: string, p: Pattern, c: string)
    requires RowOK(p) && base + p.scaleSuffix in inv && c in Used(inv, base, p)
    ensures c in inv && Companion(Ext(c)) && Stem(c) == base
  {
    hide Ext, Stem, IsExt, IsWeightExt, IsInputExt;
    ExtOf(base, p.scaleSuffix);
    if p.biasSuffix != "" { ExtOf(base, p.biasSuffix); }
    if p.globalSuffix != "" { ExtOf(base, p.globalSuffix); }
  }

  lemma ConsumedFacts(inv: Inventory, base: string, p: Pattern, c: string)
    requires RowOK(p) && base + p.scaleSuffix in inv && c in ConsumedBy(inv, base, p)
    ensures c in inv && !IsWeightExt(Ext(c)) && Stem(c) == base
    ensures c in Used(inv, base, p) <==> !IsInputExt(Ext(c))
  {
    ExtShapes();
    PresentFacts(inv, base, p.ignoreSuffixes, c);
    if c in Used(inv, base, p) { UsedFacts(inv, base, p, c); }
  }

  // ----- the fused blob

  /** Go's division by four. */
  function Quarter(n: int): int { if n >= 0 then n / 4 else -(-n / 4) }

  predicate IsU8(dtype: string) { dtype == "U8" || dtype == "u8" }

  function WeightSpec(p: Pattern, name: string, t: SourceTensor): TensorSpec {
    if p.repackWeight && IsU8(t.dtype) && |t.shape| == 2
    then TensorSpec(name, [t], RepackFP4, "", "U32", Some([t.shape[0], Quarter(t.shape[1])]))
    else TensorSpec(name, [t], Copy, "", "", None)
  }

  function ScaleSpec(p: Pattern, name: string, t: SourceTensor): TensorSpec {
    if p.scaleRelabelU8 && IsE4M3(t.dtype) then TensorSpec(name + ".scale", [t], RelabelU8, "", "U8", None)
    else TensorSpec(name + ".scale", [t], Copy, "", "", None)
  }

  /** The weight under its plain name, then its companions. */
  function FusedTensors(inv: Inventory, n: string, p: Pattern): seq<TensorSpec>
    requires n in inv && TrimSuffix(n, p.weightSuffix) + p.scaleSuffix in inv
  {
    var base := TrimSuffix(n, p.weightSuffix);
    var out := base + WeightSuffix;
    [WeightSpec(p, out, inv[n]), ScaleSpec(p, out, inv[base + p.scaleSuffix])]
    + (if p.biasSuffix != "" && base + p.biasSuffix in inv then
       [TensorSpec(out + ".bias", [inv[base + p.biasSuffix]], Copy, "", "", None)] else [])
    + (if p.globalSuffix != "" && base + p.globalSuffix in inv
       then [TensorSpec(out + ".global_scale", [inv[base + p.globalSuffix]],
                        if p.globalReciprocal then ReciprocalF32 else ScalarF32, "", "", None)]
       else [])
  }

  /** The source config's quantization metadata, with the row's override and default. */
  function Metadata(md: map<string, string>, p: Pattern): map<string, string> {
    var forced := if p.forceQuantType != "" then md["quant_type" := p.forceQuantType] else md;
    if p.defaultGroupSize != "" && "group_size" !in forced then forced["group_size" := p.defaultGroupSize] else forced
  }

  function FusedBlob(inv: Inventory, n: string, md: map<string, string>, p: Pattern): BlobSpec
    requires n in inv && TrimSuffix(n, p.weightSuffix) + p.scaleSuffix in inv
  {
    BlobSpec(TrimSuffix(n, p.weightSuffix) + WeightSuffix, FusedTensors(inv, n, p), Metadata(md, p))
  }

  /** matchPrequant: the fused blob of a weight and what it consumes. */
  method MatchPrequant(inv: Inventory, n: string, md: map<string, string>) returns (r: Option<(BlobSpec, seq<string>)>)
    requires n in inv
    ensures r.Some? <==> Match(inv, n).Some?
    ensures r.Some? ==>
      var p := Match(inv, n).value;
      r.value == (FusedBlob(inv, n, md, p), ConsumedBy(inv, TrimSuffix(n, p.weightSuffix), p))
  {
    hide HasSuffix, WeightSpec, ScaleSpec, Metadata;
    for i := 0 to |Patterns|
      invariant Match(inv, n) == MatchFrom(inv, n, i)
    {
      var p := Patterns[i];
      if HasSuffix(n, p.weightSuffix) && TrimSuffix(n, p.weightSuffix) + p.scaleSuffix in inv {
        var blob, consumed := FuseWeight(inv, n, md, p);
        return Some((blob, consumed));
      }
    }
    return None;
  }

  method FuseWeight(inv: Inventory, n: string, md: map<string, string>, p: Pattern)
    returns (blob: BlobSpec, consumed: seq<string>)
    requires n in inv && TrimSuffix(n, p.weightSuffix) + p.scaleSuffix in inv
    ensures blob == FusedBlob(inv, n, md, p) && consumed == ConsumedBy(inv, TrimSuffix(n, p.weightSuffix), p)
  {
    hide WeightSpec, ScaleSpec, Metadata, HasSuffix;
    var base := TrimSuffix(n, p.weightSuffix);
    hide TrimSuffix;
    var out := base + WeightSuffix;
    hide WeightSuffix;
    var tensors := [WeightSpec(p, out, inv[n])];
    tensors := tensors + [ScaleSpec(p, out, inv[base + p.scaleSuffix])];
    consumed := [base + p.scaleSuffix];
    if p.biasSuffix != "" && base + p.biasSuffix in inv {
      tensors := tensors + [TensorSpec(out + ".bias", [inv[base + p.biasSuffix]], Copy, "", "", None)];
      consumed := consumed + [base + p.biasSuffix];
    }
    if p.globalSuffix != "" && base + p.globalSuffix in inv {
      var global := TensorSpec(out + ".global_scale", [inv[base + p.globalSuffix]], ScalarF32, "", "", None);
      if p.globalReciprocal {
        global := global.(transform := ReciprocalF32);
      }
      tensors := tensors + [global];
      consumed := consumed + [base + p.globalSuffix];
    }
    assert consumed == Used(inv, base, p);
    assert tensors == FusedTensors(inv, n, p);
    for i := 0 to |p.ignoreSuffixes|
      invariant consumed == Used(inv, base, p) + Present(inv, base, p.ignoreSuffixes[..i])
    {
      assert p.ignoreSuffixes[..i + 1][..i] == p.ignoreSuffixes[..i];
      var s := base + p.ignoreSuffixes[i];
      if s in inv {
        consumed := consumed + [s];
      }
    }
    assert p.ignoreSuffixes[..|p.ignoreSuffixes|] == p.ignoreSuffixes;
    blob := BlobSpec(out, tensors, Metadata(md, p));
  }

  /** The fused blob uses the weight and its companions, each once, and can be written byte by byte. */
  lemma FusedCovers(inv: Inventory, n: string, md: map<string, string>)
    requires Indexed(inv) && n in inv && Match(inv, n).Some?
    ensures var p := Match(inv, n).value;
      Covers([FusedBlob(inv, n, md, p)], {n} + SetOf(Used(inv, Stem(n), p))) && Writable(FusedBlob(inv, n, md, p))
  {
    MatchFacts(inv, n);
    var p := Match(inv, n).value;
    var blob := FusedBlob(inv, n, md, p);
    hide Match, HasSuffix, Covers, Metadata, IsExt, Ext, Stem;
    var base := Stem(n);
    FusedTensorsCover(inv, n, p, base);
    hide TensorsCover, WeightSpec, ScaleSpec;
    BlobCovers(blob, {n} + SetOf(Used(inv, base, p)));
    FusedWritable(inv, n, md, p);
  }

  lemma FusedWritable(inv: Inventory, n: string, md: map<string, string>, p: Pattern)
    requires n in inv && TrimSuffix(n, p.weightSuffix) + p.scaleSuffix in inv
    ensures Writable(FusedBlob(inv, n, md, p))
  {
    var base, ts := TrimSuffix(n, p.weightSuffix), FusedTensors(inv, n, p);
    WrittenAsIs(p, base + WeightSuffix, inv[n], inv[base + p.scaleSuffix]);
    hide TrimSuffix, Metadata, WeightSpec, ScaleSpec, WeightSuffix;
    assert forall i :: 0 <= i < |ts| ==> AsIs(ts[i]);
  }

  /** Written byte by byte. */
  predicate AsIs(t: TensorSpec) { t.quantize == "" && BytesReady(t) && !NeedsFP8Decode(t.transform) }

  lemma WrittenAsIs(p: Pattern, out: string, weight: SourceTensor, scale: SourceTensor)
    ensures AsIs(WeightSpec(p, out, weight)) && AsIs(ScaleSpec(p, out, scale))
  {
    hide IsE4M3, IsU8;
  }

  lemma OneSource(t: TensorSpec, n: string)
    requires |t.sources| == 1 && t.sources[0].name == n
    ensures TensorsCover([t], {n})
  {
    SourceCovers(t.sources[0]);
    assert t.sources == [t.sources[0]];
    TensorCovers(t, {n});
  }

  lemma FusedTensorsCover(inv: Inventory, n: string, p: Pattern, base: string)
    requires Indexed(inv) && n in inv && RowOK(p) && n == base + p.weightSuffix && TrimSuffix(n, p.weightSuffix) == base
    requires base + p.scaleSuffix in inv
    ensures TensorsCover(FusedTensors(inv, n, p), {n} + SetOf(Used(inv, base, p)))
  {
    var out := base + WeightSuffix;
    var scale := base + p.scaleSuffix;
    var weight, second := WeightSpec(p, out, inv[n]), ScaleSpec(p, out, inv[scale]);
    OneSource(weight, n);
    OneSource(second, scale);
    RowSuffixes(p);
    hide TensorsCover, WeightSpec, ScaleSpec, TrimSuffix, RowOK, WeightSuffix;
    DifferentNames(base, p.weightSuffix, p.scaleSuffix);
    TensorsCoverConcat([weight], {n}, [second], {scale});
    var two := [weight] + [second];
    if p.biasSuffix != "" && base + p.biasSuffix in inv {
      var bias := TensorSpec(out + ".bias", [inv[base + p.biasSuffix]], Copy, "", "", None);
      CompanionCovers(two, n, base, p.weightSuffix, p.scaleSuffix, p.biasSuffix, bias);
      assert FusedTensors(inv, n, p) == two + [bias] && Used(inv, base, p) == [scale] + [base + p.biasSuffix];
    } else if p.globalSuffix != "" && base + p.globalSuffix in inv {
      var transform := if p.globalReciprocal then ReciprocalF32 else ScalarF32;
      var global := TensorSpec(out + ".global_scale", [inv[base + p.globalSuffix]], transform, "", "", None);
      CompanionCovers(two, n, base, p.weightSuffix, p.scaleSuffix, p.globalSuffix, global);
      assert FusedTensors(inv, n, p) == two + [global] && Used(inv, base, p) == [scale] + [base + p.globalSuffix];
    } else {
      assert FusedTensors(inv, n, p) == two && Used(inv, base, p) == [scale] && SetOf([scale]) == {scale};
    }
  }

  /** A row's suffixes differ, and it has a bias or a global scale but not both. */
  lemma RowSuffixes(p: Pattern)
    requires RowOK(p)
    ensures p.weightSuffix != p.scaleSuffix && p.scaleSuffix != p.biasSuffix && p.scaleSuffix != p.globalSuffix
    ensures p.weightSuffix != p.biasSuffix && p.weightSuffix != p.globalSuffix
      && (p.biasSuffix == "" || p.globalSuffix == "")
  {
    hide IsInputExt;
    assert |WeightSuffix| == 7 && |PackedSuffix| == 14;
  }

  /** A third tensor beside weight and scale. */
  lemma CompanionCovers(two: seq<TensorSpec>, n: string, base: string, weight: string, scale: string, third: string,
                        t: TensorSpec)
    requires n == base + weight && TensorsCover(two, {n} + {base + scale}) && third != weight && third != scale
    requires |t.sources| == 1 && t.sources[0].name == base + third
    ensures TensorsCover(two + [t], {n} + SetOf([base + scale] + [base + third]))
  {
    hide TensorsCover;
    OneSource(t, base + third);
    DifferentNames(base, weight, third);
    DifferentNames(base, scale, third);
    TensorsCoverConcat(two, {n} + {base + scale}, [t], {base + third});
    assert {n} + {base + scale} + {base + third} == {n} + SetOf([base + scale] + [base + third]);
  }

  lemma DifferentNames(base: string, a: string, b: string)
    ensures base + a == base + b ==> a == b
  {
    assert (base + a)[|base|..] == a && (base + b)[|base|..] == b;
  }

  // ----- the whole source

  /** n is consumed by the weight w. */
  predicate ConsumedAs(inv: Inventory, w: string, n: string) {
    w in inv && Match(inv, w).Some? && n in ConsumedBy(inv, Stem(w), Match(inv, w).value)
  }

  ghost predicate ConsumedAny(inv: Inventory, n: string) {
    exists w :: ConsumedAs(inv, w, n)
  }

  /** What the spec planned for a name uses: a fused weight and its companions, nothing for a consumed tensor, and
      any other tensor itself. */
  ghost function UsedBy(inv: Inventory, n: string): set<string> {
    if Match(inv, n).Some? then {n} + SetOf(Used(inv, Stem(n), Match(inv, n).value))
    else if ConsumedAny(inv, n) then {}
    else {n}
  }

  /** Blob names are all different. */
  predicate DistinctBlobs(specs: seq<BlobSpec>) {
    forall i, j :: 0 <= i < j < |specs| ==> specs[i].name != specs[j].name
  }

  /** A weight is never consumed. */
  lemma WeightsNotConsumed(inv: Inventory, w: string)
    requires Match(inv, w).Some?
    ensures !ConsumedAny(inv, w)
  {
    MatchFacts(inv, w);
    forall v ensures !ConsumedAs(inv, v, w) {
      if v in inv && Match(inv, v).Some? && w in ConsumedBy(inv, Stem(v), Match(inv, v).value) {
        MatchFacts(inv, v);
        ConsumedFacts(inv, Stem(v), Match(inv, v).value, w);
      }
    }
  }

  /** Two names whose specs share a source are fused weights with one stem: their blobs have one name. */
  lemma SharedSource(inv: Inventory, a: string, b: string, n: string)
    requires a in inv && b in inv && a != b && n in UsedBy(inv, a) && n in UsedBy(inv, b)
    ensures Match(inv, a).Some? && Match(inv, b).Some? && Stem(a) == Stem(b)
  {
    hide Match, Used, ConsumedAs, ConsumedAny, Stem, Ext;
    if Match(inv, a).Some? { SourceStem(inv, a, n); }
    if Match(inv, b).Some? { SourceStem(inv, b, n); }
    if Match(inv, a).Some? && Match(inv, b).None? { UsedIsConsumed(inv, a, b, n); }
    if Match(inv, b).Some? && Match(inv, a).None? { UsedIsConsumed(inv, b, a, n); }
  }

  lemma SourceStem(inv: Inventory, w: string, n: string)
    requires n in UsedBy(inv, w) && Match(inv, w).Some?
    ensures Stem(n) == Stem(w) && (n == w || (n in inv && Companion(Ext(n))))
  {
    hide Stem, Ext, ConsumedAny, Match;
    MatchFacts(inv, w);
    if n != w { UsedFacts(inv, Stem(w), Match(inv, w).value, n); }
  }

  /** A companion that is used is consumed, so it has no spec of its own. */
  lemma UsedIsConsumed(inv: Inventory, w: string, m: string, n: string)
    requires w in inv && Match(inv, w).Some? && n in UsedBy(inv, w) && Match(inv, m).None? && m in inv && m != w
    ensures n !in UsedBy(inv, m)
  {
    hide Match, Used, Stem, Ext;
    if n == m && n in UsedBy(inv, w) {
      assert ConsumedAs(inv, w, n);
    }
  }

  // ----- the planner's loops

  method CollectFused(inv: Inventory, names: seq<string>, md: map<string, string>)
    returns (fused: map<string, BlobSpec>, consumed: set<string>)
    requires forall n :: n in names <==> n in inv
    ensures forall n :: n in fused <==> n in inv && Match(inv, n).Some?
    ensures forall n :: n in fused ==> (MatchFacts(inv, n); fused[n] == FusedBlob(inv, n, md, Match(inv, n).value))
    ensures forall n :: n in consumed <==> ConsumedAny(inv, n)
  {
    hide Match, ConsumedBy, FusedBlob, Stem;
    fused, consumed := map[], {};
    for k := 0 to |names|
      invariant forall n :: n in fused <==> n in names[..k] && Match(inv, n).Some?
      invariant forall n :: n in fused ==> (MatchFacts(inv, n); n in inv
                                            && fused[n] == FusedBlob(inv, n, md, Match(inv, n).value))
      invariant forall n :: n in consumed <==> exists w :: w in names[..k] && ConsumedAs(inv, w, n)
    {
      var name := names[k];
      assert names[..k + 1] == names[..k] + [name];
      var m := MatchPrequant(inv, name, md);
      if m.Some? {
        MatchFacts(inv, name);
        fused := fused[name := m.value.0];
        consumed := consumed + SetOf(m.value.1);
      }
    }
    assert names[..|names|] == names;
    forall n ensures n in consumed <==> ConsumedAny(inv, n) {
      if ConsumedAny(inv, n) {
        var w :| ConsumedAs(inv, w, n);
        assert w in names[..|names|] && ConsumedAs(inv, w, n);
      }
    }
  }

  /** The specs of the names seen so far. */
  ghost predicate Emitted(inv: Inventory, seen: seq<string>, specs: seq<BlobSpec>, covered: set<string>) {
    && AllWritable(specs)
    && (forall n :: n in covered <==> exists m :: m in seen && n in UsedBy(inv, m))
    && (forall w :: w in seen && Match(inv, w).Some? ==>
        exists i :: 0 <= i < |specs| && specs[i].name == Stem(w) + WeightSuffix)
    && (DistinctBlobs(specs) ==> Covers(specs, covered))
  }

  lemma NothingEmitted(inv: Inventory)
    ensures Emitted(inv, [], [], {})
  {
    NothingCovered();
  }

  lemma EmitNothing(inv: Inventory, seen: seq<string>, specs: seq<BlobSpec>, covered: set<string>, m: string)
    requires Emitted(inv, seen, specs, covered) && UsedBy(inv, m) == {} && Match(inv, m).None?
    ensures Emitted(inv, seen + [m], specs, covered)
  {
    hide Match, UsedBy, Stem, Covers, Writable;
    forall n ensures n in covered <==> exists x :: x in seen + [m] && n in UsedBy(inv, x) {
      if n in covered {
        var x :| x in seen && n in UsedBy(inv, x);
        assert x in seen + [m] && n in UsedBy(inv, x);
      }
    }
  }

  lemma EmitOne(inv: Inventory, seen: seq<string>, specs: seq<BlobSpec>, covered: set<string>, m: string, b: BlobSpec)
    requires Emitted(inv, seen, specs, covered) && (forall x :: x in seen ==> x in inv) && m in inv && m !in seen
    requires Covers([b], UsedBy(inv, m)) && Writable(b)
    requires Match(inv, m).Some? ==> b.name == Stem(m) + WeightSuffix
    ensures Emitted(inv, seen + [m], specs + [b], covered + UsedBy(inv, m))
  {
    hide Match, UsedBy, Stem, Covers, Writable, WeightSuffix;
    var more := specs + [b];
    forall n ensures n in covered + UsedBy(inv, m) <==> exists x :: x in seen + [m] && n in UsedBy(inv, x) {
      if n in covered {
        var x :| x in seen && n in UsedBy(inv, x);
        assert x in seen + [m] && n in UsedBy(inv, x);
      }
      if n in UsedBy(inv, m) { assert m in seen + [m] && n in UsedBy(inv, m); }
    }
    forall w | w in seen + [m] && Match(inv, w).Some?
      ensures exists i :: 0 <= i < |more| && more[i].name == Stem(w) + WeightSuffix
    {
      if w in seen {
        var i :| 0 <= i < |specs| && specs[i].name == Stem(w) + WeightSuffix;
        assert more[i].name == Stem(w) + WeightSuffix;
      } else {
        assert more[|specs|].name == Stem(w) + WeightSuffix;
      }
    }
    if DistinctBlobs(more) {
      FewerDistinct(specs, b);
      NoShare(inv, seen, specs, covered, m, b);
      CoversConcat(specs, covered, [b], UsedBy(inv, m));
    }
    assert AllWritable([b]);
    WritableConcat(specs, [b]);
  }

  lemma FewerDistinct(specs: seq<BlobSpec>, b: BlobSpec)
    requires DistinctBlobs(specs + [b])
    ensures DistinctBlobs(specs) && forall i :: 0 <= i < |specs| ==> specs[i].name != b.name
  {
    var more := specs + [b];
    forall i, j | 0 <= i < j < |specs| ensures specs[i].name != specs[j].name { assert more[i].name != more[j].name; }
    forall i | 0 <= i < |specs| ensures specs[i].name != b.name { assert more[i].name != more[|specs|].name; }
  }

  lemma NoShare(inv: Inventory, seen: seq<string>, specs: seq<BlobSpec>, covered: set<string>, m: string, b: BlobSpec)
    requires Emitted(inv, seen, specs, covered) && (forall x :: x in seen ==> x in inv) && m in inv && m !in seen
    requires Match(inv, m).Some? ==> b.name == Stem(m) + WeightSuffix
    requires forall i :: 0 <= i < |specs| ==> specs[i].name != b.name
    ensures covered !! UsedBy(inv, m)
  {
    hide Match, UsedBy, Stem, Covers, Writable, WeightSuffix;
    forall n | n in covered ensures n !in UsedBy(inv, m) {
      var x :| x in seen && n in UsedBy(inv, x);
      if n in UsedBy(inv, m) {
        SharedSource(inv, x, m, n);
      }
    }
  }

  lemma NameCovers(inv: Inventory, n: string, md: map<string, string>)
    requires Indexed(inv) && n in inv
    ensures Match(inv, n).Some? ==> (MatchFacts(inv, n);
      var b := FusedBlob(inv, n, md, Match(inv, n).value);
        Covers([b], UsedBy(inv, n)) && Writable(b)
        && b.name == Stem(n) + WeightSuffix)
    ensures Match(inv, n).None? && !ConsumedAny(inv, n) ==>
      Covers([CopyOf(inv[n], "")], UsedBy(inv, n)) && Writable(CopyOf(inv[n], ""))
  {
    hide Match, Covers, Writable, FusedTensors, Metadata, CopyOf, ConsumedAny, Stem;
    if Match(inv, n).Some? {
      MatchFacts(inv, n);
      FusedCovers(inv, n, md);
    } else {
      CopyCovers(inv[n], "");
      CopyWritable(inv[n], "");
    }
  }

  /** The tensors an accepted plan leaves out: the activation scales of the weights it fuses. */
  ghost predicate IgnoredScale(inv: Inventory, n: string) {
    n in inv && IsInputExt(Ext(n)) && ConsumedAny(inv, n)
  }

  lemma AllEmitted(inv: Inventory, names: seq<string>, specs: seq<BlobSpec>, covered: set<string>)
    requires Emitted(inv, names, specs, covered) && forall n :: n in names <==> n in inv
    ensures forall n :: n in covered <==> n in inv && !IgnoredScale(inv, n)
  {
    hide Match, Covers, AllWritable, Stem, Ext, ConsumedBy, Used, IsInputExt, IsWeightExt;
    forall n ensures n in covered <==> n in inv && !IgnoredScale(inv, n) {
      if n in covered {
        var m :| m in names && n in UsedBy(inv, m);
        if Match(inv, m).Some? {
          SourceStem(inv, m, n);
          WeightNotInput(inv, m);
          WeightsNotConsumed(inv, m);
          CompanionNotInput(n);
        }
      }
      if n in inv && !IgnoredScale(inv, n) {
        if Match(inv, n).Some? || !ConsumedAny(inv, n) {
          assert n in names && n in UsedBy(inv, n);
        } else {
          var w :| ConsumedAs(inv, w, n);
          MatchFacts(inv, w);
          ConsumedFacts(inv, Stem(w), Match(inv, w).value, n);
          assert w in names && n in UsedBy(inv, w);
        }
      }
    }
  }

  lemma CompanionNotInput(n: string)
    ensures Companion(Ext(n)) ==> !IsInputExt(Ext(n))
  {}

  lemma WeightNotInput(inv: Inventory, w: string)
    requires Match(inv, w).Some?
    ensures !IsInputExt(Ext(w))
  {
    hide Ext, Match;
    MatchFacts(inv, w);
    ExtShapes();
  }

  /** A weight that matches has its fused blob, and a tensor nobody consumes its own copy. */
  ghost predicate HasSpec(inv: Inventory, md: map<string, string>, n: string, specs: seq<BlobSpec>)
    requires n in inv
  {
    if Match(inv, n).Some? then MatchFacts(inv, n); FusedBlob(inv, n, md, Match(inv, n).value) in specs
    else ConsumedAny(inv, n) || CopyOf(inv[n], "") in specs
  }

  lemma HasSpecMore(inv: Inventory, md: map<string, string>, seen: seq<string>, specs: seq<BlobSpec>, b: BlobSpec)
    requires forall n :: n in seen ==> n in inv && HasSpec(inv, md, n, specs)
    ensures forall n :: n in seen ==> n in inv && HasSpec(inv, md, n, specs + [b])
  {
    hide Match, FusedBlob, ConsumedAny, CopyOf;
  }

  lemma HasOwnSpec(inv: Inventory, md: map<string, string>, n: string, specs: seq<BlobSpec>, b: BlobSpec)
    requires n in inv
    requires if Match(inv, n).Some? then (MatchFacts(inv, n); b == FusedBlob(inv, n, md, Match(inv, n).value))
      else b == CopyOf(inv[n], "")
    ensures HasSpec(inv, md, n, specs + [b])
  {
    hide Match, FusedBlob, ConsumedAny, CopyOf;
  }

  /** The blob is the fused blob of a weight, or the copy of a tensor no weight consumes. */
  ghost predicate SpecOf(inv: Inventory, md: map<string, string>, n: string, b: BlobSpec)
    requires n in inv
  {
    if Match(inv, n).Some? then MatchFacts(inv, n); b == FusedBlob(inv, n, md, Match(inv, n).value)
    else !ConsumedAny(inv, n) && b == CopyOf(inv[n], "")
  }

  ghost predicate OnlySpecs(inv: Inventory, md: map<string, string>, specs: seq<BlobSpec>) {
    forall b :: b in specs ==> exists n :: n in inv && SpecOf(inv, md, n, b)
  }

  lemma OnlySpecsMore(inv: Inventory, md: map<string, string>, n: string, specs: seq<BlobSpec>, b: BlobSpec)
    requires OnlySpecs(inv, md, specs) && n in inv && SpecOf(inv, md, n, b)
    ensures OnlySpecs(inv, md, specs + [b])
  {
    hide SpecOf;
  }

  /** planPrequantized: the specs can be written, and unless two blobs have one name they use every tensor exactly
      once, except the activation scales, which they do not use. */
  method PlanPrequantized(inv: Inventory, md: map<string, string>)
    returns (specs: seq<BlobSpec>, ghost covered: set<string>)
    requires Indexed(inv)
    ensures AllWritable(specs)
    ensures (forall n :: n in inv ==> HasSpec(inv, md, n, specs)) && OnlySpecs(inv, md, specs)
    ensures forall n :: n in covered <==> n in inv && !IgnoredScale(inv, n)
    ensures DistinctBlobs(specs) ==> Covers(specs, covered)
  {
    hide Match, Covers, AllWritable, Stem, FusedBlob, ConsumedAny, UsedBy, CopyOf, IgnoredScale, Emitted, DistinctBlobs,
      Writable, HasSpec, OnlySpecs;
    var names := Keys(inv);
    var fused, consumed := CollectFused(inv, names, md);
    specs, covered := [], {};
    NothingEmitted(inv);
    NoSpecs(inv, md);
    assert names[..0] == [];
    for k := 0 to |names|
      invariant Emitted(inv, names[..k], specs, covered)
      invariant forall n :: n in names[..k] ==> n in inv && HasSpec(inv, md, n, specs)
      invariant OnlySpecs(inv, md, specs)
    {
      var name := names[k];
      NextName(names, k);
      NameCovers(inv, name, md);
      if name in fused {
        EmitOne(inv, names[..k], specs, covered, name, fused[name]);
        HasSpecMore(inv, md, names[..k], specs, fused[name]);
        HasOwnSpec(inv, md, name, specs, fused[name]);
        OnlySpecsMore(inv, md, name, specs, fused[name]);
        specs, covered := specs + [fused[name]], covered + UsedBy(inv, name);
      } else if name in consumed {
        NothingUsed(inv, name);
        assert HasSpec(inv, md, name, specs) by { ConsumedHasNoSpec(inv, md, name, specs); }
        EmitNothing(inv, names[..k], specs, covered, name);
      } else {
        var blob := CopyOf(inv[name], "");
        EmitOne(inv, names[..k], specs, covered, name, blob);
        HasSpecMore(inv, md, names[..k], specs, blob);
        HasOwnSpec(inv, md, name, specs, blob);
        OnlySpecsMore(inv, md, name, specs, blob);
        specs, covered := specs + [blob], covered + UsedBy(inv, name);
      }
    }
    assert names[..|names|] == names;
    AllEmitted(inv, names, specs, covered);
    EmittedFacts(inv, names, specs, covered);
  }

  lemma NoSpecs(inv: Inventory, md: map<string, string>)
    ensures OnlySpecs(inv, md, [])
  {}

  lemma ConsumedHasNoSpec(inv: Inventory, md: map<string, string>, n: string, specs: seq<BlobSpec>)
    requires n in inv && Match(inv, n).None? && ConsumedAny(inv, n)
    ensures HasSpec(inv, md, n, specs)
  {
    hide Match, ConsumedAny;
  }

  lemma NothingUsed(inv: Inventory, n: string)
    requires Match(inv, n).None? && ConsumedAny(inv, n)
    ensures UsedBy(inv, n) == {}
  {}

  lemma EmittedFacts(inv: Inventory, names: seq<string>, specs: seq<BlobSpec>, covered: set<string>)
    requires Emitted(inv, names, specs, covered)
    ensures AllWritable(specs) && (DistinctBlobs(specs) ==> Covers(specs, covered))
  {
    hide Match, UsedBy;
  }
}
