/** create/prequant.go: the blob that each already-quantized weight ends up in, producer by producer. */
module PrequantPlaces {
  import opened Text
  import opened ExpertNames
  import opened ImportPlan
  import opened PlanSources
  import opened BlockFP8Plan
  import opened PrequantPlan

  // ----- the tensors of a fused blob

  /** t passes a tensor on under a name. */
  predicate Passes(t: TensorSpec, name: string, source: SourceTensor) {
    t == TensorSpec(name, [source], Copy, "", "", None)
  }

  /** A quarter, rounded toward zero. */
  predicate IsQuarter(q: int, d: int) {
    if d >= 0 then 0 <= d - 4 * q < 4 else -4 < d - 4 * q <= 0
  }

  /** A matrix of bytes of FP4 values is packed into words; another weight is passed on. */
  predicate FP4Weight(t: TensorSpec, name: string, w: SourceTensor) {
    if SameLetters(w.dtype, "U8") && |w.shape| == 2 then
      && t.name == name && t.sources == [w] && t.transform == RepackFP4 && t.quantize == "" && t.outDtype == "U32"
      && t.outShape.Some? && |t.outShape.value| == 2 && t.outShape.value[0] == w.shape[0]
      && IsQuarter(t.outShape.value[1], w.shape[1])
    else Passes(t, name, w)
  }

  /** An FP8 scale is relabelled as bytes; another scale is passed on. */
  predicate BlockScale(t: TensorSpec, name: string, s: SourceTensor) {
    if SameLetters(s.dtype, "F8_E4M3") || SameLetters(s.dtype, "F8_E4M3FN")
    then t == TensorSpec(name, [s], RelabelU8, "", "U8", None)
    else Passes(t, name, s)
  }

  // ----- the three producers

  predicate IsMLX(inv: Inventory, b: string) { b + ".weight" in inv && b + ".scales" in inv }

  predicate IsCompressed(inv: Inventory, b: string) { b + ".weight_packed" in inv && b + ".weight_scale" in inv }

  predicate IsModelOpt(inv: Inventory, b: string) {
    b + ".weight" in inv && b + ".scales" !in inv && b + ".weight_scale" in inv
  }

  /** Weight, scales and biases, as they are. */
  predicate MLXBlob(inv: Inventory, md: map<string, string>, b: string, blob: BlobSpec)
    requires IsMLX(inv, b)
  {
    var name, ts := b + ".weight", blob.tensors;
    && blob.name == name && blob.metadata == md && |ts| == (if b + ".biases" in inv then 3 else 2)
    && Passes(ts[0], name, inv[b + ".weight"]) && Passes(ts[1], name + ".scale", inv[b + ".scales"])
    && (b + ".biases" in inv ==> Passes(ts[2], name + ".bias", inv[b + ".biases"]))
  }

  /** An FP4 weight, its block scales and its global scale. */
  predicate NVFP4Blob(inv: Inventory, b: string, weight: string, global: string, transform: Transform, blob: BlobSpec)
    requires weight in inv && b + ".weight_scale" in inv
  {
    var name, ts := b + ".weight", blob.tensors;
    && blob.name == name && |ts| == (if global in inv then 3 else 2)
    && FP4Weight(ts[0], name, inv[weight]) && BlockScale(ts[1], name + ".scale", inv[b + ".weight_scale"])
    && (global in inv ==> ts[2] == TensorSpec(name + ".global_scale", [inv[global]], transform, "", "", None))
  }

  /** The producer's global scale is the reciprocal of what is stored. */
  predicate CompressedBlob(inv: Inventory, md: map<string, string>, b: string, blob: BlobSpec)
    requires IsCompressed(inv, b)
  {
    var forced := md["quant_type" := "nvfp4"];
    && NVFP4Blob(inv, b, b + ".weight_packed", b + ".weight_global_scale", ReciprocalF32, blob)
    && blob.metadata == if "group_size" in md then forced else forced["group_size" := "16"]
  }

  predicate ModelOptBlob(inv: Inventory, md: map<string, string>, b: string, blob: BlobSpec)
    requires IsModelOpt(inv, b)
  {
    && NVFP4Blob(inv, b, b + ".weight", b + ".weight_scale_2", ScalarF32, blob)
    && blob.metadata == md["quant_type" := "nvfp4"]
  }

  /** n is a fused weight. */
  predicate Fuses(inv: Inventory, b: string, n: string) {
    || (n == b + ".weight" && (IsMLX(inv, b) || IsModelOpt(inv, b)))
    || (n == b + ".weight_packed" && IsCompressed(inv, b))
  }

  /** n goes with a fused weight: written with it, or an activation scale that is left out. */
  predicate Accompanies(inv: Inventory, b: string, n: string) {
    || (IsMLX(inv, b) && (n == b + ".scales" || n == b + ".biases"))
    || (IsCompressed(inv, b) && (n == b + ".weight_global_scale" || NVFP4Companion(b, n)))
    || (IsModelOpt(inv, b) && (n == b + ".weight_scale_2" || NVFP4Companion(b, n)))
  }

  predicate NVFP4Companion(b: string, n: string) {
    n == b + ".weight_scale" || n == b + ".input_scale" || n == b + ".input_global_scale"
  }

  /** Where each tensor of an already-quantized source ends up: every weight of a known producer in a blob with its
      scales, and every tensor that goes with none in a blob of its own. */
  ghost predicate FusedPlaces(inv: Inventory, md: map<string, string>, specs: seq<BlobSpec>) {
    && (forall b :: IsMLX(inv, b) ==> exists blob :: blob in specs && MLXBlob(inv, md, b, blob))
    && (forall b :: IsCompressed(inv, b) ==> exists blob :: blob in specs && CompressedBlob(inv, md, b, blob))
    && (forall b :: IsModelOpt(inv, b) ==> exists blob :: blob in specs && ModelOptBlob(inv, md, b, blob))
    && (forall n :: n in inv && (forall b :: !Fuses(inv, b, n) && !Accompanies(inv, b, n)) ==>
          Alone(specs, TensorSpec(n, [inv[n]], Copy, "", "", None)))
  }

  // ----- which row a weight matches

  lemma OneSuffix(b: string, e: string, other: string)
    requires IsExt(e) && IsExt(other) && e != other
    ensures HasSuffix(b + e, e) && TrimSuffix(b + e, e) == b && Stem(b + e) == b && !HasSuffix(b + e, other)
  {
    hide Ext, Stem, IsExt;
    ExtOf(b, e);
    SuffixIsExt(b + e, other);
    Appended(b, e);
  }

  lemma MatchUnrolled(inv: Inventory, n: string)
    ensures Match(inv, n) == if Matches(inv, n, MLX) then Some(MLX)
      else if Matches(inv, n, CompressedTensors) then Some(CompressedTensors)
      else if Matches(inv, n, ModelOpt) then Some(ModelOpt) else None
  {
    hide Matches, MLX, CompressedTensors, ModelOpt;
    assert Patterns[0] == MLX && Patterns[1] == CompressedTensors && Patterns[2] == ModelOpt && |Patterns| == 3;
    assert MatchFrom(inv, n, 3) == None;
    assert MatchFrom(inv, n, 2) == if Matches(inv, n, ModelOpt) then Some(ModelOpt) else None;
    assert MatchFrom(inv, n, 1) == if Matches(inv, n, CompressedTensors) then Some(CompressedTensors)
      else MatchFrom(inv, n, 2);
  }

  lemma WeightMatches(inv: Inventory, b: string)
    ensures Stem(b + ".weight") == b && TrimSuffix(b + ".weight", ".weight") == b
    ensures Match(inv, b + ".weight")
      == if b + ".scales" in inv then Some(MLX) else if b + ".weight_scale" in inv then Some(ModelOpt) else None
  {
    ExtShapes();
    hide IsExt, Ext, Stem, HasSuffix, TrimSuffix;
    OneSuffix(b, WeightSuffix, PackedSuffix);
    MatchUnrolled(inv, b + ".weight");
    hide Match;
  }

  lemma PackedMatches(inv: Inventory, b: string)
    ensures Stem(b + ".weight_packed") == b && TrimSuffix(b + ".weight_packed", ".weight_packed") == b
    ensures Match(inv, b + ".weight_packed") == if b + ".weight_scale" in inv then Some(CompressedTensors) else None
  {
    ExtShapes();
    hide IsExt, Ext, Stem, HasSuffix, TrimSuffix;
    OneSuffix(b, PackedSuffix, WeightSuffix);
    MatchUnrolled(inv, b + ".weight_packed");
    hide Match;
  }

  /** A matched name is a fused weight. */
  lemma MatchedFuses(inv: Inventory, n: string)
    requires n in inv && Match(inv, n).Some?
    ensures Fuses(inv, Stem(n), n)
    ensures || (IsMLX(inv, Stem(n)) && Match(inv, n) == Some(MLX))
            || (IsCompressed(inv, Stem(n)) && Match(inv, n) == Some(CompressedTensors))
            || (IsModelOpt(inv, Stem(n)) && Match(inv, n) == Some(ModelOpt))
  {
    ExtShapes();
    MatchFacts(inv, n);
    MatchUnrolled(inv, n);
    hide IsExt, Ext, Stem, HasSuffix, TrimSuffix, Matches, Match;
    var b := Stem(n);
    if n == b + ".weight" {
      WeightMatches(inv, b);
    } else {
      PackedMatches(inv, b);
    }
  }

  /** What a fused weight consumes goes with it. */
  lemma ConsumedAccompany(inv: Inventory, n: string)
    requires ConsumedAny(inv, n)
    ensures exists b :: Accompanies(inv, b, n)
  {
    hide Match, Stem, Fuses, Accompanies;
    var w :| ConsumedAs(inv, w, n);
    MatchedFuses(inv, w);
    RowCompanions(inv, Stem(w), Match(inv, w).value, n);
  }

  lemma RowCompanions(inv: Inventory, b: string, p: Pattern, n: string)
    requires n in ConsumedBy(inv, b, p)
    requires (p == MLX && IsMLX(inv, b)) || (p == CompressedTensors && IsCompressed(inv, b))
      || (p == ModelOpt && IsModelOpt(inv, b))
    ensures Accompanies(inv, b, n)
  {
    hide IsMLX, IsCompressed, IsModelOpt, WeightSuffix, PackedSuffix;
    TwoPresent(inv, b);
  }

  lemma TwoPresent(inv: Inventory, b: string)
    ensures Present(inv, b, []) == []
    ensures forall n :: n in Present(inv, b, [InputScale, InputGlobalScale]) ==>
      n == b + ".input_scale" || n == b + ".input_global_scale"
  {
    var two := [InputScale, InputGlobalScale];
    assert two[..1] == [InputScale] && [InputScale][..0] == [];
    assert Present(inv, b, [InputScale]) == if b + InputScale in inv then [b + InputScale] else [];
  }

  // ----- what the rows' blobs are

  lemma QuarterIs(n: int)
    ensures IsQuarter(Quarter(n), n)
  {}

  lemma U8Letters(dtype: string)
    ensures IsU8(dtype) <==> SameLetters(dtype, "U8")
  {
    if SameLetters(dtype, "U8") { assert dtype == [dtype[0]] + [dtype[1]]; }
  }

  lemma NVFP4Specs(p: Pattern, name: string, w: SourceTensor, s: SourceTensor)
    requires p.repackWeight && p.scaleRelabelU8
    ensures FP4Weight(WeightSpec(p, name, w), name, w) && BlockScale(ScaleSpec(p, name, s), name + ".scale", s)
  {
    hide IsU8, SameLetters, IsE4M3, Quarter;
    U8Letters(w.dtype);
    E4M3Letters(s.dtype);
    if |w.shape| == 2 { QuarterIs(w.shape[1]); }
  }

  lemma MLXFused(inv: Inventory, md: map<string, string>, b: string)
    requires IsMLX(inv, b) && TrimSuffix(b + ".weight", ".weight") == b
    ensures MLXBlob(inv, md, b, FusedBlob(inv, b + ".weight", md, MLX))
  {
    hide HasSuffix, TrimSuffix, IsE4M3, IsU8, PackedSuffix;
  }

  lemma CompressedFused(inv: Inventory, md: map<string, string>, b: string)
    requires IsCompressed(inv, b) && TrimSuffix(b + ".weight_packed", ".weight_packed") == b
    ensures CompressedBlob(inv, md, b, FusedBlob(inv, b + ".weight_packed", md, CompressedTensors))
  {
    NVFP4Specs(CompressedTensors, b + WeightSuffix, inv[b + ".weight_packed"], inv[b + ".weight_scale"]);
    hide HasSuffix, TrimSuffix, WeightSpec, ScaleSpec, FP4Weight, BlockScale;
  }

  lemma ModelOptFused(inv: Inventory, md: map<string, string>, b: string)
    requires IsModelOpt(inv, b) && TrimSuffix(b + ".weight", ".weight") == b
    ensures ModelOptBlob(inv, md, b, FusedBlob(inv, b + ".weight", md, ModelOpt))
  {
    NVFP4Specs(ModelOpt, b + WeightSuffix, inv[b + ".weight"], inv[b + ".weight_scale"]);
    hide HasSuffix, TrimSuffix, WeightSpec, ScaleSpec, FP4Weight, BlockScale;
  }

  /** A plan that has every weight's blob and every other tensor's copy puts each tensor where its producer says. */
  lemma FusedPlaced(inv: Inventory, md: map<string, string>, specs: seq<BlobSpec>)
    requires Indexed(inv) && forall n :: n in inv ==> HasSpec(inv, md, n, specs)
    ensures FusedPlaces(inv, md, specs)
  {
    hide Match, FusedBlob, MLXBlob, CompressedBlob, ModelOptBlob, Fuses, Accompanies, TrimSuffix, Stem, ConsumedAny,
      Alone;
    forall b | IsMLX(inv, b) ensures exists blob :: blob in specs && MLXBlob(inv, md, b, blob) {
      WeightMatches(inv, b);
      MLXFused(inv, md, b);
      assert HasSpec(inv, md, b + ".weight", specs);
    }
    forall b | IsCompressed(inv, b) ensures exists blob :: blob in specs && CompressedBlob(inv, md, b, blob) {
      PackedMatches(inv, b);
      CompressedFused(inv, md, b);
      assert HasSpec(inv, md, b + ".weight_packed", specs);
    }
    forall b | IsModelOpt(inv, b) ensures exists blob :: blob in specs && ModelOptBlob(inv, md, b, blob) {
      WeightMatches(inv, b);
      ModelOptFused(inv, md, b);
      assert HasSpec(inv, md, b + ".weight", specs);
    }
    forall n | n in inv && (forall b :: !Fuses(inv, b, n) && !Accompanies(inv, b, n))
      ensures Alone(specs, TensorSpec(n, [inv[n]], Copy, "", "", None))
    {
      OtherAlone(inv, md, specs, n);
    }
  }

  lemma OtherAlone(inv: Inventory, md: map<string, string>, specs: seq<BlobSpec>, n: string)
    requires Indexed(inv) && n in inv && HasSpec(inv, md, n, specs)
    requires forall b :: !Fuses(inv, b, n) && !Accompanies(inv, b, n)
    ensures Alone(specs, TensorSpec(n, [inv[n]], Copy, "", "", None))
  {
    hide Match, FusedBlob, Fuses, Accompanies, Stem, ConsumedAny;
    if Match(inv, n).Some? { MatchedFuses(inv, n); }
    if ConsumedAny(inv, n) { ConsumedAccompany(inv, n); }
  }
}
