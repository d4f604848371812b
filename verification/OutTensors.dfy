/** The migrators' own output tensors: copies, and the split, reordered and repacked tensors of GLM, Pixtral and
    Qwen3-VL. */
module OutTensors {
  import BlockFormat
  import opened Permutations
  import opened TensorLayout
  import opened FloatPayload
  import opened SourceTensors
  import opened TensorOps
  import opened GlmRepacker

  // ----- compatmigrate/source_tensor.go: copyTensor

  function CopyOut(name: bytes, s: Source, mustBeF32: bytes -> bool): Out {
    var kind := OutputKind(mustBeF32, name, s);
    Out(name, kind, s.shape, if kind != s.kind then Converted(s, Unchanged, kind) else Copied(s))
  }

  /** A copied tensor keeps its name, shape and stored bytes; only one that must be F32, by either of its names, is
      decoded and encoded again. */
  lemma CopyWrites(name: bytes, s: Source, mustBeF32: bytes -> bool, bits: Bits<Float>)
    ensures var o := CopyOut(name, s, mustBeF32);
      var promoted := s.kind != 0 && (mustBeF32(name) || mustBeF32(s.name));
      && o.name == name && o.shape == s.shape && o.kind == (if promoted then 0 else s.kind)
      && (Succeeds(o.writer) <==> !promoted || Decodes(s))
      && (!promoted ==> Written(o.writer, bits) == Octets(s.stored))
      && (promoted && Decodes(s) ==> Written(o.writer, bits) == EncodedFloats(0, Values(s), bits))
  {
    hide Decodes, Values, EncodedFloats;
  }

  // ----- compatmigrate/glm47_flash.go: glm47FlashSplitKVB

  /** The K and V tensors, in the source's own type. */
  function KVOuts(s: Source, mla: MLA, kName: bytes, vName: bytes, o: Output): seq<Out> {
    [Out(kName, s.kind, o.kShape, Converted(s, KVB(mla, true, o.kvFirst, o.heads), s.kind)),
     Out(vName, s.kind, o.vShape, Converted(s, KVB(mla, false, o.kvFirst, o.heads), s.kind))]
  }

  method Glm47FlashSplitKVB(s: Source, mla: MLA, kName: bytes, vName: bytes) returns (r: OpResult<seq<Out>>)
    ensures r.Built? <==> |s.shape| == 2 && (s.shape[0] == mla.kvLoraRank || s.shape[1] == mla.kvLoraRank)
    ensures r.Built? ==>
      var kvFirst := s.shape[0] == mla.kvLoraRank;
      var other, per := if kvFirst then s.shape[1] else s.shape[0], mla.qkNope + mla.vHeadDim;
      var heads := if per > 0 && other % per == 0 then other / per else mla.numHeads;
      r.value == KVOuts(s, mla, kName, vName, Output([mla.qkNope, mla.kvLoraRank, heads],
                                                     [mla.kvLoraRank, mla.vHeadDim, heads], kvFirst, heads))
  {
    var o := SplitKVB(mla, s.shape);
    if o.Err? {
      return Refused("cannot infer the layout");
    }
    return Built(KVOuts(s, mla, kName, vName, o.value));
  }

  /** What is written under K's name, its rows and rank exchanged back, and what is written under V's name make up kv_b
      head by head. */
  lemma KVRebuild(s: Source, mla: MLA, kName: bytes, vName: bytes, o: Output)
    requires Decodes(s) && Splittable(mla, o.kvFirst, o.heads, TensorOf(s))
    ensures IsPermutation(SwapLast, 3)
    ensures var outs, data := KVOuts(s, mla, kName, vName, o), Values(s);
      var k, v := outs[0].writer, outs[1].writer;
      && outs[0].name == kName && outs[1].name == vName && outs[0].kind == outs[1].kind == s.kind
      && k.Converted? && v.Converted? && Takes(k.repacker, data, s.shape) && Takes(v.repacker, data, s.shape)
      && var kt := Tensor(Repacked(k.repacker, data, s.shape), [o.heads, mla.kvLoraRank, mla.qkNope]);
      var vt := Tensor(Repacked(v.repacker, data, s.shape), [o.heads, mla.vHeadDim, mla.kvLoraRank]);
      && kt.Valid() && vt.Valid() && Compatible([Permute(kt, SwapLast), vt], 1)
      && Concat([Permute(kt, SwapLast), vt], 1) == HeadTensor(mla, o.kvFirst, o.heads, TensorOf(s))
  {
    hide Decodes, Values, Permute, Compatible, Concat, Splittable;
    SwapsArePermutations();
    HeadsRebuild(mla, HeadTensor(mla, o.kvFirst, o.heads, TensorOf(s)));
  }

  // ----- compatmigrate/tensor_row.go: copyTensorRowF32

  /** One row of a tensor, in F32; the tensor's bytes start at `at` in its file. */
  function RowOut(name: bytes, s: Source, row: nat, file: seq<BlockFormat.byte>, at: nat): Out
    requires s.shape != []
  {
    Out(name, 0, [s.shape[0]], SingleRow(s.kind, s.shape[0], row, file, at))
  }

  method CopyTensorRowF32(name: bytes, s: Source, row: nat, file: seq<BlockFormat.byte>, at: nat)
    returns (r: OpResult<Out>)
    ensures r.Built? <==> |s.shape| >= 2 && row < s.shape[1]
    ensures r.Built? ==> r.value == RowOut(name, s, row, file, at)
  {
    if |s.shape| < 2 {
      return Refused("cannot be row-sliced");
    }
    if row >= s.shape[1] {
      return Refused("row out of range");
    }
    return Built(Out(name, 0, [s.shape[0]], SingleRow(s.kind, s.shape[0], row, file, at)));
  }

  // ----- compatmigrate/mistral_pixtral.go: copyMistralPixtralProjectorTensor

  /** Patch embeddings stored in F16 stay F16. */
  function PixtralKind(name: bytes, s: Source, isPatch: bytes -> bool, mustBeF32: bytes -> bool): uint32 {
    if isPatch(name) && s.kind == 1 then 1 else OutputKind(mustBeF32, name, s)
  }

  function PixtralOut(name: bytes, s: Source, visionHeads: nat, isVisionQK: bytes -> bool, isPatch: bytes -> bool,
                      mustBeF32: bytes -> bool): Out {
    var kind := PixtralKind(name, s, isPatch, mustBeF32);
    Out(name, kind, s.shape,
        if isVisionQK(name) then Converted(s, PairRows(visionHeads), kind)
        else if kind != s.kind then Converted(s, Unchanged, kind)
        else Copied(s))
  }

  /** Vision queries and keys have their rows paired; of the other tensors, those whose type changes are encoded again
      and the rest copied. The type is F32 where it must be, but F16 patch embeddings stay F16. */
  lemma PixtralWrites(name: bytes, s: Source, visionHeads: nat, isVisionQK: bytes -> bool, isPatch: bytes -> bool,
                      mustBeF32: bytes -> bool, bits: Bits<Float>)
    ensures var o := PixtralOut(name, s, visionHeads, isVisionQK, isPatch, mustBeF32);
      && o.name == name && o.shape == s.shape
      && o.kind == (if s.kind == 1 && isPatch(name) then 1 else if mustBeF32(name) || mustBeF32(s.name) then 0
                    else s.kind)
      && (!isVisionQK(name) && o.kind == s.kind ==>
            Succeeds(o.writer) && Written(o.writer, bits) == Octets(s.stored))
      && (!isVisionQK(name) && o.kind != s.kind && Decodes(s) ==>
            Succeeds(o.writer) && Written(o.writer, bits) == EncodedFloats(0, Values(s), bits))
      && (isVisionQK(name) && Succeeds(o.writer) ==>
            Decodes(s) && Takes(PairRows(visionHeads), Values(s), s.shape) && FloatKind(o.kind)
            && Written(o.writer, bits) == EncodedFloats(o.kind, Repacked(PairRows(visionHeads), Values(s), s.shape),
                                                        bits))
  {
    hide Decodes, Values, EncodedFloats;
  }

  // ----- compatmigrate/qwen3vl.go: qwen3VLSplitLegacyPatchTensor

  function PatchOut(s: Source, channels: positive, name: bytes, temporalIndex: nat, mustBeF32: bytes -> bool): Out
    requires |s.shape| == 4
  {
    var kind := OutputKind(mustBeF32, name, s);
    Out(name, kind, [s.shape[0], s.shape[1], channels, s.shape[3] / channels],
        Converted(s, PatchHalf(channels, temporalIndex), kind))
  }

  method Qwen3VLSplitLegacyPatchTensor(s: Source, numChannels: nat, name0: bytes, name1: bytes,
                                       mustBeF32: bytes -> bool)
    returns (r: OpResult<seq<Out>>)
    ensures r.Built? <==> numChannels > 0 && |s.shape| == 4 && s.shape[2] == 2 && s.shape[3] % numChannels == 0
    ensures r.Built? ==> r.value == [PatchOut(s, numChannels, name0, 0, mustBeF32),
                                     PatchOut(s, numChannels, name1, 1, mustBeF32)]
  {
    if numChannels == 0 {
      return Refused("num channels is zero");
    }
    if |s.shape| != 4 {
      return Refused("expected rank 4");
    }
    var width, height, temporal, flat := s.shape[0], s.shape[1], s.shape[2], s.shape[3];
    if temporal != 2 {
      return Refused("expected temporal size 2");
    }
    if flat % numChannels != 0 {
      return Refused("flattened channel dimension not divisible");
    }
    var hidden := flat / numChannels;
    var names := [name0, name1];
    var out: seq<Out> := [];
    for temporalIndex := 0 to |names|
      invariant |out| == temporalIndex
      invariant forall k :: 0 <= k < temporalIndex ==> out[k] == PatchOut(s, numChannels, names[k], k, mustBeF32)
    {
      var outType := OutputKind(mustBeF32, names[temporalIndex], s);
      out := out + [Out(names[temporalIndex], outType, [width, height, numChannels, hidden],
                        Converted(s, PatchHalf(numChannels, temporalIndex), outType))];
    }
    return Built(out);
  }
}
