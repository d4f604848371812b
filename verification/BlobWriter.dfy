/** create/writer.go, create/transform.go and create/quantize.go: writing the blobs of a plan. */
module BlobWriter {
  import opened ExpertNames
  import opened ImportPlan
  import opened BlockFP8Plan
  import opened PrequantPlan

  // ----- tensor data

  datatype TensorData = TensorData(name: string, dtype: string, shape: seq<int>, bytes: seq<int>)

  /** What reading a source gives: its header as listed, and as many bytes as its layout takes. */
  ghost predicate Reads(read: SourceTensor -> TensorData, size: (string, seq<int>) -> nat) {
    forall s :: ReadsAs(read(s), s, size)
  }

  ghost predicate ReadsAs(d: TensorData, s: SourceTensor, size: (string, seq<int>) -> nat) {
    d.name == s.name && d.dtype == s.dtype && d.shape == s.shape && |d.bytes| == size(s.dtype, s.shape)
  }

  function Resolve(read: SourceTensor -> TensorData, sources: seq<SourceTensor>): (r: seq<TensorData>)
    ensures |r| == |sources| && forall i :: 0 <= i < |sources| ==> r[i] == read(sources[i])
  {
    seq(|sources|, i requires 0 <= i < |sources| => read(sources[i]))
  }

  /** Why a tensor is not written: the plan asked for something the writer cannot do, or the data is not what its scale
      must be. */
  datatype Refusal = Unsupported | WrongArity | MixedDtypes | NotScalar | ZeroScale

  datatype Written<+T> = Done(value: T) | Refused(why: Refusal)

  /** Refusals a plan can be blamed for. */
  predicate PlanFault(why: Refusal) { why == Unsupported || why == WrongArity || why == MixedDtypes }

  function AllBytes(ds: seq<TensorData>): seq<int> {
    if ds == [] then [] else AllBytes(ds[..|ds| - 1]) + ds[|ds| - 1].bytes
  }

  /** stackExpertTensors: the sources' bytes back to back. */
  method StackExpertTensors(name: string, dtype: string, shape: seq<int>, ds: seq<TensorData>)
    returns (r: Written<TensorData>)
    ensures r.Done? <==> ds != [] && forall i :: 0 <= i < |ds| ==> ds[i].dtype == ds[0].dtype
    ensures r.Done? ==> r.value == TensorData(name, dtype, shape, AllBytes(ds))
    ensures r.Refused? ==> r.why == WrongArity || r.why == MixedDtypes
  {
    if |ds| == 0 {
      return Refused(WrongArity);
    }
    var buf: seq<int> := [];
    for i := 0 to |ds|
      invariant buf == AllBytes(ds[..i])
      invariant forall j :: 0 <= j < i ==> ds[j].dtype == ds[0].dtype
    {
      if ds[i].dtype != ds[0].dtype {
        return Refused(MixedDtypes);
      }
      assert ds[..i + 1][..i] == ds[..i];
      buf := buf + ds[i].bytes;
    }
    assert ds[..|ds|] == ds;
    return Done(TensorData(name, dtype, shape, buf));
  }

  /** With sources of one size, block i of the stacked bytes is source i. */
  lemma {:induction false} BlockOfStack(ds: seq<TensorData>, size: nat, i: nat)
    requires forall k :: 0 <= k < |ds| ==> |ds[k].bytes| == size
    requires i < |ds|
    ensures |AllBytes(ds)| == |ds| * size && 0 <= i * size <= (i + 1) * size <= |ds| * size
    ensures AllBytes(ds)[i * size..(i + 1) * size] == ds[i].bytes
  {
    var n := |ds| - 1;
    var init := AllBytes(ds[..n]);
    StackLength(ds[..n], size);
    Room(i, n, size);
    assert AllBytes(ds) == init + ds[n].bytes;
    if i < n {
      BlockOfStack(ds[..n], size, i);
      assert AllBytes(ds)[i * size..(i + 1) * size] == init[i * size..(i + 1) * size];
    } else {
      assert AllBytes(ds)[|init|..|init| + size] == ds[n].bytes;
    }
  }

  lemma Room(i: nat, n: nat, size: nat)
    requires i <= n
    ensures (n + 1) * size == n * size + size && 0 <= i * size <= n * size && (i + 1) * size == i * size + size
    ensures i < n ==> (i + 1) * size <= n * size
  {
    assert i * size <= n * size;
    if i < n { assert (i + 1) * size <= n * size; }
  }

  lemma {:induction false} StackLength(ds: seq<TensorData>, size: nat)
    requires forall k :: 0 <= k < |ds| ==> |ds[k].bytes| == size
    ensures |AllBytes(ds)| == |ds| * size
  {
    if ds != [] {
      StackLength(ds[..|ds| - 1], size);
      Room(0, |ds| - 1, size);
    }
  }

  // ----- the writer

  predicate IsScalarF32(d: TensorData) {
    Upper(d.dtype) == "F32" && (forall i :: 0 <= i < |d.shape| ==> d.shape[i] == 1) && |d.bytes| == 4
  }

  function ShapeOf(t: TensorSpec): seq<int> { if t.outShape.Some? then t.outShape.value else [] }

  /** The tensor a byte transform makes of its sources: the bytes of one, perhaps under a new header, the bytes of all
      back to back, or the reciprocal of a scalar. */
  predicate IsOutput(t: TensorSpec, ds: seq<TensorData>, reciprocal: seq<int> -> Option<seq<int>>, d: TensorData) {
    && BytesFit(t, ds) && d.name == t.name
    && match t.transform
       case StackExperts => d == TensorData(t.name, t.outDtype, ShapeOf(t), AllBytes(ds))
       case RepackFP4 => IsRelabelled(t, ds[0], d)
       case RelabelU8 => IsRelabelled(t, ds[0], d)
       case ScalarF32 => IsScalarF32(ds[0]) && d == ds[0].(name := t.name)
       case ReciprocalF32 =>
         IsScalarF32(ds[0]) && reciprocal(ds[0].bytes) == Some(d.bytes) && d.dtype == ds[0].dtype
           && d.shape == ds[0].shape
       case Copy => d == ds[0].(name := t.name)
       case _ => false
  }

  predicate IsRelabelled(t: TensorSpec, from: TensorData, d: TensorData) {
    && d.bytes == from.bytes
    && d.dtype == (if t.outDtype != "" then t.outDtype else from.dtype)
    && d.shape == (if t.outShape.Some? then t.outShape.value else from.shape)
  }

  /** One value of four bytes, of type F32 in letters of either size. */
  predicate OneFloat(d: TensorData) {
    |d.bytes| == 4 && SameLetters(d.dtype, "F32") && forall i :: 0 <= i < |d.shape| ==> d.shape[i] == 1
  }

  lemma ScalarIsOneFloat(d: TensorData)
    ensures IsScalarF32(d) <==> OneFloat(d)
  {
    hide Upper, SameLetters;
    UpperLetters(d.dtype, "F32");
  }

  /** The data a byte transform cannot take although the plan is right: no scalar, or a scalar of zero. */
  ghost predicate BadScale(t: TensorSpec, ds: seq<TensorData>, reciprocal: seq<int> -> Option<seq<int>>) {
    && |ds| == 1 && (t.transform == ScalarF32 || t.transform == ReciprocalF32)
    && (!OneFloat(ds[0]) || (t.transform == ReciprocalF32 && reciprocal(ds[0].bytes).None?))
  }

  /** applyByteTransform; the reciprocal of four bytes is given, or None for zero. */
  method ApplyByteTransform(t: TensorSpec, ds: seq<TensorData>, reciprocal: seq<int> -> Option<seq<int>>)
    returns (r: Written<TensorData>)
    ensures r.Refused? && PlanFault(r.why) <==> !BytesFit(t, ds)
    ensures r.Refused? && !PlanFault(r.why) <==> BadScale(t, ds, reciprocal)
    ensures r.Done? ==> IsOutput(t, ds, reciprocal, r.value)
  {
    if |ds| == 1 { ScalarIsOneFloat(ds[0]); }
    hide IsScalarF32, OneFloat;
    match t.transform
    case Copy =>
      if |ds| != 1 { return Refused(WrongArity); }
      return Done(ds[0].(name := t.name));
    case StackExperts =>
      r := StackExpertTensors(t.name, t.outDtype, if t.outShape.Some? then t.outShape.value else [], ds);
    case DecodeFP8 => return Refused(Unsupported);
    case DecodeStackFP8 => return Refused(Unsupported);
    case ScalarF32 =>
      if |ds| != 1 { return Refused(WrongArity); }
      if !IsScalarF32(ds[0]) { return Refused(NotScalar); }
      return Done(ds[0].(name := t.name));
    case ReciprocalF32 =>
      if |ds| != 1 { return Refused(WrongArity); }
      if !IsScalarF32(ds[0]) { return Refused(NotScalar); }
      var out := reciprocal(ds[0].bytes);
      if out.None? { return Refused(ZeroScale); }
      return Done(TensorData(t.name, ds[0].dtype, ds[0].shape, out.value));
    case _ =>
      if |ds| != 1 { return Refused(WrongArity); }
      var d := ds[0].(name := t.name);
      if t.outDtype != "" { d := d.(dtype := t.outDtype); }
      if t.outShape.Some? { d := d.(shape := t.outShape.value); }
      return Done(d);
  }

  predicate OneDtype(ds: seq<TensorData>) {
    forall i :: 0 <= i < |ds| ==> ds[i].dtype == ds[0].dtype
  }

  /** The data a byte transform accepts. */
  predicate BytesFit(t: TensorSpec, ds: seq<TensorData>) {
    match t.transform
    case StackExperts => ds != [] && OneDtype(ds)
    case DecodeFP8 => false
    case DecodeStackFP8 => false
    case _ => |ds| == 1
  }

  /** The data the quantizer's input accepts. */
  predicate QuantizeFits(t: TensorSpec, ds: seq<TensorData>) {
    match t.transform
    case Copy => |ds| == 1
    case DecodeFP8 => |ds| == 2
    case DecodeStackFP8 => |ds| > 0 && |ds| % 2 == 0 && OneDtype(ds[..|ds| / 2]) && OneDtype(ds[|ds| / 2..])
    case StackExperts => ds != [] && OneDtype(ds)
    case _ => false
  }

  /** The tensors handed to the quantizer, weight first, under the spec's name: the one source, the FP8 weight and its
      scale, the stacked experts, or the stacked FP8 experts and their stacked scales. */
  predicate IsQuantizerInput(t: TensorSpec, ds: seq<TensorData>, input: seq<TensorData>) {
    && QuantizeFits(t, ds)
    && match t.transform
       case DecodeFP8 => input == [ds[0].(name := t.name), ds[1]]
       case StackExperts => input == [TensorData(t.name, t.outDtype, ShapeOf(t), AllBytes(ds))]
       case DecodeStackFP8 =>
         var n := |ds| / 2;
         input == [TensorData(t.name, t.outDtype, ShapeOf(t), AllBytes(ds[..n])),
                   TensorData(t.name + ".scale_inv", ds[n].dtype, [n] + ds[n].shape, AllBytes(ds[n..]))]
       case Copy => input == [ds[0].(name := t.name)]
       case _ => false
  }

  /** quantizeInputReader: exactly the sources its transform takes are accepted. */
  method QuantizeInputReader(t: TensorSpec, ds: seq<TensorData>) returns (r: Written<seq<TensorData>>)
    ensures r.Done? <==> QuantizeFits(t, ds)
    ensures r.Done? ==> IsQuantizerInput(t, ds, r.value)
  {
    hide AllBytes;
    var shape := if t.outShape.Some? then t.outShape.value else [];
    match t.transform
    case Copy =>
      if |ds| != 1 { return Refused(WrongArity); }
      return Done([ds[0].(name := t.name)]);
    case DecodeFP8 =>
      if |ds| != 2 { return Refused(WrongArity); }
      return Done([ds[0].(name := t.name), ds[1]]);
    case DecodeStackFP8 =>
      if |ds| == 0 || |ds| % 2 != 0 { return Refused(WrongArity); }
      var n := |ds| / 2;
      var weights, scales := ds[..n], ds[n..];
      var weight := StackExpertTensors(t.name, t.outDtype, shape, weights);
      if weight.Refused? { return Refused(weight.why); }
      var scale := StackExpertTensors(t.name + ".scale_inv", scales[0].dtype, [n] + scales[0].shape, scales);
      if scale.Refused? { return Refused(scale.why); }
      return Done([weight.value, scale.value]);
    case StackExperts =>
      var stacked := StackExpertTensors(t.name, t.outDtype, shape, ds);
      if stacked.Refused? { return Refused(stacked.why); }
      return Done([stacked.value]);
    case _ => return Refused(Unsupported);
  }

  lemma ReadyFits(t: TensorSpec, read: SourceTensor -> TensorData, size: (string, seq<int>) -> nat)
    requires Reads(read, size)
    ensures BytesReady(t) ==> BytesFit(t, Resolve(read, t.sources))
    ensures QuantizeReady(t) ==> QuantizeFits(t, Resolve(read, t.sources))
  {
    var ds := Resolve(read, t.sources);
    forall i | 0 <= i < |ds|
      ensures ds[i].dtype == t.sources[i].dtype
    {
      assert ReadsAs(read(t.sources[i]), t.sources[i], size);
    }
    var h := |ds| / 2;
    if t.transform == DecodeStackFP8 && QuantizeReady(t) {
      forall i | 0 <= i < |ds[..h]| ensures ds[..h][i].dtype == ds[..h][0].dtype {
        assert t.sources[..h][i].dtype == t.sources[..h][0].dtype;
      }
      forall i | 0 <= i < |ds[h..]| ensures ds[h..][i].dtype == ds[h..][0].dtype {
        assert t.sources[h..][i].dtype == t.sources[h..][0].dtype;
      }
    }
  }

  datatype QuantizeItem = QuantizeItem(name: string, quantize: string, input: seq<TensorData>, decodeFP8: bool)

  datatype Contents = Quantized(items: seq<QuantizeItem>) | Packed(tensors: seq<TensorData>, metadata: map<string,
                                                                   string>)

  method NeedsMLX(b: BlobSpec) returns (needs: bool)
    ensures needs <==> BlobNeedsMLX(b)
  {
    for i := 0 to |b.tensors|
      invariant forall j :: 0 <= j < i ==> b.tensors[j].quantize == "" && !NeedsFP8Decode(b.tensors[j].transform)
    {
      if b.tensors[i].quantize != "" || NeedsFP8Decode(b.tensors[i].transform) {
        return true;
      }
    }
    return false;
  }

  /** What a blob holds once written: for every tensor, in order, its quantizer input or its output bytes. */
  ghost predicate WrittenAs(b: BlobSpec, read: SourceTensor -> TensorData, reciprocal: seq<int> -> Option<seq<int>>,
                            c: Contents) {
    match c
    case Quantized(items) => BlobNeedsMLX(b) && |items| == |b.tensors|
      && forall i :: 0 <= i < |items| ==> ItemOf(b.tensors[i], read, items[i])
    case Packed(tensors, metadata) =>
      !BlobNeedsMLX(b) && metadata == b.metadata && |tensors| == |b.tensors|
        && forall i :: 0 <= i < |tensors| ==> PackedOf(b.tensors[i], read, reciprocal, tensors[i])
  }

  ghost predicate ItemOf(t: TensorSpec, read: SourceTensor -> TensorData, item: QuantizeItem) {
    && item.name == t.name && item.quantize == t.quantize && item.decodeFP8 == NeedsFP8Decode(t.transform)
    && IsQuantizerInput(t, Resolve(read, t.sources), item.input)
  }

  ghost predicate PackedOf(t: TensorSpec, read: SourceTensor -> TensorData, reciprocal: seq<int> -> Option<seq<int>>,
                           d: TensorData) {
    IsOutput(t, Resolve(read, t.sources), reciprocal, d)
  }

  /** Some scale of the blob is no scalar, or zero. */
  ghost predicate HasBadScale(b: BlobSpec, read: SourceTensor -> TensorData, reciprocal: seq<int> -> Option<seq<int>>) {
    exists i :: 0 <= i < |b.tensors| && BadScale(b.tensors[i], Resolve(read, b.tensors[i].sources), reciprocal)
  }

  /** writeBlob, up to storing the blob: a writable blob is refused exactly for a bad scale, never for what the plan
      asked, and otherwise every tensor is made of the bytes of its sources. */
  method WriteBlob(b: BlobSpec, read: SourceTensor -> TensorData, reciprocal: seq<int> -> Option<seq<int>>,
                   ghost size: (string, seq<int>) -> nat) returns (r: Written<Contents>)
    requires Reads(read, size)
    ensures Writable(b) && r.Refused? ==> !PlanFault(r.why)
    ensures Writable(b) ==> (r.Refused? <==> !BlobNeedsMLX(b) && HasBadScale(b, read, reciprocal))
    ensures r.Done? ==> WrittenAs(b, read, reciprocal, r.value)
  {
    hide QuantizeReady, BytesReady, QuantizeFits, BytesFit, AllBytes, IsScalarF32, Resolve, Reads, IsOutput,
      IsQuantizerInput, BadScale;
    var needsMLX := NeedsMLX(b);
    var items: seq<QuantizeItem>, tensors: seq<TensorData> := [], [];
    for i := 0 to |b.tensors|
      invariant needsMLX ==> |items| == i && forall j :: 0 <= j < i ==> ItemOf(b.tensors[j], read, items[j])
      invariant !needsMLX ==> |tensors| == i && forall j :: 0 <= j < i ==>
        PackedOf(b.tensors[j], read, reciprocal, tensors[j])
          && !BadScale(b.tensors[j], Resolve(read, b.tensors[j].sources), reciprocal)
    {
      var t := b.tensors[i];
      var sources := Resolve(read, t.sources);
      ReadyFits(t, read, size);
      if needsMLX {
        var input := QuantizeInputReader(t, sources);
        if input.Refused? { return Refused(input.why); }
        items := items + [QuantizeItem(t.name, t.quantize, input.value, NeedsFP8Decode(t.transform))];
      } else {
        var d := ApplyByteTransform(t, sources, reciprocal);
        if d.Refused? { return Refused(d.why); }
        tensors := tensors + [d.value];
      }
    }
    return Done(if needsMLX then Quantized(items) else Packed(tensors, b.metadata));
  }

  // ----- the quantizer's metadata

  /** Some tensor after a quantized one is not quantized like it. */
  predicate Mixed(qs: seq<string>) {
    exists i, j :: 0 <= i < j < |qs| && qs[i] != "" && qs[j] != qs[i]
  }

  /** The scan for one quantization, over the items' quantizations. */
  method ScanQuantization(qs: seq<string>) returns (uniform: string, mixed: bool, hasQuant: bool)
    ensures hasQuant <==> exists i :: 0 <= i < |qs| && qs[i] != ""
    ensures hasQuant ==> exists i :: 0 <= i < |qs| && qs[i] == uniform != "" && forall j :: 0 <= j < i ==> qs[j] == ""
    ensures mixed <==> Mixed(qs)
  {
    uniform, mixed, hasQuant := "", false, false;
    ghost var first := 0;
    for k := 0 to |qs|
      invariant !hasQuant ==> !mixed && forall i :: 0 <= i < k ==> qs[i] == ""
      invariant hasQuant ==> 0 <= first < k && qs[first] == uniform != "" && forall j :: 0 <= j < first ==> qs[j] == ""
      invariant mixed <==> Mixed(qs[..k])
      invariant hasQuant && !mixed ==> forall j :: first <= j < k ==> qs[j] == uniform
    {
      MixedSnoc(qs, k);
      if qs[k] == "" {
        if hasQuant {
          mixed := true;
        }
      } else if !hasQuant {
        hasQuant, uniform, first := true, qs[k], k;
      } else if qs[k] != uniform {
        mixed := true;
      }
    }
    assert qs[..|qs|] == qs;
  }

  lemma MixedSnoc(qs: seq<string>, k: nat)
    requires k < |qs|
    ensures Mixed(qs[..k + 1]) <==> Mixed(qs[..k]) || exists i :: 0 <= i < k && qs[i] != "" && qs[k] != qs[i]
  {
    if Mixed(qs[..k]) {
      var i, j :| 0 <= i < j < k && qs[..k][i] != "" && qs[..k][j] != qs[..k][i];
      assert qs[..k + 1][i] != "" && qs[..k + 1][j] != qs[..k + 1][i];
    }
    if exists i :: 0 <= i < k && qs[i] != "" && qs[k] != qs[i] {
      var i :| 0 <= i < k && qs[i] != "" && qs[k] != qs[i];
      assert qs[..k + 1][i] != "" && qs[..k + 1][k] != qs[..k + 1][i];
    }
    if Mixed(qs[..k + 1]) {
      var i, j :| 0 <= i < j < k + 1 && qs[..k + 1][i] != "" && qs[..k + 1][j] != qs[..k + 1][i];
      if j < k { assert qs[..k][i] != "" && qs[..k][j] != qs[..k][i]; }
    }
  }

  /** The blobs of a plan never take the mixed branch. */
  lemma PlannedNotMixed(b: BlobSpec, qs: seq<string>)
    requires Writable(b) && |qs| == |b.tensors| && forall i :: 0 <= i < |qs| ==> qs[i] == b.tensors[i].quantize
    ensures !Mixed(qs)
  {}

  /** The scan depends on order: a tensor kept as it is counts only after a quantized one. */
  lemma ScanOrderMatters()
    ensures Mixed(["int4", ""]) && !Mixed(["", "int4"])
  {
    var late := ["int4", ""];
    assert late[0] != "" && late[1] != late[0];
  }

  /** Repacking fp4 bytes as words describes the same number of bytes exactly when a row is whole words. */
  lemma RepackKeepsSize(rows: nat, cols: nat)
    requires rows > 0
    ensures rows * Quarter(cols) * 4 == rows * cols <==> cols % 4 == 0
  {
    var q, m := cols / 4, cols % 4;
    assert cols == 4 * q + m;
    assert rows * cols == rows * (4 * q) + rows * m;
    assert rows * q * 4 == rows * (4 * q);
  }
}
