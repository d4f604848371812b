/** compatmigrate/source_tensor.go and the writers of compatmigrate/tensor_ops.go: source tensors as they are stored,
    and the bytes an output tensor writes. */
module SourceTensors {
  import opened RowMajor
  import opened Permutations
  import opened TensorLayout
  import opened LayoutOps
  import GgufFormat
  import opened FloatPayload
  import GgufWriter
  import BlockFormat
  import RowReader
  import opened Repackers
  import opened PatchRepackers
  import opened GlmRepacker

  type bytes = GgufFormat.bytes
  type uint32 = GgufFormat.uint32
  type Float = BlockFormat.Float

  /** A tensor of a source file: its GGUF type, its shape with the fastest dimension first, and its stored bytes. */
  datatype Source = Source(name: bytes, kind: uint32, shape: seq<nat>, stored: seq<BlockFormat.byte>)

  // ----- reading

  /** The bytes of a tensor of whole rows of blocks; 0 for a type or shape a source file cannot hold. */
  function NumBytes(kind: nat, shape: seq<nat>): nat {
    var block := GgufWriter.BlockSize(kind);
    if (if shape == [] then 1 else shape[0]) % block != 0 then 0
    else
      MulNonNegative(GgufWriter.Elements(shape) / block, GgufWriter.TypeSize(kind));
      GgufWriter.Elements(shape) / block * GgufWriter.TypeSize(kind)
  }

  /** What readSourceTensors lets through, with all its bytes there. */
  predicate Intact(s: Source) { |s.stored| == NumBytes(s.kind, s.shape) > 0 }

  /** The types decodeTensorData knows. */
  predicate Known(kind: nat) {
    kind == 0 || kind == 1 || kind == 30 || kind == 6 || kind == 8 || kind == 12 || kind == 14
  }

  function KindOf(kind: nat): BlockFormat.Kind
    requires Known(kind)
  {
    if kind == 0 then BlockFormat.F32
    else if kind == 1 then BlockFormat.F16
    else if kind == 30 then BlockFormat.BF16
    else if kind == 6 then BlockFormat.Q5_0
    else if kind == 8 then BlockFormat.Q8_0
    else if kind == 12 then BlockFormat.Q4_K
    else BlockFormat.Q6_K
  }

  predicate Decodes(s: Source) { Known(s.kind) && RowReader.Decodable(KindOf(s.kind), s.stored, s.shape) }

  function Values(s: Source): seq<Float>
    requires Decodes(s)
  {
    RowReader.DecodedValues(KindOf(s.kind), s.stored, s.shape)
  }

  /** The decoded tensor, read row-major as its shape stands. */
  function TensorOf(s: Source): Tensor<Float>
    requires Decodes(s)
  {
    Tensor(Values(s), s.shape)
  }

  method ReadFloats(s: Source) returns (r: Outcome<seq<Float>>)
    ensures r.Done? <==> Decodes(s)
    ensures r.Done? ==> r.value == Values(s)
  {
    if !Known(s.kind) {
      return Failed("repacking tensor type is unsupported");
    }
    var d := RowReader.DecodeTensorData(KindOf(s.kind), s.stored, s.shape);
    if d.Err? {
      return Failed(d.reason);
    }
    return Done(d.value);
  }

  lemma KindSizes(kind: nat)
    requires Known(kind)
    ensures GgufWriter.BlockSize(kind) == BlockFormat.BlockLen(KindOf(kind))
    ensures GgufWriter.TypeSize(kind) == BlockFormat.BlockBytes(KindOf(kind))
    ensures FloatKind(kind) <==> KindOf(kind) in {BlockFormat.F32, BlockFormat.F16, BlockFormat.BF16}
    ensures FloatKind(kind) ==> GgufWriter.BlockSize(kind) == 1 && GgufWriter.TypeSize(kind) == Width(kind)
  {}

  /** An intact tensor that decodes has as many values as its shape says. */
  lemma ValuesFill(s: Source)
    requires Intact(s) && Decodes(s)
    ensures TensorOf(s).Valid()
  {
    hide RowReader.FloatValues, BlockFormat.Elements;
    var n, len, size := GgufWriter.Elements(s.shape), GgufWriter.BlockSize(s.kind), GgufWriter.TypeSize(s.kind);
    KindSizes(s.kind);
    SizeNonNegative(s.shape);
    if FloatKind(s.kind) {
      assert |s.stored| == n * size;
      DivideSum(n, size, 0);
    } else {
      var cols, rows := RowReader.Cols(s.shape), RowReader.Rows(s.shape);
      RowReader.RowsFit(KindOf(s.kind), cols, rows);
      SizeOfRows(s.shape, len);
      SameFactor(n / len, cols * rows / len, size);
      SameQuotient(n, cols * rows, len);
    }
  }

  lemma SameQuotient(a: nat, b: nat, len: nat)
    requires len > 0 && a % len == 0 && b % len == 0 && a / len == b / len
    ensures a == b
  {
    assert a == a / len * len && b == b / len * len;
  }

  /** Whole rows are whole blocks. */
  lemma SizeOfRows(shape: seq<nat>, len: nat)
    requires len > 0 && (if shape == [] then 1 else shape[0]) % len == 0
    ensures GgufWriter.Elements(shape) % len == 0
  {
    if shape != [] {
      var k, rest := shape[0] / len, Size(shape[1..]);
      assert shape[0] == k * len;
      assert Size(shape) == (k * rest) * len + 0 by { MulAssociative(rest, k, len); }
      DivideSum(k * rest, len, 0);
    }
  }

  /** The space set aside for an intact tensor is what it takes. */
  lemma NumBytesIsByteSize(kind: uint32, shape: seq<nat>)
    requires NumBytes(kind, shape) > 0
    ensures NumBytes(kind, shape) == GgufWriter.ByteSize(GgufWriter.OutTensor([], kind, shape, 0, []))
  {
    assert GgufWriter.BlockSize(kind) > 0;
    hide GgufWriter.BlockSize, GgufWriter.TypeSize;
    var n, len, size := GgufWriter.Elements(shape), GgufWriter.BlockSize(kind), GgufWriter.TypeSize(kind);
    SizeOfRows(shape, len);
    assert n == n / len * len;
    MulAssociative(n / len, len, size);
    MulAssociative(n / len, size, len);
    DivideSum(n / len * size, len, 0);
  }

  // ----- repackers

  type positive = n: nat | n > 0 witness 1

  /** What a source's values go through before they are encoded. */
  datatype Repacker =
    | Unchanged
    | SliceDim(dim: int, start: int, end: int)
    | KVB(mla: MLA, extractK: bool, kvFirst: bool, heads: nat)
    | PairRows(visionHeads: nat)
    | PatchHalf(channels: positive, temporalIndex: nat)

  /** The tensors a repacker accepts. */
  ghost predicate Takes(p: Repacker, data: seq<Float>, shape: seq<nat>) {
    match p
    case Unchanged => true
    case SliceDim(dim, start, end) => Tensor(data, shape).Valid() && 0 <= dim < |shape|
      && 0 <= start <= end <= shape[dim]
    case KVB(mla, _, kvFirst, heads) => Splittable(mla, kvFirst, heads, Tensor(data, shape))
    case PairRows(heads) => heads > 0 && |shape| == 2 && shape[0] % (heads * 2) == 0 && |data| == shape[0] * shape[1]
    case PatchHalf(channels, ti) => PatchShape(shape, channels, ti) && PatchReachable(|data|, shape, channels, ti)
  }

  ghost function Repacked(p: Repacker, data: seq<Float>, shape: seq<nat>): seq<Float>
    requires Takes(p, data, shape)
  {
    match p
    case Unchanged => data
    case SliceDim(dim, start, end) => Slice(Tensor(data, shape), dim, start, end).data
    case KVB(mla, extractK, kvFirst, heads) =>
      var h := HeadTensor(mla, kvFirst, heads, Tensor(data, shape));
      if extractK then KPart(mla, h).data else VPart(mla, h).data
    case PairRows(heads) =>
      SwappedReady(data, shape, heads);
      Permute(Tensor(data, [heads, 2, shape[0] / heads / 2, shape[1]]), PairSwap).data
    case PatchHalf(channels, ti) => PatchPart(data, shape, channels, ti)
  }

  lemma SwappedReady<T>(data: seq<T>, shape: seq<nat>, heads: nat)
    requires heads > 0 && |shape| == 2 && shape[0] % (heads * 2) == 0 && |data| == shape[0] * shape[1]
    ensures Tensor(data, [heads, 2, shape[0] / heads / 2, shape[1]]).Valid() && IsPermutation(PairSwap, 4)
  {
    PairSwapIsPermutation();
    InnerWidth(shape[0], heads);
    PairSizes(heads, shape[0] / heads / 2, shape[1]);
  }

  /** One temporal index of a patch tensor. */
  ghost function PatchPart<T>(data: seq<T>, shape: seq<nat>, channels: positive, ti: nat): (r: seq<T>)
    requires PatchShape(shape, channels, ti) && PatchReachable(|data|, shape, channels, ti)
    ensures |r| == Size([shape[3], shape[1], shape[0]])
    ensures PatchCopied(r, data, shape[3], shape[2], shape[1], shape[0], ti, |r|)
  {
    SizeNonNegative([shape[3], shape[1], shape[0]]);
    seq(Size([shape[3], shape[1], shape[0]]), k requires 0 <= k < Size([shape[3], shape[1], shape[0]]) =>
      data[PatchSource(k, shape[3], shape[2], shape[1], shape[0], ti)])
  }

  lemma PatchPartUnique<T>(data: seq<T>, shape: seq<nat>, channels: positive, ti: nat, r: seq<T>)
    requires PatchShape(shape, channels, ti) && PatchReachable(|data|, shape, channels, ti)
    requires PatchCopied(r, data, shape[3], shape[2], shape[1], shape[0], ti, |r|)
    ensures r == PatchPart(data, shape, channels, ti)
  {}

  method Repack(p: Repacker, data: seq<Float>, shape: seq<nat>) returns (r: Outcome<seq<Float>>)
    ensures r.Done? <==> Takes(p, data, shape)
    ensures r.Done? ==> r.value == Repacked(p, data, shape)
  {
    hide PatchReachable, PatchCopied, PatchPart, Permute, KPart, VPart, HeadTensor, Slice, Splittable;
    match p
    case Unchanged => r := Done(data);
    case SliceDim(dim, start, end) =>
      var s := SliceTensorDim(Tensor(data, shape), dim, start, end);
      r := if s.Ok? then Done(s.value) else Failed("slice");
    case KVB(mla, extractK, kvFirst, heads) =>
      var s := RepackKVB(mla, extractK, kvFirst, heads, Tensor(data, shape));
      r := if s.Ok? then Done(s.value) else Failed("cannot reshape");
    case PairRows(heads) =>
      r := MistralPixtralVisionQKRepack(data, shape, heads);
    case PatchHalf(channels, ti) =>
      r := Qwen3VLSplitPatch(data, shape, channels, ti);
      if r.Done? {
        CopiedLength(r.value, data, shape[3], shape[2], shape[1], shape[0], ti);
        PatchPartUnique(data, shape, channels, ti, r.value);
      }
  }

  lemma CopiedLength<T>(r: seq<T>, data: seq<T>, flat: nat, temporal: nat, h: nat, w: nat, ti: nat)
    requires ti < temporal && PatchCopied(r, data, flat, temporal, h, w, ti, Size([flat, h, w]))
    ensures |r| == Size([flat, h, w])
  {}

  // ----- writers

  /** What writes an output tensor: a source copied as it is stored, or repacked and encoded in a type; several sources
      joined and encoded, each copied as it is stored, or each encoded; or one row of a tensor at its place in a
      file. */
  datatype Writer =
    | Copied(source: Source)
    | Converted(source: Source, repacker: Repacker, kind: uint32)
    | Joined(dim: int, kind: uint32, sources: seq<Source>)
    | BackToBack(sources: seq<Source>)
    | Stacked(kind: uint32, sources: seq<Source>)
    | SingleRow(kind: uint32, cols: nat, row: nat, file: seq<BlockFormat.byte>, at: nat)

  datatype Out = Out(name: bytes, kind: uint32, shape: seq<nat>, writer: Writer)

  predicate AllDecode(sources: seq<Source>) {
    forall i :: 0 <= i < |sources| ==> Decodes(sources[i])
  }

  predicate AllIntact(sources: seq<Source>) {
    forall i :: 0 <= i < |sources| ==> Intact(sources[i])
  }

  function Tensors(sources: seq<Source>): (ts: seq<Tensor<Float>>)
    requires AllDecode(sources)
    ensures |ts| == |sources| && forall i :: 0 <= i < |ts| ==> ts[i] == TensorOf(sources[i])
  {
    seq(|sources|, i requires 0 <= i < |sources| => TensorOf(sources[i]))
  }

  function JoinData<T>(parts: seq<Tensor<T>>): seq<T> {
    if parts == [] then [] else JoinData(parts[..|parts|-1]) + parts[|parts|-1].data
  }

  /** Stored bytes, as numbers. */
  function Octets(b: seq<BlockFormat.byte>): (r: bytes)
    ensures |r| == |b|
  {
    seq(|b|, i requires 0 <= i < |b| => b[i] as int)
  }

  function JoinStored(sources: seq<Source>): bytes {
    if sources == [] then [] else JoinStored(sources[..|sources| - 1]) + Octets(sources[|sources| - 1].stored)
  }

  /** The file holds the row's bytes, in a type that decodes. */
  predicate RowThere(kind: uint32, cols: nat, row: nat, file: seq<BlockFormat.byte>, at: nat) {
    && Known(kind) && RowReader.RowBytes(KindOf(kind), cols) > 0
    && at + (row + 1) * RowReader.RowBytes(KindOf(kind), cols) <= |file|
  }

  /** The row's own bytes, decoded. */
  function RowValues(kind: uint32, cols: nat, row: nat, file: seq<BlockFormat.byte>, at: nat): (r: seq<Float>)
    requires RowThere(kind, cols, row, file, at)
    ensures |r| == cols
  {
    var n := RowReader.RowBytes(KindOf(kind), cols);
    MulDistributes(row, 1, n);
    MulNonNegative(row, n);
    BlockFormat.Elements(KindOf(kind), file[at + row * n..at + row * n + n], cols)
  }

  /** The writers that write: everything decodes and fits, and the type is one that can be encoded. */
  ghost predicate Succeeds(w: Writer) {
    match w
    case Copied(_) => true
    case Converted(s, p, kind) => Decodes(s) && Takes(p, Values(s), s.shape) && FloatKind(kind)
    case Joined(dim, kind, sources) => AllDecode(sources) && Compatible(Tensors(sources), dim) && FloatKind(kind)
    case BackToBack(_) => true
    case Stacked(kind, sources) => AllDecode(sources) && (sources == [] || FloatKind(kind))
    case SingleRow(kind, cols, row, file, at) => RowThere(kind, cols, row, file, at)
  }

  /** The bytes a writer writes. */
  ghost function Written(w: Writer, bits: Bits<Float>): bytes
    requires Succeeds(w)
  {
    match w
    case Copied(s) => Octets(s.stored)
    case Converted(s, p, kind) => EncodedFloats(kind, Repacked(p, Values(s), s.shape), bits)
    case Joined(dim, kind, sources) => EncodedFloats(kind, Concat(Tensors(sources), dim).data, bits)
    case BackToBack(sources) => JoinStored(sources)
    case Stacked(kind, sources) => if sources == [] then [] else EncodedFloats(kind, JoinData(Tensors(sources)), bits)
    case SingleRow(kind, cols, row, file, at) => EncodedFloats(0, RowValues(kind, cols, row, file, at), bits)
  }

  /** Every WriteTo of the package: it fails exactly where a source does not decode, a repacker or a join does not
      accept it, the type cannot be encoded or a row is not in the file; otherwise it writes these bytes. */
  method WriteTo(w: Writer, bits: Bits<Float>) returns (r: Outcome<bytes>)
    ensures r.Done? <==> Succeeds(w)
    ensures r.Done? ==> r.value == Written(w, bits)
  {
    hide EncodedFloats, Values, Decodes, Takes, Repacked, FloatKind, Concat, Compatible, RowThere, RowValues;
    match w
    case Copied(s) => r := Done(Octets(s.stored));
    case Converted(s, p, kind) => r := WriteConverted(s, p, kind, bits);
    case Joined(dim, kind, sources) => r := WriteJoined(dim, kind, sources, bits);
    case BackToBack(sources) => r := WriteBackToBack(sources);
    case Stacked(kind, sources) => r := WriteStacked(kind, sources, bits);
    case SingleRow(kind, cols, row, file, at) => r := WriteRow(kind, cols, row, file, at, bits);
  }

  /** sourceTensorRow.WriteTo: the row is read at its own offset, decoded and encoded as F32. */
  method WriteRow(kind: uint32, cols: nat, row: nat, file: seq<BlockFormat.byte>, at: nat, bits: Bits<Float>)
    returns (r: Outcome<bytes>)
    ensures r.Done? <==> RowThere(kind, cols, row, file, at)
    ensures r.Done? ==> r.value == EncodedFloats(0, RowValues(kind, cols, row, file, at), bits)
  {
    hide EncodedFloats, RowReader.RowBytes, BlockFormat.Elements, BlockFormat.Fits;
    if !Known(kind) {
      return Failed("row extraction from tensor type is unsupported");
    }
    var data := RowReader.ReadRow(file, at, 0, KindOf(kind), cols, row);
    if data.Err? {
      return Failed(data.reason);
    }
    r := Encode(0, data.value, bits);
  }

  /** sourceTensor.WriteTo with a repacker or an output type. */
  method WriteConverted(s: Source, p: Repacker, kind: uint32, bits: Bits<Float>) returns (r: Outcome<bytes>)
    ensures r.Done? <==> Decodes(s) && Takes(p, Values(s), s.shape) && FloatKind(kind)
    ensures r.Done? ==> r.value == EncodedFloats(kind, Repacked(p, Values(s), s.shape), bits)
  {
    hide EncodedFloats, Values, Decodes, Takes, Repacked, FloatKind;
    var data := ReadFloats(s);
    if data.Failed? {
      return Failed(data.reason);
    }
    var repacked := Repack(p, data.value, s.shape);
    if repacked.Failed? {
      return Failed(repacked.reason);
    }
    r := Encode(kind, repacked.value, bits);
  }

  method Encode(kind: uint32, data: seq<Float>, bits: Bits<Float>) returns (r: Outcome<bytes>)
    ensures r.Done? <==> FloatKind(kind)
    ensures r.Done? ==> r.value == EncodedFloats(kind, data, bits)
  {
    hide EncodedFloats, FloatKind;
    var e := EncodeFloatTensor(kind, data, bits);
    r := if e.Encoded? then Done(e.b) else Failed("encoding tensor type is unsupported");
  }

  /** sourceTensorConcat.WriteTo */
  method WriteJoined(dim: int, kind: uint32, sources: seq<Source>, bits: Bits<Float>) returns (r: Outcome<bytes>)
    ensures r.Done? <==> AllDecode(sources) && Compatible(Tensors(sources), dim) && FloatKind(kind)
    ensures r.Done? ==> r.value == EncodedFloats(kind, Concat(Tensors(sources), dim).data, bits)
  {
    hide EncodedFloats, Values, Decodes, FloatKind, Concat, Compatible;
    var parts: seq<Tensor<Float>> := [];
    for i := 0 to |sources|
      invariant |parts| == i
      invariant forall k :: 0 <= k < i ==> Decodes(sources[k]) && parts[k] == TensorOf(sources[k])
    {
      var data := ReadFloats(sources[i]);
      if data.Failed? {
        return Failed(data.reason);
      }
      parts := parts + [Tensor(data.value, sources[i].shape)];
    }
    assert parts == Tensors(sources);
    var c := ConcatTensorDim(dim, parts);
    if c.Err? {
      return Failed("concat");
    }
    r := Encode(kind, c.value.data, bits);
  }

  /** sourceTensorSlowDimConcat.WriteTo, over sources as they were read. */
  method WriteBackToBack(sources: seq<Source>) returns (r: Outcome<bytes>)
    ensures r == Done(JoinStored(sources))
  {
    var out: bytes := [];
    for i := 0 to |sources|
      invariant out == JoinStored(sources[..i])
    {
      assert sources[..i + 1][..i] == sources[..i];
      out := out + Octets(sources[i].stored);
    }
    assert sources[..|sources|] == sources;
    return Done(out);
  }

  lemma StackedSoFar(sources: seq<Source>, i: nat)
    requires i < |sources| && AllDecode(sources[..i]) && Decodes(sources[i])
    ensures AllDecode(sources[..i + 1])
    ensures JoinData(Tensors(sources[..i + 1])) == JoinData(Tensors(sources[..i])) + Values(sources[i])
  {
    hide Values, Decodes;
    var ts := Tensors(sources[..i + 1]);
    assert ts[..i] == Tensors(sources[..i]);
  }

  /** sourceTensorStack.WriteTo: each source encoded in turn. */
  method WriteStacked(kind: uint32, sources: seq<Source>, bits: Bits<Float>) returns (r: Outcome<bytes>)
    ensures r.Done? <==> AllDecode(sources) && (sources == [] || FloatKind(kind))
    ensures r.Done? ==> r.value == if sources == [] then [] else EncodedFloats(kind, JoinData(Tensors(sources)), bits)
  {
    hide EncodedFloats, Values, Decodes, FloatKind, JoinData;
    if |sources| == 0 {
      return Done([]);
    }
    var out: bytes := [];
    if FloatKind(kind) { EncodedFloatsConcat(kind, [], [], bits); }
    assert Tensors(sources[..0]) == [];
    NothingJoined();
    for i := 0 to |sources|
      invariant AllDecode(sources[..i]) && (i > 0 ==> FloatKind(kind))
      invariant FloatKind(kind) ==> out == EncodedFloats(kind, JoinData(Tensors(sources[..i])), bits)
    {
      var data := ReadFloats(sources[i]);
      if data.Failed? {
        return Failed(data.reason);
      }
      var e := Encode(kind, data.value, bits);
      if e.Failed? {
        return Failed(e.reason);
      }
      StackedSoFar(sources, i);
      EncodedFloatsConcat(kind, JoinData(Tensors(sources[..i])), data.value, bits);
      out := out + e.value;
    }
    assert sources[..|sources|] == sources;
    return Done(out);
  }

  lemma NothingJoined()
    ensures JoinData<Float>([]) == []
  {}

  // ----- what is written as floats reads back

  /** What the decoders read where a float of a type was written: its bit pattern in that type. */
  ghost function WrittenFloat(kind: nat, bits: Bits<Float>, x: Float): Float
    requires FloatKind(kind)
  {
    if kind == 0 then BlockFormat.Single(bits.single(x))
    else if kind == 1 then BlockFormat.Half(bits.half(x))
    else BlockFormat.BHalf(bits.brain(x))
  }

  lemma FromTwo(b: bytes)
    requires |b| == 2
    ensures GgufFormat.FromLE(b) == b[0] as int + 256 * b[1] as int
  {
    assert GgufFormat.FromLE(b[1..]) == b[1..][0] as int + 256 * GgufFormat.FromLE(b[1..][1..]);
    assert b[1..][1..] == [];
  }

  lemma FromFour(b: bytes)
    requires |b| == 4
    ensures GgufFormat.FromLE(b)
         == b[0] as int + 256 * b[1] as int + 65536 * (b[2] as int + 256 * b[3] as int)
  {
    FromTwo(b[2..]);
    assert b[1..][1..] == b[2..];
  }

  /** The pattern a decoder puts together from its bytes. */
  lemma PatternRead(n: nat, w: nat)
    requires (w == 2 && n < 0x1_0000) || (w == 4 && n < 0x1_0000_0000)
    ensures GgufFormat.FromLE(GgufFormat.LE(n, w)) == n
  {
    GgufFormat.Widths();
    GgufFormat.FromLEOfLE(n, w);
  }

  /** Encoded floats decode to the bit patterns they were encoded from, in order. */
  lemma FloatsReadBack(kind: nat, data: seq<Float>, bits: Bits<Float>, b: seq<BlockFormat.byte>, i: nat)
    requires FloatKind(kind) && Octets(b) == EncodedFloats(kind, data, bits) && i < |data|
    requires kind != 0 ==> BitsFor(kind, bits)(data[i]) < 0x1_0000
    ensures var values := RowReader.FloatValues(KindOf(kind), b);
      |values| == |data| && values[i] == WrittenFloat(kind, bits, data[i])
  {
    hide EncodedFloats, BlockFormat.Element, GgufFormat.LE;
    EncodedFloatsLength(kind, data, bits);
    EncodedAt(kind, data, bits, i);
    var w := Width(kind);
    ExactCount(|data|, w);
    var at := Octets(b)[i * w..i * w + w];
    assert forall k :: 0 <= k < w ==> at[k] == b[i * w + k] as int;
    PatternRead(BitsFor(kind, bits)(data[i]), w);
    if kind == 0 { FromFour(at); } else { FromTwo(at); }
    hide GgufFormat.FromLE, RowReader.FloatValues;
    ValueAt(kind, b, |data|, i);
  }

  lemma ExactCount(n: nat, w: nat)
    requires w > 0
    ensures n * w / w == n
  {
    DivideSum(n, w, 0);
  }

  /** Value i of float data, from its own bytes. */
  lemma ValueAt(kind: nat, b: seq<BlockFormat.byte>, n: nat, i: nat)
    requires FloatKind(kind) && |b| == n * Width(kind) && i < n
    ensures 0 <= i * Width(kind) && i * Width(kind) + Width(kind) <= |b|
    ensures |RowReader.FloatValues(KindOf(kind), b)| == n
    ensures var at, v := i * Width(kind), RowReader.FloatValues(KindOf(kind), b)[i];
      if kind == 0 then
        v == BlockFormat.Single(BlockFormat.U16(b[at], b[at + 1]) + 65536 * BlockFormat.U16(b[at + 2], b[at + 3]))
      else if kind == 1 then v == BlockFormat.Half(BlockFormat.U16(b[at], b[at + 1]))
      else v == BlockFormat.BHalf(BlockFormat.U16(b[at], b[at + 1]))
  {
    var k, w := KindOf(kind), Width(kind);
    ExactCount(n, w);
    MulMonotone(i + 1, n, w);
    MulDistributes(i, 1, w);
    MulNonNegative(i, w);
    assert i / 1 == i && i % 1 == 0;
    var whole := b[..n * w];
    assert whole == b;
    assert BlockFormat.Block(k, b, i) == b[i * w..i * w + w];
    assert RowReader.FloatValues(k, b)[i] == BlockFormat.Element(k, b, n, i);
  }
}
