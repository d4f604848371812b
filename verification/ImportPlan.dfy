/** create/plan.go: the plan's data, and which source tensors a plan uses how often. */
module ImportPlan {
  import opened Text
  import opened ExpertNames

  datatype SourceTensor = SourceTensor(name: string, dtype: string, shape: seq<int>, file: string)

  type Inventory = map<string, SourceTensor>

  /** Reading a source files every tensor under its own name. */
  predicate Indexed(inv: Inventory) {
    forall n :: n in inv ==> inv[n].name == n
  }

  datatype Transform =
    | Copy | RepackFP4 | RelabelU8 | ScalarF32 | ReciprocalF32
    | StackExperts | DecodeFP8 | DecodeStackFP8

  datatype TensorSpec = TensorSpec(
    name: string, sources: seq<SourceTensor>, transform: Transform, quantize: string, outDtype: string,
    outShape: Option<seq<int>>)

  datatype BlobSpec = BlobSpec(name: string, tensors: seq<TensorSpec>, metadata: map<string, string>)

  datatype Planned<+T> = Planned(value: T) | Failed(reason: string)

  /** A policy picks a quantization for a tensor, or none. */
  type Policy = (string, seq<int>, string) -> string

  function CopyOf(t: SourceTensor, quantize: string): BlobSpec {
    BlobSpec(t.name, [TensorSpec(t.name, [t], Copy, quantize, "", None)], map[])
  }

  // ----- uses

  /** How often a source of this name is listed. */
  function UsesIn(sources: seq<SourceTensor>, n: string): nat {
    if sources == [] then 0 else UsesIn(sources[..|sources| - 1], n) + if sources[|sources| - 1].name == n then 1 else 0
  }

  function UsesInTensors(ts: seq<TensorSpec>, n: string): nat {
    if ts == [] then 0 else UsesInTensors(ts[..|ts| - 1], n) + UsesIn(ts[|ts| - 1].sources, n)
  }

  function Uses(specs: seq<BlobSpec>, n: string): nat {
    if specs == [] then 0 else Uses(specs[..|specs| - 1], n) + UsesInTensors(specs[|specs| - 1].tensors, n)
  }

  lemma {:induction false} UsesInConcat(a: seq<SourceTensor>, b: seq<SourceTensor>, n: string)
    ensures UsesIn(a + b, n) == UsesIn(a, n) + UsesIn(b, n)
  {
    if b == [] {
      assert a + b == a;
    } else {
      UsesInConcat(a, b[..|b| - 1], n);
      assert (a + b)[..|a + b| - 1] == a + b[..|b| - 1];
    }
  }

  lemma {:induction false} UsesInTensorsConcat(a: seq<TensorSpec>, b: seq<TensorSpec>, n: string)
    ensures UsesInTensors(a + b, n) == UsesInTensors(a, n) + UsesInTensors(b, n)
  {
    if b == [] {
      assert a + b == a;
    } else {
      UsesInTensorsConcat(a, b[..|b| - 1], n);
      assert (a + b)[..|a + b| - 1] == a + b[..|b| - 1];
    }
  }

  lemma {:induction false} UsesConcat(a: seq<BlobSpec>, b: seq<BlobSpec>, n: string)
    ensures Uses(a + b, n) == Uses(a, n) + Uses(b, n)
  {
    hide UsesInTensors;
    if b == [] {
      assert a + b == a;
    } else {
      UsesConcat(a, b[..|b| - 1], n);
      assert (a + b)[..|a + b| - 1] == a + b[..|b| - 1];
    }
  }

  lemma UsesOne(t: SourceTensor, n: string)
    ensures UsesIn([t], n) == if t.name == n then 1 else 0
  {
    assert [t][..0] == [];
  }

  lemma UsesOneTensor(t: TensorSpec, n: string)
    ensures UsesInTensors([t], n) == UsesIn(t.sources, n)
  {
    hide UsesIn;
    assert [t][..0] == [];
  }

  lemma UsesOneBlob(b: BlobSpec, n: string)
    ensures Uses([b], n) == UsesInTensors(b.tensors, n)
  {
    hide UsesInTensors;
    assert [b][..0] == [];
  }

  /** What is used is a source of some tensor of some blob. */
  lemma {:induction false} UsedIn(sources: seq<SourceTensor>, n: string) returns (k: nat)
    requires UsesIn(sources, n) > 0
    ensures k < |sources| && sources[k].name == n
  {
    var last := |sources| - 1;
    if sources[last].name == n {
      k := last;
    } else {
      k := UsedIn(sources[..last], n);
    }
  }

  lemma {:induction false} UsedInTensors(ts: seq<TensorSpec>, n: string) returns (t: TensorSpec, k: nat)
    requires UsesInTensors(ts, n) > 0
    ensures t in ts && k < |t.sources| && t.sources[k].name == n
  {
    var last := |ts| - 1;
    if UsesIn(ts[last].sources, n) > 0 {
      t := ts[last];
      k := UsedIn(t.sources, n);
    } else {
      t, k := UsedInTensors(ts[..last], n);
    }
  }

  lemma {:induction false} UsedSomewhere(specs: seq<BlobSpec>, n: string) returns (b: BlobSpec, t: TensorSpec, k: nat)
    requires Uses(specs, n) > 0
    ensures b in specs && t in b.tensors && k < |t.sources| && t.sources[k].name == n
  {
    var last := |specs| - 1;
    if UsesInTensors(specs[last].tensors, n) > 0 {
      b := specs[last];
      t, k := UsedInTensors(b.tensors, n);
    } else {
      b, t, k := UsedSomewhere(specs[..last], n);
    }
  }

  // ----- covering a set of tensors exactly

  /** The sources list each of the names once, and nothing else. */
  ghost predicate SourcesCover(sources: seq<SourceTensor>, names: set<string>) {
    forall n :: UsesIn(sources, n) == if n in names then 1 else 0
  }

  ghost predicate TensorsCover(ts: seq<TensorSpec>, names: set<string>) {
    forall n :: UsesInTensors(ts, n) == if n in names then 1 else 0
  }

  /** Each of the names is a source of exactly one output tensor, once, and no other name is a source. */
  ghost predicate Covers(specs: seq<BlobSpec>, names: set<string>) {
    forall n :: Uses(specs, n) == if n in names then 1 else 0
  }

  lemma NothingCovered()
    ensures SourcesCover([], {}) && TensorsCover([], {}) && Covers([], {})
  {}

  lemma SourcesCoverConcat(a: seq<SourceTensor>, s: set<string>, b: seq<SourceTensor>, t: set<string>)
    requires SourcesCover(a, s) && SourcesCover(b, t) && s !! t
    ensures SourcesCover(a + b, s + t)
  {
    forall n ensures UsesIn(a + b, n) == if n in s + t then 1 else 0 { UsesInConcat(a, b, n); }
  }

  lemma TensorsCoverConcat(a: seq<TensorSpec>, s: set<string>, b: seq<TensorSpec>, t: set<string>)
    requires TensorsCover(a, s) && TensorsCover(b, t) && s !! t
    ensures TensorsCover(a + b, s + t)
  {
    forall n ensures UsesInTensors(a + b, n) == if n in s + t then 1 else 0 { UsesInTensorsConcat(a, b, n); }
  }

  lemma CoversConcat(a: seq<BlobSpec>, s: set<string>, b: seq<BlobSpec>, t: set<string>)
    requires Covers(a, s) && Covers(b, t) && s !! t
    ensures Covers(a + b, s + t)
  {
    forall n ensures Uses(a + b, n) == if n in s + t then 1 else 0 { UsesConcat(a, b, n); }
  }

  lemma SourceCovers(t: SourceTensor)
    ensures SourcesCover([t], {t.name})
  {
    forall n ensures UsesIn([t], n) == if n in {t.name} then 1 else 0 { UsesOne(t, n); }
  }

  lemma TensorCovers(t: TensorSpec, names: set<string>)
    requires SourcesCover(t.sources, names)
    ensures TensorsCover([t], names)
  {
    hide UsesIn;
    forall n ensures UsesInTensors([t], n) == if n in names then 1 else 0 { UsesOneTensor(t, n); }
  }

  lemma BlobCovers(b: BlobSpec, names: set<string>)
    requires TensorsCover(b.tensors, names)
    ensures Covers([b], names)
  {
    hide UsesInTensors;
    forall n ensures Uses([b], n) == if n in names then 1 else 0 { UsesOneBlob(b, n); }
  }

  lemma CopyCovers(t: SourceTensor, quantize: string)
    ensures Covers([CopyOf(t, quantize)], {t.name})
  {
    hide Covers, TensorsCover, SourcesCover;
    var b := CopyOf(t, quantize);
    SourceCovers(t);
    TensorCovers(b.tensors[0], {t.name});
    BlobCovers(b, {t.name});
  }

  /** The tensors of one blob, or one blob each: the same sources. */
  lemma {:induction false} OneBlobEach(ts: seq<TensorSpec>, blobs: seq<BlobSpec>, names: set<string>)
    requires |blobs| == |ts| && forall i :: 0 <= i < |ts| ==> blobs[i].tensors == [ts[i]]
    requires TensorsCover(ts, names)
    ensures Covers(blobs, names)
  {
    hide UsesIn;
    forall n ensures Uses(blobs, n) == if n in names then 1 else 0 { SameUses(ts, blobs, n); }
  }

  lemma {:induction false} SameUses(ts: seq<TensorSpec>, blobs: seq<BlobSpec>, n: string)
    requires |blobs| == |ts| && forall i :: 0 <= i < |ts| ==> blobs[i].tensors == [ts[i]]
    ensures Uses(blobs, n) == UsesInTensors(ts, n)
  {
    hide UsesIn;
    if ts != [] {
      SameUses(ts[..|ts| - 1], blobs[..|ts| - 1], n);
      UsesOneTensor(ts[|ts| - 1], n);
    }
  }

  // ----- what the writer can write

  predicate NeedsFP8Decode(t: Transform) { t == DecodeFP8 || t == DecodeStackFP8 }

  /** blobNeedsMLX */
  predicate BlobNeedsMLX(b: BlobSpec) {
    exists i :: 0 <= i < |b.tensors| && (b.tensors[i].quantize != "" || NeedsFP8Decode(b.tensors[i].transform))
  }

  predicate SameDtype(sources: seq<SourceTensor>) {
    forall i :: 0 <= i < |sources| ==> sources[i].dtype == sources[0].dtype
  }

  /** The sources a quantized tensor's transform accepts. */
  predicate QuantizeReady(t: TensorSpec) {
    match t.transform
    case Copy => |t.sources| == 1
    case DecodeFP8 => |t.sources| == 2
    case DecodeStackFP8 =>
      var n := |t.sources| / 2;
      |t.sources| > 0 && |t.sources| % 2 == 0 && SameDtype(t.sources[..n]) && SameDtype(t.sources[n..])
    case StackExperts => |t.sources| > 0 && SameDtype(t.sources)
    case _ => false
  }

  /** The sources a byte transform accepts. */
  predicate BytesReady(t: TensorSpec) {
    match t.transform
    case StackExperts => |t.sources| > 0 && SameDtype(t.sources)
    case DecodeFP8 => false
    case DecodeStackFP8 => false
    case _ => |t.sources| == 1
  }

  predicate SameQuantization(ts: seq<TensorSpec>) {
    forall i :: 0 <= i < |ts| ==> ts[i].quantize == ts[0].quantize
  }

  /** Every tensor takes a path that supports its transform with its number of sources, and all tensors share one
      quantization. */
  predicate Writable(b: BlobSpec) {
    && SameQuantization(b.tensors)
    && forall i :: 0 <= i < |b.tensors| ==> if BlobNeedsMLX(b) then QuantizeReady(b.tensors[i])
      else BytesReady(b.tensors[i])
  }

  predicate AllWritable(specs: seq<BlobSpec>) {
    forall i :: 0 <= i < |specs| ==> Writable(specs[i])
  }

  lemma CopyWritable(t: SourceTensor, quantize: string)
    ensures Writable(CopyOf(t, quantize))
  {}

  // ----- enumerating keys

  /** The keys of a map, each once. */
  method Keys<V>(m: map<string, V>) returns (keys: seq<string>)
    ensures |keys| == |m| && (forall k :: k in keys <==> k in m)
    ensures forall i, j :: 0 <= i < j < |keys| ==> keys[i] != keys[j]
  {
    keys := [];
    var rest := m.Keys;
    while rest != {}
      invariant rest <= m.Keys && |keys| + |rest| == |m.Keys|
      invariant forall k :: k in keys <==> k in m && k !in rest
      invariant forall i, j :: 0 <= i < j < |keys| ==> keys[i] != keys[j]
      decreases |rest|
    {
      var k :| k in rest;
      keys := keys + [k];
      rest := rest - {k};
    }
    assert |m.Keys| == |m|;
  }
}
