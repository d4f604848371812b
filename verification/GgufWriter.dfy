/** compatmigrate/writer.go: writing metadata, sorted tensor infos and aligned tensor data to a file. */
module GgufWriter {
  import opened RowMajor
  import opened GgufFormat
  import opened GgufRoundTrip
  import opened StableSort

  // ----- the file

  /** An os.File opened for writing: sequential writes go to the end, offset writes anywhere. */
  class File {
    var content: bytes

    constructor ()
      ensures content == []
    {
      content := [];
    }

    method Write(b: bytes)
      modifies this
      ensures content == old(content) + b
    {
      content := content + b;
    }

    method WriteAt(off: nat, b: bytes)
      modifies this
      ensures content == Overwrite(old(content), off, b)
    {
      content := Overwrite(content, off, b);
    }
  }

  /** Bytes at an offset replaced; a gap before the offset reads as zeros. */
  function Overwrite(c: bytes, off: nat, b: bytes): (r: bytes)
    ensures b != [] ==> |r| == if |c| < off + |b| then off + |b| else |c|
    ensures b == [] ==> r == c
  {
    if b == [] then c
    else
      var grown := if |c| < off + |b| then c + Zeros(off + |b| - |c|) else c;
      grown[..off] + b + grown[off + |b|..]
  }

  function Zeros(n: nat): (z: bytes)
    ensures |z| == n
  {
    seq(n, _ => 0)
  }

  /** An offset write is read back, and leaves bytes outside its range alone. */
  lemma OverwriteReads(c: bytes, off: nat, b: bytes, lo: nat, hi: nat)
    requires lo <= hi <= |c|
    ensures |c| <= |Overwrite(c, off, b)|
    ensures off + |b| <= |Overwrite(c, off, b)| || b == []
    ensures b != [] ==> Overwrite(c, off, b)[off..off + |b|] == b
    ensures hi <= off || off + |b| <= lo ==> Overwrite(c, off, b)[lo..hi] == c[lo..hi]
  {}

  // ----- sizes and offsets

  /** Elements per block of a GGUF tensor type. */
  function BlockSize(kind: nat): nat {
    match kind
    case 0 => 1 case 1 => 1 case 24 => 1 case 25 => 1 case 26 => 1 case 27 => 1 case 28 => 1 case 30 => 1
    case 2 => 32 case 3 => 32 case 6 => 32 case 7 => 32 case 8 => 32 case 9 => 32 case 20 => 32 case 39 => 32
    case 40 => 64
    case 41 => 128
    case _ => 256
  }

  /** Bytes per block; 0 for a type the writer does not know. */
  function TypeSize(kind: nat): nat {
    match kind
    case 0 => 4 case 1 => 2 case 30 => 2
    case 24 => 1 case 25 => 2 case 26 => 4 case 27 => 8 case 28 => 8
    case 2 => 18 case 3 => 20 case 6 => 22 case 7 => 24 case 8 => 34 case 9 => 36
    case 10 => 84 case 11 => 110 case 12 => 144 case 13 => 176 case 14 => 210 case 15 => 292
    case 16 => 66 case 17 => 74 case 18 => 98 case 19 => 50 case 20 => 18 case 21 => 110 case 22 => 82 case 23 => 136
    case 29 => 56
    case 39 => 17 case 40 => 36 case 41 => 18
    case _ => 0
  }

  /** The bytes of a block, by its parts: the scales and minimums of the block, and its elements' bits, for the types of
      32, 64 and 128 elements ... */
  lemma ShortBlocks()
    ensures TypeSize(2) == 2 + BlockSize(2) / 2 && TypeSize(3) == 2 + 2 + BlockSize(3) / 2
    ensures TypeSize(6) == 2 + 4 + BlockSize(6) / 2 && TypeSize(7) == 2 + 2 + 4 + BlockSize(7) / 2
    ensures TypeSize(8) == 2 + BlockSize(8) && TypeSize(9) == 2 + 2 + BlockSize(9)
    ensures TypeSize(20) == 2 + BlockSize(20) / 2 && TypeSize(39) == 1 + BlockSize(39) / 2
    ensures TypeSize(40) == 4 + BlockSize(40) / 2 && TypeSize(41) == 2 + BlockSize(41) / 8
  {}

  /** ... for the K types of 256 elements ... */
  lemma KBlocks()
    ensures TypeSize(10) == BlockSize(10) / 16 + BlockSize(10) / 4 + 2 + 2
    ensures TypeSize(11) == BlockSize(11) / 8 + BlockSize(11) / 4 + 12 + 2
    ensures TypeSize(12) == 2 + 2 + 12 + BlockSize(12) / 2
    ensures TypeSize(13) == 2 + 2 + 12 + BlockSize(13) / 8 + BlockSize(13) / 2
    ensures TypeSize(14) == BlockSize(14) / 2 + BlockSize(14) / 4 + BlockSize(14) / 16 + 2
    ensures TypeSize(15) == 4 + BlockSize(15) + 2 * BlockSize(15) / 16
  {}

  /** ... and for the I types of 256. */
  lemma IBlocks()
    ensures TypeSize(16) == 2 + 2 * BlockSize(16) / 8
    ensures TypeSize(17) == 2 + 2 * BlockSize(17) / 8 + BlockSize(17) / 32
    ensures TypeSize(18) == 2 + BlockSize(18) / 4 + BlockSize(18) / 8
    ensures TypeSize(19) == 2 + BlockSize(19) / 8 + BlockSize(19) / 16
    ensures TypeSize(21) == 2 + BlockSize(21) / 4 + BlockSize(21) / 8 + BlockSize(21) / 32 + 4
    ensures TypeSize(22) == 2 + BlockSize(22) / 4 + BlockSize(22) / 16
    ensures TypeSize(23) == 2 + 2 + BlockSize(23) / 2 + BlockSize(23) / 64
    ensures TypeSize(29) == BlockSize(29) / 8 + BlockSize(29) / 16 + BlockSize(29) / 32
  {}

  datatype OutTensor = OutTensor(name: bytes, kind: uint32, shape: seq<nat>, offset: nat, payload: bytes)

  function Elements(shape: seq<nat>): nat {
    SizeNonNegative(shape);
    Size(shape)
  }

  /** outTensor.size: elements times bytes per element, rounded down. */
  function ByteSize(t: OutTensor): nat {
    MulNonNegative(Elements(t.shape), TypeSize(t.kind));
    Elements(t.shape) * TypeSize(t.kind) / BlockSize(t.kind)
  }

  function Padding(offset: nat, align: nat): (p: nat)
    requires align > 0
    ensures p < align && (offset + p) % align == 0
  {
    PaddingAligns(offset, align);
    (align - offset % align) % align
  }

  lemma PaddingAligns(offset: nat, align: nat)
    requires align > 0
    ensures 0 <= (align - offset % align) % align < align
    ensures (offset + (align - offset % align) % align) % align == 0
  {
    var r, q := offset % align, offset / align;
    if r == 0 {
      ModUnique(align, align, 1, 0);
    } else {
      ModUnique(align - r, align, 0, align - r);
      MulDistributes(q, 1, align);
      ModUnique(offset + (align - r), align, q + 1, 0);
    }
  }

  /** Offset of tensor i: the aligned end of the tensors before it. */
  function OffsetOf(ts: seq<OutTensor>, align: nat, i: nat): (o: nat)
    requires align > 0 && i <= |ts|
    ensures o % align == 0
  {
    if i == 0 then 0
    else
      var end := OffsetOf(ts, align, i - 1) + ByteSize(ts[i - 1]);
      end + Padding(end, align)
  }

  /** Tensor data lies in order, in aligned regions that do not overlap, with gaps below the alignment. */
  lemma {:induction false} RegionsDisjoint(ts: seq<OutTensor>, align: nat, i: nat, j: nat)
    requires align > 0 && i < j <= |ts|
    ensures OffsetOf(ts, align, i) % align == 0
    ensures OffsetOf(ts, align, i) + ByteSize(ts[i]) <= OffsetOf(ts, align, j)
    ensures j == i + 1 ==> OffsetOf(ts, align, j) < OffsetOf(ts, align, i) + ByteSize(ts[i]) + align
  {
    if i + 1 < j { RegionsDisjoint(ts, align, i, j - 1); }
  }

  /** The size is a whole number of blocks exactly when the elements are: a last partial block is cut
      short, not padded out. */
  lemma SizeIsWholeBlocks(t: OutTensor)
    requires TypeSize(t.kind) > 0
    ensures ByteSize(t) == (Elements(t.shape) + BlockSize(t.kind) - 1) / BlockSize(t.kind) * TypeSize(t.kind)
      <==> Elements(t.shape) % BlockSize(t.kind) == 0
  {
    WholeBlocks(Elements(t.shape), TypeSize(t.kind), BlockSize(t.kind));
  }

  lemma WholeBlocks(e: nat, s: nat, b: nat)
    requires s > 0 && b > 0
    ensures e * s / b == (e + b - 1) / b * s <==> e % b == 0
  {
    var q, r := e / b, e % b;
    assert e == q * b + r;
    MulDistributes(q * b, r, s);
    MulAssociative(q, b, s);
    MulAssociative(q, s, b);
    assert e * s == (q * s) * b + r * s;
    if r == 0 {
      DivideSum(q * s, b, 0);
      DivideSum(q, b, b - 1);
    } else {
      DivideSum(q + 1, b, r - 1);
      MulDistributes(q, 1, b);
      MulDistributes(q, 1, s);
      MulMonotone(r + 1, b, s);
      MulDistributes(r, 1, s);
      QuotientBelow(q * s, b, r * s, s);
    }
  }

  lemma QuotientBelow(a: int, b: int, x: int, s: int)
    requires b > 0 && x < b * s
    ensures (a * b + x) / b < a + s
  {
    var n := (a * b + x) / b;
    if n >= a + s {
      MulMonotone(a + s, n, b);
      MulDistributes(a, s, b);
    }
  }

  /** A tensor of 10 Q4_0 elements: 5 bytes are set aside where its one block needs 18. */
  lemma PartialBlockCutShort()
    ensures var t := OutTensor([], 2, [10], 0, []); ByteSize(t) == 5 && TypeSize(t.kind) == 18
  {
    assert Size([10]) == 10 * Size([]) by { assert [10][1..] == []; }
  }

  // ----- metadata

  // The names the writer knows, as bytes.
  const Dot: bytes := [0x2e]
  /** "general." */
  const GeneralNamespace: bytes := [0x67, 0x65, 0x6e, 0x65, 0x72, 0x61, 0x6c, 0x2e]
  /** "adapter." */
  const AdapterNamespace: bytes := [0x61, 0x64, 0x61, 0x70, 0x74, 0x65, 0x72, 0x2e]
  /** "tokenizer." */
  const TokenizerNamespace: bytes := [0x74, 0x6f, 0x6b, 0x65, 0x6e, 0x69, 0x7a, 0x65, 0x72, 0x2e]
  /** "general.architecture" */
  const ArchitectureKey: bytes := GeneralNamespace + [0x61, 0x72, 0x63, 0x68, 0x69, 0x74, 0x65, 0x63, 0x74, 0x75, 0x72,
                                                      0x65]
  /** "general.alignment" */
  const AlignmentKey: bytes := GeneralNamespace + [0x61, 0x6c, 0x69, 0x67, 0x6e, 0x6d, 0x65, 0x6e, 0x74]

  function Architecture(kv: map<bytes, Value>): bytes {
    if ArchitectureKey in kv && kv[ArchitectureKey].Str? then kv[ArchitectureKey].s else []
  }

  function Alignment(kv: map<bytes, Value>): nat {
    if AlignmentKey in kv && kv[AlignmentKey].Uint32? then kv[AlignmentKey].u32
    else if AlignmentKey in kv && kv[AlignmentKey].Uint64? then kv[AlignmentKey].u64
    else 32
  }

  /** Keys outside the shared namespaces belong to the architecture. */
  function Qualify(arch: bytes, k: bytes): bytes {
    if arch + Dot <= k || GeneralNamespace <= k || AdapterNamespace <= k || TokenizerNamespace <= k
    then k else arch + Dot + k
  }

  /** A name in ASCII, as bytes. */
  function Ascii(s: string): (b: bytes)
    ensures |b| == |s|
  {
    seq(|s|, i requires 0 <= i < |s| => s[i] as int % 0x80)
  }

  /** Keys any architecture has. */
  predicate Shared(k: bytes) { Ascii("general.") <= k || Ascii("adapter.") <= k || Ascii("tokenizer.") <= k }

  /** The name a key is to be found under: its own if it is shared or says its architecture already, and otherwise one
      that does. */
  predicate FoundAs(arch: bytes, k: bytes, name: bytes) {
    name == if Shared(k) || arch + Ascii(".") <= k then k else arch + Ascii(".") + k
  }

  /** What the writer reads from the metadata: the architecture, if it is named, and the alignment, or 32. */
  ghost predicate SettingsOf(kv: map<bytes, Value>, arch: bytes, align: nat) {
    && (arch != [] ==> Ascii("general.architecture") in kv && kv[Ascii("general.architecture")] == Str(arch))
    && (arch == [] ==> forall a :: a != [] ==> !HasPair(kv, Ascii("general.architecture"), Str(a)))
    && (forall n :: HasPair(kv, Ascii("general.alignment"), Uint32(n)) ==> align == n)
    && (forall n :: HasPair(kv, Ascii("general.alignment"), Uint64(n)) ==> align == n)
    && (align == 32 || exists v :: HasPair(kv, Ascii("general.alignment"), v) && (v.Uint32? || v.Uint64?))
  }

  predicate HasPair(kv: map<bytes, Value>, k: bytes, v: Value) { k in kv && kv[k] == v }

  lemma SettingsRead(kv: map<bytes, Value>)
    ensures SettingsOf(kv, Architecture(kv), Alignment(kv))
  {
    var key := Ascii("general.alignment");
    Spells("general.architecture", ArchitectureKey);
    Spells("general.alignment", AlignmentKey);
    if Alignment(kv) != 32 { assert HasPair(kv, key, kv[key]); }
  }

  lemma NamesSpelled()
    ensures Ascii("general.") == GeneralNamespace && Ascii("adapter.") == AdapterNamespace
    ensures Ascii("tokenizer.") == TokenizerNamespace && Ascii(".") == Dot
  {
    Spells("general.", GeneralNamespace);
    Spells("adapter.", AdapterNamespace);
    Spells("tokenizer.", TokenizerNamespace);
    Spells(".", Dot);
  }

  lemma Spells(s: string, b: bytes)
    requires |s| == |b| && forall i :: 0 <= i < |s| ==> s[i] as int % 0x80 == b[i]
    ensures Ascii(s) == b
  {}

  lemma QualifiedName(arch: bytes, k: bytes)
    ensures FoundAs(arch, k, Qualify(arch, k))
  {
    NamesSpelled();
    hide Ascii, GeneralNamespace, AdapterNamespace, TokenizerNamespace, Dot;
  }

  function Pairs(arch: bytes, keys: seq<bytes>, kv: map<bytes, Value>): (ps: seq<Pair>)
    requires forall i :: 0 <= i < |keys| ==> keys[i] in kv
    ensures |ps| == |keys| && forall i :: 0 <= i < |keys| ==> ps[i] == Pair(Qualify(arch, keys[i]), kv[keys[i]])
  {
    seq(|keys|, i requires 0 <= i < |keys| => Pair(Qualify(arch, keys[i]), kv[keys[i]]))
  }

  function InfoOf(t: OutTensor): Info {
    Info(t.name, t.shape, t.kind, t.offset)
  }

  function Infos(ts: seq<OutTensor>): (r: seq<Info>)
    ensures |r| == |ts| && forall i :: 0 <= i < |ts| ==> r[i] == InfoOf(ts[i])
  {
    seq(|ts|, i requires 0 <= i < |ts| => InfoOf(ts[i]))
  }

  // ----- sorting the tensors

  function Items(ts: seq<OutTensor>, block: bytes -> int): (r: seq<Item<OutTensor>>)
    ensures |r| == |ts| && forall i :: 0 <= i < |ts| ==> r[i] == Item(block(ts[i].name), ts[i].name, ts[i])
  {
    seq(|ts|, i requires 0 <= i < |ts| => Item(block(ts[i].name), ts[i].name, ts[i]))
  }

  function Values(s: seq<Item<OutTensor>>): (r: seq<OutTensor>)
    ensures |r| == |s| && forall i :: 0 <= i < |s| ==> r[i] == s[i].value
  {
    seq(|s|, i requires 0 <= i < |s| => s[i].value)
  }

  /** Tensors by layer, then by name; ties stay in order. */
  function SortedTensors(ts: seq<OutTensor>, block: bytes -> int): (r: seq<OutTensor>)
    ensures |r| == |ts|
  {
    Values(Sort(Items(ts, block)))
  }

  /** By layer, and within a layer by name. */
  predicate InLayerOrder(ts: seq<OutTensor>, block: bytes -> int) {
    forall i, j :: 0 <= i < j < |ts| ==>
      block(ts[i].name) < block(ts[j].name) || (block(ts[i].name) == block(ts[j].name) && LexLE(ts[i].name, ts[j].name))
  }

  /** The tensors of one name, in order. */
  function Named(ts: seq<OutTensor>, name: bytes): seq<OutTensor> {
    if ts == [] then []
    else
      var last := ts[|ts| - 1];
      Named(ts[..|ts| - 1], name) + if last.name == name then [last] else []
  }

  /** The sorted tensors are the tensors, by layer and name, and those of one name in their own order. */
  lemma SortedByLayer(ts: seq<OutTensor>, block: bytes -> int, name: bytes)
    ensures var r := SortedTensors(ts, block);
      InLayerOrder(r, block) && multiset(r) == multiset(ts) && Named(r, name) == Named(ts, name)
  {
    hide Sort, Items, Values, OwnItem, Sorted, Named, Ties, InLayerOrder;
    var items := Items(ts, block);
    SortSorts(items);
    SortStable(items, block(name), name);
    ItemsOwn(ts, block);
    StillOwn(items, Sort(items), block);
    SameMultiset(Sort(items), items);
    NamedTies(Sort(items), block, name);
    NamedTies(items, block, name);
    SortedOrder(Sort(items), block);
  }

  lemma ItemsOwn(ts: seq<OutTensor>, block: bytes -> int)
    ensures forall x :: x in Items(ts, block) ==> OwnItem(x, block)
    ensures Values(Items(ts, block)) == ts
  {}

  lemma StillOwn(items: seq<Item<OutTensor>>, sorted: seq<Item<OutTensor>>, block: bytes -> int)
    requires multiset(sorted) == multiset(items) && forall x :: x in items ==> OwnItem(x, block)
    ensures forall x :: x in sorted ==> OwnItem(x, block)
  {
    hide OwnItem;
    forall x | x in sorted ensures OwnItem(x, block) {
      assert x in multiset(sorted);
      assert x in items;
    }
  }

  lemma SortedOrder(sorted: seq<Item<OutTensor>>, block: bytes -> int)
    requires Sorted(sorted) && forall x :: x in sorted ==> OwnItem(x, block)
    ensures InLayerOrder(Values(sorted), block)
  {
    forall i, j | 0 <= i < j < |sorted|
      ensures var a, b := Values(sorted)[i], Values(sorted)[j];
        block(a.name) < block(b.name) || (block(a.name) == block(b.name) && LexLE(a.name, b.name))
    {
      assert NotAfter(sorted[i], sorted[j]) && OwnItem(sorted[i], block) && OwnItem(sorted[j], block);
    }
  }

  /** An item is ranked by its tensor's layer and named like it. */
  predicate OwnItem(x: Item<OutTensor>, block: bytes -> int) {
    x.name == x.value.name && x.rank == block(x.value.name)
  }

  lemma ValuesSnoc(s: seq<Item<OutTensor>>, x: Item<OutTensor>)
    ensures Values(s + [x]) == Values(s) + [x.value]
  {}

  lemma {:induction false} SameMultiset(s: seq<Item<OutTensor>>, t: seq<Item<OutTensor>>)
    requires multiset(s) == multiset(t)
    ensures multiset(Values(s)) == multiset(Values(t))
  {
    if s == [] {
      if t != [] { assert t[0] in multiset(t); }
    } else {
      var init, last := s[..|s| - 1], s[|s| - 1];
      assert last in multiset(s) && last in multiset(t);
      var k :| 0 <= k < |t| && t[k] == last;
      var without := t[..k] + t[k + 1..];
      TakenOut(s, |s| - 1);
      TakenOut(t, k);
      assert s[..|s| - 1] + s[|s|..] == init;
      SameMultiset(init, without);
      ValueTakenOut(s, |s| - 1);
      ValueTakenOut(t, k);
    }
  }

  lemma TakenOut<T>(s: seq<T>, k: nat)
    requires k < |s|
    ensures multiset(s[..k] + s[k + 1..]) == multiset(s) - multiset{s[k]}
  {
    assert s == s[..k] + [s[k]] + s[k + 1..];
    assert multiset(s) == multiset(s[..k]) + multiset{s[k]} + multiset(s[k + 1..]);
  }

  lemma ValueTakenOut(s: seq<Item<OutTensor>>, k: nat)
    requires k < |s|
    ensures multiset(Values(s)) == multiset(Values(s[..k] + s[k + 1..])) + multiset{s[k].value}
  {
    var vs := Values(s);
    assert Values(s[..k] + s[k + 1..]) == vs[..k] + vs[k + 1..];
    TakenOut(vs, k);
    assert vs[k] in multiset(vs);
  }

  lemma {:induction false} NamedTies(s: seq<Item<OutTensor>>, block: bytes -> int, name: bytes)
    requires forall x :: x in s ==> OwnItem(x, block)
    ensures Named(Values(s), name) == Values(Ties(s, block(name), name))
  {
    if s != [] {
      var init, last := s[..|s| - 1], s[|s| - 1];
      NamedTies(init, block, name);
      assert Values(s)[..|s| - 1] == Values(init);
      assert OwnItem(last, block);
      if last.name == name { ValuesSnoc(Ties(init, block(name), name), last); }
    }
  }

  function WithOffsets(ts: seq<OutTensor>, align: nat): (r: seq<OutTensor>)
    requires align > 0
    ensures |r| == |ts|
    ensures forall i :: 0 <= i < |ts| ==> r[i] == ts[i].(offset := OffsetOf(ts, align, i))
  {
    seq(|ts|, i requires 0 <= i < |ts| => ts[i].(offset := OffsetOf(ts, align, i)))
  }

  lemma OffsetsKeepOrder(ts: seq<OutTensor>, block: bytes -> int, align: nat)
    requires align > 0
    ensures InLayerOrder(WithOffsets(SortedTensors(ts, block), align), block)
  {
    hide SortedTensors, OffsetOf, LexLE;
    SortedByLayer(ts, block, []);
    var sorted, placed := SortedTensors(ts, block), WithOffsets(SortedTensors(ts, block), align);
    forall i, j | 0 <= i < j < |placed|
      ensures block(placed[i].name) < block(placed[j].name)
        || (block(placed[i].name) == block(placed[j].name) && LexLE(placed[i].name, placed[j].name))
    {
      assert placed[i].name == sorted[i].name && placed[j].name == sorted[j].name;
    }
  }

  method SortTensors(ts: array<OutTensor>, block: bytes -> int)
    modifies ts
    ensures ts[..] == SortedTensors(old(ts[..]), block)
  {
    var sorted := SortedTensors(ts[..], block);
    for i := 0 to ts.Length
      invariant forall k :: 0 <= k < i ==> ts[k] == sorted[k]
    {
      ts[i] := sorted[i];
    }
  }

  // ----- writing

  method WriteLengthAndBytes(f: File, s: bytes)
    modifies f
    ensures f.content == old(f.content) + EncodeString(s)
  {
    f.Write(LE(|s|, 8));
    f.Write(s);
  }

  /** writeValue */
  method WriteValue(f: File, ty: nat, b: bytes)
    modifies f
    ensures f.content == old(f.content) + (LE(ty, 4) + b)
  {
    f.Write(LE(ty, 4));
    f.Write(b);
  }

  /** writeString */
  method WriteString(f: File, s: bytes)
    modifies f
    ensures f.content == old(f.content) + (LE(8, 4) + EncodeString(s))
  {
    f.Write(LE(8, 4));
    WriteLengthAndBytes(f, s);
  }

  /** The start of writeArray: tag, element tag and count. */
  method WriteArrayHead(f: File, ty: nat, count: nat)
    modifies f
    ensures f.content == old(f.content) + (LE(9, 4) + LE(ty, 4) + LE(count, 8))
  {
    f.Write(LE(9, 4));
    f.Write(LE(ty, 4));
    f.Write(LE(count, 8));
  }

  /** writeArray over fixed-size elements, which go out in one write. */
  method WriteInts(f: File, ty: nat, ns: seq<int>, w: nat)
    modifies f
    ensures f.content == old(f.content) + EncodeArray(ty, |ns|, EncodeInts(ns, w))
  {
    WriteArrayHead(f, ty, |ns|);
    f.Write(EncodeInts(ns, w));
  }

  /** writeArray over strings. */
  method WriteStrings(f: File, ss: seq<bytes>)
    modifies f
    ensures f.content == old(f.content) + EncodeArray(8, |ss|, EncodeStrings(ss))
  {
    WriteArrayHead(f, 8, |ss|);
    ghost var start := f.content;
    for i := 0 to |ss|
      invariant f.content == start + EncodeStrings(ss[..i])
    {
      EncodeStringsSnoc(ss[..i], ss[i]);
      assert ss[..i + 1] == ss[..i] + [ss[i]];
      WriteLengthAndBytes(f, ss[i]);
    }
    assert ss[..|ss|] == ss;
  }

  lemma {:induction false} EncodeStringsSnoc(ss: seq<bytes>, s: bytes)
    ensures EncodeStrings(ss + [s]) == EncodeStrings(ss) + EncodeString(s)
  {
    hide EncodeString;
    if ss == [] {
      assert [s][1..] == [];
    } else {
      EncodeStringsSnoc(ss[1..], s);
      assert (ss + [s])[1..] == ss[1..] + [s];
      Cat3(EncodeString(ss[0]), EncodeStrings(ss[1..]), EncodeString(s));
    }
  }

  /** writeKV's type switch, on a supported value. */
  method WriteByType(f: File, v: Value)
    requires !v.Unsupported?
    modifies f
    ensures f.content == old(f.content) + EncodeValue(v)
  {
    hide LE, EncodeInts, EncodeStrings, EncodeString, EncodeArray, BoolInts;
    match v
    case Int32(n) => WriteValue(f, 5, LE(n, 4));
    case Int64(n) => WriteValue(f, 11, LE(n, 8));
    case Uint32(n) => WriteValue(f, 4, LE(n, 4));
    case Uint64(n) => WriteValue(f, 10, LE(n, 8));
    case Float32(n) => WriteValue(f, 6, LE(n, 4));
    case Float64(n) => WriteValue(f, 12, LE(n, 8));
    case Bool(b) => WriteValue(f, 7, LE(BoolInt(b), 1));
    case Str(s) => WriteString(f, s);
    case Int8s(ns) => WriteInts(f, 1, ns, 1);
    case Uint8s(ns) => WriteInts(f, 0, ns, 1);
    case Int32s(ns) => WriteInts(f, 5, ns, 4);
    case Int64s(ns) => WriteInts(f, 11, ns, 8);
    case Uint32s(ns) => WriteInts(f, 4, ns, 4);
    case Uint64s(ns) => WriteInts(f, 10, ns, 8);
    case Float32s(ns) => WriteInts(f, 6, ns, 4);
    case Strs(ss) => WriteStrings(f, ss);
    case Bools(bs) => WriteInts(f, 7, BoolInts(bs), 1);
  }

  /** writeKV: the key is written before the value's type is known to be supported. */
  method WriteKV(f: File, arch: bytes, k: bytes, v: Value) returns (ok: bool)
    modifies f
    ensures ok <==> !v.Unsupported?
    ensures ok ==> f.content == old(f.content) + EncodePair(Pair(Qualify(arch, k), v))
    ensures !ok ==> f.content == old(f.content) + EncodeString(Qualify(arch, k))
  {
    hide EncodeValue, EncodeString;
    var key := k;
    if !(arch + Dot <= k) && !(GeneralNamespace <= k) && !(AdapterNamespace <= k) && !(TokenizerNamespace <= k) {
      key := arch + Dot + k;
    }
    assert key == Qualify(arch, k);
    WriteLengthAndBytes(f, key);
    if v.Unsupported? {
      return false;
    }
    WriteByType(f, v);
    return true;
  }

  /** The dimensions of a tensor info. */
  method WriteDims(f: File, dims: seq<nat>)
    modifies f
    ensures f.content == old(f.content) + EncodeInts(dims, 8)
  {
    ghost var start := f.content;
    for i := 0 to |dims|
      invariant f.content == start + EncodeInts(dims[..i], 8)
    {
      EncodeIntsSnoc(dims[..i], dims[i], 8);
      assert dims[..i + 1] == dims[..i] + [dims[i]];
      f.Write(LE(dims[i], 8));
    }
    assert dims[..|dims|] == dims;
  }

  lemma {:induction false} EncodeIntsSnoc(ns: seq<int>, n: int, w: nat)
    ensures EncodeInts(ns + [n], w) == EncodeInts(ns, w) + LE(n, w)
  {
    if ns == [] {
      assert [n][1..] == [];
    } else {
      EncodeIntsSnoc(ns[1..], n, w);
      assert (ns + [n])[1..] == ns[1..] + [n];
    }
  }

  method WriteTensorInfo(f: File, t: OutTensor)
    modifies f
    ensures f.content == old(f.content) + EncodeInfo(InfoOf(t))
  {
    WriteLengthAndBytes(f, t.name);
    f.Write(LE(|t.shape|, 4));
    WriteDims(f, t.shape);
    f.Write(LE(t.kind, 4));
    f.Write(LE(t.offset, 8));
  }

  lemma {:induction false} EncodePairsSnoc(ps: seq<Pair>, p: Pair)
    requires Supported(ps) && !p.value.Unsupported?
    ensures Supported(ps + [p]) && EncodePairs(ps + [p]) == EncodePairs(ps) + EncodePair(p)
  {
    if ps == [] {
      assert [p][1..] == [];
    } else {
      EncodePairsSnoc(ps[1..], p);
      assert (ps + [p])[1..] == ps[1..] + [p];
      Cat3(EncodePair(ps[0]), EncodePairs(ps[1..]), EncodePair(p));
    }
  }

  lemma EncodePairsStep(ps: seq<Pair>, i: nat)
    requires i < |ps| && Supported(ps[..i]) && !ps[i].value.Unsupported?
    ensures Supported(ps[..i + 1]) && EncodePairs(ps[..i + 1]) == EncodePairs(ps[..i]) + EncodePair(ps[i])
  {
    hide EncodePairs, EncodePair, Supported;
    EncodePairsSnoc(ps[..i], ps[i]);
    assert ps[..i + 1] == ps[..i] + [ps[i]];
  }

  lemma {:induction false} EncodeInfosSnoc(ts: seq<Info>, t: Info)
    ensures EncodeInfos(ts + [t]) == EncodeInfos(ts) + EncodeInfo(t)
  {
    hide EncodeInfo;
    if ts == [] {
      assert [t][1..] == [];
    } else {
      EncodeInfosSnoc(ts[1..], t);
      assert (ts + [t])[1..] == ts[1..] + [t];
      Cat3(EncodeInfo(ts[0]), EncodeInfos(ts[1..]), EncodeInfo(t));
    }
  }

  /** What writing key i adds to the metadata. */
  lemma MetadataStep(arch: bytes, keys: seq<bytes>, kv: map<bytes, Value>, ps: seq<Pair>, i: nat)
    requires forall k :: 0 <= k < |keys| ==> keys[k] in kv
    requires ps == Pairs(arch, keys, kv) && i < |keys| && Supported(ps[..i])
    ensures ps[i] == Pair(Qualify(arch, keys[i]), kv[keys[i]])
    ensures kv[keys[i]].Unsupported? ==> !Supported(ps)
    ensures !kv[keys[i]].Unsupported? ==>
      Supported(ps[..i + 1]) && EncodePairs(ps[..i + 1]) == EncodePairs(ps[..i]) + EncodePair(ps[i])
  {
    hide EncodePairs, EncodePair, Qualify;
    if !kv[keys[i]].Unsupported? { EncodePairsStep(ps, i); }
  }

  lemma MetadataEnds(ps: seq<Pair>)
    ensures Supported(ps[..0]) && EncodePairs(ps[..0]) == [] && ps[..|ps|] == ps
  {}

  /** The metadata loop: every pair in key order, up to the first unsupported value. */
  method WriteMetadata(f: File, arch: bytes, keys: seq<bytes>, kv: map<bytes, Value>) returns (ok: bool)
    requires forall i :: 0 <= i < |keys| ==> keys[i] in kv
    modifies f
    ensures ok <==> Supported(Pairs(arch, keys, kv))
    ensures ok ==> f.content == old(f.content) + EncodePairs(Pairs(arch, keys, kv))
  {
    hide EncodePair, EncodePairs, Qualify, EncodeString, Supported, Pairs;
    ghost var was, ps := f.content, Pairs(arch, keys, kv);
    MetadataEnds(ps);
    PairsCount(arch, keys, kv);
    for i := 0 to |keys|
      invariant Supported(ps[..i])
      invariant f.content == was + EncodePairs(ps[..i])
    {
      MetadataStep(arch, keys, kv, ps, i);
      ok := WriteKV(f, arch, keys[i], kv[keys[i]]);
      if !ok { return; }
    }
    return true;
  }

  lemma OffsetStep(ts: seq<OutTensor>, align: nat, i: nat, t: OutTensor)
    requires align > 0 && i < |ts| && t == ts[i].(offset := OffsetOf(ts, align, i))
    ensures var end := OffsetOf(ts, align, i) + ByteSize(t); OffsetOf(ts, align, i + 1) == end + Padding(end, align)
    ensures WithOffsets(ts, align)[i] == t
    ensures Infos(WithOffsets(ts, align))[i] == InfoOf(t)
  {
    hide Elements, Padding, InfoOf, BlockSize, TypeSize;
    assert ByteSize(t) == ByteSize(ts[i]);
  }

  lemma FirstOffset(ts: seq<OutTensor>, align: nat)
    requires align > 0
    ensures OffsetOf(ts, align, 0) == 0
  {}

  lemma NoInfos(infos: seq<Info>)
    ensures EncodeInfos(infos[..0]) == []
  {}

  /** The tensor-info loop: offsets assigned as the infos are written. */
  method WriteInfos(f: File, ts: array<OutTensor>, align: nat)
    requires align > 0
    modifies f, ts
    ensures ts[..] == WithOffsets(old(ts[..]), align)
    ensures f.content == old(f.content) + EncodeInfos(Infos(ts[..]))
  {
    hide EncodeInfo, EncodeInfos, ByteSize, OffsetOf, WithOffsets, Infos, InfoOf, Padding;
    ghost var was, sorted := f.content, ts[..];
    ghost var placed := WithOffsets(sorted, align);
    ghost var infos := Infos(placed);
    var s := 0;
    FirstOffset(sorted, align);
    NoInfos(infos);
    for i := 0 to ts.Length
      invariant s == OffsetOf(sorted, align, i)
      invariant forall k :: 0 <= k < i ==> ts[k] == placed[k]
      invariant forall k :: i <= k < ts.Length ==> ts[k] == sorted[k]
      invariant f.content == was + EncodeInfos(infos[..i])
    {
      ts[i] := ts[i].(offset := s);
      OffsetStep(sorted, align, i, ts[i]);
      WriteTensorInfo(f, ts[i]);
      EncodeInfosSnoc(infos[..i], infos[i]);
      assert infos[..i + 1] == infos[..i] + [infos[i]];
      s := s + ByteSize(ts[i]);
      s := s + Padding(s, align);
    }
    assert ts[..] == placed;
    assert infos[..ts.Length] == infos;
  }

  /** The tensor's payload is at its offset after base. */
  ghost predicate PayloadAt(content: bytes, base: nat, t: OutTensor) {
    t.payload == [] ||
    (base + t.offset + |t.payload| <= |content|
     && content[base + t.offset..base + t.offset + |t.payload|] == t.payload)
  }

  ghost predicate PayloadsAt(content: bytes, base: nat, ts: seq<OutTensor>) {
    forall i :: 0 <= i < |ts| ==> PayloadAt(content, base, ts[i])
  }

  /** Payloads no larger than their declared sizes, at offsets the writer assigned. */
  predicate Placed(ts: seq<OutTensor>, align: nat)
    requires align > 0
  {
    forall i :: 0 <= i < |ts| ==> |ts[i].payload| <= ByteSize(ts[i]) && ts[i].offset == OffsetOf(ts, align, i)
  }

  lemma PayloadKept(content: bytes, base: nat, ts: seq<OutTensor>, align: nat, i: nat, k: nat)
    requires align > 0 && Placed(ts, align) && k < i < |ts|
    requires PayloadAt(content, base, ts[k])
    ensures PayloadAt(Overwrite(content, base + ts[i].offset, ts[i].payload), base, ts[k])
  {
    hide ByteSize, OffsetOf, Overwrite;
    if ts[k].payload != [] {
      RegionsDisjoint(ts, align, k, i);
      var lo := base + ts[k].offset;
      OverwriteReads(content, base + ts[i].offset, ts[i].payload, lo, lo + |ts[k].payload|);
    }
  }

  lemma PayloadWritten(content: bytes, base: nat, t: OutTensor)
    ensures PayloadAt(Overwrite(content, base + t.offset, t.payload), base, t)
  {
    hide Overwrite;
    OverwriteReads(content, base + t.offset, t.payload, 0, 0);
  }

  /** One more payload in place. */
  lemma PayloadStep(content: bytes, base: nat, ts: seq<OutTensor>, align: nat, i: nat, after: bytes)
    requires align > 0 && Placed(ts, align) && i < |ts|
    requires PayloadsAt(content, base, ts[..i])
    requires after == Overwrite(content, base + ts[i].offset, ts[i].payload)
    ensures PayloadsAt(after, base, ts[..i + 1])
  {
    hide PayloadAt, Overwrite, Placed;
    PayloadWritten(content, base, ts[i]);
    forall k | 0 <= k < i ensures PayloadAt(after, base, ts[k]) {
      assert PayloadAt(content, base, ts[..i][k]);
      PayloadKept(content, base, ts, align, i, k);
    }
  }

  /** The data loop: each payload at its own offset. */
  method WriteData(f: File, ts: array<OutTensor>, base: nat, align: nat, ghost header: bytes)
    requires align > 0 && header <= f.content && |f.content| <= base
    modifies f
    ensures header <= f.content
    ensures Placed(ts[..], align) ==> PayloadsAt(f.content, base, ts[..])
  {
    hide Overwrite, Placed, PayloadAt;
    ghost var all := ts[..];
    for i := 0 to ts.Length
      invariant header <= f.content
      invariant Placed(all, align) ==> PayloadsAt(f.content, base, all[..i])
    {
      ghost var was := f.content;
      f.WriteAt(base + ts[i].offset, ts[i].payload);
      OverwriteReads(was, base + ts[i].offset, ts[i].payload, 0, |header|);
      assert header == was[0..|header|] == f.content[0..|header|];
      if Placed(all, align) {
        PayloadStep(was, base, all, align, i, f.content);
      }
    }
    assert all[..ts.Length] == all;
  }

  lemma PairsCount(arch: bytes, keys: seq<bytes>, kv: map<bytes, Value>)
    requires forall i :: 0 <= i < |keys| ==> keys[i] in kv
    ensures |Pairs(arch, keys, kv)| == |keys|
  {}

  lemma InfosCount(ts: seq<OutTensor>)
    ensures |Infos(ts)| == |ts|
  {}

  lemma HeaderParts(start: bytes, ps: seq<Pair>, infos: seq<Info>, header: bytes)
    requires Supported(ps)
    requires start == [] + Magic + LE(3, 4) + LE(|infos|, 8) + LE(|ps|, 8)
    requires header == start + EncodePairs(ps) + EncodeInfos(infos)
    ensures header == EncodeHeader(ps, infos)
  {
    hide EncodePairs, EncodeInfos, LE;
    assert [] + Magic == Magic;
  }

  /** Magic, version and the two counts. */
  method WriteCounts(f: File, tensors: nat, pairs: nat)
    modifies f
    ensures f.content == old(f.content) + Magic + LE(3, 4) + LE(tensors, 8) + LE(pairs, 8)
  {
    hide LE;
    f.Write(Magic);
    f.Write(LE(3, 4));
    f.Write(LE(tensors, 8));
    f.Write(LE(pairs, 8));
  }

  lemma SizeKept(t: OutTensor, o: nat)
    ensures ByteSize(t.(offset := o)) == ByteSize(t)
  {}

  lemma NextOffset(ts: seq<OutTensor>, align: nat, i: nat)
    requires align > 0 && i < |ts|
    ensures var end := OffsetOf(ts, align, i) + ByteSize(ts[i]); OffsetOf(ts, align, i + 1) == end + Padding(end, align)
  {
    hide ByteSize, Padding;
  }

  lemma {:induction false} OffsetsKept(ts: seq<OutTensor>, align: nat, i: nat)
    requires align > 0 && i <= |ts|
    ensures OffsetOf(WithOffsets(ts, align), align, i) == OffsetOf(ts, align, i)
  {
    hide Padding, ByteSize, OffsetOf;
    var placed := WithOffsets(ts, align);
    if i == 0 {
      FirstOffset(ts, align);
      FirstOffset(placed, align);
    } else {
      OffsetsKept(ts, align, i - 1);
      SizeKept(ts[i - 1], OffsetOf(ts, align, i - 1));
      NextOffset(ts, align, i - 1);
      NextOffset(placed, align, i - 1);
    }
  }

  /** Writing the infos places the tensors, as long as no payload outgrows its declared size. */
  lemma OffsetsPlace(ts: seq<OutTensor>, align: nat)
    requires align > 0
    ensures Placed(WithOffsets(ts, align), align) <==> forall i :: 0 <= i < |ts| ==> |ts[i].payload| <= ByteSize(ts[i])
  {
    hide Padding, OffsetOf, ByteSize;
    var placed := WithOffsets(ts, align);
    forall i | 0 <= i < |ts|
      ensures placed[i].offset == OffsetOf(placed, align, i) && ByteSize(placed[i]) == ByteSize(ts[i])
      ensures placed[i].payload == ts[i].payload
    {
      OffsetsKept(ts, align, i);
      SizeKept(ts[i], OffsetOf(ts, align, i));
    }
  }

  datatype WriteResult = Written | NoArchitecture | ImproperType

  method WriteGGUF(f: File, kv: map<bytes, Value>, ts: array<OutTensor>, block: bytes -> int)
    returns (r: WriteResult, ghost keys: seq<bytes>)
    requires f.content == [] && Alignment(kv) > 0
    modifies f, ts
    ensures r == NoArchitecture <==> Architecture(kv) == []
    ensures Increasing(keys) && forall k :: k in keys <==> k in kv
    ensures r == Written <==> Architecture(kv) != [] && Supported(Pairs(Architecture(kv), keys, kv))
    ensures r == Written ==> ts[..] == WithOffsets(SortedTensors(old(ts[..]), block), Alignment(kv))
    ensures r == Written ==>
      var header := EncodeHeader(Pairs(Architecture(kv), keys, kv), Infos(ts[..]));
      var base := |header| + Padding(|header|, Alignment(kv));
      && header <= f.content
      && (Placed(ts[..], Alignment(kv)) ==> PayloadsAt(f.content, base, ts[..]))
  {
    hide EncodeHeader, EncodeInfos, EncodePairs, Pairs, Infos, WithOffsets, SortedTensors, Supported, Placed,
      PayloadsAt, LE, Alignment, Padding, Architecture, Increasing;
    var sorted := SortedKeys(kv.Keys);
    keys := sorted;
    var arch := Architecture(kv);
    if arch == [] {
      return NoArchitecture, keys;
    }
    WriteCounts(f, ts.Length, |kv|);
    ghost var start := f.content;
    var ok := WriteMetadata(f, arch, sorted, kv);
    if !ok {
      return ImproperType, keys;
    }
    SortTensors(ts, block);
    var alignment := Alignment(kv);
    WriteInfos(f, ts, alignment);
    ghost var header := f.content;
    assert |kv.Keys| == |kv|;
    PairsCount(arch, keys, kv);
    InfosCount(ts[..]);
    HeaderParts(start, Pairs(arch, keys, kv), Infos(ts[..]), header);
    var offset := |f.content|;
    offset := offset + Padding(offset, alignment);
    WriteData(f, ts, offset, alignment, header);
    return Written, keys;
  }

  // ----- what a reader finds

  /** A written file parses, by the specification, to the qualified metadata and the sorted infos;
      what follows is the data. */
  lemma WrittenParses(content: bytes, arch: bytes, keys: seq<bytes>, kv: map<bytes, Value>, infos: seq<Info>)
    requires forall i :: 0 <= i < |keys| ==> keys[i] in kv
    requires Short(keys) && Short(infos) && forall i :: 0 <= i < |infos| ==> RepresentableInfo(infos[i])
    requires forall i :: 0 <= i < |keys| ==> RepresentablePair(Pair(Qualify(arch, keys[i]), kv[keys[i]]))
    requires Supported(Pairs(arch, keys, kv)) && EncodeHeader(Pairs(arch, keys, kv), infos) <= content
    ensures
      var ps := Pairs(arch, keys, kv);
      && (forall i :: 0 <= i < |ps| ==> RepresentablePair(ps[i]))
      && ParseHeader(content) == Done(Header(Meanings(ps), infos), content[|EncodeHeader(ps, infos)|..])
    ensures KeysFound(ParseHeader(content).value.metadata, arch, keys, kv)
  {
    hide EncodeHeader, ParseHeader, RepresentablePair, RepresentableInfo, Meanings, Qualify, FoundAs, Meaning,
      Representable;
    var ps := Pairs(arch, keys, kv);
    forall i | 0 <= i < |ps| ensures RepresentablePair(ps[i]) {
      assert ps[i] == Pair(Qualify(arch, keys[i]), kv[keys[i]]);
    }
    forall i | 0 <= i < |keys| ensures KeyFound(Meanings(ps)[i], arch, keys[i], kv[keys[i]]) {
      assert ps[i] == Pair(Qualify(arch, keys[i]), kv[keys[i]]);
      QualifiedName(arch, keys[i]);
      PairFound(ps[i], arch, keys[i]);
    }
    var header := EncodeHeader(ps, infos);
    HeaderRoundTrip(ps, infos, content[|header|..]);
    assert header + content[|header|..] == content;
  }

  /** A key and its value as a reader finds them. */
  predicate KeyFound(found: (bytes, Gguf), arch: bytes, k: bytes, v: Value) {
    FoundAs(arch, k, found.0) && Representable(v) && found.1 == Meaning(v)
  }

  /** A reader finds every key in order, under the name it is to be found under, with the meaning of its value. */
  predicate KeysFound(metadata: seq<(bytes, Gguf)>, arch: bytes, keys: seq<bytes>, kv: map<bytes, Value>)
    requires forall i :: 0 <= i < |keys| ==> keys[i] in kv
  {
    |metadata| == |keys| && forall i :: 0 <= i < |keys| ==> KeyFound(metadata[i], arch, keys[i], kv[keys[i]])
  }

  lemma PairFound(p: Pair, arch: bytes, k: bytes)
    requires RepresentablePair(p) && FoundAs(arch, k, p.key)
    ensures KeyFound(PairMeaning(p), arch, k, p.value)
  {
    hide FoundAs, Meaning, Representable;
  }

  /** A reader finds every tensor in order, with its name, dimensions, type and offset. */
  predicate InfosFound(infos: seq<Info>, ts: seq<OutTensor>) {
    |infos| == |ts| && forall i :: 0 <= i < |ts| ==>
      && infos[i].name == ts[i].name && infos[i].dims == ts[i].shape && infos[i].kind == ts[i].kind
      && infos[i].offset == ts[i].offset
  }

  /** Keys that belong to the architecture but do not say so. */
  predicate Foreign(arch: bytes, k: bytes) { !Shared(k) && !(arch + Ascii(".") <= k) }

  /** Two keys are written alike exactly when one is the other with the architecture's prefix. */
  lemma QualifyCollides(arch: bytes, a: bytes, b: bytes)
    requires a != b
    ensures Qualify(arch, a) == Qualify(arch, b) <==>
      (Foreign(arch, b) && a == arch + Ascii(".") + b) || (Foreign(arch, a) && b == arch + Ascii(".") + a)
  {
    QualifiedName(arch, a);
    QualifiedName(arch, b);
    hide Qualify, Shared, Ascii;
    var prefix := arch + Ascii(".");
    assert prefix <= prefix + a && prefix <= prefix + b;
    assert (prefix + a)[|prefix|..] == a && (prefix + b)[|prefix|..] == b;
  }
}
