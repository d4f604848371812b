/** compatmigrate/writer.go, writeGGUF, given the migrators' output tensors: the file their writers fill. */
module MigratedFile {
  import opened GgufFormat
  import opened GgufRoundTrip
  import opened StableSort
  import opened FloatPayload
  import opened GgufWriter
  import S = SourceTensors
  import opened FilledRegions

  type Float = S.Float

  ghost predicate AllSucceed(outs: seq<S.Out>) {
    forall i :: 0 <= i < |outs| ==> S.Succeeds(outs[i].writer)
  }

  /** The output tensors with what they write. */
  ghost function Prepared(outs: seq<S.Out>, bits: Bits<Float>): (ts: seq<OutTensor>)
    requires AllSucceed(outs)
    ensures |ts| == |outs| && forall i :: 0 <= i < |ts| ==> ts[i] == AsTensor(outs[i], S.Written(outs[i].writer, bits))
  {
    seq(|outs|, i requires 0 <= i < |outs| => AsTensor(outs[i], S.Written(outs[i].writer, bits)))
  }

  /** Every payload is as long as its declared type and shape say. */
  ghost predicate Exact(ts: seq<OutTensor>) {
    forall i :: 0 <= i < |ts| ==> |ts[i].payload| == ByteSize(ts[i])
  }

  lemma FillingIsExact(outs: seq<S.Out>, bits: Bits<Float>)
    requires AllSucceed(outs) && forall i :: 0 <= i < |outs| ==> FillsRegion(outs[i], bits)
    ensures Exact(Prepared(outs, bits))
  {
    hide S.Succeeds, S.Written;
    forall i | 0 <= i < |outs| ensures |Prepared(outs, bits)[i].payload| == ByteSize(Prepared(outs, bits)[i]) {
      assert FillsRegion(outs[i], bits);
    }
  }

  lemma {:induction false} SortedFrom(ts: seq<OutTensor>, block: bytes -> int, i: nat) returns (k: nat)
    requires i < |ts|
    ensures k < |ts| && SortedTensors(ts, block)[i] == ts[k]
  {
    var items := Items(ts, block);
    SortSorts(items);
    var x := Sort(items)[i];
    assert x in multiset(Sort(items));
    k :| 0 <= k < |items| && items[k] == x;
  }

  lemma SortedExact(ts: seq<OutTensor>, block: bytes -> int)
    requires Exact(ts)
    ensures Exact(SortedTensors(ts, block))
  {
    hide SortedTensors, ByteSize;
    forall i | 0 <= i < |ts| ensures |SortedTensors(ts, block)[i].payload| == ByteSize(SortedTensors(ts, block)[i]) {
      var k := SortedFrom(ts, block, i);
    }
  }

  lemma PlacedExact(ts: seq<OutTensor>, align: nat)
    requires align > 0 && Exact(ts)
    ensures Exact(WithOffsets(ts, align)) && Placed(WithOffsets(ts, align), align)
  {
    hide OffsetOf, ByteSize;
    OffsetsPlace(ts, align);
    forall i | 0 <= i < |ts| ensures |WithOffsets(ts, align)[i].payload| == ByteSize(WithOffsets(ts, align)[i]) {
      SizeKept(ts[i], OffsetOf(ts, align, i));
    }
  }

  /** The payload of every tensor fills its aligned region, and regions lie in order without overlap. */
  ghost predicate RegionsFilled(content: bytes, base: nat, ts: seq<OutTensor>, align: nat)
    requires align > 0
  {
    && PayloadsAt(content, base, ts) && Exact(ts)
    && (forall i :: 0 <= i < |ts| ==> ts[i].offset % align == 0)
    && (forall i, j :: 0 <= i < j < |ts| ==> ts[i].offset + |ts[i].payload| <= ts[j].offset)
    && (forall i :: 0 <= i < |ts| - 1 ==> ts[i + 1].offset < ts[i].offset + |ts[i].payload| + align)
  }

  lemma PlacedFilled(content: bytes, base: nat, ts: seq<OutTensor>, align: nat)
    requires align > 0 && Placed(ts, align) && Exact(ts) && PayloadsAt(content, base, ts)
    ensures RegionsFilled(content, base, ts, align)
  {
    hide OffsetOf, ByteSize, PayloadsAt;
    forall i, j | 0 <= i < j < |ts|
      ensures ts[i].offset % align == 0 && ts[i].offset + |ts[i].payload| <= ts[j].offset
      ensures j == i + 1 ==> ts[j].offset < ts[i].offset + |ts[i].payload| + align
    {
      RegionsDisjoint(ts, align, i, j);
    }
    forall i | 0 <= i < |ts| ensures ts[i].offset % align == 0 { OffsetAligned(ts, align, i); }
  }

  lemma OffsetAligned(ts: seq<OutTensor>, align: nat, i: nat)
    requires align > 0 && i <= |ts|
    ensures OffsetOf(ts, align, i) % align == 0
  {}

  // ----- what a reader finds

  /** A reader of the file finds the qualified metadata and the sorted infos, and then the data. */
  ghost predicate Readable(content: bytes, arch: bytes, keys: seq<bytes>, kv: map<bytes, Value>, ts: seq<OutTensor>)
    requires forall i :: 0 <= i < |keys| ==> keys[i] in kv
  {
    var ps := Pairs(arch, keys, kv);
    && Supported(ps) && EncodeHeader(ps, Infos(ts)) <= content
      && (forall i :: 0 <= i < |ps| ==> RepresentablePair(ps[i]))
    && ParseHeader(content) == Done(Header(Meanings(ps), Infos(ts)), content[|EncodeHeader(ps, Infos(ts))|..])
    && KeysFound(ParseHeader(content).value.metadata, arch, keys, kv)
    && InfosFound(ParseHeader(content).value.infos, ts)
  }

  /** The metadata and the sorted infos fit the format's lengths and integers. */
  predicate FitsFormat(arch: bytes, keys: seq<bytes>, kv: map<bytes, Value>, ts: seq<OutTensor>)
    requires forall i :: 0 <= i < |keys| ==> keys[i] in kv
  {
    && Short(keys) && Short(ts)
    && (forall i :: 0 <= i < |keys| ==> RepresentablePair(Pair(Qualify(arch, keys[i]), kv[keys[i]])))
    && forall i :: 0 <= i < |ts| ==> RepresentableInfo(InfoOf(ts[i]))
  }

  lemma InfosAsTensors(ts: seq<OutTensor>)
    ensures InfosFound(Infos(ts), ts)
  {}

  lemma HeaderReads(content: bytes, arch: bytes, keys: seq<bytes>, kv: map<bytes, Value>, ts: seq<OutTensor>)
    requires forall i :: 0 <= i < |keys| ==> keys[i] in kv
    requires FitsFormat(arch, keys, kv, ts)
    requires Supported(Pairs(arch, keys, kv)) && EncodeHeader(Pairs(arch, keys, kv), Infos(ts)) <= content
    ensures Readable(content, arch, keys, kv, ts)
  {
    InfosAsTensors(ts);
    hide EncodeHeader, ParseHeader, RepresentablePair, RepresentableInfo, Meanings, Qualify, InfoOf, KeysFound,
      InfosFound;
    WrittenParses(content, arch, keys, kv, Infos(ts));
  }

  datatype FileResult = FileWritten | FileRefused(why: WriteResult) | WriterFailed

  /** The payloads of all outputs; a failing writer leaves an empty one and is remembered. */
  method RunWriters(outs: seq<S.Out>, bits: Bits<Float>) returns (ok: bool, ts: seq<OutTensor>)
    ensures ok <==> AllSucceed(outs)
    ensures ok ==> ts == Prepared(outs, bits)
  {
    hide S.Succeeds, S.Written;
    ok, ts := true, [];
    for i := 0 to |outs|
      invariant ok <==> AllSucceed(outs[..i])
      invariant ok ==> |ts| == i && forall k :: 0 <= k < i ==>
        ts[k] == AsTensor(outs[k], S.Written(outs[k].writer, bits))
    {
      var p := S.WriteTo(outs[i].writer, bits);
      assert outs[..i + 1] == outs[..i] + [outs[i]];
      assert AllSucceed(outs[..i + 1]) <==> AllSucceed(outs[..i]) && S.Succeeds(outs[i].writer);
      ok := ok && p.Done?;
      ts := ts + [AsTensor(outs[i], if p.Done? then p.value else [])];
    }
    assert outs[..|outs|] == outs;
  }

  /** writeGGUF over output tensors: it succeeds exactly with an architecture, supported metadata and writers that all
      write; then the header describes the sorted tensors, and a reader finds it if it fits the format, and if every
      output fills its region, the file is the header and aligned regions filled to the byte. */
  method WriteMigrated(f: File, kv: map<bytes, Value>, outs: seq<S.Out>, bits: Bits<Float>, block: bytes -> int)
    returns (r: FileResult, ghost keys: seq<bytes>, ghost ts: seq<OutTensor>)
    requires f.content == [] && Alignment(kv) > 0
    modifies f
    ensures Increasing(keys) && forall k :: k in keys <==> k in kv
    ensures r == FileWritten <==>
      Architecture(kv) != [] && Supported(Pairs(Architecture(kv), keys, kv)) && AllSucceed(outs)
    ensures r == FileWritten ==> ts == WithOffsets(SortedTensors(Prepared(outs, bits), block), Alignment(kv))
    ensures SettingsOf(kv, Architecture(kv), Alignment(kv)) && (r == FileWritten ==> InLayerOrder(ts, block))
    ensures r == FileWritten ==>
      var header := EncodeHeader(Pairs(Architecture(kv), keys, kv), Infos(ts));
      && header <= f.content
      && (FitsFormat(Architecture(kv), keys, kv, ts) ==> Readable(f.content, Architecture(kv), keys, kv, ts))
      && ((forall i :: 0 <= i < |outs| ==> FillsRegion(outs[i], bits)) ==>
            RegionsFilled(f.content, |header| + Padding(|header|, Alignment(kv)), ts, Alignment(kv)))
  {
    hide EncodeHeader, Pairs, Infos, WithOffsets, SortedTensors, Supported, Placed, PayloadsAt, Alignment, Padding,
      Architecture, Increasing, Exact, RegionsFilled, FillsRegion, AllSucceed, Prepared, OffsetOf, FitsFormat, Readable,
      SettingsOf, InLayerOrder;
    SettingsRead(kv);
    var ok, payloads := RunWriters(outs, bits);
    var a := new OutTensor[|payloads|](i requires 0 <= i < |payloads| => payloads[i]);
    assert a[..] == payloads;
    var written;
    written, keys := WriteGGUF(f, kv, a, block);
    ts := a[..];
    if written != GgufWriter.Written {
      return FileRefused(written), keys, ts;
    }
    if !ok {
      return WriterFailed, keys, ts;
    }
    OffsetsKeepOrder(payloads, block, Alignment(kv));
    if FitsFormat(Architecture(kv), keys, kv, ts) { HeaderReads(f.content, Architecture(kv), keys, kv, ts); }
    if forall i :: 0 <= i < |outs| ==> FillsRegion(outs[i], bits) {
      FillingIsExact(outs, bits);
      SortedExact(payloads, block);
      PlacedExact(SortedTensors(payloads, block), Alignment(kv));
      ghost var header := |EncodeHeader(Pairs(Architecture(kv), keys, kv), Infos(ts))|;
      PlacedFilled(f.content, header + Padding(header, Alignment(kv)), ts, Alignment(kv));
    }
    return FileWritten, keys, ts;
  }
}
