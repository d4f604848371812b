/** compatmigrate/source_tensor.go, encodeFloatTensor: float payloads fill exactly the space the writer
    sets aside. Values are of any type, with their 32- and 16-bit patterns given. */
module FloatPayload {
  import opened RowMajor
  import opened GgufFormat
  import opened GgufWriter

  datatype Encoded = Encoded(b: bytes) | UnsupportedKind

  /** The bit pattern of a value, and its width in bytes. */
  datatype Bits<!T> = Bits(single: T -> uint32, half: T -> uint32, brain: T -> uint32)

  function Patterns<T>(data: seq<T>, bits: T -> uint32): (r: seq<int>)
    ensures |r| == |data| && forall i :: 0 <= i < |data| ==> r[i] == bits(data[i])
  {
    seq(|data|, i requires 0 <= i < |data| => bits(data[i]))
  }

  /** Each value's pattern, little endian, at its own place in the buffer. */
  method FillBuffer<T>(data: seq<T>, bits: T -> uint32, w: nat) returns (buf: array<byte>)
    requires w > 0
    ensures fresh(buf) && buf[..] == EncodeInts(Patterns(data, bits), w)
  {
    hide LE, EncodeInts;
    ghost var ns := Patterns(data, bits);
    MulNonNegative(w, |data|);
    buf := new byte[w * |data|](_ => 0);
    Prefix(ns, w, 0);
    for i := 0 to |data|
      invariant 0 <= w * i <= buf.Length && buf[..w * i] == EncodeInts(ns[..i], w)
    {
      Place(w, i, |data|);
      Put(buf, w * i, LE(bits(data[i]), w));
      Prefix(ns, w, i);
    }
    assert ns[..|data|] == ns && buf[..buf.Length] == buf[..];
  }

  lemma Place(w: nat, i: nat, n: nat)
    requires i < n
    ensures 0 <= w * i <= w * (i + 1) <= w * n && w * (i + 1) == w * i + w
  {
    MulMonotone(i, n, w);
    MulMonotone(i + 1, n, w);
  }

  lemma Prefix(ns: seq<int>, w: nat, i: nat)
    requires i <= |ns|
    ensures EncodeInts(ns[..0], w) == []
    ensures i < |ns| ==> EncodeInts(ns[..i + 1], w) == EncodeInts(ns[..i], w) + LE(ns[i], w)
  {
    if i < |ns| {
      assert ns[..i + 1] == ns[..i] + [ns[i]];
      EncodeIntsSnoc(ns[..i], ns[i], w);
    }
  }

  method Put(buf: array<byte>, at: nat, b: bytes)
    requires at + |b| <= buf.Length
    modifies buf
    ensures buf[..at + |b|] == old(buf[..at]) + b
  {
    for k := 0 to |b|
      invariant forall j :: 0 <= j < at ==> buf[j] == old(buf[j])
      invariant forall j :: 0 <= j < k ==> buf[at + j] == b[j]
    {
      buf[at + k] := b[k];
    }
  }

  /** The types encodeFloatTensor writes: F32, F16 and BF16. */
  predicate FloatKind(kind: nat) { kind == 0 || kind == 1 || kind == 30 }

  function Width(kind: nat): (w: nat)
    ensures w > 0
  {
    if kind == 0 then 4 else 2
  }

  function BitsFor<T>(kind: nat, bits: Bits<T>): T -> uint32 {
    if kind == 0 then bits.single else if kind == 1 then bits.half else bits.brain
  }

  /** The bytes of float data. */
  function EncodedFloats<T>(kind: nat, data: seq<T>, bits: Bits<T>): bytes
    requires FloatKind(kind)
  {
    EncodeInts(Patterns(data, BitsFor(kind, bits)), Width(kind))
  }

  method EncodeFloatTensor<T>(kind: nat, data: seq<T>, bits: Bits<T>) returns (r: Encoded)
    ensures r.Encoded? <==> FloatKind(kind)
    ensures r.Encoded? ==> r.b == EncodedFloats(kind, data, bits)
  {
    hide EncodeInts, Patterns;
    if kind == 0 {
      var buf := FillBuffer(data, bits.single, 4);
      r := Encoded(buf[..]);
    } else if kind == 1 {
      var buf := FillBuffer(data, bits.half, 2);
      r := Encoded(buf[..]);
    } else if kind == 30 {
      var buf := FillBuffer(data, bits.brain, 2);
      r := Encoded(buf[..]);
    } else {
      r := UnsupportedKind;
    }
  }

  lemma {:induction false} EncodedLength(ns: seq<int>, w: nat)
    ensures |EncodeInts(ns, w)| == |ns| * w
  {
    if ns != [] {
      EncodedLength(ns[1..], w);
      MulDistributes(1, |ns| - 1, w);
    }
  }

  lemma EncodedFloatsLength<T>(kind: nat, data: seq<T>, bits: Bits<T>)
    requires FloatKind(kind)
    ensures |EncodedFloats(kind, data, bits)| == |data| * Width(kind)
  {
    EncodedLength(Patterns(data, BitsFor(kind, bits)), Width(kind));
  }

  lemma EncodeHead(ns: seq<int>, w: nat)
    ensures EncodeInts([], w) == []
    ensures ns != [] ==> EncodeInts(ns, w) == LE(ns[0], w) + EncodeInts(ns[1..], w)
  {}

  lemma {:induction false} EncodeIntsConcat(a: seq<int>, b: seq<int>, w: nat)
    ensures EncodeInts(a + b, w) == EncodeInts(a, w) + EncodeInts(b, w)
  {
    hide LE, EncodeInts;
    EncodeHead(a, w);
    if a == [] {
      assert a + b == b;
    } else {
      EncodeIntsConcat(a[1..], b, w);
      EncodeHead(a + b, w);
      assert (a + b)[1..] == a[1..] + b;
      Regroup(LE(a[0], w), EncodeInts(a[1..], w), EncodeInts(b, w));
    }
  }

  lemma Regroup(a: bytes, b: bytes, c: bytes)
    ensures a + (b + c) == (a + b) + c
  {}

  /** Encoding part by part is encoding the whole. */
  lemma EncodedFloatsConcat<T>(kind: nat, a: seq<T>, b: seq<T>, bits: Bits<T>)
    requires FloatKind(kind)
    ensures EncodedFloats(kind, a + b, bits) == EncodedFloats(kind, a, bits) + EncodedFloats(kind, b, bits)
    ensures EncodedFloats(kind, [], bits) == []
  {
    hide EncodeInts;
    var f := BitsFor(kind, bits);
    assert Patterns(a + b, f) == Patterns(a, f) + Patterns(b, f);
    EncodeIntsConcat(Patterns(a, f), Patterns(b, f), Width(kind));
    assert Patterns([], f) == [];
    EncodeHead([], Width(kind));
  }

  /** Value i's pattern, little endian, is at its own place. */
  lemma EncodedAt<T>(kind: nat, data: seq<T>, bits: Bits<T>, i: nat)
    requires FloatKind(kind) && i < |data|
    ensures var w := Width(kind);
      && 0 <= i * w <= i * w + w <= |EncodedFloats(kind, data, bits)|
      && EncodedFloats(kind, data, bits)[i * w..i * w + w] == LE(BitsFor(kind, bits)(data[i]), w)
  {
    hide EncodedFloats, LE;
    var w := Width(kind);
    var before, one, after := EncodedFloats(kind, data[..i], bits), EncodedFloats(kind, [data[i]], bits),
      EncodedFloats(kind, data[i + 1..], bits);
    assert data == data[..i] + ([data[i]] + data[i + 1..]);
    EncodedFloatsConcat(kind, data[..i], [data[i]] + data[i + 1..], bits);
    EncodedFloatsConcat(kind, [data[i]], data[i + 1..], bits);
    EncodedFloatsLength(kind, data[..i], bits);
    EncodedOne(kind, data[i], bits);
    Middle(before, one, after);
  }

  lemma EncodedOne<T>(kind: nat, x: T, bits: Bits<T>)
    requires FloatKind(kind)
    ensures EncodedFloats(kind, [x], bits) == LE(BitsFor(kind, bits)(x), Width(kind))
  {
    hide LE;
    var ns := Patterns([x], BitsFor(kind, bits));
    assert ns == [BitsFor(kind, bits)(x)] && ns[1..] == [];
    EncodeHead(ns, Width(kind));
    EncodeHead([], Width(kind));
  }

  lemma Middle(a: bytes, b: bytes, c: bytes)
    ensures (a + (b + c))[|a|..|a| + |b|] == b
  {}

  /** A float tensor fills its region exactly if it has as many values as its declared shape. */
  lemma FloatsFillRegion<T>(t: OutTensor, data: seq<T>, bits: Bits<T>)
    requires FloatKind(t.kind)
    ensures |EncodedFloats(t.kind, data, bits)| == ByteSize(t) <==> |data| == Size(t.shape)
  {
    EncodedFloatsLength(t.kind, data, bits);
    SizeNonNegative(t.shape);
    if |data| * Width(t.kind) == Size(t.shape) * Width(t.kind) { SameFactor(|data|, Size(t.shape), Width(t.kind)); }
  }

  lemma SameFactor(a: int, b: int, c: int)
    requires c > 0 && a * c == b * c
    ensures a == b
  {
    if a < b { MulMonotone(a + 1, b, c); MulDistributes(a, 1, c); }
    if b < a { MulMonotone(b + 1, a, c); MulDistributes(b, 1, c); }
  }
}
