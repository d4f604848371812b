/** Parsing what the writer encodes gives back the metadata and the tensor infos. */
module GgufRoundTrip {
  import opened GgufFormat

  // ----- what a value means to a reader

  function Ints(w: nat, ns: seq<int>): (r: seq<Gguf>)
    ensures |r| == |ns| && forall i :: 0 <= i < |ns| ==> r[i] == GInt(w, ns[i])
  {
    seq(|ns|, i requires 0 <= i < |ns| => GInt(w, ns[i]))
  }

  function Uints(w: nat, ns: seq<nat>): (r: seq<Gguf>)
    ensures |r| == |ns| && forall i :: 0 <= i < |ns| ==> r[i] == GUint(w, ns[i])
  {
    seq(|ns|, i requires 0 <= i < |ns| => GUint(w, ns[i]))
  }

  function Floats(w: nat, ns: seq<nat>): (r: seq<Gguf>)
    ensures |r| == |ns| && forall i :: 0 <= i < |ns| ==> r[i] == GFloat(w, ns[i])
  {
    seq(|ns|, i requires 0 <= i < |ns| => GFloat(w, ns[i]))
  }

  function Texts(ss: seq<bytes>): (r: seq<Gguf>)
    ensures |r| == |ss| && forall i :: 0 <= i < |ss| ==> r[i] == GString(ss[i])
  {
    seq(|ss|, i requires 0 <= i < |ss| => GString(ss[i]))
  }

  function Truths(bs: seq<bool>): (r: seq<Gguf>)
    ensures |r| == |bs| && forall i :: 0 <= i < |bs| ==> r[i] == GBool(bs[i])
  {
    seq(|bs|, i requires 0 <= i < |bs| => GBool(bs[i]))
  }

  function Meaning(v: Value): Gguf
    requires !v.Unsupported?
  {
    match v
    case Int32(n) => GInt(4, n)
    case Int64(n) => GInt(8, n)
    case Uint32(n) => GUint(4, n)
    case Uint64(n) => GUint(8, n)
    case Float32(n) => GFloat(4, n)
    case Float64(n) => GFloat(8, n)
    case Bool(b) => GBool(b)
    case Str(s) => GString(s)
    case Int8s(ns) => GArray(1, Ints(1, ns))
    case Uint8s(ns) => GArray(0, Uints(1, ns))
    case Int32s(ns) => GArray(5, Ints(4, ns))
    case Int64s(ns) => GArray(11, Ints(8, ns))
    case Uint32s(ns) => GArray(4, Uints(4, ns))
    case Uint64s(ns) => GArray(10, Uints(8, ns))
    case Float32s(ns) => GArray(6, Floats(4, ns))
    case Strs(ss) => GArray(8, Texts(ss))
    case Bools(bs) => GArray(7, Truths(bs))
  }

  /** Supported, with every length a 64-bit number, as any value in memory is. */
  predicate Representable(v: Value) {
    !v.Unsupported? &&
    match v
    case Str(s) => Short(s)
    case Int8s(ns) => Short(ns)
    case Uint8s(ns) => Short(ns)
    case Int32s(ns) => Short(ns)
    case Int64s(ns) => Short(ns)
    case Uint32s(ns) => Short(ns)
    case Uint64s(ns) => Short(ns)
    case Float32s(ns) => Short(ns)
    case Strs(ss) => Short(ss) && forall i :: 0 <= i < |ss| ==> Short(ss[i])
    case Bools(bs) => Short(bs)
    case _ => true
  }

  predicate Short<T>(s: seq<T>) { |s| < 0x1_0000_0000_0000_0000 }

  // ----- integers and strings

  lemma TakeOfLE(n: int, w: nat, rest: bytes)
    ensures TakeLE(w, LE(n, w) + rest) == Done(n % Pow256(w), rest)
    ensures 0 <= n < Pow256(w) ==> n % Pow256(w) == n
  {
    FromLEOfLE(n, w);
    assert (LE(n, w) + rest)[..w] == LE(n, w);
    assert (LE(n, w) + rest)[w..] == rest;
    if 0 <= n < Pow256(w) { ModUnique(n, Pow256(w), 0, n); }
  }

  /** Two's complement: a signed number survives. */
  lemma SignedOfLE(n: int, w: nat)
    requires w > 0 && -(Pow256(w) / 2) <= n < Pow256(w) / 2
    ensures Signed(n % Pow256(w), w) == n
  {
    var p := Pow256(w);
    assert p == 256 * Pow256(w - 1);
    if n >= 0 { ModUnique(n, p, 0, n); } else { ModUnique(n, p, -1, n + p); }
  }

  lemma StringRoundTrip(s: bytes, rest: bytes)
    requires Short(s)
    ensures ParseString(EncodeString(s) + rest) == Done(s, rest)
  {
    Widths();
    assert EncodeString(s) + rest == LE(|s|, 8) + (s + rest);
    TakeOfLE(|s|, 8, s + rest);
    assert (s + rest)[..|s|] == s && (s + rest)[|s|..] == rest;
  }

  // ----- scalars

  /** The encoding `enc` of a value of type ty reads back as `v`, whatever follows. */
  ghost predicate Reads(ty: nat, enc: bytes, v: Gguf) {
    forall rest: bytes :: ParseValue(ty, enc + rest) == Done(v, rest)
  }

  lemma UintReads(ty: nat, w: nat, n: nat)
    requires (ty == 0 && w == 1) || (ty == 4 && w == 4) || (ty == 10 && w == 8)
    requires n < Pow256(w)
    ensures Reads(ty, LE(n, w), GUint(w, n))
  {
    forall rest: bytes ensures ParseValue(ty, LE(n, w) + rest) == Done(GUint(w, n), rest) {
      TakeOfLE(n, w, rest);
    }
  }

  lemma IntReads(ty: nat, w: nat, n: int)
    requires (ty == 1 && w == 1) || (ty == 5 && w == 4) || (ty == 11 && w == 8)
    requires -(Pow256(w) / 2) <= n < Pow256(w) / 2
    ensures Reads(ty, LE(n, w), GInt(w, n))
  {
    forall rest: bytes ensures ParseValue(ty, LE(n, w) + rest) == Done(GInt(w, n), rest) {
      TakeOfLE(n, w, rest);
      SignedOfLE(n, w);
    }
  }

  lemma FloatReads(ty: nat, w: nat, n: nat)
    requires (ty == 6 && w == 4) || (ty == 12 && w == 8)
    requires n < Pow256(w)
    ensures Reads(ty, LE(n, w), GFloat(w, n))
  {
    forall rest: bytes ensures ParseValue(ty, LE(n, w) + rest) == Done(GFloat(w, n), rest) {
      TakeOfLE(n, w, rest);
    }
  }

  lemma BoolReads(b: bool)
    ensures Reads(7, LE(BoolInt(b), 1), GBool(b))
  {
    forall rest: bytes ensures ParseValue(7, LE(BoolInt(b), 1) + rest) == Done(GBool(b), rest) {
      Widths();
      TakeOfLE(BoolInt(b), 1, rest);
    }
  }

  lemma StringReads(s: bytes)
    requires Short(s)
    ensures Reads(8, EncodeString(s), GString(s))
  {
    forall rest: bytes ensures ParseValue(8, EncodeString(s) + rest) == Done(GString(s), rest) {
      StringRoundTrip(s, rest);
    }
  }

  // ----- arrays

  lemma ReadsOne(ty: nat, enc: bytes, v: Gguf, rest: bytes)
    requires Reads(ty, enc, v)
    ensures ParseValue(ty, enc + rest) == Done(v, rest)
  {
    hide ParseValue;
  }

  lemma {:induction false} IntItems(ty: nat, w: nat, ns: seq<int>, items: seq<Gguf>, rest: bytes)
    requires |items| == |ns| && forall i :: 0 <= i < |ns| ==> Reads(ty, LE(ns[i], w), items[i])
    ensures ParseItems(ty, |ns|, EncodeInts(ns, w) + rest) == Done(items, rest)
  {
    if ns == [] {
      assert EncodeInts(ns, w) + rest == rest;
    } else {
      var tail := EncodeInts(ns[1..], w) + rest;
      assert EncodeInts(ns, w) + rest == LE(ns[0], w) + tail;
      ReadsOne(ty, LE(ns[0], w), items[0], tail);
      hide Reads, LE, ParseValue;
      IntItems(ty, w, ns[1..], items[1..], rest);
      assert [items[0]] + items[1..] == items;
    }
  }

  lemma {:induction false} StringItems(ss: seq<bytes>, rest: bytes)
    requires forall i :: 0 <= i < |ss| ==> Short(ss[i])
    ensures ParseItems(8, |ss|, EncodeStrings(ss) + rest) == Done(Texts(ss), rest)
  {
    if ss == [] {
      assert EncodeStrings(ss) + rest == rest;
    } else {
      var tail := EncodeStrings(ss[1..]) + rest;
      assert EncodeStrings(ss) + rest == EncodeString(ss[0]) + tail;
      StringReads(ss[0]);
      ReadsOne(8, EncodeString(ss[0]), GString(ss[0]), tail);
      hide Reads, EncodeString, Short, ParseValue;
      StringItems(ss[1..], rest);
      assert [GString(ss[0])] + Texts(ss[1..]) == Texts(ss);
    }
  }

  lemma Cat3<T>(a: seq<T>, b: seq<T>, rest: seq<T>)
    ensures a + b + rest == a + (b + rest)
  {}

  lemma Cat4<T>(a: seq<T>, b: seq<T>, c: seq<T>, rest: seq<T>)
    ensures a + b + c + rest == a + (b + (c + rest))
  {
    Cat3(a + b, c, rest);
    Cat3(a, b, c + rest);
  }

  lemma Cat5<T>(a: seq<T>, b: seq<T>, c: seq<T>, d: seq<T>, rest: seq<T>)
    ensures a + b + c + d + rest == a + (b + (c + (d + rest)))
  {
    Cat4(a + b, c, d, rest);
    Cat3(a, b, c + (d + rest));
  }

  lemma ArrayRoundTrip(ty: nat, count: nat, items: bytes, values: seq<Gguf>, rest: bytes)
    requires ty < 13 && count < 0x1_0000_0000_0000_0000
    requires ParseItems(ty, count, items + rest) == Done(values, rest)
    ensures TypedRoundTrip(EncodeArray(ty, count, items), GArray(ty, values), rest)
  {
    Widths();
    Cat5(LE(9, 4), LE(ty, 4), LE(count, 8), items, rest);
    TakeOfLE(9, 4, LE(ty, 4) + (LE(count, 8) + (items + rest)));
    TakeOfLE(ty, 4, LE(count, 8) + (items + rest));
    TakeOfLE(count, 8, items + rest);
  }

  /** A type tag and a value, read one after the other. */
  function ParseTyped(b: bytes): Parse<Gguf> {
    match TakeLE(4, b)
    case Fail => Fail
    case Done(ty, rest) => ParseValue(ty, rest)
  }

  ghost predicate TypedRoundTrip(enc: bytes, v: Gguf, rest: bytes) {
    ParseTyped(enc + rest) == Done(v, rest)
  }

  lemma ScalarRoundTrip(ty: nat, enc: bytes, v: Gguf, rest: bytes)
    requires ty < 13 && Reads(ty, enc, v)
    ensures TypedRoundTrip(LE(ty, 4) + enc, v, rest)
  {
    Widths();
    assert LE(ty, 4) + enc + rest == LE(ty, 4) + (enc + rest);
    TakeOfLE(ty, 4, enc + rest);
  }

  lemma IntsRoundTrip(ty: nat, w: nat, ns: seq<int>, items: seq<Gguf>, rest: bytes)
    requires ty < 13 && Short(ns) && |items| == |ns|
    requires forall i :: 0 <= i < |ns| ==> Reads(ty, LE(ns[i], w), items[i])
    ensures TypedRoundTrip(EncodeArray(ty, |ns|, EncodeInts(ns, w)), GArray(ty, items), rest)
  {
    IntItems(ty, w, ns, items, rest);
    ArrayRoundTrip(ty, |ns|, EncodeInts(ns, w), items, rest);
  }

  lemma ScalarValueRoundTrip(v: Value, rest: bytes)
    requires Representable(v)
    requires v.Int32? || v.Int64? || v.Uint32? || v.Uint64? || v.Float32? || v.Float64? || v.Bool? || v.Str?
    ensures TypedRoundTrip(EncodeValue(v), Meaning(v), rest)
  {
    Widths();
    match v
    case Int32(n) => IntReads(5, 4, n); ScalarRoundTrip(5, LE(n, 4), GInt(4, n), rest);
    case Int64(n) => IntReads(11, 8, n); ScalarRoundTrip(11, LE(n, 8), GInt(8, n), rest);
    case Uint32(n) => UintReads(4, 4, n); ScalarRoundTrip(4, LE(n, 4), GUint(4, n), rest);
    case Uint64(n) => UintReads(10, 8, n); ScalarRoundTrip(10, LE(n, 8), GUint(8, n), rest);
    case Float32(n) => FloatReads(6, 4, n); ScalarRoundTrip(6, LE(n, 4), GFloat(4, n), rest);
    case Float64(n) => FloatReads(12, 8, n); ScalarRoundTrip(12, LE(n, 8), GFloat(8, n), rest);
    case Bool(b) => BoolReads(b); ScalarRoundTrip(7, LE(BoolInt(b), 1), GBool(b), rest);
    case Str(s) => StringReads(s); ScalarRoundTrip(8, EncodeString(s), GString(s), rest);
  }

  lemma SignedArrayRoundTrip(v: Value, rest: bytes)
    requires Representable(v) && (v.Int8s? || v.Int32s? || v.Int64s?)
    ensures TypedRoundTrip(EncodeValue(v), Meaning(v), rest)
  {
    Widths();
    match v
    case Int8s(ns) =>
      forall i | 0 <= i < |ns| ensures Reads(1, LE(ns[i], 1), GInt(1, ns[i])) { IntReads(1, 1, ns[i]); }
      IntsRoundTrip(1, 1, ns, Ints(1, ns), rest);
    case Int32s(ns) =>
      forall i | 0 <= i < |ns| ensures Reads(5, LE(ns[i], 4), GInt(4, ns[i])) { IntReads(5, 4, ns[i]); }
      IntsRoundTrip(5, 4, ns, Ints(4, ns), rest);
    case Int64s(ns) =>
      forall i | 0 <= i < |ns| ensures Reads(11, LE(ns[i], 8), GInt(8, ns[i])) { IntReads(11, 8, ns[i]); }
      IntsRoundTrip(11, 8, ns, Ints(8, ns), rest);
  }

  lemma UnsignedArrayRoundTrip(v: Value, rest: bytes)
    requires Representable(v) && (v.Uint8s? || v.Uint32s? || v.Uint64s? || v.Float32s?)
    ensures TypedRoundTrip(EncodeValue(v), Meaning(v), rest)
  {
    Widths();
    match v
    case Uint8s(ns) =>
      forall i | 0 <= i < |ns| ensures Reads(0, LE(ns[i], 1), GUint(1, ns[i])) { UintReads(0, 1, ns[i]); }
      IntsRoundTrip(0, 1, ns, Uints(1, ns), rest);
    case Uint32s(ns) =>
      forall i | 0 <= i < |ns| ensures Reads(4, LE(ns[i], 4), GUint(4, ns[i])) { UintReads(4, 4, ns[i]); }
      IntsRoundTrip(4, 4, ns, Uints(4, ns), rest);
    case Uint64s(ns) =>
      forall i | 0 <= i < |ns| ensures Reads(10, LE(ns[i], 8), GUint(8, ns[i])) { UintReads(10, 8, ns[i]); }
      IntsRoundTrip(10, 8, ns, Uints(8, ns), rest);
    case Float32s(ns) =>
      forall i | 0 <= i < |ns| ensures Reads(6, LE(ns[i], 4), GFloat(4, ns[i])) { FloatReads(6, 4, ns[i]); }
      IntsRoundTrip(6, 4, ns, Floats(4, ns), rest);
  }

  /** Every supported value reads back as what it means. */
  lemma ValueRoundTrip(v: Value, rest: bytes)
    requires Representable(v)
    ensures TypedRoundTrip(EncodeValue(v), Meaning(v), rest)
  {
    match v
    case Int8s(ns) => SignedArrayRoundTrip(v, rest);
    case Int32s(ns) => SignedArrayRoundTrip(v, rest);
    case Int64s(ns) => SignedArrayRoundTrip(v, rest);
    case Uint8s(ns) => UnsignedArrayRoundTrip(v, rest);
    case Uint32s(ns) => UnsignedArrayRoundTrip(v, rest);
    case Uint64s(ns) => UnsignedArrayRoundTrip(v, rest);
    case Float32s(ns) => UnsignedArrayRoundTrip(v, rest);
    case Strs(ss) =>
      StringItems(ss, rest);
      ArrayRoundTrip(8, |ss|, EncodeStrings(ss), Texts(ss), rest);
    case Bools(bs) =>
      forall i | 0 <= i < |bs| ensures Reads(7, LE(BoolInts(bs)[i], 1), GBool(bs[i])) { BoolReads(bs[i]); }
      IntsRoundTrip(7, 1, BoolInts(bs), Truths(bs), rest);
    case _ => ScalarValueRoundTrip(v, rest);
  }

  // ----- the header

  predicate RepresentablePair(p: Pair) { Short(p.key) && Representable(p.value) }

  predicate RepresentableInfo(t: Info) {
    && Short(t.name) && |t.dims| < 0x1_0000_0000 && t.kind < 0x1_0000_0000 && t.offset < 0x1_0000_0000_0000_0000
    && forall i :: 0 <= i < |t.dims| ==> t.dims[i] < 0x1_0000_0000_0000_0000
  }

  function PairMeaning(p: Pair): (bytes, Gguf)
    requires RepresentablePair(p)
  {
    (p.key, Meaning(p.value))
  }

  function Meanings(ps: seq<Pair>): (r: seq<(bytes, Gguf)>)
    requires forall i :: 0 <= i < |ps| ==> RepresentablePair(ps[i])
    ensures |r| == |ps| && forall i :: 0 <= i < |ps| ==> r[i] == PairMeaning(ps[i])
  {
    seq(|ps|, i requires 0 <= i < |ps| => PairMeaning(ps[i]))
  }

  lemma PairRoundTrip(p: Pair, rest: bytes)
    requires RepresentablePair(p)
    ensures ParsePair(EncodePair(p) + rest) == Done(PairMeaning(p), rest)
  {
    assert EncodePair(p) + rest == EncodeString(p.key) + (EncodeValue(p.value) + rest);
    StringRoundTrip(p.key, EncodeValue(p.value) + rest);
    ValueRoundTrip(p.value, rest);
  }

  lemma AllSupported(ps: seq<Pair>)
    requires forall i :: 0 <= i < |ps| ==> RepresentablePair(ps[i])
    ensures Supported(ps)
  {
    forall i | 0 <= i < |ps| ensures !ps[i].value.Unsupported? {
      assert RepresentablePair(ps[i]);
    }
  }

  lemma {:induction false} PairsRoundTrip(ps: seq<Pair>, rest: bytes)
    requires forall i :: 0 <= i < |ps| ==> RepresentablePair(ps[i])
    ensures Supported(ps)
    ensures ParsePairs(|ps|, EncodePairs(ps) + rest) == Done(Meanings(ps), rest)
  {
    hide EncodePair, ParsePair, PairMeaning, Representable;
    AllSupported(ps);
    if ps == [] {
      assert EncodePairs(ps) + rest == rest;
    } else {
      var tail := EncodePairs(ps[1..]) + rest;
      Cat3(EncodePair(ps[0]), EncodePairs(ps[1..]), rest);
      PairRoundTrip(ps[0], tail);
      assert forall i :: 0 <= i < |ps| - 1 ==> RepresentablePair(ps[1..][i]) by {
        forall i | 0 <= i < |ps| - 1 ensures RepresentablePair(ps[1..][i]) {
          assert RepresentablePair(ps[i + 1]);
        }
      }
      PairsRoundTrip(ps[1..], rest);
      assert [PairMeaning(ps[0])] + Meanings(ps[1..]) == Meanings(ps);
    }
  }

  lemma {:induction false} DimsRoundTrip(ns: seq<nat>, rest: bytes)
    requires forall i :: 0 <= i < |ns| ==> ns[i] < 0x1_0000_0000_0000_0000
    ensures ParseDims(|ns|, EncodeInts(ns, 8) + rest) == Done(ns, rest)
  {
    if ns == [] {
      assert EncodeInts(ns, 8) + rest == rest;
    } else {
      Widths();
      var tail := EncodeInts(ns[1..], 8) + rest;
      assert EncodeInts(ns, 8) + rest == LE(ns[0], 8) + tail;
      TakeOfLE(ns[0], 8, tail);
      DimsRoundTrip(ns[1..], rest);
      assert [ns[0]] + ns[1..] == ns;
    }
  }

  lemma InfoRoundTrip(t: Info, rest: bytes)
    requires RepresentableInfo(t)
    ensures ParseInfo(EncodeInfo(t) + rest) == Done(t, rest)
  {
    Widths();
    var b4 := LE(t.offset, 8) + rest;
    var b3 := LE(t.kind, 4) + b4;
    var b2 := EncodeInts(t.dims, 8) + b3;
    var b1 := LE(|t.dims|, 4) + b2;
    Cat5(EncodeString(t.name), LE(|t.dims|, 4), EncodeInts(t.dims, 8), LE(t.kind, 4), b4);
    Cat3(EncodeString(t.name) + LE(|t.dims|, 4) + EncodeInts(t.dims, 8) + LE(t.kind, 4), LE(t.offset, 8), rest);
    StringRoundTrip(t.name, b1);
    TakeOfLE(|t.dims|, 4, b2);
    DimsRoundTrip(t.dims, b3);
    TakeOfLE(t.kind, 4, b4);
    TakeOfLE(t.offset, 8, rest);
  }

  lemma {:induction false} InfosRoundTrip(ts: seq<Info>, rest: bytes)
    requires forall i :: 0 <= i < |ts| ==> RepresentableInfo(ts[i])
    ensures ParseInfos(|ts|, EncodeInfos(ts) + rest) == Done(ts, rest)
  {
    hide EncodeInfo, ParseInfo, RepresentableInfo;
    if ts == [] {
      assert EncodeInfos(ts) + rest == rest;
    } else {
      var tail := EncodeInfos(ts[1..]) + rest;
      Cat3(EncodeInfo(ts[0]), EncodeInfos(ts[1..]), rest);
      InfoRoundTrip(ts[0], tail);
      assert forall i :: 0 <= i < |ts| - 1 ==> RepresentableInfo(ts[1..][i]) by {
        forall i | 0 <= i < |ts| - 1 ensures RepresentableInfo(ts[1..][i]) {
          assert RepresentableInfo(ts[i + 1]);
        }
      }
      InfosRoundTrip(ts[1..], rest);
      assert [ts[0]] + ts[1..] == ts;
    }
  }

  /** The header reads back as the metadata and tensor infos it was built from, whatever follows. */
  lemma HeaderRoundTrip(ps: seq<Pair>, ts: seq<Info>, rest: bytes)
    requires Short(ps) && Short(ts)
    requires forall i :: 0 <= i < |ps| ==> RepresentablePair(ps[i])
    requires forall i :: 0 <= i < |ts| ==> RepresentableInfo(ts[i])
    ensures Supported(ps)
    ensures ParseHeader(EncodeHeader(ps, ts) + rest) == Done(Header(Meanings(ps), ts), rest)
  {
    Widths();
    PairsRoundTrip(ps, EncodeInfos(ts) + rest);
    InfosRoundTrip(ts, rest);
    var b4 := EncodeInfos(ts) + rest;
    var b3 := EncodePairs(ps) + b4;
    var b2 := LE(|ps|, 8) + b3;
    var b1 := LE(|ts|, 8) + b2;
    var b := EncodeHeader(ps, ts) + rest;
    Cat3(Magic + LE(3, 4) + LE(|ts|, 8) + LE(|ps|, 8) + EncodePairs(ps), EncodeInfos(ts), rest);
    Cat3(Magic + LE(3, 4) + LE(|ts|, 8) + LE(|ps|, 8), EncodePairs(ps), b4);
    Cat5(Magic, LE(3, 4), LE(|ts|, 8), LE(|ps|, 8), b3);
    assert b == Magic + (LE(3, 4) + b1);
    assert b[..4] == Magic && b[4..] == LE(3, 4) + b1;
    TakeOfLE(3, 4, b1);
    TakeOfLE(|ts|, 8, b2);
    TakeOfLE(|ps|, 8, b3);
  }

  /** A header starts with the letters GGUF and the version, 3; the number of tensors and the number of pairs follow,
      eight bytes each. */
  lemma HeaderStarts(ps: seq<Pair>, ts: seq<Info>)
    requires Supported(ps) && |ts| < Pow256(8) && |ps| < Pow256(8)
    ensures var h := EncodeHeader(ps, ts);
      && |h| >= 24 && h[..8] == [0x47, 0x47, 0x55, 0x46, 3, 0, 0, 0]
      && FromLE(h[8..16]) == |ts| && FromLE(h[16..24]) == |ps|
  {
    hide LE, FromLE, EncodePairs, EncodeInfos, Pow256;
    ThreeBytes();
    FromLEOfLE(|ts|, 8);
    FromLEOfLE(|ps|, 8);
    Small(|ts|, Pow256(8));
    Small(|ps|, Pow256(8));
    FixedStart(LE(3, 4), LE(|ts|, 8), LE(|ps|, 8), EncodePairs(ps), EncodeInfos(ts));
  }

  lemma Small(n: nat, p: nat)
    requires n < p
    ensures n % p == n
  {}

  lemma ThreeBytes()
    ensures LE(3, 4) == [3, 0, 0, 0]
  {
    LEStep(3, 4);
    LEStep(0, 3);
    LEStep(0, 2);
    LEStep(0, 1);
    assert LE(0, 0) == [];
  }

  lemma FixedStart(version: bytes, a: bytes, b: bytes, c: bytes, d: bytes)
    requires |version| == 4 && |a| == 8 && |b| == 8
    ensures var h := Magic + version + a + b + c + d;
      |h| >= 24 && h[..8] == Magic + version && h[8..16] == a && h[16..24] == b
  {}
}
