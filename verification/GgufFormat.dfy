/** GGUF version 3 metadata and tensor infos: how compatmigrate/writer.go encodes them, and a parser
    written from the GGUF specification ("File Structure"). */
module GgufFormat {
  import opened RowMajor

  type byte = x: int | 0 <= x < 256
  type bytes = seq<byte>
  type int8 = x: int | -0x80 <= x < 0x80
  type uint8 = x: int | 0 <= x < 0x100
  type int32 = x: int | -0x8000_0000 <= x < 0x8000_0000
  type uint32 = x: int | 0 <= x < 0x1_0000_0000
  type int64 = x: int | -0x8000_0000_0000_0000 <= x < 0x8000_0000_0000_0000
  type uint64 = x: int | 0 <= x < 0x1_0000_0000_0000_0000

  /** The metadata values a migration may hold; floats by their bits. */
  datatype Value =
    | Int32(i32: int32) | Int64(i64: int64) | Uint32(u32: uint32) | Uint64(u64: uint64)
    | Float32(f32: uint32) | Float64(f64: uint64) | Bool(b: bool) | Str(s: bytes)
    | Int8s(i8s: seq<int8>) | Uint8s(u8s: seq<uint8>)
    | Int32s(i32s: seq<int32>) | Int64s(i64s: seq<int64>) | Uint32s(u32s: seq<uint32>) | Uint64s(u64s: seq<uint64>)
    | Float32s(f32s: seq<uint32>) | Strs(ss: seq<bytes>) | Bools(bs: seq<bool>)
    | Unsupported

  // ----- little-endian integers

  function Pow256(w: nat): (p: nat)
    ensures p > 0
  {
    if w == 0 then 1 else 256 * Pow256(w - 1)
  }

  /** The low w bytes of n, least significant first; negative n in two's complement. */
  function LE(n: int, w: nat): (b: bytes)
    ensures |b| == w
  {
    seq(w, i requires 0 <= i < w => n / Pow256(i) % 256)
  }

  lemma LEStep(n: int, w: nat)
    requires w > 0
    ensures LE(n, w) == [n % 256] + LE(n / 256, w - 1)
  {
    assert Pow256(0) == 1;
    forall i | 0 < i < w ensures LE(n, w)[i] == LE(n / 256, w - 1)[i - 1] {
      DivideTwice(n, Pow256(i - 1));
    }
  }

  lemma DivideTwice(n: int, p: int)
    requires p > 0
    ensures n / (256 * p) == n / 256 / p
  {
    var q, r := n / 256, n % 256;
    var k, m := q / p, q % p;
    assert n == 256 * (k * p + m) + r;
    MulAssociative(k, 256, p);
    DivideSum(k, 256 * p, 256 * m + r);
  }

  function FromLE(b: bytes): nat {
    if b == [] then 0 else b[0] + 256 * FromLE(b[1..])
  }

  lemma {:induction false} FromLEOfLE(n: int, w: nat)
    ensures FromLE(LE(n, w)) == n % Pow256(w)
    decreases w
  {
    if w > 0 {
      FromLEOfLE(n / 256, w - 1);
      LEStep(n, w);
      assert LE(n, w)[1..] == LE(n / 256, w - 1);
      ModSplit(n, Pow256(w - 1));
    } else {
      assert n % 1 == 0;
    }
  }

  lemma ModSplit(n: int, p: int)
    requires p > 0
    ensures n % (256 * p) == n % 256 + 256 * (n / 256 % p)
  {
    var q, r := n / 256, n % 256;
    var k, m := q / p, q % p;
    assert n == 256 * (k * p + m) + r;
    assert n == k * (256 * p) + (256 * m + r) by {
      assert 256 * (k * p) == k * (256 * p);
    }
    assert 0 <= 256 * m + r < 256 * p;
    ModUnique(n, 256 * p, k, 256 * m + r);
  }

  lemma ModUnique(n: int, d: int, k: int, r: int)
    requires d > 0 && 0 <= r < d && n == k * d + r
    ensures n % d == r
  {
    DivideSum(k, d, r);
  }

  lemma Widths()
    ensures Pow256(1) == 0x100 && Pow256(2) == 0x1_0000 && Pow256(4) == 0x1_0000_0000
    ensures Pow256(8) == 0x1_0000_0000_0000_0000
  {
    assert Pow256(1) == 256 * Pow256(0);
    assert Pow256(2) == 256 * Pow256(1);
    assert Pow256(3) == 256 * Pow256(2);
    assert Pow256(4) == 256 * Pow256(3);
    assert Pow256(5) == 256 * Pow256(4);
    assert Pow256(6) == 256 * Pow256(5);
    assert Pow256(7) == 256 * Pow256(6);
    assert Pow256(8) == 256 * Pow256(7);
  }

  // ----- encoding

  function EncodeString(s: bytes): bytes { LE(|s|, 8) + s }

  function EncodeStrings(ss: seq<bytes>): bytes {
    if ss == [] then [] else EncodeString(ss[0]) + EncodeStrings(ss[1..])
  }

  function EncodeInts(ns: seq<int>, w: nat): bytes {
    if ns == [] then [] else LE(ns[0], w) + EncodeInts(ns[1..], w)
  }

  function BoolInt(b: bool): int { if b then 1 else 0 }
  function BoolInts(bs: seq<bool>): (r: seq<int>)
    ensures |r| == |bs|
  {
    seq(|bs|, i requires 0 <= i < |bs| => BoolInt(bs[i]))
  }

  function EncodeArray(ty: nat, count: nat, items: bytes): bytes { LE(9, 4) + LE(ty, 4) + LE(count, 8) + items }

  /** A value's type tag and its bytes. */
  function EncodeValue(v: Value): bytes
    requires !v.Unsupported?
  {
    match v
    case Int32(n) => LE(5, 4) + LE(n, 4)
    case Int64(n) => LE(11, 4) + LE(n, 8)
    case Uint32(n) => LE(4, 4) + LE(n, 4)
    case Uint64(n) => LE(10, 4) + LE(n, 8)
    case Float32(n) => LE(6, 4) + LE(n, 4)
    case Float64(n) => LE(12, 4) + LE(n, 8)
    case Bool(b) => LE(7, 4) + LE(BoolInt(b), 1)
    case Str(s) => LE(8, 4) + EncodeString(s)
    case Int8s(ns) => EncodeArray(1, |ns|, EncodeInts(ns, 1))
    case Uint8s(ns) => EncodeArray(0, |ns|, EncodeInts(ns, 1))
    case Int32s(ns) => EncodeArray(5, |ns|, EncodeInts(ns, 4))
    case Int64s(ns) => EncodeArray(11, |ns|, EncodeInts(ns, 8))
    case Uint32s(ns) => EncodeArray(4, |ns|, EncodeInts(ns, 4))
    case Uint64s(ns) => EncodeArray(10, |ns|, EncodeInts(ns, 8))
    case Float32s(ns) => EncodeArray(6, |ns|, EncodeInts(ns, 4))
    case Strs(ss) => EncodeArray(8, |ss|, EncodeStrings(ss))
    case Bools(bs) => EncodeArray(7, |bs|, EncodeInts(BoolInts(bs), 1))
  }

  datatype Info = Info(name: bytes, dims: seq<nat>, kind: nat, offset: nat)

  function EncodeInfo(t: Info): bytes {
    EncodeString(t.name) + LE(|t.dims|, 4) + EncodeInts(t.dims, 8) + LE(t.kind, 4) + LE(t.offset, 8)
  }

  datatype Pair = Pair(key: bytes, value: Value)

  function EncodePair(p: Pair): bytes
    requires !p.value.Unsupported?
  {
    EncodeString(p.key) + EncodeValue(p.value)
  }

  predicate Supported(ps: seq<Pair>) {
    forall i :: 0 <= i < |ps| ==> !ps[i].value.Unsupported?
  }

  function EncodePairs(ps: seq<Pair>): bytes
    requires Supported(ps)
  {
    if ps == [] then [] else EncodePair(ps[0]) + EncodePairs(ps[1..])
  }

  function EncodeInfos(ts: seq<Info>): bytes {
    if ts == [] then [] else EncodeInfo(ts[0]) + EncodeInfos(ts[1..])
  }

  const Magic: bytes := [0x47, 0x47, 0x55, 0x46]

  /** Everything before the tensor data. */
  function EncodeHeader(ps: seq<Pair>, ts: seq<Info>): bytes
    requires Supported(ps)
  {
    Magic + LE(3, 4) + LE(|ts|, 8) + LE(|ps|, 8) + EncodePairs(ps) + EncodeInfos(ts)
  }

  // ----- the specification's value space and parser

  /** A metadata value as the specification defines them. */
  datatype Gguf =
    | GUint(width: nat, n: nat)
    | GInt(width: nat, i: int)
    | GFloat(width: nat, bits: nat)
    | GBool(b: bool)
    | GString(s: bytes)
    | GArray(ty: nat, items: seq<Gguf>)

  datatype Parse<+T> = Fail | Done(value: T, rest: bytes)

  function TakeLE(w: nat, b: bytes): (r: Parse<nat>)
    ensures r.Done? ==> |r.rest| + w == |b|
  {
    if |b| < w then Fail else Done(FromLE(b[..w]), b[w..])
  }

  function ParseString(b: bytes): (r: Parse<bytes>)
    ensures r.Done? ==> |r.rest| < |b|
  {
    match TakeLE(8, b)
    case Fail => Fail
    case Done(n, rest) => if |rest| < n then Fail else Done(rest[..n], rest[n..])
  }

  function Signed(n: nat, w: nat): int {
    if n < Pow256(w) / 2 then n else n - Pow256(w)
  }

  /** A scalar of type ty: tags 0 to 8 and 10 to 12 of the specification. */
  function ParseScalar(ty: nat, b: bytes): (r: Parse<Gguf>)
    ensures r.Done? ==> |r.rest| < |b|
  {
    match ty
    case 0 => ParseUint(1, b)
    case 1 => ParseInt(1, b)
    case 2 => ParseUint(2, b)
    case 3 => ParseInt(2, b)
    case 4 => ParseUint(4, b)
    case 5 => ParseInt(4, b)
    case 6 => ParseFloat(4, b)
    case 7 => ParseBool(b)
    case 8 => ParseText(b)
    case 10 => ParseUint(8, b)
    case 11 => ParseInt(8, b)
    case 12 => ParseFloat(8, b)
    case _ => Fail
  }

  function ParseUint(w: nat, b: bytes): Parse<Gguf> {
    match TakeLE(w, b)
    case Fail => Fail
    case Done(n, rest) => Done(GUint(w, n), rest)
  }

  function ParseInt(w: nat, b: bytes): Parse<Gguf> {
    match TakeLE(w, b)
    case Fail => Fail
    case Done(n, rest) => Done(GInt(w, Signed(n, w)), rest)
  }

  function ParseFloat(w: nat, b: bytes): Parse<Gguf> {
    match TakeLE(w, b)
    case Fail => Fail
    case Done(n, rest) => Done(GFloat(w, n), rest)
  }

  function ParseBool(b: bytes): Parse<Gguf> {
    match TakeLE(1, b)
    case Fail => Fail
    case Done(n, rest) => if n > 1 then Fail else Done(GBool(n == 1), rest)
  }

  function ParseText(b: bytes): Parse<Gguf> {
    match ParseString(b)
    case Fail => Fail
    case Done(s, rest) => Done(GString(s), rest)
  }

  /** A value of type ty; arrays may nest. */
  function ParseValue(ty: nat, b: bytes): (r: Parse<Gguf>)
    ensures r.Done? ==> |r.rest| < |b|
    decreases |b|, 0
  {
    if ty != 9 then ParseScalar(ty, b)
    else
      match TakeLE(4, b)
      case Fail => Fail
      case Done(ety, rest) =>
        match TakeLE(8, rest)
        case Fail => Fail
        case Done(count, rest') =>
          match ParseItems(ety, count, rest')
          case Fail => Fail
          case Done(items, rest'') => Done(GArray(ety, items), rest'')
  }

  function ParseItems(ty: nat, count: nat, b: bytes): (r: Parse<seq<Gguf>>)
    ensures r.Done? ==> |r.rest| <= |b| && |r.value| == count
    decreases |b|, count + 1
  {
    if count == 0 then Done([], b)
    else
      match ParseValue(ty, b)
      case Fail => Fail
      case Done(v, rest) =>
        match ParseItems(ty, count - 1, rest)
        case Fail => Fail
        case Done(vs, rest') => Done([v] + vs, rest')
  }

  function ParsePair(b: bytes): (r: Parse<(bytes, Gguf)>)
    ensures r.Done? ==> |r.rest| < |b|
  {
    match ParseString(b)
    case Fail => Fail
    case Done(key, rest) =>
      match TakeLE(4, rest)
      case Fail => Fail
      case Done(ty, rest') =>
        match ParseValue(ty, rest')
        case Fail => Fail
        case Done(v, rest'') => Done((key, v), rest'')
  }

  function ParsePairs(count: nat, b: bytes): (r: Parse<seq<(bytes, Gguf)>>)
    ensures r.Done? ==> |r.value| == count
  {
    if count == 0 then Done([], b)
    else
      match ParsePair(b)
      case Fail => Fail
      case Done(p, rest) =>
        match ParsePairs(count - 1, rest)
        case Fail => Fail
        case Done(ps, rest') => Done([p] + ps, rest')
  }

  function ParseDims(count: nat, b: bytes): (r: Parse<seq<nat>>)
    ensures r.Done? ==> |r.value| == count
  {
    if count == 0 then Done([], b)
    else
      match TakeLE(8, b)
      case Fail => Fail
      case Done(n, rest) =>
        match ParseDims(count - 1, rest)
        case Fail => Fail
        case Done(ns, rest') => Done([n] + ns, rest')
  }

  function ParseInfo(b: bytes): Parse<Info> {
    match ParseString(b)
    case Fail => Fail
    case Done(name, b1) =>
      match TakeLE(4, b1)
      case Fail => Fail
      case Done(rank, b2) =>
        match ParseDims(rank, b2)
        case Fail => Fail
        case Done(dims, b3) =>
          match TakeLE(4, b3)
          case Fail => Fail
          case Done(kind, b4) =>
            match TakeLE(8, b4)
            case Fail => Fail
            case Done(offset, b5) => Done(Info(name, dims, kind, offset), b5)
  }

  function ParseInfos(count: nat, b: bytes): (r: Parse<seq<Info>>)
    ensures r.Done? ==> |r.value| == count
  {
    if count == 0 then Done([], b)
    else
      match ParseInfo(b)
      case Fail => Fail
      case Done(t, rest) =>
        match ParseInfos(count - 1, rest)
        case Fail => Fail
        case Done(ts, rest') => Done([t] + ts, rest')
  }

  datatype Header = Header(metadata: seq<(bytes, Gguf)>, infos: seq<Info>)

  /** gguf_file_t up to the padding before the tensor data. */
  function ParseHeader(b: bytes): Parse<Header> {
    if |b| < 4 || b[..4] != Magic then Fail
    else
      match TakeLE(4, b[4..])
      case Fail => Fail
      case Done(version, b1) =>
        if version != 3 then Fail
        else
          match TakeLE(8, b1)
          case Fail => Fail
          case Done(tensors, b2) =>
            match TakeLE(8, b2)
            case Fail => Fail
            case Done(pairs, b3) =>
              match ParsePairs(pairs, b3)
              case Fail => Fail
              case Done(metadata, b4) =>
                match ParseInfos(tensors, b4)
                case Fail => Fail
                case Done(infos, rest) => Done(Header(metadata, infos), rest)
  }
}
