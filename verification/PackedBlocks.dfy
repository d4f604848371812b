/** Packed blocks from the outside: what a block is made of, how it is packed into bytes, and the values it stands
    for. */
module PackedBlocks {
  import opened BlockFormat
  import opened RowMajor

  // ----- the scales of Q4_K

  lemma HighPair(n: byte, q: byte)
    requires n <= 15
    ensures (n | ((q >> 6) << 4)) as int == n as int + 16 * Pair(q, 3)
  {
    var h := (q >> 6) << 4;
    assert h in {0, 0x10, 0x20, 0x30};
    Join(n, h);
    ShiftedPair(q >> 6);
    assert (q >> 6) & 3 == q >> 6;
  }

  lemma ShiftedPair(p: byte)
    requires p <= 3
    ensures (p << 4) as int == 16 * (p as int)
  {
    if p == 0 {} else if p == 1 {} else if p == 2 {} else {}
  }

  /** Eight 6-bit values. */
  predicate SixBit(s: seq<byte>) {
    |s| == 8 && forall j :: 0 <= j < 8 ==> s[j] <= 63
  }

  /** The 12 bytes that hold eight 6-bit scales and eight 6-bit minimums. */
  function PackScales(sc: seq<byte>, m: seq<byte>): (q: seq<byte>)
    requires SixBit(sc) && SixBit(m)
    ensures |q| == 12
  {
    seq(4, j requires 0 <= j < 4 => WithSpare(sc[j], sc[j + 4])) +
    seq(4, j requires 0 <= j < 4 => WithSpare(m[j], m[j + 4])) +
    seq(4, j requires 0 <= j < 4 => TwoNibbles(sc[j + 4], m[j + 4]))
  }

  /** A whole 6-bit value, and the high two bits of another in the spare bits. */
  function WithSpare(whole: byte, other: byte): byte { whole | ((other >> 4) << 6) }

  function TwoNibbles(low: byte, high: byte): byte { (low & 0x0f) | ((high & 0x0f) << 4) }

  /** scaleMinK4 as a function, so that packing can be stated both ways round. */
  function UnpackScale(q: seq<byte>, j: nat): byte
    requires |q| == 12 && j < 8
  {
    if j < 4 then q[j] & 63 else (q[j + 4] & 0x0f) | ((q[j - 4] >> 6) << 4)
  }

  function UnpackMin(q: seq<byte>, j: nat): byte
    requires |q| == 12 && j < 8
  {
    if j < 4 then q[j + 4] & 63 else (q[j + 4] >> 4) | ((q[j] >> 6) << 4)
  }

  lemma UnpackIsScaleMin(q: seq<byte>, j: nat)
    requires |q| == 12 && j < 8
    ensures (UnpackScale(q, j) as int, UnpackMin(q, j) as int) == ScaleMin(q, j)
  {
    if j < 4 {
      SixBits(q[j]);
      SixBits(q[j + 4]);
    } else {
      HighPair(q[j + 4] & 0x0f, q[j - 4]);
      HighPair(q[j + 4] >> 4, q[j]);
      Nibbles(q[j + 4]);
    }
  }

  /** Unpacking what was packed gives the scales and minimums back. */
  lemma UnpackPack(sc: seq<byte>, m: seq<byte>, j: nat)
    requires SixBit(sc) && SixBit(m) && j < 8
    ensures UnpackScale(PackScales(sc, m), j) == sc[j]
    ensures UnpackMin(PackScales(sc, m), j) == m[j]
    ensures ScaleMin(PackScales(sc, m), j) == (sc[j] as int, m[j] as int)
  {
    var q := PackScales(sc, m);
    PackedBytes(sc, m, j);
    if j < 4 {
      WholeKept(sc[j], sc[j + 4]);
      WholeKept(m[j], m[j + 4]);
    } else {
      SplitKept(sc[j], m[j], sc[j - 4]);
      SplitKept(m[j], sc[j], m[j - 4]);
    }
    UnpackIsScaleMin(q, j);
  }

  lemma PackedBytes(sc: seq<byte>, m: seq<byte>, j: nat)
    requires SixBit(sc) && SixBit(m) && j < 8
    ensures j < 4 ==> PackScales(sc, m)[j] == WithSpare(sc[j], sc[j + 4])
    ensures j < 4 ==> PackScales(sc, m)[j + 4] == WithSpare(m[j], m[j + 4])
    ensures j >= 4 ==> PackScales(sc, m)[j + 4] == TwoNibbles(sc[j], m[j])
    ensures j >= 4 ==> PackScales(sc, m)[j - 4] == WithSpare(sc[j - 4], sc[j])
    ensures j >= 4 ==> PackScales(sc, m)[j] == WithSpare(m[j - 4], m[j])
  {}

  lemma WholeKept(whole: byte, other: byte)
    requires whole <= 63
    ensures WithSpare(whole, other) & 63 == whole
  {}

  lemma SplitKept(v: byte, other: byte, whole: byte)
    requires v <= 63 && whole <= 63
    ensures (TwoNibbles(v, other) & 0x0f) | ((WithSpare(whole, v) >> 6) << 4) == v
    ensures (TwoNibbles(other, v) >> 4) | ((WithSpare(whole, v) >> 6) << 4) == v
  {}

  /** Every 12 bytes are the packing of what they unpack to. */
  lemma PackUnpack(q: seq<byte>)
    requires |q| == 12
    ensures var sc := seq(8, j requires 0 <= j < 8 => UnpackScale(q, j));
      var m := seq(8, j requires 0 <= j < 8 => UnpackMin(q, j));
      SixBit(sc) && SixBit(m) && PackScales(sc, m) == q
  {
    var sc := seq(8, j requires 0 <= j < 8 => UnpackScale(q, j));
    var m := seq(8, j requires 0 <= j < 8 => UnpackMin(q, j));
    forall j | 0 <= j < 8 ensures sc[j] <= 63 && m[j] <= 63 {}
    forall j | 0 <= j < 12 ensures PackScales(sc, m)[j] == q[j] {
      if j < 4 { PackedWhole(q[j], q[j + 8] & 0x0f); }
      else if j < 8 { PackedWhole(q[j], q[j + 4] >> 4); }
    }
  }

  lemma PackedWhole(q: byte, n: byte)
    requires n <= 15
    ensures (q & 63) | (((n | ((q >> 6) << 4)) >> 4) << 6) == q
  {}

  // ----- blocks

  /** A half-precision number, as its two bytes. */
  datatype HalfBits = HalfBits(lo: byte, hi: byte)

  function HalfOf(h: HalfBits): Float { Half(h.lo as int + 256 * (h.hi as int)) }

  /** One scale and 32 signed bytes. */
  datatype Q8Block = Q8Block(d: HalfBits, quants: seq<int>)

  /** One scale and 32 numbers of five bits. */
  datatype Q5Block = Q5Block(d: HalfBits, quants: seq<byte>)

  /** A scale and a minimum for the whole block, scales and minimums of six bits for every 32 of 256 numbers of four
      bits. */
  datatype Q4Block = Q4Block(d: HalfBits, min: HalfBits, scales: seq<byte>, mins: seq<byte>, quants: seq<byte>)

  /** A scale for the whole block, signed scales for every 16 of 256 numbers of six bits. */
  datatype Q6Block = Q6Block(d: HalfBits, scales: seq<int>, quants: seq<byte>)

  predicate Signed(s: seq<int>, n: nat) { |s| == n && forall i :: 0 <= i < n ==> -128 <= s[i] < 128 }

  predicate Below(s: seq<byte>, n: nat, limit: byte) { |s| == n && forall i :: 0 <= i < n ==> s[i] < limit }

  predicate Q8Valid(b: Q8Block) { Signed(b.quants, 32) }
  predicate Q5Valid(b: Q5Block) { Below(b.quants, 32, 32) }
  predicate Q4Valid(b: Q4Block) { SixBit(b.scales) && SixBit(b.mins) && Below(b.quants, 256, 16) }
  predicate Q6Valid(b: Q6Block) { Signed(b.scales, 16) && Below(b.quants, 256, 64) }

  /** What each of a block's numbers stands for. */
  function Q8Value(b: Q8Block, k: nat): Float
    requires Q8Valid(b) && k < 32
  {
    Mul(HalfOf(b.d), FromInt(b.quants[k]))
  }

  function Q5Value(b: Q5Block, k: nat): Float
    requires Q5Valid(b) && k < 32
  {
    Mul(HalfOf(b.d), FromInt(b.quants[k] as int - 16))
  }

  function Q4Value(b: Q4Block, k: nat): Float
    requires Q4Valid(b) && k < 256
  {
    Sub(Mul(Mul(HalfOf(b.d), FromInt(b.scales[k / 32] as int)), FromInt(b.quants[k] as int)),
        Mul(HalfOf(b.min), FromInt(b.mins[k / 32] as int)))
  }

  function Q6Value(b: Q6Block, k: nat): Float
    requires Q6Valid(b) && k < 256
  {
    Mul(Mul(HalfOf(b.d), FromInt(b.scales[k / 16])), FromInt(b.quants[k] as int - 32))
  }

  // ----- packing

  function SignedByte(v: int): byte
    requires -128 <= v < 128
  {
    (if v < 0 then v + 256 else v) as byte
  }

  /** Two numbers of four bits. */
  function Nibbled(low: byte, high: byte): byte { (low & 0x0f) | (high << 4) }

  function PackQ8(b: Q8Block): (r: seq<byte>)
    requires Q8Valid(b)
    ensures |r| == 34
  {
    [b.d.lo, b.d.hi] + seq(32, i requires 0 <= i < 32 => SignedByte(b.quants[i]))
  }

  /** Eight fifth bits, the first in the lowest place. */
  function FifthBits(s: seq<byte>): byte
    requires |s| == 8
  {
    Fifth(s[0]) | (Fifth(s[1]) << 1) | (Fifth(s[2]) << 2) | (Fifth(s[3]) << 3)
    | (Fifth(s[4]) << 4) | (Fifth(s[5]) << 5) | (Fifth(s[6]) << 6) | (Fifth(s[7]) << 7)
  }

  function Fifth(v: byte): byte { (v >> 4) & 1 }

  /** The scale, the fifth bits of all numbers, and the low bits of the first sixteen beside those of the last. */
  function PackQ5(b: Q5Block): (r: seq<byte>)
    requires Q5Valid(b)
    ensures |r| == 22
  {
    [b.d.lo, b.d.hi]
    + seq(4, i requires 0 <= i < 4 => FifthBits(b.quants[8 * i..8 * i + 8]))
    + seq(16, i requires 0 <= i < 16 => Nibbled(b.quants[i], b.quants[i + 16]))
  }

  /** The scale and minimum, the packed scales and minimums, and in each group of 64 numbers the first 32 beside the
      last. */
  function PackQ4(b: Q4Block): (r: seq<byte>)
    requires Q4Valid(b)
    ensures |r| == 144
  {
    [b.d.lo, b.d.hi, b.min.lo, b.min.hi] + PackScales(b.scales, b.mins)
    + seq(128, i requires 0 <= i < 128 => Nibbled(b.quants[i / 32 * 64 + i % 32], b.quants[i / 32 * 64 + 32 + i % 32]))
  }

  /** The high two bits of four numbers. */
  function HighBits(a: byte, b: byte, c: byte, d: byte): byte {
    FifthAndSixth(a) | (FifthAndSixth(b) << 2) | (FifthAndSixth(c) << 4) | (FifthAndSixth(d) << 6)
  }

  function FifthAndSixth(v: byte): byte { (v >> 4) & 3 }

  /** In each half of 128 numbers the low bits of the first 64 beside those of the last, then the high bits of one
      number of every 32, then the scales, and the block's scale. */
  function PackQ6(b: Q6Block): (r: seq<byte>)
    requires Q6Valid(b)
    ensures |r| == 210
  {
    var v := b.quants;
    seq(128, i requires 0 <= i < 128 => Nibbled(v[i / 64 * 128 + i % 64], v[i / 64 * 128 + 64 + i % 64]))
    + seq(64, i requires 0 <= i < 64 =>
        (var at := i / 32 * 128 + i % 32; HighBits(v[at], v[at + 32], v[at + 64], v[at + 96])))
    + seq(16, i requires 0 <= i < 16 => SignedByte(b.scales[i]))
    + [b.d.lo, b.d.hi]
  }

  // ----- reading a packed block

  lemma NibbledReads(low: byte, high: byte)
    ensures Low(Nibbled(low, high)) == Low(low) && High(Nibbled(low, high)) == Low(high)
  {
    var q := Nibbled(low, high);
    Nibbles(q);
    Nibbles(low);
    Nibbles(high);
    assert q & 0x0f == low & 0x0f && q >> 4 == high & 0x0f;
  }

  lemma SignedByteReads(v: int)
    requires -128 <= v < 128
    ensures Int8(SignedByte(v)) == v
  {
    var n := if v < 0 then v + 256 else v;
    assert (n as byte) as int == n;
  }

  lemma Q8Reads(b: Q8Block, k: nat)
    requires Q8Valid(b) && k < 32
    ensures BlockElement(Q8_0, PackQ8(b), k) == Q8Value(b, k)
  {
    SignedByteReads(b.quants[k]);
  }

  lemma FifthBitsRead(s: seq<byte>, j: nat)
    requires |s| == 8 && j < 8
    ensures Bit(FifthBits(s), j) == Fifth(s[j]) as int
  {
    EightBits(Fifth(s[0]), Fifth(s[1]), Fifth(s[2]), Fifth(s[3]), Fifth(s[4]), Fifth(s[5]), Fifth(s[6]), Fifth(s[7]));
  }

  lemma EightBits(a: byte, b: byte, c: byte, d: byte, e: byte, f: byte, g: byte, h: byte)
    requires a <= 1 && b <= 1 && c <= 1 && d <= 1 && e <= 1 && f <= 1 && g <= 1 && h <= 1
    ensures var q := a | (b << 1) | (c << 2) | (d << 3) | (e << 4) | (f << 5) | (g << 6) | (h << 7);
      && q & 1 == a && (q >> 1) & 1 == b && (q >> 2) & 1 == c && (q >> 3) & 1 == d
      && (q >> 4) & 1 == e && (q >> 5) & 1 == f && (q >> 6) & 1 == g && (q >> 7) & 1 == h
  {}

  lemma FiveBits(v: byte)
    requires v < 32
    ensures v as int == Low(v) + 16 * (Fifth(v) as int)
  {
    Nibbles(v);
    assert Fifth(v) == v >> 4;
  }

  lemma Q5LowByte(b: Q5Block, i: nat)
    requires Q5Valid(b) && i < 16
    ensures var r := PackQ5(b); r[0] == b.d.lo && r[1] == b.d.hi && r[6 + i] == Nibbled(b.quants[i], b.quants[i + 16])
  {
    hide Nibbled, FifthBits;
  }

  lemma Q5FifthBit(b: Q5Block, i: nat, j: nat)
    requires Q5Valid(b) && i < 4 && j < 8
    ensures Bit(PackQ5(b)[2 + i], j) == Fifth(b.quants[8 * i + j]) as int
  {
    hide Nibbled, FifthBits, Fifth, Bit;
    var part := b.quants[8 * i..8 * i + 8];
    FifthBitsRead(part, j);
    assert part[j] == b.quants[8 * i + j];
  }

  /** The two places a number of five bits is read from. */
  lemma Q5Number(b: Q5Block, k: nat)
    requires Q5Valid(b) && k < 32
    ensures var q := PackQ5(b)[6 + k % 16];
      (if k < 16 then Low(q) else High(q)) + 16 * Bit(PackQ5(b)[2 + k / 8], k % 8) == b.quants[k] as int
  {
    hide PackQ5, Nibbled, FifthBits, Fifth, Bit, Low, High;
    var i := k % 16;
    Q5LowByte(b, i);
    Q5FifthBit(b, k / 8, k % 8);
    NibbledReads(b.quants[i], b.quants[i + 16]);
    FiveBits(b.quants[k]);
  }

  lemma Q5Reads(b: Q5Block, k: nat)
    requires Q5Valid(b) && k < 32
    ensures BlockElement(Q5_0, PackQ5(b), k) == Q5Value(b, k)
  {
    hide PackQ5, Nibbled, FifthBits, Bit, Low, High;
    Q5LowByte(b, 0);
    Q5Number(b, k);
  }

  lemma Q4Bytes(b: Q4Block, group: nat, l: nat)
    requires Q4Valid(b) && group < 4 && l < 32
    ensures var r := PackQ4(b);
      r[0] == b.d.lo && r[1] == b.d.hi && r[2] == b.min.lo && r[3] == b.min.hi
        && r[4..16] == PackScales(b.scales, b.mins)
    ensures PackQ4(b)[16 + 32 * group + l] == Nibbled(b.quants[64 * group + l], b.quants[64 * group + 32 + l])
  {
    hide Nibbled, PackScales;
    var i := 32 * group + l;
    assert i / 32 == group && i % 32 == l;
  }

  lemma Q4Number(b: Q4Block, group: nat, half: nat, l: nat)
    requires Q4Valid(b) && group < 4 && half < 2 && l < 32
    ensures var q := PackQ4(b)[16 + 32 * group + l];
      (if half == 0 then Low(q) else High(q)) == b.quants[64 * group + 32 * half + l] as int
  {
    hide PackQ4, Nibbled, PackScales, Low, High, SixBit;
    Q4Bytes(b, group, l);
    NibbledReads(b.quants[64 * group + l], b.quants[64 * group + 32 + l]);
    FourBits(b.quants[64 * group + 32 * half + l]);
  }

  lemma Q4Reads(b: Q4Block, k: nat)
    requires Q4Valid(b) && k < 256
    ensures BlockElement(Q4_K, PackQ4(b), k) == Q4Value(b, k)
  {
    hide PackQ4, PackScales, ScaleMin, Low, High, SixBit, Below;
    var group, half, l := k / 64, k % 64 / 32, k % 32;
    assert k / 32 == 2 * group + half && k == 64 * group + 32 * half + l;
    Q4Bytes(b, 0, 0);
    Q4Number(b, group, half, l);
    ScalesRead(b, k / 32);
    assert BlockElement(Q4_K, PackQ4(b), k) == Q4_KAt(PackQ4(b), group, half, l);
  }

  lemma ScalesRead(b: Q4Block, j: nat)
    requires Q4Valid(b) && j < 8
    ensures |b.scales| == |b.mins| == 8
    ensures ScaleMin(PackScales(b.scales, b.mins), j) == (b.scales[j] as int, b.mins[j] as int)
  {
    hide PackScales, ScaleMin;
    UnpackPack(b.scales, b.mins, j);
  }

  lemma FourBits(v: byte)
    requires v < 16
    ensures v as int == Low(v)
  {
    Nibbles(v);
    assert v & 0x0f == v;
  }

  lemma HighBitsRead(a: byte, b: byte, c: byte, d: byte)
    ensures Pair(HighBits(a, b, c, d), 0) == FifthAndSixth(a) as int
    ensures Pair(HighBits(a, b, c, d), 1) == FifthAndSixth(b) as int
    ensures Pair(HighBits(a, b, c, d), 2) == FifthAndSixth(c) as int
    ensures Pair(HighBits(a, b, c, d), 3) == FifthAndSixth(d) as int
  {
    FourPairs(FifthAndSixth(a), FifthAndSixth(b), FifthAndSixth(c), FifthAndSixth(d));
  }

  lemma FourPairs(a: byte, b: byte, c: byte, d: byte)
    requires a <= 3 && b <= 3 && c <= 3 && d <= 3
    ensures var q := a | (b << 2) | (c << 4) | (d << 6);
      q & 3 == a && (q >> 2) & 3 == b && (q >> 4) & 3 == c && (q >> 6) & 3 == d
  {}

  lemma SixBitNumber(v: byte)
    requires v < 64
    ensures v as int == Low(v) + 16 * (FifthAndSixth(v) as int)
  {
    Nibbles(v);
    assert FifthAndSixth(v) == v >> 4;
  }

  lemma Q6LowBytes(b: Q6Block, half: nat, l: nat)
    requires Q6Valid(b) && half < 2 && l < 32
    ensures var r, v, at := PackQ6(b), b.quants, 128 * half + l;
      r[64 * half + l] == Nibbled(v[at], v[at + 64]) && r[64 * half + 32 + l] == Nibbled(v[at + 32], v[at + 96])
  {
    hide Nibbled, HighBits, SignedByte;
    var i := 64 * half + l;
    assert i / 64 == half && i % 64 == l && (i + 32) / 64 == half && (i + 32) % 64 == l + 32;
  }

  lemma Q6HighByte(b: Q6Block, half: nat, l: nat)
    requires Q6Valid(b) && half < 2 && l < 32
    ensures var v, at := b.quants, 128 * half + l;
      PackQ6(b)[128 + 32 * half + l] == HighBits(v[at], v[at + 32], v[at + 64], v[at + 96])
  {
    hide Nibbled, HighBits, SignedByte;
    var p := 32 * half + l;
    assert p / 32 == half && p % 32 == l;
  }

  lemma Q6ScaleByte(b: Q6Block, j: nat)
    requires Q6Valid(b) && j < 16
    ensures Int8(PackQ6(b)[192 + j]) == b.scales[j] && PackQ6(b)[208] == b.d.lo && PackQ6(b)[209] == b.d.hi
  {
    hide Nibbled, HighBits, SignedByte, Int8;
    SignedByteReads(b.scales[j]);
  }

  /** The two places a number of six bits is read from. */
  lemma Q6Number(b: Q6Block, half: nat, quarter: nat, l: nat)
    requires Q6Valid(b) && half < 2 && quarter < 4 && l < 32
    ensures var q := PackQ6(b)[64 * half + 32 * (quarter % 2) + l];
      (if quarter < 2 then Low(q) else High(q)) + 16 * Pair(PackQ6(b)[128 + 32 * half + l], quarter)
        == b.quants[128 * half + 32 * quarter + l] as int
  {
    hide PackQ6, Nibbled, HighBits, Low, High, Pair, FifthAndSixth;
    var v, at := b.quants, 128 * half + l;
    Q6LowBytes(b, half, l);
    Q6HighByte(b, half, l);
    if quarter % 2 == 0 { NibbledReads(v[at], v[at + 64]); } else { NibbledReads(v[at + 32], v[at + 96]); }
    HighBitsRead(v[at], v[at + 32], v[at + 64], v[at + 96]);
    SixBitNumber(v[at + 32 * quarter]);
  }

  lemma Q6Reads(b: Q6Block, k: nat)
    requires Q6Valid(b) && k < 256
    ensures BlockElement(Q6_K, PackQ6(b), k) == Q6Value(b, k)
  {
    hide PackQ6, Q6_KAt, Q6Value, Q6Valid;
    var half, quarter, l := k / 128, k % 128 / 32, k % 32;
    assert k == 128 * half + 32 * quarter + l;
    Q6ReadsAt(b, half, quarter, l);
  }

  lemma Q6ReadsAt(b: Q6Block, half: nat, quarter: nat, l: nat)
    requires Q6Valid(b) && half < 2 && quarter < 4 && l < 32
    ensures Q6_KAt(PackQ6(b), half, quarter, l) == Q6Value(b, 128 * half + 32 * quarter + l)
  {
    hide PackQ6, Int8, Low, High, Pair, SignedByte, Signed, Below;
    assert (128 * half + 32 * quarter + l) / 16 == 8 * half + 2 * quarter + l / 16;
    Q6Number(b, half, quarter, l);
    Q6ScaleByte(b, 8 * half + 2 * quarter + l / 16);
  }

  // ----- rows of packed blocks

  /** Blocks one after the other. */
  function Row(blocks: seq<seq<byte>>): seq<byte> {
    if blocks == [] then [] else Row(blocks[..|blocks| - 1]) + blocks[|blocks| - 1]
  }

  predicate AllOf(blocks: seq<seq<byte>>, size: nat) {
    forall i :: 0 <= i < |blocks| ==> |blocks[i]| == size
  }

  lemma {:induction false} RowLength(blocks: seq<seq<byte>>, size: nat)
    requires AllOf(blocks, size)
    ensures |Row(blocks)| == |blocks| * size
  {
    if blocks != [] {
      RowLength(blocks[..|blocks| - 1], size);
      MulDistributes(|blocks| - 1, 1, size);
    }
  }

  lemma {:induction false} SliceOfRow(blocks: seq<seq<byte>>, size: nat, i: nat)
    requires AllOf(blocks, size) && i < |blocks|
    ensures 0 <= i * size <= i * size + size <= |Row(blocks)| && Row(blocks)[i * size..i * size + size] == blocks[i]
  {
    var n := |blocks| - 1;
    RowLength(blocks[..n], size);
    MulNonNegative(i, size);
    if i < n { SliceOfRow(blocks[..n], size, i); }
  }

  lemma RowFits(kind: Kind, blocks: seq<seq<byte>>)
    requires AllOf(blocks, BlockBytes(kind))
    ensures Fits(kind, Row(blocks), |blocks| * BlockLen(kind))
  {
    hide Row, BlockLen, BlockBytes;
    RowLength(blocks, BlockBytes(kind));
    DivideSum(|blocks|, BlockLen(kind), 0);
  }

  lemma BlockOfRow(kind: Kind, blocks: seq<seq<byte>>, i: nat)
    requires AllOf(blocks, BlockBytes(kind)) && i < |blocks|
    ensures (i + 1) * BlockBytes(kind) <= |Row(blocks)| && Block(kind, Row(blocks), i) == blocks[i]
  {
    hide Row, BlockBytes;
    SliceOfRow(blocks, BlockBytes(kind), i);
    MulDistributes(i, 1, BlockBytes(kind));
  }

  /** An element of a row is an element of its block. */
  lemma ElementOfRow(kind: Kind, blocks: seq<seq<byte>>, i: nat, k: nat)
    requires AllOf(blocks, BlockBytes(kind)) && i < |blocks| && k < BlockLen(kind)
    ensures Fits(kind, Row(blocks), |blocks| * BlockLen(kind))
      && 0 <= i * BlockLen(kind) + k < |blocks| * BlockLen(kind)
    ensures Elements(kind, Row(blocks), |blocks| * BlockLen(kind))[i * BlockLen(kind) + k]
      == BlockElement(kind, blocks[i], k)
  {
    hide BlockElement, Row, Block, BlockLen, BlockBytes, Fits;
    var len := BlockLen(kind);
    RowFits(kind, blocks);
    MulMonotone(i + 1, |blocks|, len);
    MulDistributes(i, 1, len);
    MulNonNegative(i, len);
    DivideSum(i, len, k);
    BlockOfRow(kind, blocks, i);
  }

  // ----- any packed format

  datatype PackedBlock = AsQ8(q8: Q8Block) | AsQ5(q5: Q5Block) | AsQ4(q4: Q4Block) | AsQ6(q6: Q6Block)

  function Format(b: PackedBlock): Kind {
    match b case AsQ8(_) => Q8_0 case AsQ5(_) => Q5_0 case AsQ4(_) => Q4_K case AsQ6(_) => Q6_K
  }

  predicate Valid(b: PackedBlock) {
    match b case AsQ8(x) => Q8Valid(x) case AsQ5(x) => Q5Valid(x) case AsQ4(x) => Q4Valid(x) case AsQ6(x) => Q6Valid(x)
  }

  function Pack(b: PackedBlock): (r: seq<byte>)
    requires Valid(b)
    ensures |r| == BlockBytes(Format(b))
  {
    match b case AsQ8(x) => PackQ8(x) case AsQ5(x) => PackQ5(x) case AsQ4(x) => PackQ4(x) case AsQ6(x) => PackQ6(x)
  }

  /** The number that element k of the block stands for. */
  function ValueOf(b: PackedBlock, k: nat): Float
    requires Valid(b) && k < BlockLen(Format(b))
  {
    match b
    case AsQ8(x) => Q8Value(x, k)
    case AsQ5(x) => Q5Value(x, k)
    case AsQ4(x) => Q4Value(x, k)
    case AsQ6(x) => Q6Value(x, k)
  }

  predicate AllValid(kind: Kind, blocks: seq<PackedBlock>) {
    forall i :: 0 <= i < |blocks| ==> Valid(blocks[i]) && Format(blocks[i]) == kind
  }

  function Packed(kind: Kind, blocks: seq<PackedBlock>): (r: seq<seq<byte>>)
    requires AllValid(kind, blocks)
    ensures |r| == |blocks| && AllOf(r, BlockBytes(kind)) && forall i :: 0 <= i < |r| ==> r[i] == Pack(blocks[i])
  {
    seq(|blocks|, i requires 0 <= i < |blocks| => Pack(blocks[i]))
  }

  /** b is the row of these blocks. */
  predicate Packs(kind: Kind, blocks: seq<PackedBlock>, b: seq<byte>) {
    AllValid(kind, blocks) && b == Row(Packed(kind, blocks))
  }

  /** Element k of block i, of every block. */
  predicate Holds(kind: Kind, blocks: seq<PackedBlock>, values: seq<Float>)
    requires AllValid(kind, blocks)
  {
    && |values| == |blocks| * BlockLen(kind)
    && forall i, k :: 0 <= i < |blocks| && 0 <= k < BlockLen(kind) ==> HoldsAt(kind, blocks, values, i, k)
  }

  predicate HoldsAt(kind: Kind, blocks: seq<PackedBlock>, values: seq<Float>, i: nat, k: nat)
    requires AllValid(kind, blocks) && i < |blocks| && k < BlockLen(kind)
  {
    0 <= i * BlockLen(kind) + k < |values| && values[i * BlockLen(kind) + k] == ValueOf(blocks[i], k)
  }

  lemma PackedReads(b: PackedBlock, k: nat)
    requires Valid(b) && k < BlockLen(Format(b))
    ensures BlockElement(Format(b), Pack(b), k) == ValueOf(b, k)
  {
    hide BlockElement, PackQ8, PackQ5, PackQ4, PackQ6, Q8Value, Q5Value, Q4Value, Q6Value, Q8Valid, Q5Valid, Q4Valid,
      Q6Valid;
    match b
    case AsQ8(x) => Q8Reads(x, k);
    case AsQ5(x) => Q5Reads(x, k);
    case AsQ4(x) => Q4Reads(x, k);
    case AsQ6(x) => Q6Reads(x, k);
  }

  /** A row of packed blocks holds the values that were packed. */
  lemma PackedRow(kind: Kind, blocks: seq<PackedBlock>, b: seq<byte>)
    requires Packs(kind, blocks, b)
    ensures Fits(kind, b, |blocks| * BlockLen(kind))
    ensures Holds(kind, blocks, Elements(kind, b, |blocks| * BlockLen(kind)))
  {
    hide Row, Fits, Elements, Pack, ValueOf, Valid, BlockLen, BlockBytes, BlockElement;
    RowFits(kind, Packed(kind, blocks));
    forall i, k | 0 <= i < |blocks| && 0 <= k < BlockLen(kind)
      ensures HoldsAt(kind, blocks, Elements(kind, b, |blocks| * BlockLen(kind)), i, k)
    {
      ElementOfRow(kind, Packed(kind, blocks), i, k);
      PackedReads(blocks[i], k);
    }
  }

  // ----- every block is packed from something

  lemma NibbledBack(q: byte)
    ensures Nibbled(LowBits(q), TopBits(q)) == q && LowBits(q) <= 15 && TopBits(q) <= 15
  {}

  function LowBits(q: byte): byte { q & 0x0f }
  function TopBits(q: byte): byte { q >> 4 }

  lemma SignedByteBack(q: byte)
    ensures -128 <= Int8(q) < 128 && SignedByte(Int8(q)) == q
  {}

  lemma Q8Packed(blk: seq<byte>) returns (b: Q8Block)
    requires |blk| == 34
    ensures Q8Valid(b) && PackQ8(b) == blk
  {
    b := Q8Block(HalfBits(blk[0], blk[1]), seq(32, i requires 0 <= i < 32 => Int8(blk[2 + i])));
    forall i | 2 <= i < 34 ensures -128 <= Int8(blk[i]) < 128 && SignedByte(Int8(blk[i])) == blk[i] {
      SignedByteBack(blk[i]);
    }
    hide Int8, SignedByte;
  }

  /** The numbers of a Q4_K block. */
  function Q4Quants(blk: seq<byte>): (v: seq<byte>)
    requires |blk| == 144
    ensures |v| == 256
  {
    seq(256, k requires 0 <= k < 256 =>
      if k % 64 < 32 then LowBits(blk[16 + k / 64 * 32 + k % 32]) else TopBits(blk[16 + k / 64 * 32 + k % 32]))
  }

  lemma Q4QuantsPacked(blk: seq<byte>, i: nat)
    requires |blk| == 144 && i < 128
    ensures var v := Q4Quants(blk); Nibbled(v[i / 32 * 64 + i % 32], v[i / 32 * 64 + 32 + i % 32]) == blk[16 + i]
  {
    hide LowBits, TopBits, Nibbled;
    var k := i / 32 * 64 + i % 32;
    assert k / 64 == i / 32 && k % 64 == i % 32 && k % 32 == i % 32;
    assert (k + 32) / 64 == i / 32 && (k + 32) % 64 == i % 32 + 32 && (k + 32) % 32 == i % 32;
    NibbledBack(blk[16 + i]);
  }

  lemma Q4QuantsBelow(blk: seq<byte>)
    requires |blk| == 144
    ensures Below(Q4Quants(blk), 256, 16)
  {
    hide LowBits, TopBits, Nibbled;
    forall k | 0 <= k < 256 ensures Q4Quants(blk)[k] < 16 { NibbledBack(blk[16 + k / 64 * 32 + k % 32]); }
  }

  lemma Q4Packed(blk: seq<byte>) returns (b: Q4Block)
    requires |blk| == 144
    ensures Q4Valid(b) && PackQ4(b) == blk
  {
    hide SixBit, PackScales, UnpackScale, UnpackMin, Nibbled, Q4Quants, Below;
    PackUnpack(blk[4..16]);
    Q4QuantsBelow(blk);
    var sc := seq(8, j requires 0 <= j < 8 => UnpackScale(blk[4..16], j));
    var m := seq(8, j requires 0 <= j < 8 => UnpackMin(blk[4..16], j));
    b := Q4Block(HalfBits(blk[0], blk[1]), HalfBits(blk[2], blk[3]), sc, m, Q4Quants(blk));
    forall i | 0 <= i < 128
      ensures Nibbled(b.quants[i / 32 * 64 + i % 32], b.quants[i / 32 * 64 + 32 + i % 32]) == blk[16 + i]
    {
      Q4QuantsPacked(blk, i);
    }
    Q4Joined(b, blk);
  }

  lemma Q4Joined(b: Q4Block, blk: seq<byte>)
    requires Q4Valid(b) && |blk| == 144 && PackScales(b.scales, b.mins) == blk[4..16]
    requires b.d == HalfBits(blk[0], blk[1]) && b.min == HalfBits(blk[2], blk[3])
    requires forall i :: 0 <= i < 128 ==>
      Nibbled(b.quants[i / 32 * 64 + i % 32], b.quants[i / 32 * 64 + 32 + i % 32])
      == blk[16 + i]
    ensures PackQ4(b) == blk
  {
    hide SixBit, PackScales, Nibbled, Below;
  }

  // fifth bits

  /** A number of four bits, and one bit of q above it. */
  function WithFifth(n: byte, q: byte, j: nat): byte
    requires j < 8
  {
    n | (((q >> j) & 1) << 4)
  }

  lemma WithFifthBack(n: byte, q: byte, j: nat)
    requires n <= 15 && j < 8
    ensures WithFifth(n, q, j) < 32 && LowBits(WithFifth(n, q, j)) == n && Fifth(WithFifth(n, q, j)) == (q >> j) & 1
  {
    var bit := (q >> j) & 1;
    assert bit <= 1;
    OneBitAbove(n, bit);
  }

  lemma OneBitAbove(n: byte, bit: byte)
    requires n <= 15 && bit <= 1
    ensures n | (bit << 4) < 32 && (n | (bit << 4)) & 0x0f == n && ((n | (bit << 4)) >> 4) & 1 == bit
  {}

  lemma NibbledParts(a: byte, b: byte, q: byte)
    requires LowBits(a) == LowBits(q) && LowBits(b) == TopBits(q)
    ensures Nibbled(a, b) == q
  {
    assert b << 4 == LowBits(b) << 4;
  }

  lemma BitsBack(q: byte)
    ensures (q & 1) | (((q >> 1) & 1) << 1) | (((q >> 2) & 1) << 2) | (((q >> 3) & 1) << 3)
      | (((q >> 4) & 1) << 4) | (((q >> 5) & 1) << 5) | (((q >> 6) & 1) << 6) | (((q >> 7) & 1) << 7) == q
  {}

  function Q5Quants(blk: seq<byte>): (v: seq<byte>)
    requires |blk| == 22
    ensures |v| == 32
  {
    seq(32, k requires 0 <= k < 32 =>
      WithFifth(if k < 16 then LowBits(blk[6 + k]) else TopBits(blk[6 + k - 16]), blk[2 + k / 8], k % 8))
  }

  lemma Q5Quant(blk: seq<byte>, k: nat)
    requires |blk| == 22 && k < 32
    ensures Q5Quants(blk)[k] < 32 && Fifth(Q5Quants(blk)[k]) == (blk[2 + k / 8] >> (k % 8)) & 1
    ensures LowBits(Q5Quants(blk)[k]) == if k < 16 then LowBits(blk[6 + k]) else TopBits(blk[6 + k - 16])
  {
    hide LowBits, TopBits, Fifth, WithFifth;
    NibbledBack(blk[6 + k % 16]);
    WithFifthBack(if k < 16 then LowBits(blk[6 + k]) else TopBits(blk[6 + k - 16]), blk[2 + k / 8], k % 8);
  }

  lemma Q5FifthsPacked(blk: seq<byte>, i: nat)
    requires |blk| == 22 && i < 4
    ensures FifthBits(Q5Quants(blk)[8 * i..8 * i + 8]) == blk[2 + i]
  {
    hide Q5Quants, LowBits, TopBits, Fifth;
    var q, part := blk[2 + i], Q5Quants(blk)[8 * i..8 * i + 8];
    forall j | 0 <= j < 8 ensures Fifth(part[j]) == (q >> j) & 1 {
      Q5Quant(blk, 8 * i + j);
      assert (8 * i + j) / 8 == i && (8 * i + j) % 8 == j;
    }
    assert Fifth(part[0]) == (q >> 0) & 1 && q >> 0 == q;
    assert Fifth(part[1]) == (q >> 1) & 1 && Fifth(part[2]) == (q >> 2) & 1 && Fifth(part[3]) == (q >> 3) & 1;
    assert Fifth(part[4]) == (q >> 4) & 1 && Fifth(part[5]) == (q >> 5) & 1 && Fifth(part[6]) == (q >> 6) & 1;
    assert Fifth(part[7]) == (q >> 7) & 1;
    BitsBack(q);
  }

  lemma Q5QuantsBelow(blk: seq<byte>)
    requires |blk| == 22
    ensures Below(Q5Quants(blk), 32, 32)
  {
    hide Q5Quants, LowBits, TopBits, Fifth;
    forall k | 0 <= k < 32 ensures Q5Quants(blk)[k] < 32 { Q5Quant(blk, k); }
  }

  lemma Q5LowPacked(blk: seq<byte>, i: nat)
    requires |blk| == 22 && i < 16
    ensures Nibbled(Q5Quants(blk)[i], Q5Quants(blk)[i + 16]) == blk[6 + i]
  {
    hide Q5Quants, LowBits, TopBits, Fifth, Nibbled;
    Q5Quant(blk, i);
    Q5Quant(blk, i + 16);
    NibbledParts(Q5Quants(blk)[i], Q5Quants(blk)[i + 16], blk[6 + i]);
  }

  lemma Q5Packed(blk: seq<byte>) returns (b: Q5Block)
    requires |blk| == 22
    ensures Q5Valid(b) && PackQ5(b) == blk
  {
    hide Q5Quants, FifthBits, Nibbled, Below;
    Q5QuantsBelow(blk);
    b := Q5Block(HalfBits(blk[0], blk[1]), Q5Quants(blk));
    forall i | 0 <= i < 4 ensures FifthBits(b.quants[8 * i..8 * i + 8]) == blk[2 + i] { Q5FifthsPacked(blk, i); }
    forall i | 0 <= i < 16 ensures Nibbled(b.quants[i], b.quants[i + 16]) == blk[6 + i] { Q5LowPacked(blk, i); }
  }

  // fifth and sixth bits

  /** A number of four bits, and two bits of q above it. */
  function WithPair(n: byte, q: byte, j: nat): byte
    requires j < 4
  {
    n | (((q >> (2 * j)) & 3) << 4)
  }

  lemma WithPairBack(n: byte, q: byte, j: nat)
    requires n <= 15 && j < 4
    ensures WithPair(n, q, j) < 64 && LowBits(WithPair(n, q, j)) == n
    ensures FifthAndSixth(WithPair(n, q, j)) == (q >> (2 * j)) & 3
  {
    var pair := (q >> (2 * j)) & 3;
    assert pair <= 3;
    TwoBitsAbove(n, pair);
  }

  lemma TwoBitsAbove(n: byte, pair: byte)
    requires n <= 15 && pair <= 3
    ensures n | (pair << 4) < 64 && (n | (pair << 4)) & 0x0f == n && ((n | (pair << 4)) >> 4) & 3 == pair
  {}

  lemma PairsBack(q: byte)
    ensures (q & 3) | (((q >> 2) & 3) << 2) | (((q >> 4) & 3) << 4) | (((q >> 6) & 3) << 6) == q
  {}

  function Q6Quants(blk: seq<byte>): (v: seq<byte>)
    requires |blk| == 210
    ensures |v| == 256
  {
    seq(256, k requires 0 <= k < 256 => Q6Quant(blk, k / 128, k % 128 / 32, k % 32))
  }

  function Q6Quant(blk: seq<byte>, half: nat, quarter: nat, l: nat): byte
    requires |blk| == 210 && half < 2 && quarter < 4 && l < 32
  {
    var q := blk[64 * half + 32 * (quarter % 2) + l];
    WithPair(if quarter < 2 then LowBits(q) else TopBits(q), blk[128 + 32 * half + l], quarter)
  }

  lemma Q6QuantBack(blk: seq<byte>, half: nat, quarter: nat, l: nat)
    requires |blk| == 210 && half < 2 && quarter < 4 && l < 32
    ensures var v := Q6Quants(blk)[128 * half + 32 * quarter + l];
      var q := blk[64 * half + 32 * (quarter % 2) + l];
      && v < 64 && FifthAndSixth(v) == (blk[128 + 32 * half + l] >> (2 * quarter)) & 3
      && LowBits(v) == if quarter < 2 then LowBits(q) else TopBits(q)
  {
    hide LowBits, TopBits, FifthAndSixth, WithPair;
    var q := blk[64 * half + 32 * (quarter % 2) + l];
    var k := 128 * half + 32 * quarter + l;
    assert k / 128 == half && k % 128 / 32 == quarter && k % 32 == l;
    NibbledBack(q);
    WithPairBack(if quarter < 2 then LowBits(q) else TopBits(q), blk[128 + 32 * half + l], quarter);
  }

  lemma Q6LowPacked(blk: seq<byte>, i: nat)
    requires |blk| == 210 && i < 128
    ensures var v := Q6Quants(blk); Nibbled(v[i / 64 * 128 + i % 64], v[i / 64 * 128 + 64 + i % 64]) == blk[i]
  {
    hide Q6Quants, LowBits, TopBits, FifthAndSixth, Nibbled;
    var half, quarter, l := i / 64, i % 64 / 32, i % 32;
    assert i == 64 * half + 32 * quarter + l && i % 64 == 32 * quarter + l;
    Q6QuantBack(blk, half, quarter, l);
    Q6QuantBack(blk, half, quarter + 2, l);
    var v := Q6Quants(blk);
    NibbledParts(v[i / 64 * 128 + i % 64], v[i / 64 * 128 + 64 + i % 64], blk[i]);
  }

  lemma Q6HighPacked(blk: seq<byte>, half: nat, l: nat)
    requires |blk| == 210 && half < 2 && l < 32
    ensures var v, at := Q6Quants(blk), half * 128 + l;
      HighBits(v[at], v[at + 32], v[at + 64], v[at + 96]) == blk[128 + 32 * half + l]
  {
    hide Q6Quants, LowBits, TopBits, FifthAndSixth;
    var q := blk[128 + 32 * half + l];
    Q6QuantBack(blk, half, 0, l);
    Q6QuantBack(blk, half, 1, l);
    Q6QuantBack(blk, half, 2, l);
    Q6QuantBack(blk, half, 3, l);
    assert q >> 0 == q;
    PairsBack(q);
  }

  lemma Q6QuantsBelow(blk: seq<byte>)
    requires |blk| == 210
    ensures Below(Q6Quants(blk), 256, 64)
  {
    hide Q6Quants, LowBits, TopBits, FifthAndSixth;
    forall k | 0 <= k < 256 ensures Q6Quants(blk)[k] < 64 {
      Q6QuantBack(blk, k / 128, k % 128 / 32, k % 32);
      assert 128 * (k / 128) + 32 * (k % 128 / 32) + k % 32 == k;
    }
  }

  lemma Q6ScalesBack(blk: seq<byte>) returns (scales: seq<int>)
    requires |blk| == 210
    ensures Signed(scales, 16) && forall i :: 0 <= i < 16 ==> SignedByte(scales[i]) == blk[192 + i]
  {
    hide Int8, SignedByte;
    scales := seq(16, i requires 0 <= i < 16 => Int8(blk[192 + i]));
    forall i | 0 <= i < 16 ensures -128 <= scales[i] < 128 && SignedByte(scales[i]) == blk[192 + i] {
      SignedByteBack(blk[192 + i]);
    }
  }

  lemma Q6Packed(blk: seq<byte>) returns (b: Q6Block)
    requires |blk| == 210
    ensures Q6Valid(b) && PackQ6(b) == blk
  {
    hide Q6Quants, SignedByte, Signed, Below, PackQ6;
    var scales := Q6ScalesBack(blk);
    Q6QuantsBelow(blk);
    b := Q6Block(HalfBits(blk[208], blk[209]), scales, Q6Quants(blk));
    assert |b.scales| == 16 by { SignedLength(b.scales); }
    Q6Joined(b, blk);
  }

  lemma SignedLength(s: seq<int>)
    requires Signed(s, 16)
    ensures |s| == 16 && forall i :: 0 <= i < 16 ==> -128 <= s[i] < 128
  {}

  lemma Q6Joined(b: Q6Block, blk: seq<byte>)
    requires Q6Valid(b) && |blk| == 210 && b.quants == Q6Quants(blk) && b.d == HalfBits(blk[208], blk[209])
    requires forall i :: 0 <= i < 16 ==> SignedByte(b.scales[i]) == blk[192 + i]
    ensures PackQ6(b) == blk
  {
    hide Q6Quants, HighBits, Nibbled, SignedByte, PackQ6;
    forall i | 0 <= i < 210 ensures PackQ6(b)[i] == blk[i] {
      if i < 128 {
        Q6LowPacked(blk, i);
        Q6PackedAt(b, i);
      } else if i < 192 {
        Q6HighPacked(blk, (i - 128) / 32, (i - 128) % 32);
        Q6PackedAt(b, i);
      } else {
        Q6PackedAt(b, i);
      }
    }
  }

  lemma Q6PackedAt(b: Q6Block, i: nat)
    requires Q6Valid(b) && i < 210
    ensures var r, v := PackQ6(b), b.quants;
      && (i < 128 ==> r[i] == Nibbled(v[i / 64 * 128 + i % 64], v[i / 64 * 128 + 64 + i % 64]))
      && (128 <= i < 192 ==> var at := (i - 128) / 32 * 128 + (i - 128) % 32;
           r[i]
           == HighBits(v[at], v[at + 32], v[at + 64], v[at + 96]))
      && (192 <= i < 208 ==> r[i] == SignedByte(b.scales[i - 192]))
      && (i == 208 ==> r[i] == b.d.lo) && (i == 209 ==> r[i] == b.d.hi)
  {
    hide HighBits, Nibbled, SignedByte;
  }

  // rows

  /** Every block of a packed format is packed from something. */
  lemma EveryBlock(kind: Kind, blk: seq<byte>) returns (b: PackedBlock)
    requires kind in {Q8_0, Q5_0, Q4_K, Q6_K} && |blk| == BlockBytes(kind)
    ensures Valid(b) && Format(b) == kind && Pack(b) == blk
  {
    hide PackQ8, PackQ5, PackQ4, PackQ6, Q8Valid, Q5Valid, Q4Valid, Q6Valid;
    if kind == Q8_0 {
      var x := Q8Packed(blk);
      b := AsQ8(x);
    } else if kind == Q5_0 {
      var x := Q5Packed(blk);
      b := AsQ5(x);
    } else if kind == Q4_K {
      var x := Q4Packed(blk);
      b := AsQ4(x);
    } else {
      var x := Q6Packed(blk);
      b := AsQ6(x);
    }
  }

  /** Every row of whole blocks is a row of packed blocks. */
  lemma {:induction false} EveryRow(kind: Kind, b: seq<byte>, count: nat) returns (blocks: seq<PackedBlock>)
    requires kind in {Q8_0, Q5_0, Q4_K, Q6_K} && |b| == count * BlockBytes(kind)
    ensures |blocks| == count && Packs(kind, blocks, b)
  {
    hide BlockBytes, Pack, Valid;
    if count == 0 {
      blocks := [];
      assert Packed(kind, blocks) == [];
    } else {
      var size := BlockBytes(kind);
      MulDistributes(count - 1, 1, size);
      MulNonNegative(count - 1, size);
      var init := EveryRow(kind, b[..(count - 1) * size], count - 1);
      var last := EveryBlock(kind, b[(count - 1) * size..]);
      blocks := init + [last];
      assert Packed(kind, blocks)[..count - 1] == Packed(kind, init);
    }
  }
}
