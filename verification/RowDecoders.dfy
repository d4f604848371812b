/** compatmigrate/tensor_row.go: the block loops of the decoders, proved against BlockFormat. */
module RowDecoders {
  import opened BlockFormat
  import opened PackedBlocks
  import opened WordBits

  datatype Result<+V> = Ok(value: V) | Err(reason: string)

  // ----- scaleMinK4

  method ScaleMinK4(j: nat, q: seq<byte>) returns (sc: byte, m: byte)
    requires j < 8 && |q| == 12
    ensures (sc as int, m as int) == ScaleMin(q, j)
  {
    if j < 4 {
      sc, m := q[j] & 63, q[j + 4] & 63;
      SixBits(q[j]);
      SixBits(q[j + 4]);
    } else {
      sc, m := (q[j + 4] & 0x0f) | ((q[j - 4] >> 6) << 4), (q[j + 4] >> 4) | ((q[j] >> 6) << 4);
      HighPair(q[j + 4] & 0x0f, q[j - 4]);
      HighPair(q[j + 4] >> 4, q[j]);
      Nibbles(q[j + 4]);
    }
  }

  // ----- row decoders

  /** The first n elements are decoded. */
  ghost predicate Decoded(kind: Kind, b: seq<byte>, total: nat, out: seq<Float>, n: int)
    requires Fits(kind, b, total)
  {
    |out| == total && 0 <= n <= total && forall e :: 0 <= e < n ==> out[e] == Element(kind, b, total, e)
  }

  /** `after` is `before` with one block's elements, from position `start`, filled in. */
  ghost predicate BlockFilled(kind: Kind, blk: seq<byte>, before: seq<Float>, after: seq<Float>, start: nat)
    requires |blk| == BlockBytes(kind)
  {
    && |after| == |before| && start + BlockLen(kind) <= |after|
    && (forall k :: 0 <= k < BlockLen(kind) ==> after[start + k] == BlockElement(kind, blk, k))
    && (forall e :: 0 <= e < start ==> after[e] == before[e])
  }

  /** Element k of block i, seen as an element of the whole row. */
  lemma ElementOfBlock(kind: Kind, b: seq<byte>, n: nat, i: nat, k: nat)
    requires Fits(kind, b, n) && i < n / BlockLen(kind) && k < BlockLen(kind)
    ensures (i + 1) * BlockBytes(kind) <= |b|
    ensures i * BlockLen(kind) + k < n
    ensures Element(kind, b, n, i * BlockLen(kind) + k) == BlockElement(kind, Block(kind, b, i), k)
  {
    assert (i * BlockLen(kind) + k) / BlockLen(kind) == i && (i * BlockLen(kind) + k) % BlockLen(kind) == k;
  }

  lemma NextBlock(kind: Kind, b: seq<byte>, n: nat, i: nat, before: seq<Float>, after: seq<Float>)
    requires Fits(kind, b, n) && i < n / BlockLen(kind) && (i + 1) * BlockBytes(kind) <= |b|
    requires Decoded(kind, b, n, before, i * BlockLen(kind))
    requires BlockFilled(kind, Block(kind, b, i), before, after, i * BlockLen(kind))
    ensures Decoded(kind, b, n, after, (i + 1) * BlockLen(kind))
  {
    hide Block, BlockElement, BlockLen, BlockBytes, Fits, Element;
    forall e | 0 <= e < (i + 1) * BlockLen(kind) ensures after[e] == Element(kind, b, n, e) {
      if e >= i * BlockLen(kind) {
        ElementOfBlock(kind, b, n, i, e - i * BlockLen(kind));
      }
    }
  }

  /** Whatever blocks the row was packed from, the values they stand for are read. */
  ghost predicate ReadsPacked(kind: Kind, b: seq<byte>, n: nat, r: Result<seq<Float>>) {
    forall blocks: seq<PackedBlock> :: Packs(kind, blocks, b) && n == |blocks| * BlockLen(kind) ==>
      r.Ok? && Holds(kind, blocks, r.value)
  }

  lemma PackedOut(kind: Kind, b: seq<byte>, n: nat)
    ensures Fits(kind, b, n) ==> ReadsPacked(kind, b, n, Ok(Elements(kind, b, n)))
    ensures !Fits(kind, b, n) ==> forall reason :: ReadsPacked(kind, b, n, Err(reason))
  {
    hide Packs, Holds, Fits, Elements, BlockLen;
    forall blocks: seq<PackedBlock> | Packs(kind, blocks, b) && n == |blocks| * BlockLen(kind)
      ensures Fits(kind, b, n) && AllValid(kind, blocks) && Holds(kind, blocks, Elements(kind, b, n))
    {
      PackedRow(kind, blocks, b);
      PacksValid(kind, blocks, b);
    }
  }

  lemma PacksValid(kind: Kind, blocks: seq<PackedBlock>, b: seq<byte>)
    requires Packs(kind, blocks, b)
    ensures AllValid(kind, blocks)
  {}

  method FillQ8_0(blk: seq<byte>, out: array<Float>, start: nat)
    requires |blk| == 34 && start + 32 <= out.Length
    modifies out
    ensures BlockFilled(Q8_0, blk, old(out[..]), out[..], start)
  {
    var d := Half(U16(blk[0], blk[1]));
    var qs := blk[2..];
    for i := 0 to |qs|
      invariant forall k :: 0 <= k < i ==> out[start + k] == Q8_0Element(blk, k)
      invariant forall e :: 0 <= e < start ==> out[e] == old(out[e])
    {
      out[start + i] := Mul(d, FromInt(Int8(qs[i])));
    }
  }

  method DecodeQ8_0Row(b: seq<byte>, n: nat) returns (r: Result<seq<Float>>)
    ensures r.Ok? <==> Fits(Q8_0, b, n)
    ensures r.Ok? ==> r.value == Elements(Q8_0, b, n)
    ensures ReadsPacked(Q8_0, b, n, r)
  {
    PackedOut(Q8_0, b, n);
    hide ReadsPacked, Packs, Holds;
    if n % 32 != 0 {
      return Err("q8_0 row length not divisible");
    }
    if |b| != n / 32 * 34 {
      return Err("q8_0 row has the wrong number of bytes");
    }
    var out := new Float[n](_ => FromInt(0));
    for block := 0 to n / 32
      invariant Decoded(Q8_0, b, n, out[..], block * 32)
    {
      ghost var before := out[..];
      FillQ8_0(b[block * 34..(block + 1) * 34], out, block * 32);
      NextBlock(Q8_0, b, n, block, before, out[..]);
    }
    return Ok(out[..]);
  }

  method Q5Step(blk: seq<byte>, j: nat, d: Float, qh: bv32, q: byte) returns (lo: Float, hi: Float)
    requires |blk| == 22 && j < 16 && q == blk[6 + j]
    requires d == Half(U16(blk[0], blk[1])) && qh == U32(blk[2], blk[3], blk[4], blk[5])
    ensures lo == Q5_0Element(blk, j) && hi == Q5_0Element(blk, j + 16)
  {
    lo := Mul(d, FromInt(LowQuant(q, qh, j) - 16));
    hi := Mul(d, FromInt(HighQuant(q, qh, j) - 16));
    Q5Element(blk, j, qh);
  }

  method FillQ5_0(blk: seq<byte>, out: array<Float>, start: nat)
    requires |blk| == 22 && start + 32 <= out.Length
    modifies out
    ensures BlockFilled(Q5_0, blk, old(out[..]), out[..], start)
  {
    hide Q5_0Element, U32, U16;
    var d := Half(U16(blk[0], blk[1]));
    var qh := U32(blk[2], blk[3], blk[4], blk[5]);
    var qs := blk[6..];
    for j := 0 to |qs|
      invariant forall k :: 0 <= k < j ==> out[start + k] == Q5_0Element(blk, k)
      invariant forall k :: 16 <= k < 16 + j ==> out[start + k] == Q5_0Element(blk, k)
      invariant forall e :: 0 <= e < start ==> out[e] == old(out[e])
    {
      var lo, hi := Q5Step(blk, j, d, qh, qs[j]);
      out[start + j] := lo;
      out[start + j + 16] := hi;
    }
  }

  lemma PickAt(blk: seq<byte>, i: nat)
    requires |blk| == 22 && i < 4
    ensures Pick(i, blk[2], blk[3], blk[4], blk[5]) == blk[2 + i]
  {}

  lemma BlockBit(blk: seq<byte>, k: nat, i: nat, m: nat)
    requires |blk| == 22 && k == 8 * i + m && i < 4 && m < 8
    ensures WordBit(U32(blk[2], blk[3], blk[4], blk[5]), k) as int == Bit(blk[2 + k / 8], k % 8)
  {
    hide U32, WordBit, Pick;
    WordBitIsByteBit(i, m, blk[2], blk[3], blk[4], blk[5]);
    assert k / 8 == i && k % 8 == m;
    PickAt(blk, i);
  }

  /** The two quants of a Q5_0 step. */
  lemma Q5Element(blk: seq<byte>, j: nat, qh: bv32)
    requires |blk| == 22 && j < 16 && qh == U32(blk[2], blk[3], blk[4], blk[5])
    ensures Q5_0Element(blk, j) == Mul(Half(U16(blk[0], blk[1])), FromInt(LowQuant(blk[6 + j], qh, j) - 16))
    ensures Q5_0Element(blk, j + 16) == Mul(Half(U16(blk[0], blk[1])), FromInt(HighQuant(blk[6 + j], qh, j) - 16))
  {
    Q5Low(blk, j, qh);
    Q5High(blk, j, qh);
    hide LowQuant, HighQuant, Low, High, Bit, U16;
  }

  lemma Q5Low(blk: seq<byte>, j: nat, qh: bv32)
    requires |blk| == 22 && j < 16 && qh == U32(blk[2], blk[3], blk[4], blk[5])
    ensures LowQuant(blk[6 + j], qh, j) == Low(blk[6 + j]) + 16 * Bit(blk[2 + j / 8], j % 8)
  {
    hide LowQuant, HighQuant, Low, High, Bit, U32, WordBit;
    Quants(blk[6 + j], qh, j);
    BlockBit(blk, j, j / 8, j % 8);
  }

  lemma Q5High(blk: seq<byte>, j: nat, qh: bv32)
    requires |blk| == 22 && j < 16 && qh == U32(blk[2], blk[3], blk[4], blk[5])
    ensures HighQuant(blk[6 + j], qh, j) == High(blk[6 + j]) + 16 * Bit(blk[2 + (j + 16) / 8], (j + 16) % 8)
  {
    hide LowQuant, HighQuant, Low, High, Bit, U32, WordBit;
    Quants(blk[6 + j], qh, j);
    assert (j + 16) / 8 == j / 8 + 2 && (j + 16) % 8 == j % 8;
    BlockBit(blk, j + 16, j / 8 + 2, j % 8);
  }

  method DecodeQ5_0Row(b: seq<byte>, n: nat) returns (r: Result<seq<Float>>)
    ensures r.Ok? <==> Fits(Q5_0, b, n)
    ensures r.Ok? ==> r.value == Elements(Q5_0, b, n)
    ensures ReadsPacked(Q5_0, b, n, r)
  {
    PackedOut(Q5_0, b, n);
    hide ReadsPacked, Packs, Holds;
    if n % 32 != 0 {
      return Err("q5_0 row length not divisible");
    }
    if |b| != n / 32 * 22 {
      return Err("q5_0 row has the wrong number of bytes");
    }
    var out := new Float[n](_ => FromInt(0));
    for block := 0 to n / 32
      invariant Decoded(Q5_0, b, n, out[..], block * 32)
    {
      ghost var before := out[..];
      FillQ5_0(b[block * 22..(block + 1) * 22], out, block * 32);
      NextBlock(Q5_0, b, n, block, before, out[..]);
    }
    return Ok(out[..]);
  }

  lemma Q4At(blk: seq<byte>, group: nat, half: nat, l: nat)
    requires |blk| == 144 && group < 4 && half < 2 && l < 32
    ensures Q4_KElement(blk, 64 * group + 32 * half + l) == Q4_KAt(blk, group, half, l)
  {
    var k := 64 * group + 32 * half + l;
    assert k / 64 == group && k % 64 == 32 * half + l && k % 32 == l;
  }

  /** Element r of a group, found in the half it belongs to. */
  lemma Q4Place(blk: seq<byte>, group: nat, r: nat, v: Float, out: seq<Float>, outOffset: nat)
    requires |blk| == 144 && group < 4 && r < 64 && outOffset + 64 <= |out| && v == out[outOffset + r]
    requires forall l :: 0 <= l < 32 ==> out[outOffset + l] == Q4_KAt(blk, group, 0, l)
    requires forall l :: 0 <= l < 32 ==> out[outOffset + 32 + l] == Q4_KAt(blk, group, 1, l)
    ensures v == Q4_KElement(blk, 64 * group + r)
  {
    hide Q4_KElement, Q4_KAt;
    if r < 32 {
      Q4At(blk, group, 0, r);
    } else {
      Q4At(blk, group, 1, r - 32);
      assert out[outOffset + 32 + (r - 32)] == Q4_KAt(blk, group, 1, r - 32);
    }
  }

  /** The 32 elements of one half group: one nibble of each byte, one scale and minimum. */
  method FillQ4Half(blk: seq<byte>, out: array<Float>, outOffset: nat, qOffset: nat, group: nat, half: nat, ds: Float,
                    ms: Float)
    requires |blk| == 144 && group < 4 && half < 2 && qOffset == 32 * group
    requires outOffset + 32 <= out.Length
    requires forall n :: Q4_KValue(blk, 2 * group + half, n) == Sub(Mul(ds, FromInt(n)), ms)
    modifies out
    ensures forall l :: 0 <= l < 32 ==> out[outOffset + l] == Q4_KAt(blk, group, half, l)
    ensures forall e :: 0 <= e < outOffset ==> out[e] == old(out[e])
  {
    for l := 0 to 32
      invariant forall i :: 0 <= i < l ==> out[outOffset + i] == Q4_KAt(blk, group, half, i)
      invariant forall e :: 0 <= e < outOffset ==> out[e] == old(out[e])
    {
      var q := blk[16 + qOffset + l];
      Nibbles(q);
      out[outOffset + l] := Sub(Mul(ds, FromInt(if half == 0 then (q & 0x0f) as int else (q >> 4) as int)), ms);
    }
  }

  method Q4Scales(blk: seq<byte>, scaleIndex: nat, d: Float, min: Float, scales: seq<byte>)
    returns (ds: Float, ms: Float)
    requires |blk| == 144 && scaleIndex < 8 && scales == blk[4..16]
    requires d == Half(U16(blk[0], blk[1])) && min == Half(U16(blk[2], blk[3]))
    ensures forall n :: Q4_KValue(blk, scaleIndex, n) == Sub(Mul(ds, FromInt(n)), ms)
  {
    var sc, m := ScaleMinK4(scaleIndex, scales);
    ds, ms := Mul(d, FromInt(sc as int)), Mul(min, FromInt(m as int));
  }

  ghost predicate GroupElement(blk: seq<byte>, out: seq<Float>, at: nat, group: nat, r: nat)
    requires |blk| == 144 && group < 4 && r < 64
  {
    at + r < |out| && out[at + r] == Q4_KElement(blk, 64 * group + r)
  }

  /** One group: two scale pairs, the low nibbles and then the high ones. */
  method FillQ4Group(blk: seq<byte>, out: array<Float>, outOffset: nat, qOffset: nat, scaleIndex: nat, group: nat,
                     d: Float, min: Float, scales: seq<byte>)
    requires |blk| == 144 && group < 4 && scaleIndex == 2 * group && qOffset == 32 * group
      && outOffset + 64 <= out.Length
    requires d == Half(U16(blk[0], blk[1])) && min == Half(U16(blk[2], blk[3])) && scales == blk[4..16]
    modifies out
    ensures forall r :: 0 <= r < 64 ==> GroupElement(blk, out[..], outOffset, group, r)
    ensures forall e :: 0 <= e < outOffset ==> out[e] == old(out[e])
  {
    hide Q4_KElement, Q4_KAt, Q4_KValue, U16;
    var d1, m1 := Q4Scales(blk, scaleIndex, d, min, scales);
    var d2, m2 := Q4Scales(blk, scaleIndex + 1, d, min, scales);
    FillQ4Half(blk, out, outOffset, qOffset, group, 0, d1, m1);
    FillQ4Half(blk, out, outOffset + 32, qOffset, group, 1, d2, m2);
    forall r | 0 <= r < 64 ensures GroupElement(blk, out[..], outOffset, group, r) {
      Q4Place(blk, group, r, out[outOffset + r], out[..], outOffset);
    }
  }

  method FillQ4K(blk: seq<byte>, out: array<Float>, start: nat)
    requires |blk| == 144 && start + 256 <= out.Length
    modifies out
    ensures BlockFilled(Q4_K, blk, old(out[..]), out[..], start)
  {
    hide Q4_KElement, U16;
    var d := Half(U16(blk[0], blk[1]));
    var min := Half(U16(blk[2], blk[3]));
    var scales := blk[4..16];
    var outOffset, scaleIndex, qOffset := start, 0, 0;
    for group := 0 to 4
      invariant outOffset == start + 64 * group && scaleIndex == 2 * group && qOffset == 32 * group
      invariant forall k :: 0 <= k < 64 * group ==> out[start + k] == Q4_KElement(blk, k)
      invariant forall e :: 0 <= e < start ==> out[e] == old(out[e])
    {
      FillQ4Group(blk, out, outOffset, qOffset, scaleIndex, group, d, min, scales);
      forall k | 64 * group <= k < 64 * group + 64 ensures out[start + k] == Q4_KElement(blk, k) {
        assert GroupElement(blk, out[..], outOffset, group, k - 64 * group);
      }
      outOffset, qOffset, scaleIndex := outOffset + 64, qOffset + 32, scaleIndex + 2;
    }
  }

  method DecodeQ4KRow(b: seq<byte>, n: nat) returns (r: Result<seq<Float>>)
    ensures r.Ok? <==> Fits(Q4_K, b, n)
    ensures r.Ok? ==> r.value == Elements(Q4_K, b, n)
    ensures ReadsPacked(Q4_K, b, n, r)
  {
    PackedOut(Q4_K, b, n);
    hide ReadsPacked, Packs, Holds;
    if n % 256 != 0 {
      return Err("q4_k row length not divisible");
    }
    if |b| != n / 256 * 144 {
      return Err("q4_k row has the wrong number of bytes");
    }
    var out := new Float[n](_ => FromInt(0));
    for block := 0 to n / 256
      invariant Decoded(Q4_K, b, n, out[..], block * 256)
    {
      ghost var before := out[..];
      FillQ4K(b[block * 144..(block + 1) * 144], out, block * 256);
      NextBlock(Q4_K, b, n, block, before, out[..]);
    }
    return Ok(out[..]);
  }

  lemma Q6At(blk: seq<byte>, half: nat, quarter: nat, l: nat)
    requires |blk| == 210 && half < 2 && quarter < 4 && l < 32
    ensures Q6_KElement(blk, 128 * half + 32 * quarter + l) == Q6_KAt(blk, half, quarter, l)
  {
    var k := 128 * half + 32 * quarter + l;
    assert k / 128 == half && k % 128 == 32 * quarter + l && k % 128 / 32 == quarter && k % 32 == l;
  }

  /** The 6-bit quant of an element: its nibble, and its pair of high bits moved above it. */
  function Q6Quant(nibble: byte, h: byte, quarter: nat): int
    requires quarter < 4
  {
    (nibble | (((h >> (2 * quarter)) & 3) << 4)) as int - 32
  }

  lemma Q6QuantValue(nibble: byte, h: byte, quarter: nat)
    requires quarter < 4 && nibble <= 15
    ensures Q6Quant(nibble, h, quarter) == nibble as int + 16 * Pair(h, quarter) - 32
  {
    PairJoin(nibble, (h >> (2 * quarter)) & 3);
  }

  lemma PairJoin(nibble: byte, p: byte)
    requires nibble <= 15 && p <= 3
    ensures (nibble | (p << 4)) as int == nibble as int + 16 * (p as int)
  {
    ShiftedPair(p);
    assert p << 4 in {0, 0x10, 0x20, 0x30};
    Join(nibble, p << 4);
  }

  /** The value of the element at (half, quarter, l), from the bytes the decoder reads for it. */
  lemma Q6Read(blk: seq<byte>, half: nat, quarter: nat, l: nat)
    requires |blk| == 210 && half < 2 && quarter < 4 && l < 32
    ensures var q := blk[64 * half + 32 * (quarter % 2) + l];
      var nibble := if quarter < 2 then q & 0x0f else q >> 4;
      Q6_KAt(blk, half, quarter, l) ==
        Mul(Mul(Half(U16(blk[208], blk[209])), FromInt(Int8(blk[192 + 8 * half + l / 16 + 2 * quarter]))),
            FromInt(Q6Quant(nibble, blk[128 + 32 * half + l], quarter)))
  {
    var q := blk[64 * half + 32 * (quarter % 2) + l];
    Nibbles(q);
    Q6QuantValue(q & 0x0f, blk[128 + 32 * half + l], quarter);
    Q6QuantValue(q >> 4, blk[128 + 32 * half + l], quarter);
  }

  /** The four values of one step, one for each quarter. */
  method Q6Step(blk: seq<byte>, half: nat, l: nat, qlOffset: nat, qhOffset: nat, scaleOffset: nat)
    returns (v1: Float, v2: Float, v3: Float, v4: Float)
    requires |blk| == 210 && half < 2 && l < 32
    requires qlOffset == 64 * half && qhOffset == 32 * half && scaleOffset == 8 * half
    ensures v1 == Q6_KAt(blk, half, 0, l) && v2 == Q6_KAt(blk, half, 1, l)
    ensures v3 == Q6_KAt(blk, half, 2, l) && v4 == Q6_KAt(blk, half, 3, l)
  {
    var ql, qh, scales := blk[..128], blk[128..192], blk[192..208];
    var d := Half(U16(blk[208], blk[209]));
    var sub := l / 16;
    var q1 := Q6Quant(ql[qlOffset + l] & 0x0f, qh[qhOffset + l], 0);
    var q2 := Q6Quant(ql[qlOffset + l + 32] & 0x0f, qh[qhOffset + l], 1);
    var q3 := Q6Quant(ql[qlOffset + l] >> 4, qh[qhOffset + l], 2);
    var q4 := Q6Quant(ql[qlOffset + l + 32] >> 4, qh[qhOffset + l], 3);
    v1 := Mul(Mul(d, FromInt(Int8(scales[scaleOffset + sub]))), FromInt(q1));
    v2 := Mul(Mul(d, FromInt(Int8(scales[scaleOffset + sub + 2]))), FromInt(q2));
    v3 := Mul(Mul(d, FromInt(Int8(scales[scaleOffset + sub + 4]))), FromInt(q3));
    v4 := Mul(Mul(d, FromInt(Int8(scales[scaleOffset + sub + 6]))), FromInt(q4));
    Q6Read(blk, half, 0, l);
    Q6Read(blk, half, 1, l);
    Q6Read(blk, half, 2, l);
    Q6Read(blk, half, 3, l);
  }

  /** The element at (quarter, l) of a half block is in place. */
  ghost predicate Q6Filled(blk: seq<byte>, out: seq<Float>, outOffset: nat, half: nat, quarter: int, l: int)
    requires |blk| == 210 && half < 2 && outOffset + 128 <= |out|
  {
    0 <= quarter < 4 && 0 <= l < 32 && out[outOffset + 32 * quarter + l] == Q6_KAt(blk, half, quarter, l)
  }

  /** One half block: 32 steps, each writing one element of each quarter. */
  method FillQ6Half(blk: seq<byte>, out: array<Float>, outOffset: nat, half: nat, qlOffset: nat, qhOffset: nat,
                    scaleOffset: nat)
    requires |blk| == 210 && half < 2 && outOffset + 128 <= out.Length
    requires qlOffset == 64 * half && qhOffset == 32 * half && scaleOffset == 8 * half
    modifies out
    ensures forall quarter, l :: 0 <= quarter < 4 && 0 <= l < 32 ==> Q6Filled(blk, out[..], outOffset, half, quarter, l)
    ensures forall e :: 0 <= e < outOffset ==> out[e] == old(out[e])
  {
    hide Q6_KAt, Q6Filled;
    for l := 0 to 32
      invariant forall quarter, i :: 0 <= quarter < 4 && 0 <= i < l ==>
        Q6Filled(blk, out[..], outOffset, half, quarter, i)
      invariant forall e :: 0 <= e < outOffset ==> out[e] == old(out[e])
    {
      ghost var before := out[..];
      var v1, v2, v3, v4 := Q6Step(blk, half, l, qlOffset, qhOffset, scaleOffset);
      out[outOffset + l] := v1;
      out[outOffset + l + 32] := v2;
      out[outOffset + l + 64] := v3;
      out[outOffset + l + 96] := v4;
      assert out[..]
          == before[outOffset + l := v1][outOffset + l + 32 := v2][outOffset + l + 64 := v3][outOffset + l + 96 := v4];
      forall quarter, i | 0 <= quarter < 4 && 0 <= i < l + 1
        ensures Q6Filled(blk, out[..], outOffset, half, quarter, i)
      {
        Q6StepFills(blk, before, out[..], outOffset, half, l, quarter, i);
      }
    }
  }

  lemma Q6StepFills(blk: seq<byte>, before: seq<Float>, after: seq<Float>, outOffset: nat, half: nat, l: nat,
                    quarter: nat, i: nat)
    requires |blk| == 210 && half < 2 && outOffset + 128 <= |before| && quarter < 4 && i <= l < 32
    requires after == before[outOffset + l := Q6_KAt(blk, half, 0, l)][outOffset + l + 32 := Q6_KAt(blk, half, 1, l)]
      [outOffset + l + 64 := Q6_KAt(blk, half, 2, l)][outOffset + l + 96 := Q6_KAt(blk, half, 3, l)]
    requires i < l ==> Q6Filled(blk, before, outOffset, half, quarter, i)
    ensures Q6Filled(blk, after, outOffset, half, quarter, i)
  {
    hide Q6_KAt;
  }

  method FillQ6K(blk: seq<byte>, out: array<Float>, start: nat)
    requires |blk| == 210 && start + 256 <= out.Length
    modifies out
    ensures BlockFilled(Q6_K, blk, old(out[..]), out[..], start)
  {
    var outOffset, qlOffset, qhOffset, scaleOffset := start, 0, 0, 0;
    for half := 0 to 2
      invariant outOffset == start + 128 * half && qlOffset == 64 * half && qhOffset == 32 * half
        && scaleOffset == 8 * half
      invariant forall k :: 0 <= k < 128 * half ==> out[start + k] == Q6_KElement(blk, k)
      invariant forall e :: 0 <= e < start ==> out[e] == old(out[e])
    {
      FillQ6Half(blk, out, outOffset, half, qlOffset, qhOffset, scaleOffset);
      forall k | 128 * half <= k < 128 * half + 128 ensures out[start + k] == Q6_KElement(blk, k) {
        var r := k - 128 * half;
        Q6At(blk, half, r / 32, r % 32);
        assert Q6Filled(blk, out[..], outOffset, half, r / 32, r % 32);
      }
      outOffset, qlOffset, qhOffset, scaleOffset := outOffset + 128, qlOffset + 64, qhOffset + 32, scaleOffset + 8;
    }
  }

  method DecodeQ6KRow(b: seq<byte>, n: nat) returns (r: Result<seq<Float>>)
    ensures r.Ok? <==> Fits(Q6_K, b, n)
    ensures r.Ok? ==> r.value == Elements(Q6_K, b, n)
    ensures ReadsPacked(Q6_K, b, n, r)
  {
    PackedOut(Q6_K, b, n);
    hide ReadsPacked, Packs, Holds;
    if n % 256 != 0 {
      return Err("q6_k row length not divisible");
    }
    if |b| != n / 256 * 210 {
      return Err("q6_k row has the wrong number of bytes");
    }
    var out := new Float[n](_ => FromInt(0));
    for block := 0 to n / 256
      invariant Decoded(Q6_K, b, n, out[..], block * 256)
    {
      ghost var before := out[..];
      FillQ6K(b[block * 210..(block + 1) * 210], out, block * 256);
      NextBlock(Q6_K, b, n, block, before, out[..]);
    }
    return Ok(out[..]);
  }
}
