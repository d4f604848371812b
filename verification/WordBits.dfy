/** Bits of the 32-bit string of a Q5_0 block, in terms of its bytes. */
module WordBits {
  import opened BlockFormat

  /** binary.LittleEndian.Uint32 */
  function U32(b0: byte, b1: byte, b2: byte, b3: byte): bv32 {
    (b0 as bv32) | ((b1 as bv32) << 8) | ((b2 as bv32) << 16) | ((b3 as bv32) << 24)
  }

  function Pick(k: nat, b0: byte, b1: byte, b2: byte, b3: byte): byte
    requires k < 4
  {
    if k == 0 then b0 else if k == 1 then b1 else if k == 2 then b2 else b3
  }

  /** Bit k of a word. */
  function WordBit(w: bv32, k: nat): byte
    requires k < 32
  {
    ((w >> k) & 1) as bv8
  }

  lemma Amount8(k: nat)
    requires k < 16
    ensures ((k + 8) as bv6) == (k as bv6) + 8
  {}

  lemma Amount12(k: nat)
    requires k < 16
    ensures ((k + 12) as bv6) == (k as bv6) + 12
  {}

  lemma Amount16(k: nat)
    requires k < 16
    ensures ((k + 16) as bv6) == (k as bv6) + 16
  {}

  lemma Amount24(k: nat)
    requires k < 8
    ensures ((k + 24) as bv6) == (k as bv6) + 24
  {}

  lemma SmallAmount(k: nat)
    requires k < 16
    ensures k as bv6 < 16
    ensures k < 8 ==> k as bv6 < 8 && ((k as bv6) as bv4) == k as bv4
  {}

  lemma FirstByte(k: bv6, b0: byte, b1: byte, b2: byte, b3: byte)
    requires k < 8
    ensures (((U32(b0, b1, b2, b3) >> k) & 1) as bv8) == (b0 >> (k as bv4)) & 1
  {}

  lemma SecondByte(k: bv6, b0: byte, b1: byte, b2: byte, b3: byte)
    requires k < 8
    ensures (((U32(b0, b1, b2, b3) >> (k + 8)) & 1) as bv8) == (b1 >> (k as bv4)) & 1
  {}

  lemma ThirdByte(k: bv6, b0: byte, b1: byte, b2: byte, b3: byte)
    requires k < 8
    ensures (((U32(b0, b1, b2, b3) >> (k + 16)) & 1) as bv8) == (b2 >> (k as bv4)) & 1
  {}

  lemma FourthByte(k: bv6, b0: byte, b1: byte, b2: byte, b3: byte)
    requires k < 8
    ensures (((U32(b0, b1, b2, b3) >> (k + 24)) & 1) as bv8) == (b3 >> (k as bv4)) & 1
  {}

  /** Bit 8*i + k of the word is bit k of byte i. */
  lemma WordBitIsByteBit(i: nat, k: nat, b0: byte, b1: byte, b2: byte, b3: byte)
    requires i < 4 && k < 8
    ensures WordBit(U32(b0, b1, b2, b3), 8 * i + k) == (Pick(i, b0, b1, b2, b3) >> k) & 1
  {
    SmallAmount(k);
    if i == 0 { FirstByte(k as bv6, b0, b1, b2, b3); }
    else if i == 1 { Amount8(k); SecondByte(k as bv6, b0, b1, b2, b3); }
    else if i == 2 { Amount16(k); ThirdByte(k as bv6, b0, b1, b2, b3); }
    else { Amount24(k); FourthByte(k as bv6, b0, b1, b2, b3); }
  }

  lemma MovedBits(w: bv32, k: bv6)
    requires k < 16
    ensures ((((w >> k) << 4) & 0x10) as bv8) == (((w >> k) & 1) as bv8) << 4
    ensures (((w >> (k + 12)) & 0x10) as bv8) == (((w >> (k + 16)) & 1) as bv8) << 4
  {}

  /** The decoder's two ways of moving an element's own bit to position 4. */
  lemma MovedToFour(w: bv32, j: nat)
    requires j < 16
    ensures ((((w >> j) << 4) & 0x10) as bv8) == WordBit(w, j) << 4
    ensures (((w >> (j + 12)) & 0x10) as bv8) == WordBit(w, j + 16) << 4
  {
    SmallAmount(j);
    Amount12(j);
    Amount16(j);
    MovedBits(w, j as bv6);
  }

  lemma WordBitSmall(w: bv32, k: nat)
    requires k < 32
    ensures WordBit(w, k) <= 1
  {}

  lemma FiveBits(nibble: byte, bit: byte)
    requires nibble <= 15 && bit <= 1
    ensures (nibble | (bit << 4)) as int == nibble as int + 16 * (bit as int)
  {
    if bit == 0 {} else { assert bit == 1; Join(nibble, 0x10); }
  }

  /** The two 5-bit quants of byte j: a nibble, and the element's bit moved above it. */
  function LowQuant(q: byte, qh: bv32, j: nat): int
    requires j < 16
  {
    ((q & 0x0f) | ((((qh >> j) << 4) & 0x10) as bv8)) as int
  }

  function HighQuant(q: byte, qh: bv32, j: nat): int
    requires j < 16
  {
    ((q >> 4) | (((qh >> (j + 12)) & 0x10) as bv8)) as int
  }

  lemma Quants(q: byte, w: bv32, j: nat)
    requires j < 16
    ensures LowQuant(q, w, j) == Low(q) + 16 * (WordBit(w, j) as int)
    ensures HighQuant(q, w, j) == High(q) + 16 * (WordBit(w, j + 16) as int)
  {
    MovedToFour(w, j);
    WordBitSmall(w, j);
    WordBitSmall(w, j + 16);
    FiveBits(q & 0x0f, WordBit(w, j));
    FiveBits(q >> 4, WordBit(w, j + 16));
    Nibbles(q);
  }
}
