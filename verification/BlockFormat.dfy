/** Closed forms of the packed GGUF formats: the value of one element as a function of its block. */
module BlockFormat {
  type byte = bv8

  /** The float arithmetic of the decoders, kept as expressions: which values are combined, and how,
      but not how they round. */
  datatype Float =
    | Single(bits: int)
    | Half(bits: int)
    | BHalf(bits: int)
    | FromInt(i: int)
    | Mul(a: Float, b: Float)
    | Sub(a: Float, b: Float)

  datatype Kind = F32 | F16 | BF16 | Q8_0 | Q5_0 | Q4_K | Q6_K

  function BlockLen(kind: Kind): (n: nat)
    ensures n > 0
  {
    match kind
    case F32 => 1 case F16 => 1 case BF16 => 1
    case Q8_0 => 32 case Q5_0 => 32
    case Q4_K => 256 case Q6_K => 256
  }

  function BlockBytes(kind: Kind): (n: nat)
    ensures n > 0
  {
    match kind
    case F32 => 4 case F16 => 2 case BF16 => 2
    case Q8_0 => 34 case Q5_0 => 22
    case Q4_K => 144 case Q6_K => 210
  }

  // ----- bytes

  function U16(lo: byte, hi: byte): int { lo as int + 256 * (hi as int) }

  function Int8(b: byte): int { if b < 128 then b as int else b as int - 256 }

  function Low(b: byte): int { b as int % 16 }
  function High(b: byte): int { b as int / 16 }

  /** Bit k of a byte. */
  function Bit(b: byte, k: nat): int
    requires k < 8
  {
    ((b >> k) & 1) as int
  }

  /** The two bits of a byte that start at bit 2*k. */
  function Pair(b: byte, k: nat): int
    requires k < 4
  {
    ((b >> (2 * k)) & 3) as int
  }

  // ----- elements

  function Q8_0Element(b: seq<byte>, k: nat): Float
    requires |b| == 34 && k < 32
  {
    Mul(Half(U16(b[0], b[1])), FromInt(Int8(b[2 + k])))
  }

  /** 4 low bits from a nibble, the fifth from the block's bit string, offset by 16. */
  function Q5_0Element(b: seq<byte>, k: nat): Float
    requires |b| == 22 && k < 32
  {
    Q5_0Value(b, if k < 16 then Low(b[6 + k]) else High(b[6 + k - 16]), Bit(b[2 + k / 8], k % 8))
  }

  function Q5_0Value(b: seq<byte>, nibble: int, bit: int): Float
    requires |b| == 22
  {
    Mul(Half(U16(b[0], b[1])), FromInt(nibble + 16 * bit - 16))
  }

  /** Each 32 elements have a 6-bit scale and a 6-bit minimum; 64 elements share 32 bytes of nibbles. */
  function Q4_KElement(b: seq<byte>, k: nat): Float
    requires |b| == 144 && k < 256
  {
    Q4_KAt(b, k / 64, k % 64 / 32, k % 32)
  }

  function Q4_KAt(b: seq<byte>, group: nat, half: nat, l: nat): Float
    requires |b| == 144 && group < 4 && half < 2 && l < 32
  {
    var q := b[16 + group * 32 + l];
    Q4_KValue(b, 2 * group + half, if half == 0 then Low(q) else High(q))
  }

  function Q4_KValue(b: seq<byte>, sub: nat, nibble: int): Float
    requires |b| == 144 && sub < 8
  {
    var (scale, min) := ScaleMin(b[4..16], sub);
    Sub(Mul(Mul(Half(U16(b[0], b[1])), FromInt(scale)), FromInt(nibble)),
        Mul(Half(U16(b[2], b[3])), FromInt(min)))
  }

  /** The j-th 6-bit scale and minimum of the 12 packed bytes: the first four of each are whole, the
      last four keep their high two bits in the spare bits of the first four. */
  function ScaleMin(q: seq<byte>, j: nat): (int, int)
    requires |q| == 12 && j < 8
  {
    if j < 4 then (q[j] as int % 64, q[j + 4] as int % 64)
    else (Low(q[j + 4]) + 16 * Pair(q[j - 4], 3), High(q[j + 4]) + 16 * Pair(q[j], 3))
  }

  /** 4 low bits from a nibble, 2 high bits from a pair, offset by 32, with a signed scale per 16. */
  function Q6_KElement(b: seq<byte>, k: nat): Float
    requires |b| == 210 && k < 256
  {
    Q6_KAt(b, k / 128, k % 128 / 32, k % 32)
  }

  function Q6_KAt(b: seq<byte>, half: nat, quarter: nat, l: nat): Float
    requires |b| == 210 && half < 2 && quarter < 4 && l < 32
  {
    var q := b[half * 64 + quarter % 2 * 32 + l];
    Q6_KValue(b, 192 + half * 8 + quarter * 2 + l / 16,
              if quarter < 2 then Low(q) else High(q), Pair(b[128 + half * 32 + l], quarter))
  }

  function Q6_KValue(b: seq<byte>, scale: nat, nibble: int, pair: int): Float
    requires |b| == 210 && scale < 210
  {
    Mul(Mul(Half(U16(b[208], b[209])), FromInt(Int8(b[scale]))), FromInt(nibble + 16 * pair - 32))
  }

  function BlockElement(kind: Kind, b: seq<byte>, k: nat): Float
    requires |b| == BlockBytes(kind) && k < BlockLen(kind)
  {
    match kind
    case F32 => Single(U16(b[0], b[1]) + 65536 * U16(b[2], b[3]))
    case F16 => Half(U16(b[0], b[1]))
    case BF16 => BHalf(U16(b[0], b[1]))
    case Q8_0 => Q8_0Element(b, k)
    case Q5_0 => Q5_0Element(b, k)
    case Q4_K => Q4_KElement(b, k)
    case Q6_K => Q6_KElement(b, k)
  }

  /** Bytes of n elements, n a whole number of blocks. */
  predicate Fits(kind: Kind, b: seq<byte>, n: nat) {
    n % BlockLen(kind) == 0 && |b| == n / BlockLen(kind) * BlockBytes(kind)
  }

  /** Block number i of packed data. */
  function Block(kind: Kind, b: seq<byte>, i: nat): (r: seq<byte>)
    requires (i + 1) * BlockBytes(kind) <= |b|
    ensures |r| == BlockBytes(kind)
  {
    b[i * BlockBytes(kind)..(i + 1) * BlockBytes(kind)]
  }

  /** Element e of packed data. */
  function Element(kind: Kind, b: seq<byte>, n: nat, e: nat): Float
    requires Fits(kind, b, n) && e < n
  {
    BlockInRange(kind, n, e);
    BlockElement(kind, Block(kind, b, e / BlockLen(kind)), e % BlockLen(kind))
  }

  lemma BlockInRange(kind: Kind, n: nat, e: nat)
    requires e < n && n % BlockLen(kind) == 0
    ensures 0 <= e / BlockLen(kind) < n / BlockLen(kind)
    ensures (e / BlockLen(kind) + 1) * BlockBytes(kind) <= n / BlockLen(kind) * BlockBytes(kind)
  {}

  /** All n elements. */
  function Elements(kind: Kind, b: seq<byte>, n: nat): (r: seq<Float>)
    requires Fits(kind, b, n)
    ensures |r| == n && forall e :: 0 <= e < n ==> r[e] == Element(kind, b, n, e)
  {
    seq(n, e requires 0 <= e < n => Element(kind, b, n, e))
  }

  // ----- what the bit operations of the decoders compute

  lemma Nibbles(q: byte)
    ensures (q & 0x0f) as int == Low(q)
    ensures (q >> 4) as int == High(q)
  {}

  lemma SixBits(q: byte)
    ensures (q & 63) as int == q as int % 64
  {}

  lemma Join(n: byte, h: byte)
    requires n <= 15 && h in {0, 0x10, 0x20, 0x30}
    ensures (n | h) as int == n as int + h as int
  {
    assert n | h == n + h;
    if h == 0x10 {} else if h == 0x20 {} else if h == 0x30 {} else {}
  }
}
