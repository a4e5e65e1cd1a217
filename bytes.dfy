// Go's fixed-width unsigned integers, as bounded integers. Every wrap-around
// the Go code relies on is written out with `%`; the bit-wise operators go
// through `bv8`, the one place where the bits themselves matter.
module Bytes {
  /** A Go `uint8`. */
  type Byte = b: int | 0 <= b < 0x100

  /** A Go `uint16`. */
  type Word = w: int | 0 <= w < 0x1_0000

  /** A display cell: a Go `uint8` that only ever holds 0 or 1. */
  type Pixel = p: int | 0 <= p <= 1

  /** Go `a + b` on `uint8`. */
  function Add8(a: Byte, b: Byte): (r: Byte)
    ensures a as int + b < 0x100 ==> r == a + b
    ensures a as int + b >= 0x100 ==> r == a + b - 0x100
  {
    (a + b) % 0x100
  }

  /** Go `a - b` on `uint8`. */
  function Sub8(a: Byte, b: Byte): (r: Byte)
    ensures a >= b ==> r == a - b
    ensures a < b ==> r == a - b + 0x100
  {
    (a - b) % 0x100
  }

  /** Go `a + b` on `uint16`. */
  function Add16(a: Word, b: Word): (r: Word)
    ensures a as int + b < 0x1_0000 ==> r == a + b
    ensures a as int + b >= 0x1_0000 ==> r == a + b - 0x1_0000
  {
    (a + b) % 0x1_0000
  }

  /** Go `a - b` on `uint16`. */
  function Sub16(a: Word, b: Word): (r: Word)
    ensures a >= b ==> r == a - b
    ensures a < b ==> r == a - b + 0x1_0000
  {
    (a - b) % 0x1_0000
  }

  /** Go `a | b` on `uint8`. */
  function Or8(a: Byte, b: Byte): Byte
  {
    ((a as bv8) | (b as bv8)) as int
  }

  /** Go `a & b` on `uint8`. */
  function And8(a: Byte, b: Byte): Byte
  {
    ((a as bv8) & (b as bv8)) as int
  }

  /** Go `a ^ b` on `uint8`. */
  function Xor8(a: Byte, b: Byte): Byte
  {
    ((a as bv8) ^ (b as bv8)) as int
  }

  /** Go `a >> k` on `uint8`. */
  function Shr8(a: Byte, k: nat): Byte
    requires k <= 8
  {
    ((a as bv8) >> k) as int
  }

  /** Go `b & (0x80 >> j) != 0`: bit `j` of `b`, counting from the most significant. */
  predicate BitSet(b: Byte, j: nat)
    requires j < 8
  {
    (b as bv8) & ((0x80 as bv8) >> j) != 0
  }

  /** Go `p ^= 1` on a display cell: 0 and 1 swap. */
  function Toggle(p: Pixel): (r: Pixel)
    ensures r == 1 - p
  {
    Xor8(p, 1)
  }

  // ---- The bit-wise operators, bit by bit ---------------------------------

  /** A `bv8` mask with exactly one bit set. */
  predicate SingleBit(m: bv8)
  {
    m == 0x80 || m == 0x40 || m == 0x20 || m == 0x10 || m == 0x08 || m == 0x04 || m == 0x02 || m == 0x01
  }

  /** The mask `0x80 >> j` that BitSet tests has one bit set. */
  lemma MaskIsSingleBit(j: nat)
    requires j < 8
    ensures SingleBit((0x80 as bv8) >> j)
  {
  }

  /** Bits read back from their byte are the same bits. */
  lemma BitsRoundTrip(w: bv8)
    ensures (w as int) as bv8 == w
  {
  }

  /** On the bits themselves: a bit of `a | b` is set iff it is set in `a` or `b`. */
  lemma OrMask(a: bv8, b: bv8, m: bv8)
    ensures (a | b) & m != 0 <==> a & m != 0 || b & m != 0
  {
  }

  /** On the bits themselves: bit `m` of `a & b` is set iff it is set in both. */
  lemma AndMask(a: bv8, b: bv8, m: bv8)
    requires SingleBit(m)
    ensures (a & b) & m != 0 <==> a & m != 0 && b & m != 0
  {
  }

  /** On the bits themselves: bit `m` of `a ^ b` is set iff it is set in exactly one. */
  lemma XorMask(a: bv8, b: bv8, m: bv8)
    requires SingleBit(m)
    ensures (a ^ b) & m != 0 <==> (a & m != 0) != (b & m != 0)
  {
  }

  /** On the bits themselves: `w & 1` is 1 exactly when the lowest bit is set. */
  lemma LowBit(w: bv8)
    ensures (w & 1) as int == if w & ((0x80 as bv8) >> 7) != 0 then 1 else 0
  {
  }

  /** On the bits themselves: bit j of `w >> 1` is bit j-1 of `w`, and the top bit is clear. */
  lemma ShiftMask(w: bv8, j: nat)
    requires j < 8
    ensures (w >> 1) & ((0x80 as bv8) >> j) != 0 <==> j > 0 && w & ((0x80 as bv8) >> (j - 1)) != 0
  {
  }

  /** Bit j of `a | b` is set iff it is set in `a` or in `b`. */
  lemma OrBits(a: Byte, b: Byte, j: nat)
    requires j < 8
    ensures BitSet(Or8(a, b), j) <==> BitSet(a, j) || BitSet(b, j)
  {
    BitsRoundTrip((a as bv8) | (b as bv8));
    OrMask(a as bv8, b as bv8, (0x80 as bv8) >> j);
  }

  /** Bit j of `a & b` is set iff it is set in both `a` and `b`. */
  lemma AndBits(a: Byte, b: Byte, j: nat)
    requires j < 8
    ensures BitSet(And8(a, b), j) <==> BitSet(a, j) && BitSet(b, j)
  {
    MaskIsSingleBit(j);
    BitsRoundTrip((a as bv8) & (b as bv8));
    AndMask(a as bv8, b as bv8, (0x80 as bv8) >> j);
  }

  /** Bit j of `a ^ b` is set iff it is set in exactly one of `a` and `b`. */
  lemma XorBits(a: Byte, b: Byte, j: nat)
    requires j < 8
    ensures BitSet(Xor8(a, b), j) <==> BitSet(a, j) != BitSet(b, j)
  {
    MaskIsSingleBit(j);
    BitsRoundTrip((a as bv8) ^ (b as bv8));
    XorMask(a as bv8, b as bv8, (0x80 as bv8) >> j);
  }

  /** `a & 1` is 1 when the lowest bit of `a` (bit 7, counting from the most significant) is set, else 0. */
  lemma AndOneIsLowBit(a: Byte)
    ensures And8(a, 1) == if BitSet(a, 7) then 1 else 0
  {
    LowBit(a as bv8);
  }

  /** `a >> 1` moves every bit one place towards the least significant end and clears the top bit. */
  lemma ShiftRightBits(a: Byte, j: nat)
    requires j < 8
    ensures BitSet(Shr8(a, 1), j) <==> j > 0 && BitSet(a, j - 1)
  {
    BitsRoundTrip((a as bv8) >> 1);
    ShiftMask(a as bv8, j);
  }
}
