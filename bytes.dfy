/** Bytes, words and the bitwise operators the emulator applies to them.

    JavaScript's bitwise operators work on 32-bit two's-complement integers.
    Every operand the emulator masks is small, so only the low 16 bits ever
    matter, and Dafny's Euclidean `%` and `/` by a positive constant give the
    same low bits and the same arithmetic right shift, negative values
    included: `v & 0xFF` is `v % 256`, `(v >> 8) & 0xFF` is `(v / 256) % 256`,
    and `v & 0xFF00` is `Hi8(v) * 256`. */
module Bytes {

  type Byte = b: int | 0 <= b < 256

  /** `v & 0xFF`. */
  function Lo8(v: int): Byte
  {
    v % 256
  }

  /** `(v >> 8) & 0xFF`. */
  function Hi8(v: int): Byte
  {
    (v / 256) % 256
  }

  /** `(hi << 8) | lo` on two bytes: the little-endian word they spell. */
  function Word(lo: Byte, hi: Byte): (r: int)
    ensures 0 <= r < 0x10000
  {
    hi * 256 + lo
  }

  /** The bytes of a word are the two it was built from. */
  lemma BytesOfWord(lo: Byte, hi: Byte)
    ensures Lo8(Word(lo, hi)) == lo && Hi8(Word(lo, hi)) == hi
  {
  }

  /** A 16-bit value is the word its two bytes spell. */
  lemma WordOfBytes(v: int)
    requires 0 <= v < 0x10000
    ensures Word(Lo8(v), Hi8(v)) == v
  {
  }

  /** `v & 0xFF00`: the page a value lies in, as the page's first address. */
  function PageOf(v: int): (r: int)
    ensures 0 <= r < 0x10000 && r % 256 == 0
  {
    Hi8(v) * 256
  }

  /** `_crosspage(a, b)` (nes.js:404-406): the two values lie in different
      pages. */
  predicate CrossPage(a: int, b: int)
  {
    PageOf(a) != PageOf(b)
  }

  /** Within the 16-bit range two values share a page exactly when they agree
      on everything but their low byte. */
  lemma CrossPageMeansDifferentHighByte(a: int, b: int)
    requires 0 <= a < 0x10000 && 0 <= b < 0x10000
    ensures CrossPage(a, b) <==> a / 256 != b / 256
  {
  }

  function And(a: Byte, b: Byte): Byte
  {
    ((a as bv8) & (b as bv8)) as int
  }

  function Or(a: Byte, b: Byte): Byte
  {
    ((a as bv8) | (b as bv8)) as int
  }

  function Xor(a: Byte, b: Byte): Byte
  {
    ((a as bv8) ^ (b as bv8)) as int
  }

  /** The low byte of JavaScript's `~a`, which is `-a - 1`. */
  function Not(a: Byte): (r: Byte)
    ensures r == Lo8(-(a as int) - 1)
  {
    255 - a
  }

  /** `(v & 0x80) === 0x80`: bit 7, the sign bit of a byte. */
  predicate Bit7(v: int)
  {
    v % 256 >= 128
  }

  /** `(v & 0x40) === 0x40`: bit 6. */
  predicate Bit6(v: int)
  {
    v % 128 >= 64
  }

  /** Bit 7 of a byte, on its bit-vector. */
  lemma SignBitOfVector(a: Byte)
    ensures (a as bv8) >= 0x80 <==> a >= 128
  {
  }

  /** The top bit of a byte's vector is its bit 7. */
  lemma TopBitIsBit7(b: Byte)
    ensures (b as bv8) >= 0x80 <==> Bit7(b)
  {
    SignBitOfVector(b);
  }

  /** Bit 7 of a number is bit 7 of its low byte. */
  lemma Bit7OfLowByte(x: int)
    ensures Bit7(Lo8(x)) == Bit7(x)
  {
  }

  /** On vectors: bit 7 of `~(x ^ v) & (x ^ r)` is set when x and v agree in
      their top bit and x and r do not. */
  lemma SignTestOnVectors(x: bv8, v: bv8, r: bv8)
    ensures (!(x ^ v) & (x ^ r) & 0x80) != 0 <==> (x >= 0x80) == (v >= 0x80) && (x >= 0x80) != (r >= 0x80)
  {
  }

  /** Bit 7 seen through the bitwise operators. */
  lemma Bit7OfAnd(a: Byte, b: Byte)
    ensures Bit7(And(a, b)) <==> Bit7(a) && Bit7(b)
  {
    SignBitOfVector(a);
    SignBitOfVector(b);
    SignBitOfVector(And(a, b));
    var u, v := a as bv8, b as bv8;
    assert (u & v) >= 0x80 <==> (u >= 0x80 && v >= 0x80);
  }

  lemma Bit7OfXor(a: Byte, b: Byte)
    ensures Bit7(Xor(a, b)) <==> Bit7(a) != Bit7(b)
  {
    SignBitOfVector(a);
    SignBitOfVector(b);
    SignBitOfVector(Xor(a, b));
    var u, v := a as bv8, b as bv8;
    assert (u ^ v) >= 0x80 <==> ((u >= 0x80) != (v >= 0x80));
  }

  lemma Bit7OfNot(a: Byte)
    ensures Bit7(Not(a)) <==> !Bit7(a)
  {
  }

  /** `And(v, 0x80) != 0` is how the source tests bit 7 of a computed mask. */
  lemma AndSignMask(v: Byte)
    ensures And(v, 0x80) != 0 <==> Bit7(v)
  {
    SignBitOfVector(v);
    var u := v as bv8;
    assert (u & 0x80) != 0 <==> u >= 0x80;
  }

  /** `x | 1` on an even value adds one: how ROL brings the carry in. */
  lemma OrOneOnEven(v: Byte)
    requires v % 2 == 0
    ensures Or(v, 1) == v + 1
  {
    EvenHasClearLowBit(v);
    OrOneOnClearLowBit(v);
  }

  lemma OrOneOnClearLowBit(v: Byte)
    requires (v as bv8) & 1 == 0
    ensures Or(v, 1) == v + 1
  {
    OrOneOnClearBit(v as bv8);
    ByteAsVector(v);
  }

  /** `x | 1` on an odd value changes nothing. */
  lemma OrOneOnOdd(v: Byte)
    requires v % 2 == 1
    ensures Or(v, 1) == v
  {
    OddHasSetLowBit(v);
    OrOneOnSetBit(v as bv8);
    ByteAsVector(v);
  }

  lemma OddHasSetLowBit(v: Byte)
    requires v % 2 == 1
    ensures (v as bv8) & 1 == 1
  {
  }

  lemma OrOneOnSetBit(b: bv8)
    requires b & 1 == 1
    ensures b | 1 == b
  {
  }

  /** A bit-vector survives the trip through its number. */
  lemma VectorAsByte(b: bv8)
    ensures 0 <= b as int < 256 && (b as int) as bv8 == b
  {
  }

  /** A byte survives the trip through its bit-vector. */
  lemma ByteAsVector(v: Byte)
    ensures (v as bv8) as int == v
  {
  }

  lemma EvenHasClearLowBit(v: Byte)
    requires v % 2 == 0
    ensures (v as bv8) & 1 == 0
  {
  }

  /** On the bit-vector: setting a clear bit 0 adds one. */
  lemma OrOneOnClearBit(b: bv8)
    requires b & 1 == 0
    ensures (b | 1) as int == b as int + 1
  {
  }

  /** `a | b` on two values of at most 16 bits, byte by byte. */
  function Or16(a: int, b: int): (r: int)
    requires 0 <= a < 0x10000 && 0 <= b < 0x10000
    ensures 0 <= r < 0x10000
  {
    Word(Or(Lo8(a), Lo8(b)), Or(Hi8(a), Hi8(b)))
  }

  /** OR with a value whose low byte is clear keeps the other low byte. */
  lemma OrZeroLowByte(v: Byte)
    ensures Or(0, v) == v && Or(v, 0) == v
  {
  }

  /** A byte's interpretation as a two's-complement signed number. */
  function Signed(b: Byte): (r: int)
    ensures -128 <= r < 128
    ensures (r < 0) <==> Bit7(b)
    ensures Lo8(r) == b
  {
    if b < 128 then b else b - 256
  }
}
