/** `Buff` (ui/src/buff.js): the browser stand-in for Node's Buffer, a
    `Uint8Array` with the two little-endian readers `inesparser` calls.
    Indexing a `Uint8Array` outside its length gives `undefined`. */
module Buff {
  import opened Wrappers
  import opened Bytes

  /** `this[i]`: the byte at `i`, or None (`undefined`) outside the array. */
  function At(b: seq<Byte>, i: int): Option<Byte>
  {
    if 0 <= i < |b| then Some(b[i]) else None
  }

  /** A byte read under a bitwise operator, where `undefined` counts as 0. */
  function OrZero(o: Option<Byte>): Byte
  {
    if o.Some? then o.value else 0
  }

  /** `readInt8(offset = 0)`: despite its name, the stored byte as it is. */
  function ReadInt8(b: seq<Byte>, offset: int := 0): (r: Option<Byte>)
    ensures r.Some? <==> 0 <= offset < |b|
    ensures r.Some? ==> r.value == b[offset]
  {
    At(b, offset)
  }

  /** The unsigned number the four bytes at `offset` spell, least significant
      first, with a missing byte counting as 0. */
  function Unsigned32LE(b: seq<Byte>, offset: int): (u: int)
    ensures 0 <= u < 0x1_0000_0000
  {
    OrZero(At(b, offset))
      + OrZero(At(b, offset + 1)) * 0x100
      + OrZero(At(b, offset + 2)) * 0x1_0000
      + OrZero(At(b, offset + 3)) * 0x100_0000
  }

  /** `readUInt32LE(offset = 0)`: `b0 | b1 << 8 | b2 << 16 | b3 << 24`. The
      shifted bytes occupy disjoint bits, so the OR is their sum, but JavaScript
      reads the result as a signed 32-bit integer. */
  function ReadUInt32LE(b: seq<Byte>, offset: int := 0): (r: int)
    ensures -0x8000_0000 <= r < 0x8000_0000
  {
    var u := Unsigned32LE(b, offset);
    if u >= 0x8000_0000 then u - 0x1_0000_0000 else u
  }

  /** The four bytes the iNES header starts with: "NES" and MS-DOS's EOF. */
  const Magic: seq<Byte> := [0x4E, 0x45, 0x53, 0x1A]

  /** The number `inesparser` compares the first word against. */
  const MagicWord: int := 0x1A53454E

  /** Four bytes in base 256 determine the number and the number determines
      them. */
  lemma DigitsDetermineNumber(d0: Byte, d1: Byte, d2: Byte, d3: Byte)
    ensures var n := d0 + d1 * 0x100 + d2 * 0x1_0000 + d3 * 0x100_0000;
      && n % 0x100 == d0
      && (n / 0x100) % 0x100 == d1
      && (n / 0x1_0000) % 0x100 == d2
      && n / 0x100_0000 == d3
  {
    var n := d0 + d1 * 0x100 + d2 * 0x1_0000 + d3 * 0x100_0000;
    var q1 := d1 + d2 * 0x100 + d3 * 0x1_0000;
    var q2 := d2 + d3 * 0x100;
    assert n == q1 * 0x100 + d0;
    assert n / 0x100 == q1;
    assert q1 == q2 * 0x100 + d1;
    assert n / 0x1_0000 == q2 by {
      assert n == q2 * 0x1_0000 + (d1 * 0x100 + d0);
    }
    assert n / 0x100_0000 == d3 by {
      assert n == d3 * 0x100_0000 + (d2 * 0x1_0000 + d1 * 0x100 + d0);
    }
  }

  /** Taking a multiple of 256 away leaves the low byte alone. */
  lemma LowByteIgnoresWholePages(x: int, k: int)
    ensures Lo8(x - k * 0x100) == Lo8(x)
  {
    var q, r := x / 0x100, x % 0x100;
    assert x - k * 0x100 == (q - k) * 0x100 + r;
  }

  /** Subtracting 2^32 shifts each of the quotients the byte reads divide
      by, so it leaves every byte in place. */
  lemma WrapKeepsBytes(u: int)
    ensures Lo8(u - 0x1_0000_0000) == Lo8(u)
    ensures Lo8((u - 0x1_0000_0000) / 0x100) == Lo8(u / 0x100)
    ensures Lo8((u - 0x1_0000_0000) / 0x1_0000) == Lo8(u / 0x1_0000)
    ensures Lo8((u - 0x1_0000_0000) / 0x100_0000) == Lo8(u / 0x100_0000)
  {
    var w := u - 0x1_0000_0000;
    LowByteIgnoresWholePages(u, 0x100_0000);
    var q1, r1 := u / 0x100, u % 0x100;
    assert w == (q1 - 0x100_0000) * 0x100 + r1;
    assert w / 0x100 == q1 - 0x100_0000;
    LowByteIgnoresWholePages(q1, 0x1_0000);
    var q2, r2 := u / 0x1_0000, u % 0x1_0000;
    assert w == (q2 - 0x1_0000) * 0x1_0000 + r2;
    assert w / 0x1_0000 == q2 - 0x1_0000;
    LowByteIgnoresWholePages(q2, 0x100);
    var q3, r3 := u / 0x100_0000, u % 0x100_0000;
    assert w == (q3 - 0x100) * 0x100_0000 + r3;
    assert w / 0x100_0000 == q3 - 0x100;
    LowByteIgnoresWholePages(q3, 1);
  }

  /** Each byte of the word comes back out of the number `readUInt32LE`
      returns, negative results included: the read loses nothing. */
  lemma {:induction false} ReadUInt32LERecoversBytes(b: seq<Byte>, offset: int)
    requires 0 <= offset && offset + 4 <= |b|
    ensures var r := ReadUInt32LE(b, offset);
      && Lo8(r) == b[offset]
      && Lo8(r / 0x100) == b[offset + 1]
      && Lo8(r / 0x1_0000) == b[offset + 2]
      && Lo8(r / 0x100_0000) == b[offset + 3]
  {
    var d0: int, d1: int, d2: int, d3: int := b[offset], b[offset + 1], b[offset + 2], b[offset + 3];
    var u := Unsigned32LE(b, offset);
    assert u == d0 + d1 * 0x100 + d2 * 0x1_0000 + d3 * 0x100_0000;
    DigitsDetermineNumber(d0, d1, d2, d3);
    assert Lo8(u / 0x100_0000) == d3;
    WrapKeepsBytes(u);
  }

  /** The result is negative exactly when the fourth byte has its top bit set
      (the read is signed despite its name). */
  lemma {:induction false} ReadUInt32LESign(b: seq<Byte>, offset: int)
    ensures ReadUInt32LE(b, offset) < 0 <==> OrZero(At(b, offset + 3)) >= 0x80
  {
    var d3: int := OrZero(At(b, offset + 3));
    var low := OrZero(At(b, offset)) + OrZero(At(b, offset + 1)) * 0x100
      + OrZero(At(b, offset + 2)) * 0x1_0000;
    assert 0 <= low < 0x100_0000;
    assert Unsigned32LE(b, offset) == low + d3 * 0x100_0000;
  }

  /** The header word is the magic number exactly when the buffer starts with
      the bytes 4E 45 53 1A. */
  lemma {:induction false} MagicWordMeansMagicBytes(b: seq<Byte>)
    ensures ReadUInt32LE(b) == MagicWord <==> |b| >= 4 && b[..4] == Magic
  {
    var d0: int, d1: int, d2: int, d3: int := OrZero(At(b, 0)), OrZero(At(b, 1)), OrZero(At(b, 2)), OrZero(At(b, 3));
    var u := Unsigned32LE(b, 0);
    assert u == d0 + d1 * 0x100 + d2 * 0x1_0000 + d3 * 0x100_0000;
    DigitsDetermineNumber(d0, d1, d2, d3);
    if ReadUInt32LE(b) == MagicWord {
      assert u == MagicWord;
      assert d0 == 0x4E && d1 == 0x45 && d2 == 0x53 && d3 == 0x1A;
      assert |b| >= 4;
      assert b[..4] == [d0, d1, d2, d3];
    }
    if |b| >= 4 && b[..4] == Magic {
      assert b[0] == 0x4E && b[1] == 0x45 && b[2] == 0x53 && b[3] == 0x1A;
    }
  }

  /** `readInt8` does not sign-extend: a byte with its top bit set reads as a
      number above 127, where a signed read would give a negative one. */
  lemma ReadInt8IsNotSigned(b: seq<Byte>, offset: int)
    requires 0 <= offset < |b| && b[offset] >= 0x80
    ensures ReadInt8(b, offset).value >= 0x80
    ensures ReadInt8(b, offset).value != Signed(b[offset])
  {
  }
}
