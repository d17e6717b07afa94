/** What ADC and SBC compute, stated against two's-complement arithmetic
    rather than the bit tests `_instr_ADC` and `_instr_SBC` (nes.js:202-223)
    spell them with. */
module Arith {
  import opened Bytes
  import opened Execution

  /** V after an addition is the signed overflow of A + M + C: with both
      operands below 128 the sum passes 127 exactly when bit 7 comes on, with
      both at 128 or more it falls below -128 exactly when bit 7 goes off, and
      operands of opposite signs can neither overflow nor set V. */
  lemma AdcOverflowIsSigned(a: Byte, v: Byte, c: int)
    requires c == 0 || c == 1
    ensures OverflowBit(a, v, a + v + c) <==> !(-128 <= Signed(a) + Signed(v) + c < 128)
  {
    var sum := a + v + c;
    if a < 128 && v < 128 {
      assert sum % 256 == sum;
      assert Signed(a) + Signed(v) + c == sum;
    } else if a >= 128 && v >= 128 {
      assert sum % 256 == sum - 256;
      assert Signed(a) + Signed(v) + c == sum - 512;
    } else {
      assert Bit7(a) != Bit7(v);
    }
  }

  /** Adding a page leaves bit 7 alone. */
  lemma Bit7IgnoresPage(x: int)
    ensures Bit7(x + 256) == Bit7(x)
  {
    var q, r := x / 256, x % 256;
    assert x + 256 == (q + 1) * 256 + r;
  }

  /** V after a subtraction is the signed overflow of A - M - (1 - C): adding
      `-M - 1` and adding `~M`, 256 more, agree on every bit 7, so SBC is ADC
      of `~M`, and `~M` is `-M - 1` as a signed byte. */
  lemma SbcOverflowIsSigned(a: Byte, v: Byte, c: int)
    requires c == 0 || c == 1
    ensures var value := -(v as int) - 1;
      OverflowBit(a, value, a + value + c) <==> !(-128 <= Signed(a) - Signed(v) - (1 - c) < 128)
  {
    var value := -(v as int) - 1;
    var nv := Not(v);
    assert nv as int == value + 256;
    Bit7IgnoresPage(value);
    Bit7IgnoresPage(a + value + c);
    assert OverflowBit(a, value, a + value + c) == OverflowBit(a, nv, a + nv + c);
    AdcOverflowIsSigned(a, nv, c);
    assert Signed(nv) == -Signed(v) - 1;
  }

  /** The bits of I, D, B and the unused flag. */
  const KeptFlags: bv8 := 0x3C

  /** What an addition leaves behind: A holds `sum` modulo 256, C and V the
      two given answers, Z and S describe the new A, I, D, B and the unused bit
      keep their values, and no other register or memory cell changes. */
  predicate AddOutcome(m: Machine, r: Machine, sum: int, overflow: bool, carried: bool)
  {
    && r == m.(a := Lo8(sum), p := r.p)
    && (HasFlag(r.p, Carry) <==> carried)
    && (HasFlag(r.p, Overflow) <==> overflow)
    && (HasFlag(r.p, Zero) <==> r.a == 0)
    && (HasFlag(r.p, Sign) <==> r.a >= 128)
    && r.p & KeptFlags == m.p & KeptFlags
  }

  /** The shared tail of ADC and SBC sets V and C as it is told and derives Z
      and S from the new A. */
  lemma AddWithCarryFlags(m: Machine, res: int, overflow: bool, carried: bool)
    ensures AddOutcome(m, AddWithCarry(m, res, overflow, carried), res, overflow, carried)
  {
    var a := Lo8(res);
    assert AddWithCarry(m, res, overflow, carried).p
      == SetFlag(SetFlag(SetFlag(SetFlag(m.p, Overflow, overflow), Zero, a == 0), Sign, Bit7(a)), Carry, carried);
    FourFlagsSet(m.p, overflow, a == 0, Bit7(a), carried);
  }

  /** Setting V, Z, S and C in that order leaves each with the value asked
      for and the other four flags alone. */
  lemma FourFlagsSet(p: bv8, v: bool, z: bool, s: bool, c: bool)
    ensures var q := SetFlag(SetFlag(SetFlag(SetFlag(p, Overflow, v), Zero, z), Sign, s), Carry, c);
      && HasFlag(q, Carry) == c && HasFlag(q, Overflow) == v
      && HasFlag(q, Zero) == z && HasFlag(q, Sign) == s
      && q & KeptFlags == p & KeptFlags
  {
  }

  /** `_instr_ADC`: A becomes A + M + C modulo 256; C says the unsigned sum
      passed 0xFF and V that the signed sum left -128..127. */
  lemma {:induction false} AdcComputesSum(m: Machine, addr: int)
    requires 0 <= addr < 0x10000
    ensures var v, c := m.mem[addr], CarryIn(m.p);
      AddOutcome(m, InstrAdc(m, addr), m.a + v + c,
                 !(-128 <= Signed(m.a) + Signed(v) + c < 128), m.a + v + c > 0xFF)
  {
    var v, c := m.mem[addr], CarryIn(m.p);
    var res := m.a + v + c;
    var overflow := OverflowBit(m.a, v, res);
    assert InstrAdc(m, addr) == AddWithCarry(m, res, overflow, res > 0xFF);
    AdcOverflowIsSigned(m.a, v, c);
    assert overflow == !(-128 <= Signed(m.a) + Signed(v) + c < 128);
    AddWithCarryFlags(m, res, overflow, res > 0xFF);
  }

  /** `_instr_SBC` adds `~M`: A becomes A - M - 1 + C modulo 256; C is set when
      no borrow was needed (A + C > M), V when the signed difference
      A - M - (1 - C) left -128..127. */
  lemma {:induction false} SbcComputesDifference(m: Machine, addr: int)
    requires 0 <= addr < 0x10000
    ensures var v, c := m.mem[addr], CarryIn(m.p);
      AddOutcome(m, InstrSbc(m, addr), m.a - v - 1 + c,
                 !(-128 <= Signed(m.a) - Signed(v) - (1 - c) < 128), m.a + c > v)
  {
    var v, c := m.mem[addr], CarryIn(m.p);
    var value := -(v as int) - 1;
    var res := m.a + value + c;
    var overflow := OverflowBit(m.a, value, res);
    assert InstrSbc(m, addr) == AddWithCarry(m, res, overflow, res >= 0);
    SbcOverflowIsSigned(m.a, v, c);
    assert overflow == !(-128 <= Signed(m.a) - Signed(v) - (1 - c) < 128);
    assert (res >= 0) == (m.a + c > v);
    assert res == m.a - v - 1 + c;
    AddWithCarryFlags(m, res, overflow, res >= 0);
  }

  /** Example: 0x50 + 0x10 with the carry clear is 0x60, with no overflow and
      no carry. */
  lemma AdcSmallSum(m: Machine, addr: int)
    requires 0 <= addr < 0x10000
    requires m.a == 0x50 && m.mem[addr] == 0x10 && !HasFlag(m.p, Carry)
    ensures InstrAdc(m, addr).a == 0x60
    ensures !HasFlag(InstrAdc(m, addr).p, Overflow) && !HasFlag(InstrAdc(m, addr).p, Carry)
  {
    AdcComputesSum(m, addr);
  }

  /** Example: 0x50 + 0x50 is 0xA0, a negative byte from two positive
      ones, so V and S are set. */
  lemma AdcSignedOverflow(m: Machine, addr: int)
    requires 0 <= addr < 0x10000
    requires m.a == 0x50 && m.mem[addr] == 0x50 && !HasFlag(m.p, Carry)
    ensures InstrAdc(m, addr).a == 0xA0
    ensures HasFlag(InstrAdc(m, addr).p, Overflow) && HasFlag(InstrAdc(m, addr).p, Sign)
    ensures !HasFlag(InstrAdc(m, addr).p, Carry)
  {
    AdcComputesSum(m, addr);
  }
}
