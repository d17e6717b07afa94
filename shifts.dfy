/** The four shifts and rotates (nes.js:225-267) and the combined
    instructions built on them (nes.js:486-505): the bit shifted off lands in
    C, ROL and ROR bring C in at the other end, LSR always clears S, and only
    A (Accumulator mode) or only the addressed cell changes. */
module Shifts {
  import opened Bytes
  import opened Opcodes
  import opened Execution
  import opened Arith

  /** The bits of I, D, B, the unused flag and V. */
  const ShiftKept: bv8 := 0x7C

  /** What a shift leaves behind: `value` in A or in the cell, C set from
      `carry`, Z and S describing `value`, the other five flags and every other
      register, cell and the clock as before. */
  predicate ShiftOutcome(m: Machine, r: Machine, addr: int, am: AddrMode, value: Byte, carry: bool)
    requires am == Accumulator || 0 <= addr < 0x10000
  {
    && (if am == Accumulator then r == m.(a := value, p := r.p)
        else r == m.(mem := m.mem[addr := value], p := r.p))
    && (HasFlag(r.p, Carry) <==> carry)
    && (HasFlag(r.p, Zero) <==> value == 0)
    && (HasFlag(r.p, Sign) <==> value >= 128)
    && r.p & ShiftKept == m.p & ShiftKept
  }

  /** Setting C, Z and S in that order leaves each with the value asked for
      and the other five flags alone. */
  lemma ThreeFlagsSet(p: bv8, c: bool, z: bool, s: bool)
    ensures var q := SetFlag(SetFlag(SetFlag(p, Carry, c), Zero, z), Sign, s);
      && HasFlag(q, Carry) == c && HasFlag(q, Zero) == z && HasFlag(q, Sign) == s
      && q & ShiftKept == p & ShiftKept
  {
  }

  /** The flags the common tail of the four handlers leaves: C from
      `carry`, Z and S from the value stored. */
  lemma TailFlags(p: bv8, value: Byte, carry: bool)
    ensures var q := FlagZS(SetFlag(p, Carry, carry), value);
      && (HasFlag(q, Carry) <==> carry)
      && (HasFlag(q, Zero) <==> value == 0)
      && (HasFlag(q, Sign) <==> value >= 128)
      && q & ShiftKept == p & ShiftKept
  {
    var q := FlagZS(SetFlag(p, Carry, carry), value);
    assert q == SetFlag(SetFlag(SetFlag(p, Carry, carry), Zero, value == 0), Sign, Bit7(value));
    ThreeFlagsSet(p, carry, value == 0, Bit7(value));
    assert Bit7(value) == (value >= 128);
  }

  /** `_setAddrOrAccum` changes A in Accumulator mode and the one cell
      otherwise. */
  lemma StoreTouchesOnlyOperand(m: Machine, addr: int, am: AddrMode, value: Byte, q: bv8)
    requires am == Accumulator || 0 <= addr < 0x10000
    ensures var r := SetAddrOrAccum(m.(p := q), addr, am, value);
      if am == Accumulator then r == m.(a := value, p := q)
      else r == m.(mem := m.mem[addr := value], p := q)
  {
  }

  /** The common tail of the four handlers. */
  lemma ShiftTail(m: Machine, addr: int, am: AddrMode, value: Byte, carry: bool)
    requires am == Accumulator || 0 <= addr < 0x10000
    ensures ShiftOutcome(m, SetAddrOrAccum(m.(p := FlagZS(SetFlag(m.p, Carry, carry), value)), addr, am, value),
                         addr, am, value, carry)
  {
    TailFlags(m.p, value, carry);
    StoreTouchesOnlyOperand(m, addr, am, value, FlagZS(SetFlag(m.p, Carry, carry), value));
  }

  /** LSR halves the value; bit 0 goes to C and S is always cleared. */
  lemma {:induction false} LsrMeaning(m: Machine, addr: int, am: AddrMode)
    requires am == Accumulator || 0 <= addr < 0x10000
    ensures var v: int := GetAddrOrAccum(m, addr, am);
      ShiftOutcome(m, InstrLsr(m, addr, am), addr, am, v / 2, v % 2 == 1)
    ensures !HasFlag(InstrLsr(m, addr, am).p, Sign)
  {
    var v: int := GetAddrOrAccum(m, addr, am);
    ShiftTail(m, addr, am, v / 2, v % 2 == 1);
  }

  /** ASL doubles the value modulo 256; bit 7 goes to C. */
  lemma {:induction false} AslMeaning(m: Machine, addr: int, am: AddrMode)
    requires am == Accumulator || 0 <= addr < 0x10000
    ensures var v: int := GetAddrOrAccum(m, addr, am);
      ShiftOutcome(m, InstrAsl(m, addr, am), addr, am, (v * 2) % 256, v >= 0x80)
  {
    var v: int := GetAddrOrAccum(m, addr, am);
    ShiftTail(m, addr, am, Lo8(v * 2), v >= 0x80);
  }

  /** The value ROL stores: `2v | 1` when C is set, `2v` otherwise, is
      `2v + C` modulo 256. */
  lemma RolValue(v: Byte, c: bool)
    ensures Lo8(if c then Or16(v * 2, 1) else v * 2) == (v * 2 + if c then 1 else 0) % 256
  {
    if c {
      OrLowBit(v * 2);
    }
  }

  /** ROL doubles the value and adds the old carry, modulo 256; bit 7 goes to
      C. */
  lemma {:induction false} RolMeaning(m: Machine, addr: int, am: AddrMode)
    requires am == Accumulator || 0 <= addr < 0x10000
    ensures var v: int := GetAddrOrAccum(m, addr, am);
      ShiftOutcome(m, InstrRol(m, addr, am), addr, am, (v * 2 + CarryIn(m.p)) % 256, v >= 0x80)
  {
    var v: int := GetAddrOrAccum(m, addr, am);
    var c := HasFlag(m.p, Carry);
    RolValue(v, c);
    var value := (v * 2 + CarryIn(m.p)) % 256;
    assert InstrRol(m, addr, am) ==
      SetAddrOrAccum(m.(p := FlagZS(SetFlag(m.p, Carry, v >= 0x80), value)), addr, am, value);
    ShiftTail(m, addr, am, value, v >= 0x80);
  }

  /** The value ROR stores: `(v | 0x100) >> 1` when C is set, `v >> 1`
      otherwise, is `v / 2 + 128 C`. */
  lemma RorValue(v: Byte, c: bool)
    ensures (if c then Or16(v, 0x100) else v) / 2 == v / 2 + if c then 128 else 0
  {
    if c {
      OrHighBit(v);
      assert (v + 0x100) / 2 == v / 2 + 128;
    }
  }

  /** ROR halves the value and puts the old carry in bit 7; bit 0 goes to
      C. */
  lemma {:induction false} RorMeaning(m: Machine, addr: int, am: AddrMode)
    requires am == Accumulator || 0 <= addr < 0x10000
    ensures var v: int := GetAddrOrAccum(m, addr, am);
      ShiftOutcome(m, InstrRor(m, addr, am), addr, am, v / 2 + 128 * CarryIn(m.p), v % 2 == 1)
  {
    var v: int := GetAddrOrAccum(m, addr, am);
    var c := HasFlag(m.p, Carry);
    RorValue(v, c);
    var value := v / 2 + 128 * CarryIn(m.p);
    assert InstrRor(m, addr, am) ==
      SetAddrOrAccum(m.(p := FlagZS(SetFlag(m.p, Carry, v % 2 == 1), value)), addr, am, value);
    ShiftTail(m, addr, am, value, v % 2 == 1);
  }

  /** Rotating left and then right, the value and the carry come back. */
  lemma RotateLeftThenRight(v: int, c: int)
    requires 0 <= v < 256 && (c == 0 || c == 1)
    ensures var v1 := (v * 2 + c) % 256;
      v1 / 2 + 128 * (if v >= 0x80 then 1 else 0) == v && v1 % 2 == c
  {
    if v >= 0x80 {
      assert (v * 2 + c) % 256 == v * 2 + c - 256;
    }
  }

  /** Rotating right and then left, the value and the carry come back. */
  lemma RotateRightThenLeft(v: int, c: int)
    requires 0 <= v < 256 && (c == 0 || c == 1)
    ensures var v1 := v / 2 + 128 * c;
      (v1 * 2 + v % 2) % 256 == v && (v1 >= 0x80) == (c == 1)
  {
    var h, v1 := v / 2, v / 2 + 128 * c;
    assert v == 2 * h + v % 2;
    if c == 1 {
      assert (v1 * 2 + v % 2) == v + 256 by { assert v1 * 2 == 2 * h + 256; }
    }
  }

  /** After a shift, the operand holds the value stored and C its carry. */
  lemma OutcomeOperand(m: Machine, r: Machine, addr: int, am: AddrMode, value: Byte, carry: bool)
    requires am == Accumulator || 0 <= addr < 0x10000
    requires ShiftOutcome(m, r, addr, am, value, carry)
    ensures GetAddrOrAccum(r, addr, am) == value
    ensures CarryIn(r.p) == if carry then 1 else 0
  {
  }

  /** A second shift that puts back the value the first one found leaves
      the machine as it was but for P. */
  lemma RestoredOperand(m: Machine, m1: Machine, r: Machine, addr: int, am: AddrMode,
                        v1: Byte, v2: Byte, c1: bool, c2: bool)
    requires am == Accumulator || 0 <= addr < 0x10000
    requires ShiftOutcome(m, m1, addr, am, v1, c1)
    requires ShiftOutcome(m1, r, addr, am, v2, c2)
    requires v2 == GetAddrOrAccum(m, addr, am)
    ensures r == m.(p := r.p)
  {
    if am != Accumulator {
      assert m.mem[addr := v1][addr := v2] == m.mem;
    }
  }

  /** A rotation right after a rotation left, stated on their outcomes:
      the value and C the first one found come back. */
  lemma RightAfterLeft(m: Machine, m1: Machine, r: Machine, addr: int, am: AddrMode)
    requires am == Accumulator || 0 <= addr < 0x10000
    requires var v: int := GetAddrOrAccum(m, addr, am);
      ShiftOutcome(m, m1, addr, am, (v * 2 + CarryIn(m.p)) % 256, v >= 0x80)
    requires var v1: int := GetAddrOrAccum(m1, addr, am);
      ShiftOutcome(m1, r, addr, am, v1 / 2 + 128 * CarryIn(m1.p), v1 % 2 == 1)
    ensures r == m.(p := r.p) && HasFlag(r.p, Carry) == HasFlag(m.p, Carry)
  {
    var v: int := GetAddrOrAccum(m, addr, am);
    var c := CarryIn(m.p);
    var v1 := (v * 2 + c) % 256;
    OutcomeOperand(m, m1, addr, am, v1, v >= 0x80);
    RotateLeftThenRight(v, c);
    RestoredOperand(m, m1, r, addr, am, v1, v, v >= 0x80, v1 % 2 == 1);
  }

  /** ROR undoes ROL on the same operand: the value and C come back, and
      nothing else but the flags changes. */
  lemma {:induction false} RorUndoesRol(m: Machine, addr: int, am: AddrMode)
    requires am == Accumulator || 0 <= addr < 0x10000
    ensures var r := InstrRor(InstrRol(m, addr, am), addr, am);
      && r == m.(p := r.p)
      && HasFlag(r.p, Carry) == HasFlag(m.p, Carry)
  {
    var m1 := InstrRol(m, addr, am);
    RolMeaning(m, addr, am);
    RorMeaning(m1, addr, am);
    RightAfterLeft(m, m1, InstrRor(m1, addr, am), addr, am);
  }

  /** A rotation left after a rotation right, stated on their outcomes. */
  lemma LeftAfterRight(m: Machine, m1: Machine, r: Machine, addr: int, am: AddrMode)
    requires am == Accumulator || 0 <= addr < 0x10000
    requires var v: int := GetAddrOrAccum(m, addr, am);
      ShiftOutcome(m, m1, addr, am, v / 2 + 128 * CarryIn(m.p), v % 2 == 1)
    requires var v1: int := GetAddrOrAccum(m1, addr, am);
      ShiftOutcome(m1, r, addr, am, (v1 * 2 + CarryIn(m1.p)) % 256, v1 >= 0x80)
    ensures r == m.(p := r.p) && HasFlag(r.p, Carry) == HasFlag(m.p, Carry)
  {
    var v: int := GetAddrOrAccum(m, addr, am);
    var c := CarryIn(m.p);
    var v1 := v / 2 + 128 * c;
    OutcomeOperand(m, m1, addr, am, v1, v % 2 == 1);
    RotateRightThenLeft(v, c);
    RestoredOperand(m, m1, r, addr, am, v1, v, v % 2 == 1, v1 >= 0x80);
  }

  /** ROL undoes ROR on the same operand. */
  lemma {:induction false} RolUndoesRor(m: Machine, addr: int, am: AddrMode)
    requires am == Accumulator || 0 <= addr < 0x10000
    ensures var r := InstrRol(InstrRor(m, addr, am), addr, am);
      && r == m.(p := r.p)
      && HasFlag(r.p, Carry) == HasFlag(m.p, Carry)
  {
    var m1 := InstrRor(m, addr, am);
    RorMeaning(m, addr, am);
    RolMeaning(m1, addr, am);
    LeftAfterRight(m, m1, InstrRol(m1, addr, am), addr, am);
  }

  /** SLO: the cell is shifted left, bit 7 goes to C, and A is ORed with the
      shifted cell. No table entry pairs SLO, RLA, SRE or RRA with the
      Accumulator mode, so the cell is always memory. */
  lemma {:induction false} SloMeaning(m: Machine, addr: int, am: AddrMode)
    requires 0 <= addr < 0x10000 && am != Accumulator
    ensures var v: int, r := m.mem[addr], InstrSlo(m, addr, am);
      && r.mem == m.mem[addr := (v * 2) % 256]
      && r.a == Or(m.a, (v * 2) % 256)
      && HasFlag(r.p, Carry) == (v >= 0x80)
  {
    var m1 := InstrAsl(m, addr, am);
    AslMeaning(m, addr, am);
    FlagZSMeaning(m1.p, Or(m1.a, m1.mem[addr]));
  }

  /** RRA: the cell is rotated right, and ADC then adds it to A with the bit
      the rotation shifted off as the carry. */
  lemma {:induction false} RraMeaning(m: Machine, addr: int, am: AddrMode)
    requires 0 <= addr < 0x10000 && am != Accumulator
    ensures var v: int, r := m.mem[addr], InstrRra(m, addr, am);
      var rotated := v / 2 + 128 * CarryIn(m.p);
      && r.mem == m.mem[addr := rotated]
      && r.a == (m.a + rotated + v % 2) % 256
      && HasFlag(r.p, Carry) == (m.a + rotated + v % 2 > 0xFF)
  {
    var v: int := m.mem[addr];
    var m1 := InstrRor(m, addr, am);
    RorMeaning(m, addr, am);
    assert CarryIn(m1.p) == v % 2;
    AdcComputesSum(m1, addr);
  }

  /** ISC: the cell is incremented modulo 256, and SBC then subtracts it
      from A. */
  lemma {:induction false} IscMeaning(m: Machine, addr: int)
    requires 0 <= addr < 0x10000
    ensures var v: int, r := m.mem[addr], InstrIsc(m, addr);
      var inc := (v + 1) % 256;
      && r.mem == m.mem[addr := inc]
      && r.a == (m.a - inc - 1 + CarryIn(m.p)) % 256
      && HasFlag(r.p, Carry) == (m.a + CarryIn(m.p) > inc)
  {
    var m1 := InstrInc(m, addr);
    assert CarryIn(m1.p) == CarryIn(m.p) by {
      FlagZSMeaning(m.p, m1.mem[addr]);
    }
    SbcComputesDifference(m1, addr);
  }
}
