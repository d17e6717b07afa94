/** Branches, the operand quirks, and what one `step()` does to pc and the
    clock (nes.js:42-124, 404-442). */
module Control {
  import opened Wrappers
  import opened Bytes
  import opened Opcodes
  import opened Execution

  // -- Conditional branches (nes.js:404-442) --

  predicate IsBranch(mn: Mnemonic)
  {
    mn in {BCC, BCS, BEQ, BNE, BMI, BPL, BVC, BVS}
  }

  /** The flag each branch tests, as the 6502 defines them: C for BCC/BCS,
      Z for BEQ/BNE, V for BVC/BVS, S for BMI/BPL. */
  function BranchFlag(mn: Mnemonic): Flag
    requires IsBranch(mn)
  {
    match mn
    case BCC | BCS => Carry
    case BEQ | BNE => Zero
    case BVC | BVS => Overflow
    case _ => Sign
  }

  /** Whether the branch is taken when its flag is set (BCS, BEQ, BVS, BMI)
      or when it is clear (BCC, BNE, BVC, BPL). */
  predicate BranchOnSet(mn: Mnemonic)
    requires IsBranch(mn)
  {
    mn in {BCS, BEQ, BVS, BMI}
  }

  /** Every branch handler does what the table above says: when its flag
      agrees it jumps to the target, spending one cycle, or two when the
      target's high byte differs from that of the next instruction; otherwise
      it changes nothing at all, neither pc nor the clock. */
  lemma ExecuteBranch(m: Machine, instr: Instruction, addr: int)
    requires 0 <= addr < 0x10000 && IsBranch(instr.mnemonic)
    ensures var mn, r := instr.mnemonic, Execute(m, instr, addr);
      if HasFlag(m.p, BranchFlag(mn)) == BranchOnSet(mn) then
        r == m.(pc := addr, cycles := m.cycles + if Hi8(m.pc) != Hi8(addr) then 2 else 1)
      else r == m
  {
  }

  /** The Relative target is `(pc & 0xFF00) | ((pc & 0xFF) + offset)` with
      the offset read unsigned: while the sum stays inside the page it is
      just pc + offset, so an offset of 0x80 or more jumps forward and never
      back. */
  lemma {:induction false} RelativeTargetInPage(pc: int, offset: Byte)
    requires 0 <= pc < 0x10000 && Lo8(pc) + offset < 256
    ensures RelativeTarget(pc, offset) == pc + offset
  {
    var low := Lo8(pc) + offset;
    assert Lo8(PageOf(pc)) == 0 && Hi8(PageOf(pc)) == Hi8(pc);
    assert Lo8(low) == low && Hi8(low) == 0;
    OrZeroLowByte(low);
    OrZeroLowByte(Hi8(pc));
    WordOfBytes(pc);
  }

  /** Past the page the sum lands in bit 8, which the OR merges into the
      page number instead of adding it: from an even page the target is still
      pc + offset, but from an odd page it falls one page short, 256 bytes
      back. */
  lemma {:induction false} RelativeTargetPastPage(pc: int, offset: Byte)
    requires 0 <= pc < 0x10000 && Lo8(pc) + offset >= 256
    ensures RelativeTarget(pc, offset) ==
      if Hi8(pc) % 2 == 0 then pc + offset else pc + offset - 256
  {
    var low := Lo8(pc) + offset;
    assert Lo8(PageOf(pc)) == 0 && Hi8(PageOf(pc)) == Hi8(pc);
    assert Lo8(low) == low - 256 && Hi8(low) == 1;
    OrZeroLowByte(low - 256);
    WordOfBytes(pc);
    if Hi8(pc) % 2 == 0 {
      OrOneOnEven(Hi8(pc));
    } else {
      OrOneOnOdd(Hi8(pc));
    }
  }

  // -- Operand quirks (nes.js:42-93) --

  /** The three zero-page modes add the index modulo 256: they never leave
      page 0. */
  lemma ZeroPageStaysInPageZero(m: Machine, am: AddrMode)
    requires 0 <= m.pc && m.pc + 1 <= 0x10000
    requires am in {ZeroPage, ZeroPageX, ZeroPageY}
    ensures Operand(m, am).Success?
    ensures Operand(m, am).value.operand == (m.mem[m.pc] + IndexOf(m, am)) % 0x100
    ensures Operand(m, am).value.operand < 0x100
  {
  }

  /** The address after a pointer's low byte, kept in the pointer's page. */
  lemma PageWrapArith(ptr: int)
    requires 0 <= ptr < 0x10000
    ensures (if ptr % 256 == 0xFF then ptr - 0xFF else ptr + 1) == PageOf(ptr) + Lo8(ptr + 1)
  {
    var hi, lo := ptr / 256, ptr % 256;
    assert ptr == hi * 256 + lo;
    assert PageOf(ptr) == hi * 256;
    if lo == 0xFF {
      assert Lo8(ptr + 1) == 0 by { assert ptr + 1 == (hi + 1) * 256; }
    } else {
      assert Lo8(ptr + 1) == lo + 1 by { assert ptr + 1 == hi * 256 + (lo + 1); }
    }
  }

  /** JMP ($nnnn) reads the target's high byte from the same page as its low
      byte, whatever the pointer: at the last byte of a page it wraps to that
      page's first byte instead of moving on to the next page. */
  lemma {:induction false} IndirectStaysInPage(m: Machine)
    requires 0 <= m.pc && m.pc + 2 <= 0x10000
    ensures var ptr := Word(m.mem[m.pc], m.mem[m.pc + 1]);
      IndirectTarget(m).operand == Word(m.mem[ptr], m.mem[PageOf(ptr) + Lo8(ptr + 1)])
  {
    var ptr := Word(m.mem[m.pc], m.mem[m.pc + 1]);
    PageWrapArith(ptr);
    var next := if ptr % 256 == 0xFF then ptr - 0xFF else ptr + 1;
    assert IndirectTarget(m).operand == Word(m.mem[ptr], m.mem[next]);
  }

  /** The target of JMP ($30FF) is the word at $30FF and $3000, not at $30FF
      and $3100. */
  lemma IndirectPageWrap(m: Machine)
    requires 0 <= m.pc && m.pc + 2 <= 0x10000
    requires m.mem[m.pc] == 0xFF && m.mem[m.pc + 1] == 0x30
    ensures IndirectTarget(m).operand == Word(m.mem[0x30FF], m.mem[0x3000])
  {
    IndirectStaysInPage(m);
  }

  /** The pointer bytes of (zp,X) and (zp),Y are read in page 0 too: the
      pointer's low byte is at z, X added to the operand byte mod 256 for
      (zp,X) and the operand byte itself for (zp),Y, and its high byte at the
      next cell of page 0, which after $FF is $00. (zp),Y adds Y to the
      pointer on 16 bits. */
  lemma IndirectPointerWraps(m: Machine)
    requires 0 <= m.pc && m.pc + 1 <= 0x10000
    ensures var z := (m.mem[m.pc] + m.x) % 256;
      Operand(m, IndirectX) == Success(Fetched(
        Word(m.mem[z], m.mem[if z == 0xFF then 0 else z + 1]), m.(pc := m.pc + 1)))
    ensures var z := m.mem[m.pc];
      Operand(m, IndirectY) == Success(Fetched(
        (Word(m.mem[z], m.mem[if z == 0xFF then 0 else z + 1]) + m.y) % 0x10000,
        m.(pc := m.pc + 1)))
    ensures m.mem[m.pc] == 0xFF ==>
      Operand(m, IndirectY) ==
        Success(Fetched((Word(m.mem[0xFF], m.mem[0x00]) + m.y) % 0x10000, m.(pc := m.pc + 1)))
    ensures m.mem[m.pc] == 0xFF && m.x == 0 ==>
      Operand(m, IndirectX) == Success(Fetched(Word(m.mem[0xFF], m.mem[0x00]), m.(pc := m.pc + 1)))
  {
  }

  // -- One step (nes.js:111-124) --

  /** The handlers that set pc themselves; every other one leaves it where
      the operand left it. */
  predicate SetsPc(mn: Mnemonic)
  {
    IsBranch(mn) || mn in {JMP, JSR, RTS, RTI, BRK}
  }

  /** What a handler does to the clock and pc: only the branches touch
      the clock, by at most two cycles; only the jumps, calls, returns, BRK
      and the taken branches touch pc. */
  predicate ClockAndPcFrame(m: Machine, r: Machine, mn: Mnemonic)
  {
    && m.cycles <= r.cycles <= m.cycles + 2
    && (!IsBranch(mn) ==> r.cycles == m.cycles)
    && (!SetsPc(mn) ==> r.pc == m.pc)
  }

  /** The frame for ADC to EOR. */
  lemma ExecuteFrameGroup1(m: Machine, instr: Instruction, addr: int)
    requires 0 <= addr < 0x10000 && StackFits(instr.mnemonic, m.s)
    requires instr.mnemonic in {ADC, AND, ASL, BIT, BRK, CLC, CLD, CLI, CLV, CMP, CPX, CPY, DEC, DEX, DEY, EOR}
    ensures ClockAndPcFrame(m, Execute(m, instr, addr), instr.mnemonic)
  {
  }

  /** The frame for INC to ROL. */
  lemma ExecuteFrameGroup2(m: Machine, instr: Instruction, addr: int)
    requires 0 <= addr < 0x10000 && StackFits(instr.mnemonic, m.s)
    requires instr.mnemonic in {INC, INX, INY, JMP, JSR, LDA, LDX, LDY, LSR, NOP, ORA, PHA, PHP, PLA, PLP, ROL}
    ensures ClockAndPcFrame(m, Execute(m, instr, addr), instr.mnemonic)
  {
  }

  /** The frame for ROR to SEI. */
  lemma ExecuteFrameGroup3(m: Machine, instr: Instruction, addr: int)
    requires 0 <= addr < 0x10000 && StackFits(instr.mnemonic, m.s)
    requires instr.mnemonic in {ROR, RTI, RTS, SBC, SEC, SED, SEI}
    ensures ClockAndPcFrame(m, Execute(m, instr, addr), instr.mnemonic)
  {
  }

  /** The frame for STA to TYA. */
  lemma ExecuteFrameGroup6(m: Machine, instr: Instruction, addr: int)
    requires 0 <= addr < 0x10000 && StackFits(instr.mnemonic, m.s)
    requires instr.mnemonic in {STA, STX, STY, TAX, TAY, TSX, TXA, TXS, TYA}
    ensures ClockAndPcFrame(m, Execute(m, instr, addr), instr.mnemonic)
  {
  }

  /** The frame for LAX to ISC. */
  lemma ExecuteFrameGroup4(m: Machine, instr: Instruction, addr: int)
    requires 0 <= addr < 0x10000 && StackFits(instr.mnemonic, m.s)
    requires instr.mnemonic in {LAX, SAX, DCP, ISC}
    ensures ClockAndPcFrame(m, Execute(m, instr, addr), instr.mnemonic)
  {
  }

  /** The frame for SLO to RRA. */
  lemma ExecuteFrameGroup5(m: Machine, instr: Instruction, addr: int)
    requires 0 <= addr < 0x10000 && StackFits(instr.mnemonic, m.s)
    requires instr.mnemonic in {SLO, RLA, SRE, RRA}
    ensures ClockAndPcFrame(m, Execute(m, instr, addr), instr.mnemonic)
  {
  }

  /** Every handler keeps to that frame. */
  lemma {:induction false} ExecuteClockAndPc(m: Machine, instr: Instruction, addr: int)
    requires 0 <= addr < 0x10000
    requires StackFits(instr.mnemonic, m.s)
    ensures ClockAndPcFrame(m, Execute(m, instr, addr), instr.mnemonic)
  {
    var mn := instr.mnemonic;
    if IsBranch(mn) {
      ExecuteBranch(m, instr, addr);
    } else if mn in {ADC, AND, ASL, BIT, BRK, CLC, CLD, CLI, CLV, CMP, CPX, CPY, DEC, DEX, DEY, EOR} {
      ExecuteFrameGroup1(m, instr, addr);
    } else if mn in {INC, INX, INY, JMP, JSR, LDA, LDX, LDY, LSR, NOP, ORA, PHA, PHP, PLA, PLP, ROL} {
      ExecuteFrameGroup2(m, instr, addr);
    } else if mn in {ROR, RTI, RTS, SBC, SEC, SED, SEI} {
      ExecuteFrameGroup3(m, instr, addr);
    } else if mn in {STA, STX, STY, TAX, TAY, TSX, TXA, TXS, TYA} {
      ExecuteFrameGroup6(m, instr, addr);
    } else if mn in {LAX, SAX, DCP, ISC} {
      ExecuteFrameGroup4(m, instr, addr);
    } else {
      ExecuteFrameGroup5(m, instr, addr);
    }
  }

  /** `step()` throws exactly on the opcodes the table leaves out, and then
      only pc has moved, past the opcode byte. */
  lemma {:induction false} StepFailsOnlyOnUnregistered(m: Machine)
    requires CanStep(m)
    ensures Step(m).result.Failure? <==> GetInOpc(m.mem[m.pc]).None?
    ensures GetInOpc(m.mem[m.pc]).None? ==>
      Step(m) == StepResult(m.(pc := m.pc + 1), Failure(InvalidOpcode(m.mem[m.pc])))
  {
    var m1 := m.(pc := m.pc + 1);
    match GetInOpc(m.mem[m.pc])
    case None =>
    case Some(instr) =>
      OperandConsumesItsBytes(m1, instr.addressingMode);
  }

  /** 0x02 is one of those opcodes. */
  lemma StepOpcode02Throws(m: Machine)
    requires CanStep(m) && m.mem[m.pc] == 0x02
    ensures Step(m) == StepResult(m.(pc := m.pc + 1), Failure(InvalidOpcode(0x02)))
  {
    StepFailsOnlyOnUnregistered(m);
  }

  /** A registered opcode reaches `Run` with pc past the opcode byte. */
  lemma StepDecodes(m: Machine)
    requires CanStep(m) && GetInOpc(m.mem[m.pc]).Some?
    ensures Step(m) == Run(m.(pc := m.pc + 1), GetInOpc(m.mem[m.pc]).value)
  {
  }

  /** The rest of a step, for an entry in a mode the CPU resolves: it
      returns the old cycle count minus the new one, at most minus the
      entry's base cycles. Outside the branches and the Indirect mode that is
      the base cycles or one more, negated. Unless the handler sets pc
      itself, pc moves past the operand. */
  lemma {:induction false} RunClock(m: Machine, instr: Instruction)
    requires 0 <= m.pc && m.pc + OperandLength(instr.addressingMode) <= 0x10000
    requires StackFits(instr.mnemonic, m.s)
    requires instr.addressingMode !in {IndirectPostX, IndirectPostY}
    ensures var r := Run(m, instr);
      && r.result.Success?
      && r.result.value == m.cycles - r.m.cycles
      && r.result.value + instr.cycles <= 0
      && (!IsBranch(instr.mnemonic) && instr.addressingMode != Indirect ==>
            -1 <= r.result.value + instr.cycles)
      && (!SetsPc(instr.mnemonic) ==> r.m.pc == m.pc + OperandLength(instr.addressingMode))
  {
    OperandConsumesItsBytes(m, instr.addressingMode);
    var f := Operand(m, instr.addressingMode).value;
    InstructionCyclesAddsBaseOrOneMore(f.m, instr);
    var m2 := InstructionCycles(f.m, instr);
    var m3 := Execute(m2, instr, f.operand);
    ExecuteClockAndPc(m2, instr, f.operand);
    assert Run(m, instr) == StepResult(m3, Success(m.cycles - m3.cycles));
  }

  /** What `step()` returns for a registered opcode: never a positive
      number, and pc moves past the whole instruction unless the handler
      sets it. */
  lemma {:induction false} StepClock(m: Machine)
    requires CanStep(m) && GetInOpc(m.mem[m.pc]).Some?
    ensures var instr, r := GetInOpc(m.mem[m.pc]).value, Step(m);
      && r.result.Success?
      && r.result.value == m.cycles - r.m.cycles
      && r.result.value + instr.cycles <= 0
      && (!IsBranch(instr.mnemonic) && instr.addressingMode != Indirect ==>
            -1 <= r.result.value + instr.cycles)
      && (!SetsPc(instr.mnemonic) ==> r.m.pc == m.pc + instr.size)
  {
    StepDecodes(m);
    RunClock(m.(pc := m.pc + 1), GetInOpc(m.mem[m.pc]).value);
  }

  // -- Worked examples --

  /** LDA #$FE at 0x0600: A becomes 0xFE, S is set, Z is clear, pc moves two
      bytes and the step takes 2 cycles. */
  lemma LdaImmediate(m: Machine)
    requires m.pc == 0x0600 && m.mem[0x0600] == 0xA9 && m.mem[0x0601] == 0xFE
    ensures CanStep(m)
    ensures var r := Step(m);
      && r.result == Success(-2)
      && r.m.a == 0xFE && HasFlag(r.m.p, Sign) && !HasFlag(r.m.p, Zero)
      && r.m.pc == 0x0602
  {
    FlagZSMeaning(m.p, 0xFE);
  }

  /** LDA $FE reads the cell at 0x00FE, in 3 cycles. */
  lemma LdaZeroPage(m: Machine)
    requires m.pc == 0x0600 && m.mem[0x0600] == 0xA5 && m.mem[0x0601] == 0xFE
    ensures CanStep(m)
    ensures Step(m).result == Success(-3) && Step(m).m.a == m.mem[0x00FE]
  {
  }

  /** LDA $FE,X with X = 2 wraps inside page 0 and reads the cell at 0x0000,
      not 0x0100, in 4 cycles. */
  lemma LdaZeroPageXWraps(m: Machine)
    requires m.pc == 0x0600 && m.mem[0x0600] == 0xB5 && m.mem[0x0601] == 0xFE && m.x == 2
    ensures CanStep(m)
    ensures Step(m).result == Success(-4) && Step(m).m.a == m.mem[0x0000]
  {
  }

  /** LDA has no zero-page,Y entry, so `getinstr` finds none for it. */
  lemma LdaHasNoZeroPageY()
    ensures GetInstr(LDA, ZeroPageY).None?
  {
  }
}
