/** `CPU6502` (nes.js:17-505) as a class over an ArrayBus of 64K cells.

    Each method changes the fields and the cells it names, and its contract
    ties the object's new State() to the matching function of Execution
    applied to the old one. */
module Cpu {
  import opened Wrappers
  import opened Bytes
  import opened Opcodes
  import opened Buses
  import opened Execution

  class CPU6502 {
    var a: Byte
    var x: Byte
    var y: Byte
    var s: int
    var p: bv8
    var pc: int
    var cycles: int
    const bus: ArrayBus

    /** The CPU is wired to a full 64K bus. */
    ghost predicate Valid()
      reads this, bus
    {
      bus.cells.Length == 0x10000
    }

    /** The registers, the clock and the bus as a Machine value. */
    ghost function State(): Machine
      reads this, bus, bus.cells
      requires Valid()
    {
      Machine(a, x, y, s, p, pc, cycles, bus.cells[..])
    }

    /** `new CPU6502(bus)` (nes.js:29-39). */
    constructor(bus: ArrayBus)
      requires bus.cells.Length == 0x10000
      ensures Valid() && this.bus == bus
      ensures State() == PowerOn(bus.cells[..])
    {
      a, x, y := 0, 0, 0;
      s := 0xFD;
      p := 0x24;
      pc := 0;
      this.bus := bus;
      cycles := 0;
    }

    // -- Stack --

    /** `push(value)`. */
    method Push(value: Byte)
      requires Valid() && CanPush(s, 1)
      modifies this`s, bus.cells
      ensures Valid() && State() == Execution.Push(old(State()), value)
    {
      bus.Write(0x100 + s, value);
      s := s - 1;
    }

    /** `pop()`. */
    method Pop() returns (v: Byte)
      requires Valid() && CanPop(s, 1)
      modifies this`s
      ensures Valid() && Popped(State(), v) == Execution.Pop(old(State()))
    {
      s := s + 1;
      v := bus.Read(0x100 + s);
    }

    // -- Flags --

    method FlagS(value: int)
      modifies this`p
      ensures p == Execution.FlagS(old(p), value)
    {
      if Bit7(value) { p := p | Mask(Sign); } else { p := p & !Mask(Sign); }
    }

    method FlagV(value: int)
      modifies this`p
      ensures p == Execution.FlagV(old(p), value)
    {
      if Bit6(value) { p := p | Mask(Overflow); } else { p := p & !Mask(Overflow); }
    }

    method FlagB(value: bool)
      modifies this`p
      ensures p == SetFlag(old(p), Break, value)
    {
      if value { p := p | Mask(Break); } else { p := p & !Mask(Break); }
    }

    method FlagD(value: bool)
      modifies this`p
      ensures p == SetFlag(old(p), Decimal, value)
    {
      if value { p := p | Mask(Decimal); } else { p := p & !Mask(Decimal); }
    }

    method FlagI(value: bool)
      modifies this`p
      ensures p == SetFlag(old(p), Interrupt, value)
    {
      if value { p := p | Mask(Interrupt); } else { p := p & !Mask(Interrupt); }
    }

    method FlagZ(value: int)
      modifies this`p
      ensures p == Execution.FlagZ(old(p), value)
    {
      if value == 0 { p := p | Mask(Zero); } else { p := p & !Mask(Zero); }
    }

    method FlagC(value: bool)
      modifies this`p
      ensures p == SetFlag(old(p), Carry, value)
    {
      if value { p := p | Mask(Carry); } else { p := p & !Mask(Carry); }
    }

    /** `flag(f)`: the bits of `p` under the mask. */
    function Flag(f: bv8): (r: bv8)
      reads this
      ensures r & !f == 0 && r & f == p & f
    {
      p & f
    }

    // -- Operand resolution --

    /** `addr8(offset)`: the byte at pc plus the offset; pc moves past it. */
    method Addr8(offset: int) returns (v: int)
      requires Valid() && 0 <= pc < 0x10000
      modifies this`pc
      ensures v == bus.cells[old(pc)] + offset && pc == old(pc) + 1
    {
      var b := bus.Read(pc);
      pc := pc + 1;
      v := b + offset;
    }

    /** `addr16(offset)`: the little-endian word at pc plus the offset, on 16
        bits; pc moves past it. */
    method Addr16(offset: int) returns (v: int)
      requires Valid() && 0 <= pc && pc + 2 <= 0x10000
      modifies this`pc
      ensures v == (Word(bus.cells[old(pc)], bus.cells[old(pc) + 1]) + offset) % 0x10000
      ensures pc == old(pc) + 2
    {
      var lo := Addr8(0);
      var hi := Addr8(0);
      v := (Word(lo, hi) + offset) % 0x10000;
    }

    /** `addr16ind()`. */
    method Addr16Ind() returns (v: int)
      requires Valid() && 0 <= pc && pc + 2 <= 0x10000
      modifies this`pc, this`cycles
      ensures Valid() && Fetched(v, State()) == IndirectTarget(old(State()))
    {
      var oplo := bus.Read(pc);
      pc := pc + 1;
      var ophi := bus.Read(pc);
      pc := pc + 1;
      var operand := Word(oplo, ophi);
      var hi, lo;
      if operand % 256 == 0xFF {
        hi := bus.Read(operand - 0xFF);
        lo := bus.Read(operand);
      } else {
        hi := bus.Read(operand + 1);
        lo := bus.Read(operand);
      }
      v := Word(lo, hi);
      if CrossPage(pc, v) {
        cycles := cycles + 2;
      }
    }

    /** The zero-page modes of `operand(instr)`: `addr8(x|y) & 0xFF`. */
    method OperandZeroPage(am: AddrMode) returns (v: int)
      requires Valid() && 0 <= pc < 0x10000 && am in {ZeroPage, ZeroPageX, ZeroPageY}
      modifies this`pc
      ensures Valid() && Execution.Operand(old(State()), am) == Success(Fetched(v, State()))
    {
      var index := if am == ZeroPageX then x else if am == ZeroPageY then y else 0;
      var b := Addr8(index);
      v := if am == ZeroPage then b else Lo8(b);
    }

    /** The absolute modes of `operand(instr)`: `addr16(0|x|y)`. */
    method OperandAbsolute(am: AddrMode) returns (v: int)
      requires Valid() && 0 <= pc && pc + 2 <= 0x10000 && am in {Absolute, AbsoluteX, AbsoluteY}
      modifies this`pc
      ensures Valid() && Execution.Operand(old(State()), am) == Success(Fetched(v, State()))
    {
      ghost var m := State();
      var index := if am == AbsoluteX then x else if am == AbsoluteY then y else 0;
      assert index == IndexOf(m, am);
      v := Addr16(index);
      OperandAbsoluteModes(m, am);
      assert old(State()) == m;
      assert State() == m.(pc := m.pc + 2);
      assert v == (Word(m.mem[m.pc], m.mem[m.pc + 1]) + IndexOf(m, am)) % 0x10000;
    }

    /** IndirectX: the word at the zero-page pointer `addr8(x) & 0xFF`, whose
        high byte wraps within page 0. */
    method OperandIndirectX() returns (v: int)
      requires Valid() && 0 <= pc < 0x10000
      modifies this`pc
      ensures Valid() && Execution.Operand(old(State()), IndirectX) == Success(Fetched(v, State()))
    {
      var b := Addr8(x);
      var addr := Lo8(b);
      var lo := bus.Read(addr);
      var hi := bus.Read(Lo8(addr as int + 1));
      v := Word(lo, hi);
    }

    /** IndirectY: the word at the zero-page pointer, plus Y, on 16 bits. */
    method OperandIndirectY() returns (v: int)
      requires Valid() && 0 <= pc < 0x10000
      modifies this`pc
      ensures Valid() && Execution.Operand(old(State()), IndirectY) == Success(Fetched(v, State()))
    {
      var b := Addr8(0);
      var addr := Lo8(b);
      var lo := bus.Read(addr);
      var hi := bus.Read(Lo8(addr as int + 1));
      v := (Word(lo, hi) + y) % 0x10000;
    }

    /** Relative: the branch target built from the unsigned offset byte. */
    method OperandRelative() returns (v: int)
      requires Valid() && 0 <= pc < 0x10000
      modifies this`pc
      ensures Valid() && Execution.Operand(old(State()), Relative) == Success(Fetched(v, State()))
    {
      var offset := Addr8(0);
      v := RelativeTarget(pc, offset);
    }

    /** `operand(instr)`. */
    method Operand(instr: Instruction) returns (r: Result<int, Fault>)
      requires Valid() && 0 <= pc && pc + OperandLength(instr.addressingMode) <= 0x10000
      modifies this`pc, this`cycles
      ensures Valid()
      ensures match Execution.Operand(old(State()), instr.addressingMode)
        case Success(f) => r == Success(f.operand) && State() == f.m
        case Failure(e) => r == Failure(e) && State() == old(State())
    {
      var am := instr.addressingMode;
      var v;
      match am
      case Implied => r := Success(0);
      case Accumulator => r := Success(a);
      case Immediate => r := Success(pc); pc := pc + 1;
      case ZeroPage | ZeroPageX | ZeroPageY => v := OperandZeroPage(am); r := Success(v);
      case Absolute | AbsoluteX | AbsoluteY => v := OperandAbsolute(am); r := Success(v);
      case Indirect => v := Addr16Ind(); r := Success(v);
      case IndirectX => v := OperandIndirectX(); r := Success(v);
      case IndirectY => v := OperandIndirectY(); r := Success(v);
      case Relative => v := OperandRelative(); r := Success(v);
      case IndirectPostX | IndirectPostY => r := Failure(InvalidAddressMode(am));
    }

    /** `instructionCycles(instruction)`. */
    method InstructionCycles(instr: Instruction)
      requires Valid()
      modifies this`cycles
      ensures Valid() && State() == Execution.InstructionCycles(old(State()), instr)
    {
      cycles := cycles + instr.cycles;
      if instr.checkPageCross {
        match instr.addressingMode
        case AbsoluteX =>
          cycles := cycles + if CrossPage(pc, pc - x) then 1 else 0;
        case AbsoluteY | IndirectY =>
          cycles := cycles + if CrossPage(pc, pc - y) then 1 else 0;
        case _ =>
      }
    }

    /** `step()`: the result is the old cycle count minus the new one, or the
        error the source throws. */
    method Step() returns (r: Result<int, Fault>)
      requires Valid() && CanStep(State())
      modifies this, bus.cells
      ensures Valid() && StepResult(State(), r) == Execution.Step(old(State()))
    {
      ghost var m := State();
      var opcode := bus.Read(pc);
      pc := pc + 1;
      ghost var m1 := m.(pc := m.pc + 1);
      assert State() == m1;
      var instruction := GetInOpc(opcode);
      if instruction.None? {
        assert Execution.Step(m) == StepResult(m1, Failure(InvalidOpcode(opcode)));
        return Failure(InvalidOpcode(opcode));
      }
      assert Execution.Step(m) == Execution.Run(m1, instruction.value);
      r := Run(instruction.value);
    }

    /** The part of `step()` after decoding. */
    method Run(instr: Instruction) returns (r: Result<int, Fault>)
      requires Valid() && 0 <= pc && pc + OperandLength(instr.addressingMode) <= 0x10000
      requires StackFits(instr.mnemonic, s)
      modifies this, bus.cells
      ensures Valid() && StepResult(State(), r) == Execution.Run(old(State()), instr)
    {
      var before := cycles;
      ghost var m := State();
      OperandConsumesItsBytes(m, instr.addressingMode);
      var operand := Operand(instr);
      if operand.Failure? {
        return Failure(operand.error);
      }
      ghost var f := Execution.Operand(m, instr.addressingMode).value;
      InstructionCycles(instr);
      InstructionCyclesAddsBaseOrOneMore(f.m, instr);
      Execute(operand.value, instr);
      r := Success(before - cycles);
    }

    /** The `_instr_` lookup and call of `step()`. */
    method Execute(addr: int, instr: Instruction)
      requires Valid() && 0 <= addr < 0x10000 && StackFits(instr.mnemonic, s)
      modifies this, bus.cells
      ensures Valid() && State() == Execution.Execute(old(State()), instr, addr)
    {
      var am := instr.addressingMode;
      match instr.mnemonic
      case ADC => InstrAdc(addr);
      case AND => InstrAnd(addr);
      case ASL => InstrAsl(addr, am);
      case BCC => InstrBcc(addr);
      case BCS => InstrBcs(addr);
      case BEQ => InstrBeq(addr);
      case BIT => InstrBit(addr);
      case BMI => InstrBmi(addr);
      case BNE => InstrBne(addr);
      case BPL => InstrBpl(addr);
      case BRK => InstrBrk();
      case BVC => InstrBvc(addr);
      case BVS => InstrBvs(addr);
      case CLC => InstrClc();
      case CLD => InstrCld();
      case CLI => InstrCli();
      case CLV => InstrClv();
      case CMP => InstrCmp(addr);
      case CPX => InstrCpx(addr);
      case CPY => InstrCpy(addr);
      case DEC => InstrDec(addr);
      case DEX => InstrDex();
      case DEY => InstrDey();
      case EOR => InstrEor(addr);
      case INC => InstrInc(addr);
      case INX => InstrInx();
      case INY => InstrIny();
      case JMP => InstrJmp(addr);
      case JSR => InstrJsr(addr);
      case LDA => InstrLda(addr);
      case LDX => InstrLdx(addr);
      case LDY => InstrLdy(addr);
      case LSR => InstrLsr(addr, am);
      case NOP => InstrNop();
      case ORA => InstrOra(addr);
      case PHA => InstrPha();
      case PHP => InstrPhp();
      case PLA => InstrPla();
      case PLP => InstrPlp();
      case ROL => InstrRol(addr, am);
      case ROR => InstrRor(addr, am);
      case RTI => InstrRti();
      case RTS => InstrRts();
      case SBC => InstrSbc(addr);
      case SEC => InstrSec();
      case SED => InstrSed();
      case SEI => InstrSei();
      case STA => InstrSta(addr);
      case STX => InstrStx(addr);
      case STY => InstrSty(addr);
      case TAX => InstrTax();
      case TAY => InstrTay();
      case TSX => InstrTsx();
      case TXA => InstrTxa();
      case TXS => InstrTxs();
      case TYA => InstrTya();
      case LAX => InstrLax(addr);
      case SAX => InstrSax(addr);
      case DCP => InstrDcp(addr);
      case ISC => InstrIsc(addr);
      case SLO => InstrSlo(addr, am);
      case RLA => InstrRla(addr, am);
      case SRE => InstrSre(addr, am);
      case RRA => InstrRra(addr, am);
    }

    // -- Instructions --

    method InstrNop()
      requires Valid()
      ensures State() == Execution.InstrNop(old(State()))
    {
    }

    method InstrClv()
      requires Valid()
      modifies this`p
      ensures Valid() && State() == Execution.InstrClv(old(State()))
    {
      FlagV(0);
    }

    method InstrClc()
      requires Valid()
      modifies this`p
      ensures Valid() && State() == Execution.InstrClc(old(State()))
    {
      FlagC(false);
    }

    method InstrCli()
      requires Valid()
      modifies this`p
      ensures Valid() && State() == Execution.InstrCli(old(State()))
    {
      FlagI(false);
    }

    method InstrCld()
      requires Valid()
      modifies this`p
      ensures Valid() && State() == Execution.InstrCld(old(State()))
    {
      FlagD(false);
    }

    method InstrSec()
      requires Valid()
      modifies this`p
      ensures Valid() && State() == Execution.InstrSec(old(State()))
    {
      FlagC(true);
    }

    method InstrSei()
      requires Valid()
      modifies this`p
      ensures Valid() && State() == Execution.InstrSei(old(State()))
    {
      FlagI(true);
    }

    method InstrSed()
      requires Valid()
      modifies this`p
      ensures Valid() && State() == Execution.InstrSed(old(State()))
    {
      FlagD(true);
    }

    method InstrAnd(addr: int)
      requires Valid() && 0 <= addr < 0x10000
      modifies this`a, this`p
      ensures Valid() && State() == Execution.InstrAnd(old(State()), addr)
    {
      var v := bus.Read(addr);
      a := And(a, v);
      FlagZ(a);
      FlagS(a);
    }

    method InstrOra(addr: int)
      requires Valid() && 0 <= addr < 0x10000
      modifies this`a, this`p
      ensures Valid() && State() == Execution.InstrOra(old(State()), addr)
    {
      var v := bus.Read(addr);
      a := Or(a, v);
      FlagZ(a);
      FlagS(a);
    }

    method InstrEor(addr: int)
      requires Valid() && 0 <= addr < 0x10000
      modifies this`a, this`p
      ensures Valid() && State() == Execution.InstrEor(old(State()), addr)
    {
      var v := bus.Read(addr);
      a := Xor(a, v);
      FlagZ(a);
      FlagS(a);
    }

    /** The shared tail of `_instr_ADC` and `_instr_SBC`: V from the sign
        test, A := res & 0xFF, Z and S from it, and C from `carried`. */
    method AddWithCarry(res: int, overflow: bool, carried: bool)
      requires Valid()
      modifies this`a, this`p
      ensures Valid() && State() == Execution.AddWithCarry(old(State()), res, overflow, carried)
    {
      a := Lo8(res);
      p := SetFlag(Execution.FlagZS(SetFlag(p, Overflow, overflow), a), Carry, carried);
    }

    method InstrAdc(addr: int)
      requires Valid() && 0 <= addr < 0x10000
      modifies this`a, this`p
      ensures Valid() && State() == Execution.InstrAdc(old(State()), addr)
    {
      var value := bus.Read(addr);
      var res := a + value + if Flag(Mask(Carry)) != 0 then 1 else 0;
      var overflow := OverflowMask(a, value, res) != 0;
      OverflowMaskIsSignTest(a, value, res);
      AddWithCarry(res, overflow, res > 0xFF);
    }

    method InstrSbc(addr: int)
      requires Valid() && 0 <= addr < 0x10000
      modifies this`a, this`p
      ensures Valid() && State() == Execution.InstrSbc(old(State()), addr)
    {
      var operand := bus.Read(addr);
      var value := -(operand as int) - 1;
      var res := a + value + if Flag(Mask(Carry)) != 0 then 1 else 0;
      var overflow := OverflowMask(a, value, res) != 0;
      OverflowMaskIsSignTest(a, value, res);
      AddWithCarry(res, overflow, res >= 0);
    }

    /** `_getAddrOrAccum(addr, instruction)`. */
    method GetAddrOrAccum(addr: int, am: AddrMode) returns (v: Byte)
      requires Valid() && (am == Accumulator || 0 <= addr < 0x10000)
      ensures v == Execution.GetAddrOrAccum(State(), addr, am)
    {
      if am == Accumulator {
        v := a;
      } else {
        v := bus.Read(addr);
      }
    }

    /** `_setAddrOrAccum(addr, instruction, value)`. */
    method SetAddrOrAccum(addr: int, am: AddrMode, value: Byte)
      requires Valid() && (am == Accumulator || 0 <= addr < 0x10000)
      modifies this`a, bus.cells
      ensures Valid() && State() == Execution.SetAddrOrAccum(old(State()), addr, am, value)
    {
      if am == Accumulator {
        a := value;
      } else {
        bus.Write(addr, value);
      }
    }

    method InstrLsr(addr: int, am: AddrMode)
      requires Valid() && (am == Accumulator || 0 <= addr < 0x10000)
      modifies this`a, this`p, bus.cells
      ensures Valid() && State() == Execution.InstrLsr(old(State()), addr, am)
    {
      var valueIn := GetAddrOrAccum(addr, am);
      var value := valueIn / 2;
      FlagC(valueIn % 2 == 1);
      FlagZ(value);
      FlagS(value);
      SetAddrOrAccum(addr, am, value);
    }

    method InstrAsl(addr: int, am: AddrMode)
      requires Valid() && (am == Accumulator || 0 <= addr < 0x10000)
      modifies this`a, this`p, bus.cells
      ensures Valid() && State() == Execution.InstrAsl(old(State()), addr, am)
    {
      var valueIn := GetAddrOrAccum(addr, am);
      var value := Lo8(valueIn as int * 2);
      FlagC(valueIn >= 0x80);
      FlagZ(value);
      FlagS(value);
      SetAddrOrAccum(addr, am, value);
    }

    method InstrRol(addr: int, am: AddrMode)
      requires Valid() && (am == Accumulator || 0 <= addr < 0x10000)
      modifies this`a, this`p, bus.cells
      ensures Valid() && State() == Execution.InstrRol(old(State()), addr, am)
    {
      var read := GetAddrOrAccum(addr, am);
      var valueIn := read as int * 2;
      var value := Lo8(if Flag(Mask(Carry)) != 0 then Or16(valueIn, 1) else valueIn);
      FlagC(valueIn > 0xFF);
      FlagZ(value);
      FlagS(value);
      SetAddrOrAccum(addr, am, value);
    }

    method InstrRor(addr: int, am: AddrMode)
      requires Valid() && (am == Accumulator || 0 <= addr < 0x10000)
      modifies this`a, this`p, bus.cells
      ensures Valid() && State() == Execution.InstrRor(old(State()), addr, am)
    {
      var valueIn := GetAddrOrAccum(addr, am);
      OrHighBit(valueIn);
      var value := (if Flag(Mask(Carry)) != 0 then Or16(valueIn, 0x100) else valueIn) / 2;
      FlagC(valueIn % 2 == 1);
      FlagZ(value);
      FlagS(value);
      SetAddrOrAccum(addr, am, value);
    }

    method InstrLda(addr: int)
      requires Valid() && 0 <= addr < 0x10000
      modifies this`a, this`p
      ensures Valid() && State() == Execution.InstrLda(old(State()), addr)
    {
      a := bus.Read(addr);
      FlagZ(a);
      FlagS(a);
    }

    method InstrLdx(addr: int)
      requires Valid() && 0 <= addr < 0x10000
      modifies this`x, this`p
      ensures Valid() && State() == Execution.InstrLdx(old(State()), addr)
    {
      x := bus.Read(addr);
      FlagZ(x);
      FlagS(x);
    }

    method InstrLdy(addr: int)
      requires Valid() && 0 <= addr < 0x10000
      modifies this`y, this`p
      ensures Valid() && State() == Execution.InstrLdy(old(State()), addr)
    {
      y := bus.Read(addr);
      FlagZ(y);
      FlagS(y);
    }

    method InstrDec(addr: int)
      requires Valid() && 0 <= addr < 0x10000
      modifies this`p, bus.cells
      ensures Valid() && State() == Execution.InstrDec(old(State()), addr)
    {
      var v := bus.Read(addr);
      var value := Lo8(v as int - 1);
      bus.Write(addr, value);
      FlagZ(value);
      FlagS(value);
    }

    method InstrDex()
      requires Valid()
      modifies this`x, this`p
      ensures Valid() && State() == Execution.InstrDex(old(State()))
    {
      if x - 1 < 0 { x := 0xFF; } else { x := x - 1; }
      FlagZ(x);
      FlagS(x);
    }

    method InstrDey()
      requires Valid()
      modifies this`y, this`p
      ensures Valid() && State() == Execution.InstrDey(old(State()))
    {
      if y - 1 < 0 { y := 0xFF; } else { y := y - 1; }
      FlagZ(y);
      FlagS(y);
    }

    method InstrInc(addr: int)
      requires Valid() && 0 <= addr < 0x10000
      modifies this`p, bus.cells
      ensures Valid() && State() == Execution.InstrInc(old(State()), addr)
    {
      var v := bus.Read(addr);
      var value := Lo8(v as int + 1);
      bus.Write(addr, value);
      FlagZ(value);
      FlagS(value);
    }

    method InstrInx()
      requires Valid()
      modifies this`x, this`p
      ensures Valid() && State() == Execution.InstrInx(old(State()))
    {
      if x + 1 > 0xFF { x := 0; } else { x := x + 1; }
      FlagZ(x);
      FlagS(x);
    }

    method InstrIny()
      requires Valid()
      modifies this`y, this`p
      ensures Valid() && State() == Execution.InstrIny(old(State()))
    {
      if y + 1 > 0xFF { y := 0; } else { y := y + 1; }
      FlagZ(y);
      FlagS(y);
    }

    method InstrTax()
      requires Valid()
      modifies this`x, this`p
      ensures Valid() && State() == Execution.InstrTax(old(State()))
    {
      x := a;
      FlagZ(x);
      FlagS(x);
    }

    method InstrTay()
      requires Valid()
      modifies this`y, this`p
      ensures Valid() && State() == Execution.InstrTay(old(State()))
    {
      y := a;
      FlagZ(y);
      FlagS(y);
    }

    method InstrTya()
      requires Valid()
      modifies this`a, this`p
      ensures Valid() && State() == Execution.InstrTya(old(State()))
    {
      a := y;
      FlagZ(a);
      FlagS(a);
    }

    method InstrTxa()
      requires Valid()
      modifies this`a, this`p
      ensures Valid() && State() == Execution.InstrTxa(old(State()))
    {
      a := x;
      FlagZ(a);
      FlagS(a);
    }

    method InstrTsx()
      requires Valid() && 0 <= s < 256
      modifies this`x, this`p
      ensures Valid() && State() == Execution.InstrTsx(old(State()))
    {
      x := s;
      FlagZ(x);
      FlagS(x);
    }

    method InstrTxs()
      requires Valid()
      modifies this`s
      ensures Valid() && State() == Execution.InstrTxs(old(State()))
    {
      s := x;
    }

    method InstrSta(addr: int)
      requires Valid() && 0 <= addr < 0x10000
      modifies bus.cells
      ensures Valid() && State() == Execution.InstrSta(old(State()), addr)
    {
      bus.Write(addr, a);
    }

    method InstrStx(addr: int)
      requires Valid() && 0 <= addr < 0x10000
      modifies bus.cells
      ensures Valid() && State() == Execution.InstrStx(old(State()), addr)
    {
      bus.Write(addr, x);
    }

    method InstrSty(addr: int)
      requires Valid() && 0 <= addr < 0x10000
      modifies bus.cells
      ensures Valid() && State() == Execution.InstrSty(old(State()), addr)
    {
      bus.Write(addr, y);
    }

    method InstrJmp(addr: int)
      requires Valid()
      modifies this`pc
      ensures Valid() && State() == Execution.InstrJmp(old(State()), addr)
    {
      pc := addr;
    }

    method InstrJsr(addr: int)
      requires Valid() && CanPush(s, 2)
      modifies this`pc, this`s, bus.cells
      ensures Valid() && State() == Execution.InstrJsr(old(State()), addr)
    {
      pc := pc - 1;
      Push(Hi8(pc));
      Push(Lo8(pc));
      pc := addr;
    }

    method InstrRts()
      requires Valid() && CanPop(s, 2)
      modifies this`pc, this`s
      ensures Valid() && State() == Execution.InstrRts(old(State()))
    {
      var lo := Pop();
      var hi := Pop();
      pc := Word(lo, hi) + 1;
    }

    method InstrRti()
      requires Valid() && CanPop(s, 3)
      modifies this`pc, this`s, this`p
      ensures Valid() && State() == Execution.InstrRti(old(State()))
    {
      InstrPlp();
      var lo := Pop();
      var hi := Pop();
      pc := Word(lo, hi);
    }

    method InstrPha()
      requires Valid() && CanPush(s, 1)
      modifies this`s, bus.cells
      ensures Valid() && State() == Execution.InstrPha(old(State()))
    {
      Push(a);
    }

    method InstrPhp()
      requires Valid() && CanPush(s, 1)
      modifies this`s, bus.cells
      ensures Valid() && State() == Execution.InstrPhp(old(State()))
    {
      Push((p | 0x30) as int);
    }

    method InstrPla()
      requires Valid() && CanPop(s, 1)
      modifies this`a, this`s, this`p
      ensures Valid() && State() == Execution.InstrPla(old(State()))
    {
      a := Pop();
      FlagZ(a);
      FlagS(a);
    }

    method InstrPlp()
      requires Valid() && CanPop(s, 1)
      modifies this`s, this`p
      ensures Valid() && State() == Execution.InstrPlp(old(State()))
    {
      var v := Pop();
      p := ((v as bv8) | Mask(Unused)) & !Mask(Break);
    }

    method InstrBrk()
      requires Valid()
      modifies this`p, this`pc
      ensures Valid() && State() == Execution.InstrBrk(old(State()))
    {
      var lo := bus.Read(0xFFFE);
      var hi := bus.Read(0xFFFF);
      var num := Word(lo, hi);
      FlagB(true);
      FlagI(true);
      pc := num;
    }

    /** `_branch(addr)`. */
    method Branch(addr: int)
      requires Valid()
      modifies this`cycles, this`pc
      ensures Valid() && State() == Execution.Branch(old(State()), addr)
    {
      cycles := cycles + if CrossPage(pc, addr) then 2 else 1;
      pc := addr;
    }

    method InstrBcs(addr: int)
      requires Valid()
      modifies this`cycles, this`pc
      ensures Valid() && State() == Execution.InstrBcs(old(State()), addr)
    {
      if Flag(Mask(Carry)) != 0 { Branch(addr); }
    }

    method InstrBcc(addr: int)
      requires Valid()
      modifies this`cycles, this`pc
      ensures Valid() && State() == Execution.InstrBcc(old(State()), addr)
    {
      if Flag(Mask(Carry)) == 0 { Branch(addr); }
    }

    method InstrBeq(addr: int)
      requires Valid()
      modifies this`cycles, this`pc
      ensures Valid() && State() == Execution.InstrBeq(old(State()), addr)
    {
      if Flag(Mask(Zero)) != 0 { Branch(addr); }
    }

    method InstrBne(addr: int)
      requires Valid()
      modifies this`cycles, this`pc
      ensures Valid() && State() == Execution.InstrBne(old(State()), addr)
    {
      if Flag(Mask(Zero)) == 0 { Branch(addr); }
    }

    method InstrBvs(addr: int)
      requires Valid()
      modifies this`cycles, this`pc
      ensures Valid() && State() == Execution.InstrBvs(old(State()), addr)
    {
      if Flag(Mask(Overflow)) != 0 { Branch(addr); }
    }

    method InstrBvc(addr: int)
      requires Valid()
      modifies this`cycles, this`pc
      ensures Valid() && State() == Execution.InstrBvc(old(State()), addr)
    {
      if Flag(Mask(Overflow)) == 0 { Branch(addr); }
    }

    method InstrBmi(addr: int)
      requires Valid()
      modifies this`cycles, this`pc
      ensures Valid() && State() == Execution.InstrBmi(old(State()), addr)
    {
      if Flag(Mask(Sign)) != 0 { Branch(addr); }
    }

    method InstrBpl(addr: int)
      requires Valid()
      modifies this`cycles, this`pc
      ensures Valid() && State() == Execution.InstrBpl(old(State()), addr)
    {
      if Flag(Mask(Sign)) == 0 { Branch(addr); }
    }

    method InstrBit(addr: int)
      requires Valid() && 0 <= addr < 0x10000
      modifies this`p
      ensures Valid() && State() == Execution.InstrBit(old(State()), addr)
    {
      var value := bus.Read(addr);
      FlagS(value);
      FlagV(value);
      FlagZ(And(value, a));
    }

    /** `_compare(register, addr)`. */
    method Compare(register: Byte, addr: int)
      requires Valid() && 0 <= addr < 0x10000
      modifies this`p
      ensures Valid() && State() == Execution.Compare(old(State()), register, addr)
    {
      var m := bus.Read(addr);
      var value := register - m;
      FlagC(value >= 0);
      FlagZ(value);
      FlagS(value);
    }

    method InstrCmp(addr: int)
      requires Valid() && 0 <= addr < 0x10000
      modifies this`p
      ensures Valid() && State() == Execution.InstrCmp(old(State()), addr)
    {
      Compare(a, addr);
    }

    method InstrCpx(addr: int)
      requires Valid() && 0 <= addr < 0x10000
      modifies this`p
      ensures Valid() && State() == Execution.InstrCpx(old(State()), addr)
    {
      Compare(x, addr);
    }

    method InstrCpy(addr: int)
      requires Valid() && 0 <= addr < 0x10000
      modifies this`p
      ensures Valid() && State() == Execution.InstrCpy(old(State()), addr)
    {
      Compare(y, addr);
    }

    method InstrLax(addr: int)
      requires Valid() && 0 <= addr < 0x10000
      modifies this`a, this`x, this`p
      ensures Valid() && State() == Execution.InstrLax(old(State()), addr)
    {
      var value := bus.Read(addr);
      x := value;
      a := value;
      FlagZ(value);
      FlagS(value);
    }

    method InstrSax(addr: int)
      requires Valid() && 0 <= addr < 0x10000
      modifies bus.cells
      ensures Valid() && State() == Execution.InstrSax(old(State()), addr)
    {
      bus.Write(addr, And(a, x));
    }

    method InstrDcp(addr: int)
      requires Valid() && 0 <= addr < 0x10000
      modifies this`p, bus.cells
      ensures Valid() && State() == Execution.InstrDcp(old(State()), addr)
    {
      var v := bus.Read(addr);
      var value := Lo8(v as int - 1);
      var comparable := a - value;
      bus.Write(addr, value);
      FlagC(comparable >= 0);
      FlagZ(comparable);
      FlagS(comparable);
    }

    method InstrIsc(addr: int)
      requires Valid() && 0 <= addr < 0x10000
      modifies this`a, this`p, bus.cells
      ensures Valid() && State() == Execution.InstrIsc(old(State()), addr)
    {
      InstrInc(addr);
      InstrSbc(addr);
    }

    method InstrSlo(addr: int, am: AddrMode)
      requires Valid() && 0 <= addr < 0x10000
      modifies this`a, this`p, bus.cells
      ensures Valid() && State() == Execution.InstrSlo(old(State()), addr, am)
    {
      InstrAsl(addr, am);
      InstrOra(addr);
    }

    method InstrRla(addr: int, am: AddrMode)
      requires Valid() && 0 <= addr < 0x10000
      modifies this`a, this`p, bus.cells
      ensures Valid() && State() == Execution.InstrRla(old(State()), addr, am)
    {
      InstrRol(addr, am);
      InstrAnd(addr);
    }

    method InstrSre(addr: int, am: AddrMode)
      requires Valid() && 0 <= addr < 0x10000
      modifies this`a, this`p, bus.cells
      ensures Valid() && State() == Execution.InstrSre(old(State()), addr, am)
    {
      InstrLsr(addr, am);
      InstrEor(addr);
    }

    method InstrRra(addr: int, am: AddrMode)
      requires Valid() && 0 <= addr < 0x10000
      modifies this`a, this`p, bus.cells
      ensures Valid() && State() == Execution.InstrRra(old(State()), addr, am)
    {
      InstrRor(addr, am);
      InstrAdc(addr);
    }
  }
}
