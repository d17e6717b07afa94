/** What `CPU6502` (nes.js:17-444) does to the 2A03's registers, clock and
    memory, as functions on a value.

    A Machine holds the seven fields of the source's CPU object and the 64K
    memory of the `ArrayBus` it is wired to. Every handler of the source has
    a function here, and the class Cpu.CPU6502 is proved to change its fields
    and its bus exactly as these functions say.

    The accumulator and the index registers stay bytes: every assignment to
    them in the source is masked, wraps by hand or copies a byte. The stack
    pointer `s` and the program counter `pc` are plain integers because the
    source never masks them: `pc++` can reach 0x10000 and `s--` can go below
    zero. */
module Execution {
  import opened Wrappers
  import opened Bytes
  import opened Opcodes

  /** The 64K cells of the ArrayBus the CPU reads and writes. */
  type Memory = m: seq<Byte> | |m| == 0x10000 witness seq(0x10000, _ => 0)

  datatype Machine = Machine(
    a: Byte, x: Byte, y: Byte, s: int, p: bv8, pc: int, cycles: int,
    mem: Memory)

  /** The errors `step` and `operand` throw (nes.js:92, 115). */
  datatype Fault = InvalidOpcode(opcode: Byte) | InvalidAddressMode(mode: AddrMode)

  /** The state of a freshly constructed CPU (nes.js:29-39): registers and
      clock cleared, the stack pointer at 0xFD, and of the flags only
      Interrupt and Unused set. */
  function PowerOn(mem: Memory): (r: Machine)
    ensures r.mem == mem && r.pc == 0 && r.cycles == 0
    ensures r.a == 0 && r.x == 0 && r.y == 0 && r.s == 0xFD && r.p == 0x24
    ensures r.p == Mask(Interrupt) | Mask(Unused)
  {
    Machine(0, 0, 0, 0xFD, 0x24, 0, 0, mem)
  }

  // -- Flags (nes.js:18-27, 140-172) --

  datatype Flag = Carry | Zero | Interrupt | Decimal | Break | Unused | Overflow | Sign

  /** `CPU6502.Flags`: flag n is bit n of `p`. */
  function Mask(f: Flag): bv8
  {
    match f
    case Carry => 1
    case Zero => 2
    case Interrupt => 4
    case Decimal => 8
    case Break => 16
    case Unused => 32
    case Overflow => 64
    case Sign => 128
  }

  /** `flag(f)` is nonzero. */
  predicate HasFlag(p: bv8, f: Flag)
  {
    p & Mask(f) != 0
  }

  /** All eight bits set when `on`, none otherwise. */
  function Fill(on: bool): bv8
  {
    if on then 0xFF else 0
  }

  /** The flag's bit taken from `on`, every other bit from `p`: the branches
      `this.p |= f` and `this.p &= ~f` folded into one expression (see
      `SetFlagIsOrOrAndNot`). */
  function SetFlag(p: bv8, f: Flag, on: bool): bv8
  {
    (p & !Mask(f)) | (Fill(on) & Mask(f))
  }

  /** The setters of nes.js:140-168 OR the mask in to raise a flag and AND
      its complement to clear it. */
  lemma SetFlagIsOrOrAndNot(p: bv8, f: Flag, on: bool)
    ensures SetFlag(p, f, on) == if on then p | Mask(f) else p & !Mask(f)
  {
  }

  lemma SetFlagSetsOnlyThatFlag(p: bv8, f: Flag, on: bool)
    ensures HasFlag(SetFlag(p, f, on), f) == on
    ensures forall g: Flag :: g != f ==> HasFlag(SetFlag(p, f, on), g) == HasFlag(p, g)
  {
  }

  /** `flagZ(v)`: Zero is set exactly when the value is 0. */
  function FlagZ(p: bv8, v: int): bv8
  {
    SetFlag(p, Zero, v == 0)
  }

  /** `flagS(v)`: Sign takes bit 7 of the value. */
  function FlagS(p: bv8, v: int): bv8
  {
    SetFlag(p, Sign, Bit7(v))
  }

  /** `flagV(v)`: Overflow takes bit 6 of the value. */
  function FlagV(p: bv8, v: int): bv8
  {
    SetFlag(p, Overflow, Bit6(v))
  }

  /** The `flagZ(v); flagS(v)` pair nearly every handler ends with. */
  function FlagZS(p: bv8, v: int): bv8
  {
    FlagS(FlagZ(p, v), v)
  }

  /** After `flagZ(v); flagS(v)`, Z says whether v is 0, S holds bit 7 of v, and
      the other six flags are as before. */
  lemma FlagZSMeaning(p: bv8, v: int)
    ensures HasFlag(FlagZS(p, v), Zero) == (v == 0)
    ensures HasFlag(FlagZS(p, v), Sign) == Bit7(v)
    ensures forall g: Flag :: g != Zero && g != Sign ==> HasFlag(FlagZS(p, v), g) == HasFlag(p, g)
  {
    SetFlagSetsOnlyThatFlag(p, Zero, v == 0);
    SetFlagSetsOnlyThatFlag(FlagZ(p, v), Sign, Bit7(v));
  }

  /** `+this.flag(Carry)`: the carry as 0 or 1. */
  function CarryIn(p: bv8): (r: int)
    ensures r == 0 || r == 1
    ensures r == 1 <==> HasFlag(p, Carry)
  {
    if HasFlag(p, Carry) then 1 else 0
  }

  // -- Memory --

  function Read(m: Machine, addr: int): Byte
    requires 0 <= addr < 0x10000
  {
    m.mem[addr]
  }

  function Write(m: Machine, addr: int, v: Byte): Machine
    requires 0 <= addr < 0x10000
  {
    m.(mem := m.mem[addr := v])
  }

  // -- Stack (nes.js:131-136) --

  /** `n` pushes from `s` write the addresses 0x100+s down to 0x100+s-n+1. */
  predicate CanPush(s: int, n: nat)
  {
    0 <= 0x100 + s - n + 1 && 0x100 + s < 0x10000
  }

  /** `n` pops from `s` read the addresses 0x101+s up to 0x100+s+n. */
  predicate CanPop(s: int, n: nat)
  {
    0 <= 0x101 + s && 0x100 + s + n < 0x10000
  }

  /** `push(v)`: `bus.write(0x0100 + this.s--, v)`. */
  function Push(m: Machine, v: Byte): (r: Machine)
    requires CanPush(m.s, 1)
    ensures r.s == m.s - 1 && r.mem[0x100 + m.s] == v
  {
    m.(mem := m.mem[0x100 + m.s := v], s := m.s - 1)
  }

  datatype Popped = Popped(m: Machine, value: Byte)

  /** `pop()`: `bus.read(0x0100 + ++this.s)`. */
  function Pop(m: Machine): (r: Popped)
    requires CanPop(m.s, 1)
    ensures r.m == m.(s := m.s + 1) && r.value == m.mem[0x101 + m.s]
  {
    var s := m.s + 1;
    Popped(m.(s := s), m.mem[0x100 + s])
  }

  /** How much stack room each mnemonic's handler needs, and, for TSX, that
      the stack pointer it copies into X is a byte. */
  predicate StackFits(mn: Mnemonic, s: int)
  {
    match mn
    case PHA | PHP => CanPush(s, 1)
    case JSR => CanPush(s, 2)
    case PLA | PLP => CanPop(s, 1)
    case RTS => CanPop(s, 2)
    case RTI => CanPop(s, 3)
    case TSX => 0 <= s < 256
    case _ => true
  }

  // -- Operand resolution (nes.js:42-93) --

  /** What `operand()` returns, with the machine it leaves behind. */
  datatype Fetched = Fetched(operand: int, m: Machine)

  /** `operand(instr)`'s `addr16ind`: the JMP ($nnnn) target. A pointer whose
      low byte is 0xFF takes its high byte from the start of the same page
      (the 6502's page-wrap quirk); crossing a page from pc costs 2 cycles. */
  function IndirectTarget(m: Machine): (r: Fetched)
    requires 0 <= m.pc && m.pc + 2 <= 0x10000
  {
    var operand := Word(m.mem[m.pc], m.mem[m.pc + 1]);
    var pc := m.pc + 2;
    var value :=
      if operand % 256 == 0xFF then Word(m.mem[operand], m.mem[operand - 0xFF])
      else Word(m.mem[operand], m.mem[operand + 1]);
    Fetched(value, m.(pc := pc, cycles := m.cycles + if CrossPage(pc, value) then 2 else 0))
  }

  /** The Relative operand: `(pc & 0xFF00) | ((pc & 0xFF) + offset)`, with the
      offset byte read unsigned and pc already past it. */
  function RelativeTarget(pc: int, offset: Byte): (r: int)
    requires 0 <= pc <= 0x10000
    ensures 0 <= r < 0x10000
  {
    Or16(PageOf(pc), Lo8(pc) + offset)
  }

  /** The index register an indexed mode adds: X for the X modes, Y for the
      Y modes, nothing otherwise. */
  function IndexOf(m: Machine, am: AddrMode): (r: Byte)
    ensures am in {AbsoluteX, ZeroPageX, IndirectX} ==> r == m.x
    ensures am in {AbsoluteY, ZeroPageY} ==> r == m.y
  {
    match am
    case AbsoluteX | ZeroPageX | IndirectX => m.x
    case AbsoluteY | ZeroPageY => m.y
    case _ => 0
  }

  /** `operand(instr)`: the address (or, for Accumulator, the value) the
      handler works on. It consumes the operand bytes at pc, and only the
      Indirect mode touches the clock. The two parser-only modes throw. */
  function Operand(m: Machine, am: AddrMode): Result<Fetched, Fault>
    requires 0 <= m.pc && m.pc + OperandLength(am) <= 0x10000
  {
    var pc := m.pc;
    match am
    case Implied => Success(Fetched(0, m))
    case Accumulator => Success(Fetched(m.a, m))
    case Immediate => Success(Fetched(pc, m.(pc := pc + 1)))
    case ZeroPage => Success(Fetched(m.mem[pc], m.(pc := pc + 1)))
    case ZeroPageX => Success(Fetched(Lo8(m.mem[pc] + m.x), m.(pc := pc + 1)))
    case ZeroPageY => Success(Fetched(Lo8(m.mem[pc] + m.y), m.(pc := pc + 1)))
    case Absolute => Success(Fetched(Word(m.mem[pc], m.mem[pc + 1]), m.(pc := pc + 2)))
    case AbsoluteX =>
      Success(Fetched((Word(m.mem[pc], m.mem[pc + 1]) + m.x) % 0x10000, m.(pc := pc + 2)))
    case AbsoluteY =>
      Success(Fetched((Word(m.mem[pc], m.mem[pc + 1]) + m.y) % 0x10000, m.(pc := pc + 2)))
    case Indirect => Success(IndirectTarget(m))
    case IndirectX =>
      var addr := Lo8(m.mem[pc] + m.x);
      Success(Fetched(Word(m.mem[addr], m.mem[Lo8(addr as int + 1)]), m.(pc := pc + 1)))
    case IndirectY =>
      var addr := m.mem[pc];
      var base := Word(m.mem[addr], m.mem[Lo8(addr as int + 1)]);
      Success(Fetched((base + m.y) % 0x10000, m.(pc := pc + 1)))
    case Relative => Success(Fetched(RelativeTarget(pc + 1, m.mem[pc]), m.(pc := pc + 1)))
    case IndirectPostX | IndirectPostY => Failure(InvalidAddressMode(am))
  }

  /** The three absolute modes read the same little-endian word and add 0, X
      or Y to it on 16 bits. */
  lemma OperandAbsoluteModes(m: Machine, am: AddrMode)
    requires 0 <= m.pc && m.pc + 2 <= 0x10000 && am in {Absolute, AbsoluteX, AbsoluteY}
    ensures Operand(m, am) == Success(Fetched(
      (Word(m.mem[m.pc], m.mem[m.pc + 1]) + IndexOf(m, am)) % 0x10000, m.(pc := m.pc + 2)))
  {
  }

  /** Operand resolution fails exactly for the two parser-only modes. Otherwise
      it yields an address inside memory and leaves the machine as it was but
      for pc, which moves past the operand bytes, and, in Indirect mode only,
      the clock. */
  lemma OperandConsumesItsBytes(m: Machine, am: AddrMode)
    requires 0 <= m.pc && m.pc + OperandLength(am) <= 0x10000
    ensures Operand(m, am).Failure? <==> am in {IndirectPostX, IndirectPostY}
    ensures Operand(m, am).Failure? ==> Operand(m, am).error == InvalidAddressMode(am)
    ensures Operand(m, am).Success? ==>
      var f := Operand(m, am).value;
      && 0 <= f.operand < 0x10000
      && f.m == m.(pc := m.pc + OperandLength(am), cycles := f.m.cycles)
      && (am != Indirect ==> f.m.cycles == m.cycles)
  {
  }

  /** `instructionCycles(instr)` (nes.js:96-111): the base cycles, plus one
      when the entry asks for it, is indexed by X (AbsoluteX) or by Y
      (AbsoluteY, IndirectY), and pc lies in another page than pc minus that
      index. */
  function InstructionCycles(m: Machine, instr: Instruction): Machine
  {
    var penalty :=
      if !instr.checkPageCross then 0
      else match instr.addressingMode
        case AbsoluteX => if CrossPage(m.pc, m.pc - m.x) then 1 else 0
        case AbsoluteY | IndirectY => if CrossPage(m.pc, m.pc - m.y) then 1 else 0
        case _ => 0;
    m.(cycles := m.cycles + instr.cycles + penalty)
  }

  /** Only the clock moves, by the base cycles or one more. The extra cycle
      is spent exactly when the entry asks for it and pc lies in another page
      than pc minus X (AbsoluteX) or minus Y (AbsoluteY, IndirectY). */
  lemma InstructionCyclesAddsBaseOrOneMore(m: Machine, instr: Instruction)
    ensures InstructionCycles(m, instr) == m.(cycles := InstructionCycles(m, instr).cycles)
    ensures instr.cycles <= InstructionCycles(m, instr).cycles - m.cycles <= instr.cycles + 1
    ensures InstructionCycles(m, instr).cycles - m.cycles == instr.cycles + 1 <==>
      && instr.checkPageCross
      && ((instr.addressingMode == AbsoluteX && CrossPage(m.pc, m.pc - m.x))
          || (instr.addressingMode in {AbsoluteY, IndirectY} && CrossPage(m.pc, m.pc - m.y)))
  {
  }

  // -- Handlers (nes.js:176-444) --

  function InstrNop(m: Machine): Machine { m }
  function InstrClv(m: Machine): Machine { m.(p := SetFlag(m.p, Overflow, false)) }
  function InstrClc(m: Machine): Machine { m.(p := SetFlag(m.p, Carry, false)) }
  function InstrCli(m: Machine): Machine { m.(p := SetFlag(m.p, Interrupt, false)) }
  function InstrCld(m: Machine): Machine { m.(p := SetFlag(m.p, Decimal, false)) }
  function InstrSec(m: Machine): Machine { m.(p := SetFlag(m.p, Carry, true)) }
  function InstrSei(m: Machine): Machine { m.(p := SetFlag(m.p, Interrupt, true)) }
  function InstrSed(m: Machine): Machine { m.(p := SetFlag(m.p, Decimal, true)) }

  function InstrAnd(m: Machine, addr: int): Machine
    requires 0 <= addr < 0x10000
  {
    var a := And(m.a, m.mem[addr]);
    m.(a := a, p := FlagZS(m.p, a))
  }

  function InstrOra(m: Machine, addr: int): Machine
    requires 0 <= addr < 0x10000
  {
    var a := Or(m.a, m.mem[addr]);
    m.(a := a, p := FlagZS(m.p, a))
  }

  function InstrEor(m: Machine, addr: int): Machine
    requires 0 <= addr < 0x10000
  {
    var a := Xor(m.a, m.mem[addr]);
    m.(a := a, p := FlagZS(m.p, a))
  }

  /** `~(a ^ value) & (a ^ res) & 0x80`, the mask `_instr_ADC` and
      `_instr_SBC` compute. Only the low byte of each term reaches bit 7. */
  function OverflowMask(a: Byte, value: int, res: int): bv8
  {
    var x, v, r := a as bv8, Lo8(value) as bv8, Lo8(res) as bv8;
    !(x ^ v) & (x ^ r) & 0x80
  }

  /** The test that mask makes: A and the operand agree in bit 7 and the
      result does not. */
  predicate OverflowBit(a: Byte, value: int, res: int)
  {
    Bit7(a) == Bit7(value) && Bit7(a) != Bit7(res)
  }

  /** The mask is nonzero exactly when the sign test holds. */
  lemma OverflowMaskIsSignTest(a: Byte, value: int, res: int)
    ensures OverflowMask(a, value, res) != 0 <==> OverflowBit(a, value, res)
  {
    SignTestOnVectors(a as bv8, Lo8(value) as bv8, Lo8(res) as bv8);
    TopBitIsBit7(a);
    TopBitIsBit7(Lo8(value));
    TopBitIsBit7(Lo8(res));
    Bit7OfLowByte(value);
    Bit7OfLowByte(res);
  }

  /** The common body of ADC and SBC once the sum is known: V from the sign
      test, then A, Z, S, and C from `carried`. */
  function AddWithCarry(m: Machine, res: int, overflow: bool, carried: bool): Machine
  {
    var p := SetFlag(m.p, Overflow, overflow);
    var a := Lo8(res);
    m.(a := a, p := SetFlag(FlagZS(p, a), Carry, carried))
  }

  /** `_instr_ADC`: A + M + C, carrying out when the sum exceeds 0xFF. */
  function InstrAdc(m: Machine, addr: int): Machine
    requires 0 <= addr < 0x10000
  {
    var value := m.mem[addr];
    var res := m.a + value + CarryIn(m.p);
    AddWithCarry(m, res, OverflowBit(m.a, value, res), res > 0xFF)
  }

  /** `_instr_SBC`: A + ~M + C, with C set when that sum is not negative. */
  function InstrSbc(m: Machine, addr: int): Machine
    requires 0 <= addr < 0x10000
  {
    var value := -(m.mem[addr] as int) - 1;
    var res := m.a + value + CarryIn(m.p);
    AddWithCarry(m, res, OverflowBit(m.a, value, res), res >= 0)
  }

  /** `_getAddrOrAccum`: the accumulator in Accumulator mode, memory otherwise. */
  function GetAddrOrAccum(m: Machine, addr: int, am: AddrMode): Byte
    requires am == Accumulator || 0 <= addr < 0x10000
  {
    if am == Accumulator then m.a else m.mem[addr]
  }

  /** `_setAddrOrAccum`. */
  function SetAddrOrAccum(m: Machine, addr: int, am: AddrMode, v: Byte): Machine
    requires am == Accumulator || 0 <= addr < 0x10000
  {
    if am == Accumulator then m.(a := v) else Write(m, addr, v)
  }

  function InstrLsr(m: Machine, addr: int, am: AddrMode): Machine
    requires am == Accumulator || 0 <= addr < 0x10000
  {
    var valueIn := GetAddrOrAccum(m, addr, am);
    var value := valueIn / 2;
    var p := FlagZS(SetFlag(m.p, Carry, valueIn % 2 == 1), value);
    SetAddrOrAccum(m.(p := p), addr, am, value)
  }

  function InstrAsl(m: Machine, addr: int, am: AddrMode): Machine
    requires am == Accumulator || 0 <= addr < 0x10000
  {
    var valueIn := GetAddrOrAccum(m, addr, am);
    var value := Lo8(valueIn * 2);
    var p := FlagZS(SetFlag(m.p, Carry, valueIn >= 0x80), value);
    SetAddrOrAccum(m.(p := p), addr, am, value)
  }

  /** `_instr_ROL`: `valueIn` is already shifted; the carry comes in by `| 1`. */
  function InstrRol(m: Machine, addr: int, am: AddrMode): Machine
    requires am == Accumulator || 0 <= addr < 0x10000
  {
    var valueIn := GetAddrOrAccum(m, addr, am) * 2;
    var value := Lo8(if HasFlag(m.p, Carry) then Or16(valueIn, 1) else valueIn);
    var p := FlagZS(SetFlag(m.p, Carry, valueIn > 0xFF), value);
    SetAddrOrAccum(m.(p := p), addr, am, value)
  }

  /** `_instr_ROR`: the carry comes in by `| 0x100` before the shift. */
  function InstrRor(m: Machine, addr: int, am: AddrMode): Machine
    requires am == Accumulator || 0 <= addr < 0x10000
  {
    var valueIn := GetAddrOrAccum(m, addr, am);
    var value := (if HasFlag(m.p, Carry) then Or16(valueIn, 0x100) else valueIn) / 2;
    assert value < 256 by { OrHighBit(valueIn); }
    var p := FlagZS(SetFlag(m.p, Carry, valueIn % 2 == 1), value);
    SetAddrOrAccum(m.(p := p), addr, am, value)
  }

  /** `v | 0x100` on a byte sets bit 8. */
  lemma OrHighBit(v: Byte)
    ensures Or16(v, 0x100) == v + 0x100
  {
    OrZeroLowByte(v);
    assert Or(Hi8(v), 1) == 1 by { assert Hi8(v) == 0; }
    assert Or(Lo8(v), Lo8(0x100)) == v;
  }

  /** `v | 1` on an even value below 0x10000 sets bit 0. */
  lemma OrLowBit(v: int)
    requires 0 <= v < 0x10000 && v % 2 == 0
    ensures Or16(v, 1) == v + 1
  {
    var lo, hi := Lo8(v), Hi8(v);
    assert v == hi as int * 256 + lo as int;
    assert lo % 2 == 0;
    OrOneOnEven(lo);
    OrZeroLowByte(hi);
    assert Lo8(1) == 1 && Hi8(1) == 0;
  }

  function InstrLda(m: Machine, addr: int): Machine
    requires 0 <= addr < 0x10000
  {
    m.(a := m.mem[addr], p := FlagZS(m.p, m.mem[addr]))
  }

  function InstrLdx(m: Machine, addr: int): Machine
    requires 0 <= addr < 0x10000
  {
    m.(x := m.mem[addr], p := FlagZS(m.p, m.mem[addr]))
  }

  function InstrLdy(m: Machine, addr: int): Machine
    requires 0 <= addr < 0x10000
  {
    m.(y := m.mem[addr], p := FlagZS(m.p, m.mem[addr]))
  }

  function InstrDec(m: Machine, addr: int): Machine
    requires 0 <= addr < 0x10000
  {
    var value := Lo8(m.mem[addr] as int - 1);
    Write(m, addr, value).(p := FlagZS(m.p, value))
  }

  /** `if (--x < 0) x = 0xFF`. */
  function Decrement(r: Byte): Byte
  {
    if r - 1 < 0 then 0xFF else r - 1
  }

  /** `if (++x > 0xFF) x = 0`. */
  function Increment(r: Byte): Byte
  {
    if r + 1 > 0xFF then 0 else r + 1
  }

  function InstrDex(m: Machine): Machine
  {
    var x := Decrement(m.x);
    m.(x := x, p := FlagZS(m.p, x))
  }

  function InstrDey(m: Machine): Machine
  {
    var y := Decrement(m.y);
    m.(y := y, p := FlagZS(m.p, y))
  }

  function InstrInc(m: Machine, addr: int): Machine
    requires 0 <= addr < 0x10000
  {
    var value := Lo8(m.mem[addr] as int + 1);
    Write(m, addr, value).(p := FlagZS(m.p, value))
  }

  function InstrInx(m: Machine): Machine
  {
    var x := Increment(m.x);
    m.(x := x, p := FlagZS(m.p, x))
  }

  function InstrIny(m: Machine): Machine
  {
    var y := Increment(m.y);
    m.(y := y, p := FlagZS(m.p, y))
  }

  function InstrTax(m: Machine): Machine { m.(x := m.a, p := FlagZS(m.p, m.a)) }
  function InstrTay(m: Machine): Machine { m.(y := m.a, p := FlagZS(m.p, m.a)) }
  function InstrTya(m: Machine): Machine { m.(a := m.y, p := FlagZS(m.p, m.y)) }
  function InstrTxa(m: Machine): Machine { m.(a := m.x, p := FlagZS(m.p, m.x)) }

  function InstrTsx(m: Machine): Machine
    requires 0 <= m.s < 256
  {
    m.(x := m.s, p := FlagZS(m.p, m.s))
  }

  function InstrTxs(m: Machine): Machine { m.(s := m.x) }

  function InstrSta(m: Machine, addr: int): Machine
    requires 0 <= addr < 0x10000
  {
    Write(m, addr, m.a)
  }

  function InstrStx(m: Machine, addr: int): Machine
    requires 0 <= addr < 0x10000
  {
    Write(m, addr, m.x)
  }

  function InstrSty(m: Machine, addr: int): Machine
    requires 0 <= addr < 0x10000
  {
    Write(m, addr, m.y)
  }

  function InstrJmp(m: Machine, addr: int): Machine { m.(pc := addr) }

  /** `_instr_JSR`: push the address of the last operand byte, high byte
      first, then jump. */
  function InstrJsr(m: Machine, addr: int): Machine
    requires CanPush(m.s, 2)
  {
    var pc := m.pc - 1;
    Push(Push(m.(pc := pc), Hi8(pc)), Lo8(pc)).(pc := addr)
  }

  /** `_instr_RTS`: pop the low byte, then the high byte, and continue one
      past the word they spell. */
  function InstrRts(m: Machine): Machine
    requires CanPop(m.s, 2)
  {
    var lo := Pop(m);
    var hi := Pop(lo.m);
    hi.m.(pc := Word(lo.value, hi.value) + 1)
  }

  /** `_instr_RTI`: PLP, then pop the return address itself. */
  function InstrRti(m: Machine): Machine
    requires CanPop(m.s, 3)
  {
    var m1 := InstrPlp(m);
    var lo := Pop(m1);
    var hi := Pop(lo.m);
    hi.m.(pc := Word(lo.value, hi.value))
  }

  function InstrPha(m: Machine): Machine
    requires CanPush(m.s, 1)
  {
    Push(m, m.a)
  }

  /** `_instr_PHP`: the pushed copy has B and the unused bit set. */
  function InstrPhp(m: Machine): Machine
    requires CanPush(m.s, 1)
  {
    Push(m, (m.p | 0x30) as int)
  }

  function InstrPla(m: Machine): Machine
    requires CanPop(m.s, 1)
  {
    var r := Pop(m);
    r.m.(a := r.value, p := FlagZS(r.m.p, r.value))
  }

  /** `_instr_PLP`: the pulled status has the unused bit set and B clear. */
  function InstrPlp(m: Machine): Machine
    requires CanPop(m.s, 1)
  {
    var r := Pop(m);
    r.m.(p := ((r.value as bv8) | Mask(Unused)) & !Mask(Break))
  }

  /** `_instr_BRK`: jump through the vector at 0xFFFE with B and I set.
      Nothing is pushed. */
  function InstrBrk(m: Machine): Machine
  {
    var num := Word(m.mem[0xFFFE], m.mem[0xFFFF]);
    m.(p := SetFlag(SetFlag(m.p, Break, true), Interrupt, true), pc := num)
  }

  /** `_branch(addr)`: one cycle for a taken branch, two when it lands in
      another page than pc. */
  function Branch(m: Machine, addr: int): Machine
  {
    m.(cycles := m.cycles + (if CrossPage(m.pc, addr) then 2 else 1), pc := addr)
  }

  /** The eight conditional branches: BCS/BEQ/BVS/BMI branch when their flag is
      set, BCC/BNE/BVC/BPL when it is clear. */
  function BranchIf(m: Machine, addr: int, taken: bool): Machine
  {
    if taken then Branch(m, addr) else m
  }

  function InstrBcs(m: Machine, addr: int): Machine { BranchIf(m, addr, HasFlag(m.p, Carry)) }
  function InstrBcc(m: Machine, addr: int): Machine { BranchIf(m, addr, !HasFlag(m.p, Carry)) }
  function InstrBeq(m: Machine, addr: int): Machine { BranchIf(m, addr, HasFlag(m.p, Zero)) }
  function InstrBne(m: Machine, addr: int): Machine { BranchIf(m, addr, !HasFlag(m.p, Zero)) }
  function InstrBvs(m: Machine, addr: int): Machine { BranchIf(m, addr, HasFlag(m.p, Overflow)) }
  function InstrBvc(m: Machine, addr: int): Machine { BranchIf(m, addr, !HasFlag(m.p, Overflow)) }
  function InstrBmi(m: Machine, addr: int): Machine { BranchIf(m, addr, HasFlag(m.p, Sign)) }
  function InstrBpl(m: Machine, addr: int): Machine { BranchIf(m, addr, !HasFlag(m.p, Sign)) }

  /** `_instr_BIT`: S and V from bits 7 and 6 of memory, Z from memory AND A. */
  function InstrBit(m: Machine, addr: int): Machine
    requires 0 <= addr < 0x10000
  {
    var value := m.mem[addr];
    m.(p := FlagZ(FlagV(FlagS(m.p, value), value), And(value, m.a)))
  }

  /** `_compare(register, addr)`: C when the register is at least the memory
      byte, Z and S from the (possibly negative) difference. */
  function Compare(m: Machine, register: Byte, addr: int): Machine
    requires 0 <= addr < 0x10000
  {
    var value := register - m.mem[addr];
    m.(p := FlagZS(SetFlag(m.p, Carry, value >= 0), value))
  }

  function InstrCmp(m: Machine, addr: int): Machine
    requires 0 <= addr < 0x10000
  {
    Compare(m, m.a, addr)
  }

  function InstrCpx(m: Machine, addr: int): Machine
    requires 0 <= addr < 0x10000
  {
    Compare(m, m.x, addr)
  }

  function InstrCpy(m: Machine, addr: int): Machine
    requires 0 <= addr < 0x10000
  {
    Compare(m, m.y, addr)
  }

  /** The combined undocumented instructions (nes.js:464-505). */
  function InstrLax(m: Machine, addr: int): Machine
    requires 0 <= addr < 0x10000
  {
    var value := m.mem[addr];
    m.(x := value, a := value, p := FlagZS(m.p, value))
  }

  function InstrSax(m: Machine, addr: int): Machine
    requires 0 <= addr < 0x10000
  {
    Write(m, addr, And(m.a, m.x))
  }

  /** `_instr_DCP`: DEC, then compare A with the decremented byte. */
  function InstrDcp(m: Machine, addr: int): Machine
    requires 0 <= addr < 0x10000
  {
    var value := Lo8(m.mem[addr] as int - 1);
    var comparable := m.a - value;
    Write(m, addr, value).(p := FlagZS(SetFlag(m.p, Carry, comparable >= 0), comparable))
  }

  function InstrIsc(m: Machine, addr: int): Machine
    requires 0 <= addr < 0x10000
  {
    InstrSbc(InstrInc(m, addr), addr)
  }

  function InstrSlo(m: Machine, addr: int, am: AddrMode): Machine
    requires 0 <= addr < 0x10000
  {
    InstrOra(InstrAsl(m, addr, am), addr)
  }

  function InstrRla(m: Machine, addr: int, am: AddrMode): Machine
    requires 0 <= addr < 0x10000
  {
    InstrAnd(InstrRol(m, addr, am), addr)
  }

  function InstrSre(m: Machine, addr: int, am: AddrMode): Machine
    requires 0 <= addr < 0x10000
  {
    InstrEor(InstrLsr(m, addr, am), addr)
  }

  function InstrRra(m: Machine, addr: int, am: AddrMode): Machine
    requires 0 <= addr < 0x10000
  {
    InstrAdc(InstrRor(m, addr, am), addr)
  }

  /** `executor.bind(this)(operand, instruction)` (nes.js:116-121): the handler
      named `_instr_` plus the mnemonic. Every mnemonic has one, so the source's
      "No executor" error cannot happen. */
  function Execute(m: Machine, instr: Instruction, addr: int): Machine
    requires 0 <= addr < 0x10000
    requires StackFits(instr.mnemonic, m.s)
  {
    var am := instr.addressingMode;
    match instr.mnemonic
    case ADC => InstrAdc(m, addr)
    case AND => InstrAnd(m, addr)
    case ASL => InstrAsl(m, addr, am)
    case BCC => InstrBcc(m, addr)
    case BCS => InstrBcs(m, addr)
    case BEQ => InstrBeq(m, addr)
    case BIT => InstrBit(m, addr)
    case BMI => InstrBmi(m, addr)
    case BNE => InstrBne(m, addr)
    case BPL => InstrBpl(m, addr)
    case BRK => InstrBrk(m)
    case BVC => InstrBvc(m, addr)
    case BVS => InstrBvs(m, addr)
    case CLC => InstrClc(m)
    case CLD => InstrCld(m)
    case CLI => InstrCli(m)
    case CLV => InstrClv(m)
    case CMP => InstrCmp(m, addr)
    case CPX => InstrCpx(m, addr)
    case CPY => InstrCpy(m, addr)
    case DEC => InstrDec(m, addr)
    case DEX => InstrDex(m)
    case DEY => InstrDey(m)
    case EOR => InstrEor(m, addr)
    case INC => InstrInc(m, addr)
    case INX => InstrInx(m)
    case INY => InstrIny(m)
    case JMP => InstrJmp(m, addr)
    case JSR => InstrJsr(m, addr)
    case LDA => InstrLda(m, addr)
    case LDX => InstrLdx(m, addr)
    case LDY => InstrLdy(m, addr)
    case LSR => InstrLsr(m, addr, am)
    case NOP => InstrNop(m)
    case ORA => InstrOra(m, addr)
    case PHA => InstrPha(m)
    case PHP => InstrPhp(m)
    case PLA => InstrPla(m)
    case PLP => InstrPlp(m)
    case ROL => InstrRol(m, addr, am)
    case ROR => InstrRor(m, addr, am)
    case RTI => InstrRti(m)
    case RTS => InstrRts(m)
    case SBC => InstrSbc(m, addr)
    case SEC => InstrSec(m)
    case SED => InstrSed(m)
    case SEI => InstrSei(m)
    case STA => InstrSta(m, addr)
    case STX => InstrStx(m, addr)
    case STY => InstrSty(m, addr)
    case TAX => InstrTax(m)
    case TAY => InstrTay(m)
    case TSX => InstrTsx(m)
    case TXA => InstrTxa(m)
    case TXS => InstrTxs(m)
    case TYA => InstrTya(m)
    case LAX => InstrLax(m, addr)
    case SAX => InstrSax(m, addr)
    case DCP => InstrDcp(m, addr)
    case ISC => InstrIsc(m, addr)
    case SLO => InstrSlo(m, addr, am)
    case RLA => InstrRla(m, addr, am)
    case SRE => InstrSre(m, addr, am)
    case RRA => InstrRra(m, addr, am)
  }

  // -- One step (nes.js:113-124) --

  /** What `step()` demands of the machine for the model: pc is inside memory,
      the instruction's operand bytes are too, and the handler's stack
      accesses stay inside memory. */
  predicate CanStep(m: Machine)
  {
    && 0 <= m.pc < 0x10000
    && var instr := GetInOpc(m.mem[m.pc]);
    && (instr.Some? ==>
         && m.pc + instr.value.size <= 0x10000
         && StackFits(instr.value.mnemonic, m.s))
  }

  /** The machine after `step()` and what the call gives back: the number it
      returns (the old cycle count minus the new one) or the error it throws. */
  datatype StepResult = StepResult(m: Machine, result: Result<int, Fault>)

  /** `step()`: fetch the opcode at pc, decode it, and run the instruction.
      An unregistered opcode throws once pc has moved past it. */
  function Step(m: Machine): (r: StepResult)
    requires CanStep(m)
  {
    var opcode := m.mem[m.pc];
    var m1 := m.(pc := m.pc + 1);
    match GetInOpc(opcode)
    case None => StepResult(m1, Failure(InvalidOpcode(opcode)))
    case Some(instr) => Run(m1, instr)
  }

  /** The rest of `step()` once the opcode is decoded and pc is past it:
      resolve the operand, add the cycles and run the handler; the result is
      the old cycle count minus the new one. */
  function Run(m: Machine, instr: Instruction): (r: StepResult)
    requires 0 <= m.pc && m.pc + OperandLength(instr.addressingMode) <= 0x10000
    requires StackFits(instr.mnemonic, m.s)
  {
    OperandConsumesItsBytes(m, instr.addressingMode);
    match Operand(m, instr.addressingMode)
    case Failure(e) => StepResult(m, Failure(e))
    case Success(f) =>
      InstructionCyclesAddsBaseOrOneMore(f.m, instr);
      var m2 := InstructionCycles(f.m, instr);
      var m3 := Execute(m2, instr, f.operand);
      StepResult(m3, Success(m.cycles - m3.cycles))
  }
}
