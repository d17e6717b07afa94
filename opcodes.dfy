/** The opcode table of nes.js (lines 690-702, 740-756 and 777-1034).

    The source fills two dictionaries by calling `newinstr` once per opcode:
    one keyed by opcode byte (`getinopc`), one keyed by the pair of mnemonic
    and addressing mode (`getinstr`). The table never changes afterwards, so
    both lookups are total functions here. No opcode byte is registered twice;
    five pairs are (SBC Immediate and four NOP modes), and for those the pair
    lookup keeps the entry registered last. The entries below follow the
    order of the `newinstr` calls; the table is cut into small pieces only so
    that each piece is cheap to check. */
module Opcodes {
  import opened Wrappers
  import opened Bytes

  /** The 56 official mnemonics (nes.js:779-786) and the eight combined
      undocumented ones the source also executes (nes.js:974-1034). */
  datatype Mnemonic =
    ADC | AND | ASL | BCC | BCS | BEQ | BIT | BMI | BNE | BPL | BRK | BVC
    | BVS | CLC | CLD | CLI | CLV | CMP | CPX | CPY | DEC | DEX | DEY | EOR
    | INC | INX | INY | JMP | JSR | LDA | LDX | LDY | LSR | NOP | ORA | PHA
    | PHP | PLA | PLP | ROL | ROR | RTI | RTS | SBC | SEC | SED | SEI | STA
    | STX | STY | TAX | TAY | TSX | TXA | TXS | TYA | LAX | SAX | DCP | ISC
    | SLO | RLA | SRE | RRA

  /** `AddrModes` (nes.js:740-756). IndirectPostX and IndirectPostY exist only
      for the assembler's parser; no table entry uses them. */
  datatype AddrMode =
    Implied | Immediate | Absolute | AbsoluteX | AbsoluteY | ZeroPage | ZeroPageX | ZeroPageY
    | Indirect | IndirectX | IndirectY | IndirectPostX | IndirectPostY | Relative | Accumulator

  /** `Instruction` (nes.js:690-702). `cycles` is the base cycle count;
      `checkPageCross` says whether an indexed access across a page costs one
      more cycle. */
  datatype Instruction = Instruction(
    mnemonic: Mnemonic, opcode: Byte, addressingMode: AddrMode,
    size: nat, cycles: nat, checkPageCross: bool)

  /** How many operand bytes `operand()` reads at pc for each mode
      (nes.js:42-93). For the two parser-only modes it reads none: it throws. */
  function OperandLength(am: AddrMode): nat
  {
    match am
    case Implied | Accumulator | IndirectPostX | IndirectPostY => 0
    case Immediate | ZeroPage | ZeroPageX | ZeroPageY | IndirectX | IndirectY | Relative => 1
    case Absolute | AbsoluteX | AbsoluteY | Indirect => 2
  }

  /** An entry is consistent with the opcode it is stored under when it answers
      to that opcode, its size is one opcode byte plus the operand bytes its
      mode reads, and it uses no parser-only mode. */
  predicate EntryConsistent(opc: int, r: Option<Instruction>)
  {
    r.Some? ==>
      && r.value.opcode == opc
      && r.value.size == 1 + OperandLength(r.value.addressingMode)
      && r.value.addressingMode !in {IndirectPostX, IndirectPostY}
  }

  /** `getinopc(opc)` (nes.js:788): the instruction registered for an opcode
      byte, or None (JavaScript's `undefined`) for the unregistered bytes. */
  function GetInOpc(opc: Byte): (r: Option<Instruction>)
    ensures EntryConsistent(opc, r)
  {
    var lo := opc % 16;
    match opc / 16
    case 0 => Row0(lo)
    case 1 => Row1(lo)
    case 2 => Row2(lo)
    case 3 => Row3(lo)
    case 4 => Row4(lo)
    case 5 => Row5(lo)
    case 6 => Row6(lo)
    case 7 => Row7(lo)
    case 8 => Row8(lo)
    case 9 => Row9(lo)
    case 10 => RowA(lo)
    case 11 => RowB(lo)
    case 12 => RowC(lo)
    case 13 => RowD(lo)
    case 14 => RowE(lo)
    case _ => RowF(lo)
  }

  /** The opcodes 0x00 to 0x0F. */
  function Row0(lo: int): (r: Option<Instruction>)
    requires 0 <= lo < 16
    ensures EntryConsistent(0 + lo, r)
  {
    match lo
    case 10 => Some(Instruction(ASL, 0x0A, Accumulator, 1, 2, false))
    case 6 => Some(Instruction(ASL, 0x06, ZeroPage, 2, 5, false))
    case 14 => Some(Instruction(ASL, 0x0E, Absolute, 3, 6, false))
    case 0 => Some(Instruction(BRK, 0x00, Implied, 1, 7, false))
    case 4 => Some(Instruction(NOP, 0x04, ZeroPage, 2, 2, false))
    case 12 => Some(Instruction(NOP, 0x0C, AbsoluteX, 3, 2, false))
    case 9 => Some(Instruction(ORA, 0x09, Immediate, 2, 2, false))
    case 5 => Some(Instruction(ORA, 0x05, ZeroPage, 2, 3, false))
    case 13 => Some(Instruction(ORA, 0x0D, Absolute, 3, 4, false))
    case 1 => Some(Instruction(ORA, 0x01, IndirectX, 2, 6, false))
    case 8 => Some(Instruction(PHP, 0x08, Implied, 1, 3, false))
    case 3 => Some(Instruction(SLO, 0x03, IndirectX, 2, 8, false))
    case 7 => Some(Instruction(SLO, 0x07, ZeroPage, 2, 5, false))
    case 15 => Some(Instruction(SLO, 0x0F, Absolute, 3, 6, false))
    case _ => None
  }

  /** The opcodes 0x10 to 0x1F. */
  function Row1(lo: int): (r: Option<Instruction>)
    requires 0 <= lo < 16
    ensures EntryConsistent(16 + lo, r)
  {
    match lo
    case 6 => Some(Instruction(ASL, 0x16, ZeroPageX, 2, 6, false))
    case 14 => Some(Instruction(ASL, 0x1E, AbsoluteX, 3, 7, false))
    case 0 => Some(Instruction(BPL, 0x10, Relative, 2, 2, false))
    case 8 => Some(Instruction(CLC, 0x18, Implied, 1, 2, false))
    case 10 => Some(Instruction(NOP, 0x1A, Implied, 1, 2, false))
    case 12 => Some(Instruction(NOP, 0x1C, AbsoluteX, 3, 2, false))
    case 4 => Some(Instruction(NOP, 0x14, IndirectX, 2, 2, false))
    case 5 => Some(Instruction(ORA, 0x15, ZeroPageX, 2, 4, false))
    case 13 => Some(Instruction(ORA, 0x1D, AbsoluteX, 3, 4, true))
    case 9 => Some(Instruction(ORA, 0x19, AbsoluteY, 3, 4, true))
    case 1 => Some(Instruction(ORA, 0x11, IndirectY, 2, 5, true))
    case 3 => Some(Instruction(SLO, 0x13, IndirectY, 2, 8, false))
    case 7 => Some(Instruction(SLO, 0x17, ZeroPageX, 2, 6, false))
    case 11 => Some(Instruction(SLO, 0x1B, AbsoluteY, 3, 7, false))
    case 15 => Some(Instruction(SLO, 0x1F, AbsoluteX, 3, 7, false))
    case _ => None
  }

  /** The opcodes 0x20 to 0x2F. */
  function Row2(lo: int): (r: Option<Instruction>)
    requires 0 <= lo < 16
    ensures EntryConsistent(32 + lo, r)
  {
    match lo
    case 9 => Some(Instruction(AND, 0x29, Immediate, 2, 2, false))
    case 5 => Some(Instruction(AND, 0x25, ZeroPage, 2, 3, false))
    case 13 => Some(Instruction(AND, 0x2D, Absolute, 3, 4, false))
    case 1 => Some(Instruction(AND, 0x21, IndirectX, 2, 6, false))
    case 4 => Some(Instruction(BIT, 0x24, ZeroPage, 2, 3, false))
    case 12 => Some(Instruction(BIT, 0x2C, Absolute, 3, 4, false))
    case 0 => Some(Instruction(JSR, 0x20, Absolute, 3, 6, false))
    case 8 => Some(Instruction(PLP, 0x28, Implied, 1, 4, false))
    case 10 => Some(Instruction(ROL, 0x2A, Accumulator, 1, 2, false))
    case 6 => Some(Instruction(ROL, 0x26, ZeroPage, 2, 5, false))
    case 14 => Some(Instruction(ROL, 0x2E, Absolute, 3, 6, false))
    case 3 => Some(Instruction(RLA, 0x23, IndirectX, 2, 8, false))
    case 7 => Some(Instruction(RLA, 0x27, ZeroPage, 2, 5, false))
    case 15 => Some(Instruction(RLA, 0x2F, Absolute, 3, 6, false))
    case _ => None
  }

  /** The opcodes 0x30 to 0x3F. */
  function Row3(lo: int): (r: Option<Instruction>)
    requires 0 <= lo < 16
    ensures EntryConsistent(48 + lo, r)
  {
    match lo
    case 5 => Some(Instruction(AND, 0x35, ZeroPageX, 2, 4, false))
    case 13 => Some(Instruction(AND, 0x3D, AbsoluteX, 3, 4, true))
    case 9 => Some(Instruction(AND, 0x39, AbsoluteY, 3, 4, true))
    case 1 => Some(Instruction(AND, 0x31, IndirectY, 2, 5, true))
    case 0 => Some(Instruction(BMI, 0x30, Relative, 2, 2, false))
    case 10 => Some(Instruction(NOP, 0x3A, Implied, 1, 2, false))
    case 12 => Some(Instruction(NOP, 0x3C, AbsoluteX, 3, 2, false))
    case 4 => Some(Instruction(NOP, 0x34, IndirectX, 2, 2, false))
    case 6 => Some(Instruction(ROL, 0x36, ZeroPageX, 2, 6, false))
    case 14 => Some(Instruction(ROL, 0x3E, AbsoluteX, 3, 7, false))
    case 8 => Some(Instruction(SEC, 0x38, Implied, 1, 2, false))
    case 3 => Some(Instruction(RLA, 0x33, IndirectY, 2, 8, false))
    case 7 => Some(Instruction(RLA, 0x37, ZeroPageX, 2, 6, false))
    case 11 => Some(Instruction(RLA, 0x3B, AbsoluteY, 3, 7, false))
    case 15 => Some(Instruction(RLA, 0x3F, AbsoluteX, 3, 7, false))
    case _ => None
  }

  /** The opcodes 0x40 to 0x4F. */
  function Row4(lo: int): (r: Option<Instruction>)
    requires 0 <= lo < 16
    ensures EntryConsistent(64 + lo, r)
  {
    match lo
    case 9 => Some(Instruction(EOR, 0x49, Immediate, 2, 2, false))
    case 5 => Some(Instruction(EOR, 0x45, ZeroPage, 2, 3, false))
    case 13 => Some(Instruction(EOR, 0x4D, Absolute, 3, 4, false))
    case 1 => Some(Instruction(EOR, 0x41, IndirectX, 2, 6, false))
    case 12 => Some(Instruction(JMP, 0x4C, Absolute, 3, 3, false))
    case 10 => Some(Instruction(LSR, 0x4A, Accumulator, 1, 2, false))
    case 6 => Some(Instruction(LSR, 0x46, ZeroPage, 2, 5, false))
    case 14 => Some(Instruction(LSR, 0x4E, Absolute, 3, 6, false))
    case 4 => Some(Instruction(NOP, 0x44, ZeroPage, 2, 2, false))
    case 8 => Some(Instruction(PHA, 0x48, Implied, 1, 3, false))
    case 0 => Some(Instruction(RTI, 0x40, Implied, 1, 6, false))
    case 3 => Some(Instruction(SRE, 0x43, IndirectX, 2, 8, false))
    case 7 => Some(Instruction(SRE, 0x47, ZeroPage, 2, 5, false))
    case 15 => Some(Instruction(SRE, 0x4F, Absolute, 3, 6, false))
    case _ => None
  }

  /** The opcodes 0x50 to 0x5F. */
  function Row5(lo: int): (r: Option<Instruction>)
    requires 0 <= lo < 16
    ensures EntryConsistent(80 + lo, r)
  {
    match lo
    case 0 => Some(Instruction(BVC, 0x50, Relative, 2, 2, false))
    case 8 => Some(Instruction(CLI, 0x58, Implied, 1, 2, false))
    case 5 => Some(Instruction(EOR, 0x55, ZeroPageX, 2, 4, false))
    case 13 => Some(Instruction(EOR, 0x5D, AbsoluteX, 3, 4, true))
    case 9 => Some(Instruction(EOR, 0x59, AbsoluteY, 3, 4, true))
    case 1 => Some(Instruction(EOR, 0x51, IndirectY, 2, 5, true))
    case 6 => Some(Instruction(LSR, 0x56, ZeroPageX, 2, 6, false))
    case 14 => Some(Instruction(LSR, 0x5E, AbsoluteX, 3, 7, false))
    case 10 => Some(Instruction(NOP, 0x5A, Implied, 1, 2, false))
    case 12 => Some(Instruction(NOP, 0x5C, AbsoluteX, 3, 2, false))
    case 4 => Some(Instruction(NOP, 0x54, IndirectX, 2, 2, false))
    case 3 => Some(Instruction(SRE, 0x53, IndirectY, 2, 8, false))
    case 7 => Some(Instruction(SRE, 0x57, ZeroPageX, 2, 6, false))
    case 11 => Some(Instruction(SRE, 0x5B, AbsoluteY, 3, 7, false))
    case 15 => Some(Instruction(SRE, 0x5F, AbsoluteX, 3, 7, false))
    case _ => None
  }

  /** The opcodes 0x60 to 0x6F. */
  function Row6(lo: int): (r: Option<Instruction>)
    requires 0 <= lo < 16
    ensures EntryConsistent(96 + lo, r)
  {
    match lo
    case 9 => Some(Instruction(ADC, 0x69, Immediate, 2, 2, false))
    case 5 => Some(Instruction(ADC, 0x65, ZeroPage, 2, 3, false))
    case 13 => Some(Instruction(ADC, 0x6D, Absolute, 3, 4, false))
    case 1 => Some(Instruction(ADC, 0x61, IndirectX, 2, 6, false))
    case 12 => Some(Instruction(JMP, 0x6C, Indirect, 3, 5, false))
    case 4 => Some(Instruction(NOP, 0x64, ZeroPage, 2, 2, false))
    case 8 => Some(Instruction(PLA, 0x68, Implied, 1, 4, false))
    case 10 => Some(Instruction(ROR, 0x6A, Accumulator, 1, 2, false))
    case 6 => Some(Instruction(ROR, 0x66, ZeroPage, 2, 5, false))
    case 14 => Some(Instruction(ROR, 0x6E, Absolute, 3, 6, false))
    case 0 => Some(Instruction(RTS, 0x60, Implied, 1, 6, false))
    case 3 => Some(Instruction(RRA, 0x63, IndirectX, 2, 8, false))
    case 7 => Some(Instruction(RRA, 0x67, ZeroPage, 2, 5, false))
    case 15 => Some(Instruction(RRA, 0x6F, Absolute, 3, 6, false))
    case _ => None
  }

  /** The opcodes 0x70 to 0x7F. */
  function Row7(lo: int): (r: Option<Instruction>)
    requires 0 <= lo < 16
    ensures EntryConsistent(112 + lo, r)
  {
    match lo
    case 5 => Some(Instruction(ADC, 0x75, ZeroPageX, 2, 4, false))
    case 13 => Some(Instruction(ADC, 0x7D, AbsoluteX, 3, 4, true))
    case 9 => Some(Instruction(ADC, 0x79, AbsoluteY, 3, 4, true))
    case 1 => Some(Instruction(ADC, 0x71, IndirectY, 2, 5, true))
    case 0 => Some(Instruction(BVS, 0x70, Relative, 2, 2, false))
    case 10 => Some(Instruction(NOP, 0x7A, Implied, 1, 2, false))
    case 12 => Some(Instruction(NOP, 0x7C, AbsoluteX, 3, 2, false))
    case 4 => Some(Instruction(NOP, 0x74, IndirectX, 2, 2, false))
    case 6 => Some(Instruction(ROR, 0x76, ZeroPageX, 2, 6, false))
    case 14 => Some(Instruction(ROR, 0x7E, AbsoluteX, 3, 7, false))
    case 8 => Some(Instruction(SEI, 0x78, Implied, 1, 2, false))
    case 3 => Some(Instruction(RRA, 0x73, IndirectY, 2, 8, false))
    case 7 => Some(Instruction(RRA, 0x77, ZeroPageX, 2, 6, false))
    case 11 => Some(Instruction(RRA, 0x7B, AbsoluteY, 3, 7, false))
    case 15 => Some(Instruction(RRA, 0x7F, AbsoluteX, 3, 7, false))
    case _ => None
  }

  /** The opcodes 0x80 to 0x8F. */
  function Row8(lo: int): (r: Option<Instruction>)
    requires 0 <= lo < 16
    ensures EntryConsistent(128 + lo, r)
  {
    match lo
    case 8 => Some(Instruction(DEY, 0x88, Implied, 1, 2, false))
    case 0 => Some(Instruction(NOP, 0x80, ZeroPage, 2, 2, false))
    case 5 => Some(Instruction(STA, 0x85, ZeroPage, 2, 3, false))
    case 13 => Some(Instruction(STA, 0x8D, Absolute, 3, 4, false))
    case 1 => Some(Instruction(STA, 0x81, IndirectX, 2, 6, false))
    case 6 => Some(Instruction(STX, 0x86, ZeroPage, 2, 3, false))
    case 14 => Some(Instruction(STX, 0x8E, Absolute, 3, 4, false))
    case 4 => Some(Instruction(STY, 0x84, ZeroPage, 2, 3, false))
    case 12 => Some(Instruction(STY, 0x8C, Absolute, 3, 4, false))
    case 10 => Some(Instruction(TXA, 0x8A, Implied, 1, 2, false))
    case 3 => Some(Instruction(SAX, 0x83, IndirectX, 2, 6, false))
    case 7 => Some(Instruction(SAX, 0x87, ZeroPage, 2, 3, false))
    case 15 => Some(Instruction(SAX, 0x8F, Absolute, 3, 4, false))
    case _ => None
  }

  /** The opcodes 0x90 to 0x9F. */
  function Row9(lo: int): (r: Option<Instruction>)
    requires 0 <= lo < 16
    ensures EntryConsistent(144 + lo, r)
  {
    match lo
    case 0 => Some(Instruction(BCC, 0x90, Relative, 2, 2, false))
    case 5 => Some(Instruction(STA, 0x95, ZeroPageX, 2, 4, false))
    case 13 => Some(Instruction(STA, 0x9D, AbsoluteX, 3, 5, false))
    case 9 => Some(Instruction(STA, 0x99, AbsoluteY, 3, 5, false))
    case 1 => Some(Instruction(STA, 0x91, IndirectY, 2, 6, false))
    case 6 => Some(Instruction(STX, 0x96, ZeroPageY, 2, 4, false))
    case 4 => Some(Instruction(STY, 0x94, ZeroPageX, 2, 4, false))
    case 10 => Some(Instruction(TXS, 0x9A, Implied, 1, 2, false))
    case 8 => Some(Instruction(TYA, 0x98, Implied, 1, 2, false))
    case 7 => Some(Instruction(SAX, 0x97, ZeroPageY, 2, 4, false))
    case _ => None
  }

  /** The opcodes 0xA0 to 0xAF. */
  function RowA(lo: int): (r: Option<Instruction>)
    requires 0 <= lo < 16
    ensures EntryConsistent(160 + lo, r)
  {
    match lo
    case 9 => Some(Instruction(LDA, 0xA9, Immediate, 2, 2, false))
    case 5 => Some(Instruction(LDA, 0xA5, ZeroPage, 2, 3, false))
    case 13 => Some(Instruction(LDA, 0xAD, Absolute, 3, 4, false))
    case 1 => Some(Instruction(LDA, 0xA1, IndirectX, 2, 6, false))
    case 2 => Some(Instruction(LDX, 0xA2, Immediate, 2, 2, false))
    case 6 => Some(Instruction(LDX, 0xA6, ZeroPage, 2, 3, false))
    case 14 => Some(Instruction(LDX, 0xAE, Absolute, 3, 4, false))
    case 0 => Some(Instruction(LDY, 0xA0, Immediate, 2, 2, false))
    case 4 => Some(Instruction(LDY, 0xA4, ZeroPage, 2, 3, false))
    case 12 => Some(Instruction(LDY, 0xAC, Absolute, 3, 4, false))
    case 10 => Some(Instruction(TAX, 0xAA, Implied, 1, 2, false))
    case 8 => Some(Instruction(TAY, 0xA8, Implied, 1, 2, false))
    case 3 => Some(Instruction(LAX, 0xA3, IndirectX, 2, 6, false))
    case 7 => Some(Instruction(LAX, 0xA7, ZeroPage, 2, 3, false))
    case 15 => Some(Instruction(LAX, 0xAF, Absolute, 3, 4, false))
    case _ => None
  }

  /** The opcodes 0xB0 to 0xBF. */
  function RowB(lo: int): (r: Option<Instruction>)
    requires 0 <= lo < 16
    ensures EntryConsistent(176 + lo, r)
  {
    match lo
    case 0 => Some(Instruction(BCS, 0xB0, Relative, 2, 2, false))
    case 8 => Some(Instruction(CLV, 0xB8, Implied, 1, 2, false))
    case 5 => Some(Instruction(LDA, 0xB5, ZeroPageX, 2, 4, false))
    case 13 => Some(Instruction(LDA, 0xBD, AbsoluteX, 3, 4, true))
    case 9 => Some(Instruction(LDA, 0xB9, AbsoluteY, 3, 4, true))
    case 1 => Some(Instruction(LDA, 0xB1, IndirectY, 2, 5, true))
    case 6 => Some(Instruction(LDX, 0xB6, ZeroPageY, 2, 4, false))
    case 14 => Some(Instruction(LDX, 0xBE, AbsoluteY, 3, 4, true))
    case 4 => Some(Instruction(LDY, 0xB4, ZeroPageX, 2, 4, false))
    case 12 => Some(Instruction(LDY, 0xBC, AbsoluteX, 3, 4, true))
    case 10 => Some(Instruction(TSX, 0xBA, Implied, 1, 2, false))
    case 3 => Some(Instruction(LAX, 0xB3, IndirectY, 2, 5, false))
    case 7 => Some(Instruction(LAX, 0xB7, ZeroPageY, 2, 4, false))
    case 15 => Some(Instruction(LAX, 0xBF, AbsoluteY, 3, 4, false))
    case _ => None
  }

  /** The opcodes 0xC0 to 0xCF. */
  function RowC(lo: int): (r: Option<Instruction>)
    requires 0 <= lo < 16
    ensures EntryConsistent(192 + lo, r)
  {
    match lo
    case 9 => Some(Instruction(CMP, 0xC9, Immediate, 2, 2, false))
    case 5 => Some(Instruction(CMP, 0xC5, ZeroPage, 2, 3, false))
    case 13 => Some(Instruction(CMP, 0xCD, Absolute, 3, 4, false))
    case 1 => Some(Instruction(CMP, 0xC1, IndirectX, 2, 6, false))
    case 0 => Some(Instruction(CPY, 0xC0, Immediate, 2, 2, false))
    case 4 => Some(Instruction(CPY, 0xC4, ZeroPage, 2, 3, false))
    case 12 => Some(Instruction(CPY, 0xCC, Absolute, 3, 4, false))
    case 6 => Some(Instruction(DEC, 0xC6, ZeroPage, 2, 5, false))
    case 14 => Some(Instruction(DEC, 0xCE, Absolute, 3, 6, false))
    case 10 => Some(Instruction(DEX, 0xCA, Implied, 1, 2, false))
    case 8 => Some(Instruction(INY, 0xC8, Implied, 1, 2, false))
    case 3 => Some(Instruction(DCP, 0xC3, IndirectX, 2, 8, false))
    case 7 => Some(Instruction(DCP, 0xC7, ZeroPage, 2, 5, false))
    case 15 => Some(Instruction(DCP, 0xCF, Absolute, 3, 6, false))
    case _ => None
  }

  /** The opcodes 0xD0 to 0xDF. */
  function RowD(lo: int): (r: Option<Instruction>)
    requires 0 <= lo < 16
    ensures EntryConsistent(208 + lo, r)
  {
    match lo
    case 0 => Some(Instruction(BNE, 0xD0, Relative, 2, 2, false))
    case 8 => Some(Instruction(CLD, 0xD8, Implied, 1, 2, false))
    case 5 => Some(Instruction(CMP, 0xD5, ZeroPageX, 2, 4, false))
    case 13 => Some(Instruction(CMP, 0xDD, AbsoluteX, 3, 4, true))
    case 9 => Some(Instruction(CMP, 0xD9, AbsoluteY, 3, 4, true))
    case 1 => Some(Instruction(CMP, 0xD1, IndirectY, 2, 5, true))
    case 6 => Some(Instruction(DEC, 0xD6, ZeroPageX, 2, 6, false))
    case 14 => Some(Instruction(DEC, 0xDE, AbsoluteX, 3, 7, false))
    case 10 => Some(Instruction(NOP, 0xDA, Implied, 1, 2, false))
    case 12 => Some(Instruction(NOP, 0xDC, AbsoluteX, 3, 2, false))
    case 4 => Some(Instruction(NOP, 0xD4, IndirectX, 2, 2, false))
    case 3 => Some(Instruction(DCP, 0xD3, IndirectY, 2, 8, false))
    case 7 => Some(Instruction(DCP, 0xD7, ZeroPageX, 2, 6, false))
    case 11 => Some(Instruction(DCP, 0xDB, AbsoluteY, 3, 7, false))
    case 15 => Some(Instruction(DCP, 0xDF, AbsoluteX, 3, 7, false))
    case _ => None
  }

  /** The opcodes 0xE0 to 0xEF. */
  function RowE(lo: int): (r: Option<Instruction>)
    requires 0 <= lo < 16
    ensures EntryConsistent(224 + lo, r)
  {
    match lo
    case 0 => Some(Instruction(CPX, 0xE0, Immediate, 2, 2, false))
    case 4 => Some(Instruction(CPX, 0xE4, ZeroPage, 2, 3, false))
    case 12 => Some(Instruction(CPX, 0xEC, Absolute, 3, 4, false))
    case 6 => Some(Instruction(INC, 0xE6, ZeroPage, 2, 5, false))
    case 14 => Some(Instruction(INC, 0xEE, Absolute, 3, 6, false))
    case 8 => Some(Instruction(INX, 0xE8, Implied, 1, 2, false))
    case 10 => Some(Instruction(NOP, 0xEA, Implied, 1, 2, false))
    case 11 => Some(Instruction(SBC, 0xEB, Immediate, 2, 2, false))
    case 9 => Some(Instruction(SBC, 0xE9, Immediate, 2, 2, false))
    case 5 => Some(Instruction(SBC, 0xE5, ZeroPage, 2, 3, false))
    case 13 => Some(Instruction(SBC, 0xED, Absolute, 3, 4, false))
    case 1 => Some(Instruction(SBC, 0xE1, IndirectX, 2, 6, false))
    case 3 => Some(Instruction(ISC, 0xE3, IndirectX, 2, 8, false))
    case 7 => Some(Instruction(ISC, 0xE7, ZeroPage, 2, 5, false))
    case 15 => Some(Instruction(ISC, 0xEF, Absolute, 3, 6, false))
    case _ => None
  }

  /** The opcodes 0xF0 to 0xFF. */
  function RowF(lo: int): (r: Option<Instruction>)
    requires 0 <= lo < 16
    ensures EntryConsistent(240 + lo, r)
  {
    match lo
    case 0 => Some(Instruction(BEQ, 0xF0, Relative, 2, 2, false))
    case 6 => Some(Instruction(INC, 0xF6, ZeroPageX, 2, 6, false))
    case 14 => Some(Instruction(INC, 0xFE, AbsoluteX, 3, 7, false))
    case 10 => Some(Instruction(NOP, 0xFA, Implied, 1, 2, false))
    case 12 => Some(Instruction(NOP, 0xFC, AbsoluteX, 3, 2, false))
    case 4 => Some(Instruction(NOP, 0xF4, IndirectX, 2, 2, false))
    case 5 => Some(Instruction(SBC, 0xF5, ZeroPageX, 2, 4, false))
    case 13 => Some(Instruction(SBC, 0xFD, AbsoluteX, 3, 4, true))
    case 9 => Some(Instruction(SBC, 0xF9, AbsoluteY, 3, 4, true))
    case 1 => Some(Instruction(SBC, 0xF1, IndirectY, 2, 5, true))
    case 8 => Some(Instruction(SED, 0xF8, Implied, 1, 2, false))
    case 3 => Some(Instruction(ISC, 0xF3, IndirectY, 2, 8, false))
    case 7 => Some(Instruction(ISC, 0xF7, ZeroPageX, 2, 6, false))
    case 11 => Some(Instruction(ISC, 0xFB, AbsoluteY, 3, 7, false))
    case 15 => Some(Instruction(ISC, 0xFF, AbsoluteX, 3, 7, false))
    case _ => None
  }

  /** `getinstr(mnemonic, am)` (nes.js:789): the instruction registered for a
      pair of mnemonic and addressing mode, or None. It is the very entry
      `getinopc` holds for the opcode PairOpcode names. */
  function GetInstr(mn: Mnemonic, am: AddrMode): (r: Option<Instruction>)
    ensures r.Some? ==> r.value.mnemonic == mn && r.value.addressingMode == am
    ensures r.Some? ==> GetInOpc(r.value.opcode) == r
    ensures r.Some? <==> PairOpcode(mn, am).Some?
  {
    PairOpcodeRegistered(mn, am);
    match PairOpcode(mn, am)
    case None => None
    case Some(opc) => GetInOpc(opc)
  }

  /** The opcode whose entry `getinstr` holds for a pair: `newinstr` overwrites
      an earlier entry for the same pair, so it is the opcode registered last
      with that pair. */
  function PairOpcode(mn: Mnemonic, am: AddrMode): Option<Byte>
  {
    match mn
    case ADC => ModesADC(am)
    case AND => ModesAND(am)
    case ASL => ModesASL(am)
    case BCC => ModesBCC(am)
    case BCS => ModesBCS(am)
    case BEQ => ModesBEQ(am)
    case BIT => ModesBIT(am)
    case BMI => ModesBMI(am)
    case BNE => ModesBNE(am)
    case BPL => ModesBPL(am)
    case BRK => ModesBRK(am)
    case BVC => ModesBVC(am)
    case BVS => ModesBVS(am)
    case CLC => ModesCLC(am)
    case CLD => ModesCLD(am)
    case CLI => ModesCLI(am)
    case CLV => ModesCLV(am)
    case CMP => ModesCMP(am)
    case CPX => ModesCPX(am)
    case CPY => ModesCPY(am)
    case DEC => ModesDEC(am)
    case DEX => ModesDEX(am)
    case DEY => ModesDEY(am)
    case EOR => ModesEOR(am)
    case INC => ModesINC(am)
    case INX => ModesINX(am)
    case INY => ModesINY(am)
    case JMP => ModesJMP(am)
    case JSR => ModesJSR(am)
    case LDA => ModesLDA(am)
    case LDX => ModesLDX(am)
    case LDY => ModesLDY(am)
    case LSR => ModesLSR(am)
    case NOP => ModesNOP(am)
    case ORA => ModesORA(am)
    case PHA => ModesPHA(am)
    case PHP => ModesPHP(am)
    case PLA => ModesPLA(am)
    case PLP => ModesPLP(am)
    case ROL => ModesROL(am)
    case ROR => ModesROR(am)
    case RTI => ModesRTI(am)
    case RTS => ModesRTS(am)
    case SBC => ModesSBC(am)
    case SEC => ModesSEC(am)
    case SED => ModesSED(am)
    case SEI => ModesSEI(am)
    case STA => ModesSTA(am)
    case STX => ModesSTX(am)
    case STY => ModesSTY(am)
    case TAX => ModesTAX(am)
    case TAY => ModesTAY(am)
    case TSX => ModesTSX(am)
    case TXA => ModesTXA(am)
    case TXS => ModesTXS(am)
    case TYA => ModesTYA(am)
    case LAX => ModesLAX(am)
    case SAX => ModesSAX(am)
    case DCP => ModesDCP(am)
    case ISC => ModesISC(am)
    case SLO => ModesSLO(am)
    case RLA => ModesRLA(am)
    case SRE => ModesSRE(am)
    case RRA => ModesRRA(am)
  }

  /** `opc` is registered with mnemonic `mn` and mode `am`. */
  predicate PairOf(opc: Byte, mn: Mnemonic, am: AddrMode)
  {
    GetInOpc(opc).Some? && GetInOpc(opc).value.mnemonic == mn
    && GetInOpc(opc).value.addressingMode == am
  }

  /** Every opcode PairOpcode names is registered with that very pair. */
  lemma PairOpcodeRegistered(mn: Mnemonic, am: AddrMode)
    ensures PairOpcode(mn, am).Some? ==> PairOf(PairOpcode(mn, am).value, mn, am)
  {
    match mn
    case ADC => ModesADCRegistered(am);
    case AND => ModesANDRegistered(am);
    case ASL => ModesASLRegistered(am);
    case BCC => ModesBCCRegistered(am);
    case BCS => ModesBCSRegistered(am);
    case BEQ => ModesBEQRegistered(am);
    case BIT => ModesBITRegistered(am);
    case BMI => ModesBMIRegistered(am);
    case BNE => ModesBNERegistered(am);
    case BPL => ModesBPLRegistered(am);
    case BRK => ModesBRKRegistered(am);
    case BVC => ModesBVCRegistered(am);
    case BVS => ModesBVSRegistered(am);
    case CLC => ModesCLCRegistered(am);
    case CLD => ModesCLDRegistered(am);
    case CLI => ModesCLIRegistered(am);
    case CLV => ModesCLVRegistered(am);
    case CMP => ModesCMPRegistered(am);
    case CPX => ModesCPXRegistered(am);
    case CPY => ModesCPYRegistered(am);
    case DEC => ModesDECRegistered(am);
    case DEX => ModesDEXRegistered(am);
    case DEY => ModesDEYRegistered(am);
    case EOR => ModesEORRegistered(am);
    case INC => ModesINCRegistered(am);
    case INX => ModesINXRegistered(am);
    case INY => ModesINYRegistered(am);
    case JMP => ModesJMPRegistered(am);
    case JSR => ModesJSRRegistered(am);
    case LDA => ModesLDARegistered(am);
    case LDX => ModesLDXRegistered(am);
    case LDY => ModesLDYRegistered(am);
    case LSR => ModesLSRRegistered(am);
    case NOP => ModesNOPRegistered(am);
    case ORA => ModesORARegistered(am);
    case PHA => ModesPHARegistered(am);
    case PHP => ModesPHPRegistered(am);
    case PLA => ModesPLARegistered(am);
    case PLP => ModesPLPRegistered(am);
    case ROL => ModesROLRegistered(am);
    case ROR => ModesRORRegistered(am);
    case RTI => ModesRTIRegistered(am);
    case RTS => ModesRTSRegistered(am);
    case SBC => ModesSBCRegistered(am);
    case SEC => ModesSECRegistered(am);
    case SED => ModesSEDRegistered(am);
    case SEI => ModesSEIRegistered(am);
    case STA => ModesSTARegistered(am);
    case STX => ModesSTXRegistered(am);
    case STY => ModesSTYRegistered(am);
    case TAX => ModesTAXRegistered(am);
    case TAY => ModesTAYRegistered(am);
    case TSX => ModesTSXRegistered(am);
    case TXA => ModesTXARegistered(am);
    case TXS => ModesTXSRegistered(am);
    case TYA => ModesTYARegistered(am);
    case LAX => ModesLAXRegistered(am);
    case SAX => ModesSAXRegistered(am);
    case DCP => ModesDCPRegistered(am);
    case ISC => ModesISCRegistered(am);
    case SLO => ModesSLORegistered(am);
    case RLA => ModesRLARegistered(am);
    case SRE => ModesSRERegistered(am);
    case RRA => ModesRRARegistered(am);
  }

  lemma ModesADCRegistered(am: AddrMode)
    ensures ModesADC(am).Some? ==> PairOf(ModesADC(am).value, ADC, am)
  {
  }

  lemma ModesANDRegistered(am: AddrMode)
    ensures ModesAND(am).Some? ==> PairOf(ModesAND(am).value, AND, am)
  {
  }

  lemma ModesASLRegistered(am: AddrMode)
    ensures ModesASL(am).Some? ==> PairOf(ModesASL(am).value, ASL, am)
  {
  }

  lemma ModesBCCRegistered(am: AddrMode)
    ensures ModesBCC(am).Some? ==> PairOf(ModesBCC(am).value, BCC, am)
  {
  }

  lemma ModesBCSRegistered(am: AddrMode)
    ensures ModesBCS(am).Some? ==> PairOf(ModesBCS(am).value, BCS, am)
  {
  }

  lemma ModesBEQRegistered(am: AddrMode)
    ensures ModesBEQ(am).Some? ==> PairOf(ModesBEQ(am).value, BEQ, am)
  {
  }

  lemma ModesBITRegistered(am: AddrMode)
    ensures ModesBIT(am).Some? ==> PairOf(ModesBIT(am).value, BIT, am)
  {
  }

  lemma ModesBMIRegistered(am: AddrMode)
    ensures ModesBMI(am).Some? ==> PairOf(ModesBMI(am).value, BMI, am)
  {
  }

  lemma ModesBNERegistered(am: AddrMode)
    ensures ModesBNE(am).Some? ==> PairOf(ModesBNE(am).value, BNE, am)
  {
  }

  lemma ModesBPLRegistered(am: AddrMode)
    ensures ModesBPL(am).Some? ==> PairOf(ModesBPL(am).value, BPL, am)
  {
  }

  lemma ModesBRKRegistered(am: AddrMode)
    ensures ModesBRK(am).Some? ==> PairOf(ModesBRK(am).value, BRK, am)
  {
  }

  lemma ModesBVCRegistered(am: AddrMode)
    ensures ModesBVC(am).Some? ==> PairOf(ModesBVC(am).value, BVC, am)
  {
  }

  lemma ModesBVSRegistered(am: AddrMode)
    ensures ModesBVS(am).Some? ==> PairOf(ModesBVS(am).value, BVS, am)
  {
  }

  lemma ModesCLCRegistered(am: AddrMode)
    ensures ModesCLC(am).Some? ==> PairOf(ModesCLC(am).value, CLC, am)
  {
  }

  lemma ModesCLDRegistered(am: AddrMode)
    ensures ModesCLD(am).Some? ==> PairOf(ModesCLD(am).value, CLD, am)
  {
  }

  lemma ModesCLIRegistered(am: AddrMode)
    ensures ModesCLI(am).Some? ==> PairOf(ModesCLI(am).value, CLI, am)
  {
  }

  lemma ModesCLVRegistered(am: AddrMode)
    ensures ModesCLV(am).Some? ==> PairOf(ModesCLV(am).value, CLV, am)
  {
  }

  lemma ModesCMPRegistered(am: AddrMode)
    ensures ModesCMP(am).Some? ==> PairOf(ModesCMP(am).value, CMP, am)
  {
  }

  lemma ModesCPXRegistered(am: AddrMode)
    ensures ModesCPX(am).Some? ==> PairOf(ModesCPX(am).value, CPX, am)
  {
  }

  lemma ModesCPYRegistered(am: AddrMode)
    ensures ModesCPY(am).Some? ==> PairOf(ModesCPY(am).value, CPY, am)
  {
  }

  lemma ModesDECRegistered(am: AddrMode)
    ensures ModesDEC(am).Some? ==> PairOf(ModesDEC(am).value, DEC, am)
  {
  }

  lemma ModesDEXRegistered(am: AddrMode)
    ensures ModesDEX(am).Some? ==> PairOf(ModesDEX(am).value, DEX, am)
  {
  }

  lemma ModesDEYRegistered(am: AddrMode)
    ensures ModesDEY(am).Some? ==> PairOf(ModesDEY(am).value, DEY, am)
  {
  }

  lemma ModesEORRegistered(am: AddrMode)
    ensures ModesEOR(am).Some? ==> PairOf(ModesEOR(am).value, EOR, am)
  {
  }

  lemma ModesINCRegistered(am: AddrMode)
    ensures ModesINC(am).Some? ==> PairOf(ModesINC(am).value, INC, am)
  {
  }

  lemma ModesINXRegistered(am: AddrMode)
    ensures ModesINX(am).Some? ==> PairOf(ModesINX(am).value, INX, am)
  {
  }

  lemma ModesINYRegistered(am: AddrMode)
    ensures ModesINY(am).Some? ==> PairOf(ModesINY(am).value, INY, am)
  {
  }

  lemma ModesJMPRegistered(am: AddrMode)
    ensures ModesJMP(am).Some? ==> PairOf(ModesJMP(am).value, JMP, am)
  {
  }

  lemma ModesJSRRegistered(am: AddrMode)
    ensures ModesJSR(am).Some? ==> PairOf(ModesJSR(am).value, JSR, am)
  {
  }

  lemma ModesLDARegistered(am: AddrMode)
    ensures ModesLDA(am).Some? ==> PairOf(ModesLDA(am).value, LDA, am)
  {
  }

  lemma ModesLDXRegistered(am: AddrMode)
    ensures ModesLDX(am).Some? ==> PairOf(ModesLDX(am).value, LDX, am)
  {
  }

  lemma ModesLDYRegistered(am: AddrMode)
    ensures ModesLDY(am).Some? ==> PairOf(ModesLDY(am).value, LDY, am)
  {
  }

  lemma ModesLSRRegistered(am: AddrMode)
    ensures ModesLSR(am).Some? ==> PairOf(ModesLSR(am).value, LSR, am)
  {
  }

  lemma ModesNOPRegistered(am: AddrMode)
    ensures ModesNOP(am).Some? ==> PairOf(ModesNOP(am).value, NOP, am)
  {
  }

  lemma ModesORARegistered(am: AddrMode)
    ensures ModesORA(am).Some? ==> PairOf(ModesORA(am).value, ORA, am)
  {
  }

  lemma ModesPHARegistered(am: AddrMode)
    ensures ModesPHA(am).Some? ==> PairOf(ModesPHA(am).value, PHA, am)
  {
  }

  lemma ModesPHPRegistered(am: AddrMode)
    ensures ModesPHP(am).Some? ==> PairOf(ModesPHP(am).value, PHP, am)
  {
  }

  lemma ModesPLARegistered(am: AddrMode)
    ensures ModesPLA(am).Some? ==> PairOf(ModesPLA(am).value, PLA, am)
  {
  }

  lemma ModesPLPRegistered(am: AddrMode)
    ensures ModesPLP(am).Some? ==> PairOf(ModesPLP(am).value, PLP, am)
  {
  }

  lemma ModesROLRegistered(am: AddrMode)
    ensures ModesROL(am).Some? ==> PairOf(ModesROL(am).value, ROL, am)
  {
  }

  lemma ModesRORRegistered(am: AddrMode)
    ensures ModesROR(am).Some? ==> PairOf(ModesROR(am).value, ROR, am)
  {
  }

  lemma ModesRTIRegistered(am: AddrMode)
    ensures ModesRTI(am).Some? ==> PairOf(ModesRTI(am).value, RTI, am)
  {
  }

  lemma ModesRTSRegistered(am: AddrMode)
    ensures ModesRTS(am).Some? ==> PairOf(ModesRTS(am).value, RTS, am)
  {
  }

  lemma ModesSBCRegistered(am: AddrMode)
    ensures ModesSBC(am).Some? ==> PairOf(ModesSBC(am).value, SBC, am)
  {
  }

  lemma ModesSECRegistered(am: AddrMode)
    ensures ModesSEC(am).Some? ==> PairOf(ModesSEC(am).value, SEC, am)
  {
  }

  lemma ModesSEDRegistered(am: AddrMode)
    ensures ModesSED(am).Some? ==> PairOf(ModesSED(am).value, SED, am)
  {
  }

  lemma ModesSEIRegistered(am: AddrMode)
    ensures ModesSEI(am).Some? ==> PairOf(ModesSEI(am).value, SEI, am)
  {
  }

  lemma ModesSTARegistered(am: AddrMode)
    ensures ModesSTA(am).Some? ==> PairOf(ModesSTA(am).value, STA, am)
  {
  }

  lemma ModesSTXRegistered(am: AddrMode)
    ensures ModesSTX(am).Some? ==> PairOf(ModesSTX(am).value, STX, am)
  {
  }

  lemma ModesSTYRegistered(am: AddrMode)
    ensures ModesSTY(am).Some? ==> PairOf(ModesSTY(am).value, STY, am)
  {
  }

  lemma ModesTAXRegistered(am: AddrMode)
    ensures ModesTAX(am).Some? ==> PairOf(ModesTAX(am).value, TAX, am)
  {
  }

  lemma ModesTAYRegistered(am: AddrMode)
    ensures ModesTAY(am).Some? ==> PairOf(ModesTAY(am).value, TAY, am)
  {
  }

  lemma ModesTSXRegistered(am: AddrMode)
    ensures ModesTSX(am).Some? ==> PairOf(ModesTSX(am).value, TSX, am)
  {
  }

  lemma ModesTXARegistered(am: AddrMode)
    ensures ModesTXA(am).Some? ==> PairOf(ModesTXA(am).value, TXA, am)
  {
  }

  lemma ModesTXSRegistered(am: AddrMode)
    ensures ModesTXS(am).Some? ==> PairOf(ModesTXS(am).value, TXS, am)
  {
  }

  lemma ModesTYARegistered(am: AddrMode)
    ensures ModesTYA(am).Some? ==> PairOf(ModesTYA(am).value, TYA, am)
  {
  }

  lemma ModesLAXRegistered(am: AddrMode)
    ensures ModesLAX(am).Some? ==> PairOf(ModesLAX(am).value, LAX, am)
  {
  }

  lemma ModesSAXRegistered(am: AddrMode)
    ensures ModesSAX(am).Some? ==> PairOf(ModesSAX(am).value, SAX, am)
  {
  }

  lemma ModesDCPRegistered(am: AddrMode)
    ensures ModesDCP(am).Some? ==> PairOf(ModesDCP(am).value, DCP, am)
  {
  }

  lemma ModesISCRegistered(am: AddrMode)
    ensures ModesISC(am).Some? ==> PairOf(ModesISC(am).value, ISC, am)
  {
  }

  lemma ModesSLORegistered(am: AddrMode)
    ensures ModesSLO(am).Some? ==> PairOf(ModesSLO(am).value, SLO, am)
  {
  }

  lemma ModesRLARegistered(am: AddrMode)
    ensures ModesRLA(am).Some? ==> PairOf(ModesRLA(am).value, RLA, am)
  {
  }

  lemma ModesSRERegistered(am: AddrMode)
    ensures ModesSRE(am).Some? ==> PairOf(ModesSRE(am).value, SRE, am)
  {
  }

  lemma ModesRRARegistered(am: AddrMode)
    ensures ModesRRA(am).Some? ==> PairOf(ModesRRA(am).value, RRA, am)
  {
  }

  function ModesADC(am: AddrMode): Option<Byte>
  {
    match am
    case Immediate => Some(0x69)
    case ZeroPage => Some(0x65)
    case ZeroPageX => Some(0x75)
    case Absolute => Some(0x6D)
    case AbsoluteX => Some(0x7D)
    case AbsoluteY => Some(0x79)
    case IndirectX => Some(0x61)
    case IndirectY => Some(0x71)
    case _ => None
  }

  function ModesAND(am: AddrMode): Option<Byte>
  {
    match am
    case Immediate => Some(0x29)
    case ZeroPage => Some(0x25)
    case ZeroPageX => Some(0x35)
    case Absolute => Some(0x2D)
    case AbsoluteX => Some(0x3D)
    case AbsoluteY => Some(0x39)
    case IndirectX => Some(0x21)
    case IndirectY => Some(0x31)
    case _ => None
  }

  function ModesASL(am: AddrMode): Option<Byte>
  {
    match am
    case Accumulator => Some(0x0A)
    case ZeroPage => Some(0x06)
    case ZeroPageX => Some(0x16)
    case Absolute => Some(0x0E)
    case AbsoluteX => Some(0x1E)
    case _ => None
  }

  function ModesBCC(am: AddrMode): Option<Byte>
  {
    match am
    case Relative => Some(0x90)
    case _ => None
  }

  function ModesBCS(am: AddrMode): Option<Byte>
  {
    match am
    case Relative => Some(0xB0)
    case _ => None
  }

  function ModesBEQ(am: AddrMode): Option<Byte>
  {
    match am
    case Relative => Some(0xF0)
    case _ => None
  }

  function ModesBIT(am: AddrMode): Option<Byte>
  {
    match am
    case ZeroPage => Some(0x24)
    case Absolute => Some(0x2C)
    case _ => None
  }

  function ModesBMI(am: AddrMode): Option<Byte>
  {
    match am
    case Relative => Some(0x30)
    case _ => None
  }

  function ModesBNE(am: AddrMode): Option<Byte>
  {
    match am
    case Relative => Some(0xD0)
    case _ => None
  }

  function ModesBPL(am: AddrMode): Option<Byte>
  {
    match am
    case Relative => Some(0x10)
    case _ => None
  }

  function ModesBRK(am: AddrMode): Option<Byte>
  {
    match am
    case Implied => Some(0x00)
    case _ => None
  }

  function ModesBVC(am: AddrMode): Option<Byte>
  {
    match am
    case Relative => Some(0x50)
    case _ => None
  }

  function ModesBVS(am: AddrMode): Option<Byte>
  {
    match am
    case Relative => Some(0x70)
    case _ => None
  }

  function ModesCLC(am: AddrMode): Option<Byte>
  {
    match am
    case Implied => Some(0x18)
    case _ => None
  }

  function ModesCLD(am: AddrMode): Option<Byte>
  {
    match am
    case Implied => Some(0xD8)
    case _ => None
  }

  function ModesCLI(am: AddrMode): Option<Byte>
  {
    match am
    case Implied => Some(0x58)
    case _ => None
  }

  function ModesCLV(am: AddrMode): Option<Byte>
  {
    match am
    case Implied => Some(0xB8)
    case _ => None
  }

  function ModesCMP(am: AddrMode): Option<Byte>
  {
    match am
    case Immediate => Some(0xC9)
    case ZeroPage => Some(0xC5)
    case ZeroPageX => Some(0xD5)
    case Absolute => Some(0xCD)
    case AbsoluteX => Some(0xDD)
    case AbsoluteY => Some(0xD9)
    case IndirectX => Some(0xC1)
    case IndirectY => Some(0xD1)
    case _ => None
  }

  function ModesCPX(am: AddrMode): Option<Byte>
  {
    match am
    case Immediate => Some(0xE0)
    case ZeroPage => Some(0xE4)
    case Absolute => Some(0xEC)
    case _ => None
  }

  function ModesCPY(am: AddrMode): Option<Byte>
  {
    match am
    case Immediate => Some(0xC0)
    case ZeroPage => Some(0xC4)
    case Absolute => Some(0xCC)
    case _ => None
  }

  function ModesDEC(am: AddrMode): Option<Byte>
  {
    match am
    case ZeroPage => Some(0xC6)
    case ZeroPageX => Some(0xD6)
    case Absolute => Some(0xCE)
    case AbsoluteX => Some(0xDE)
    case _ => None
  }

  function ModesDEX(am: AddrMode): Option<Byte>
  {
    match am
    case Implied => Some(0xCA)
    case _ => None
  }

  function ModesDEY(am: AddrMode): Option<Byte>
  {
    match am
    case Implied => Some(0x88)
    case _ => None
  }

  function ModesEOR(am: AddrMode): Option<Byte>
  {
    match am
    case Immediate => Some(0x49)
    case ZeroPage => Some(0x45)
    case ZeroPageX => Some(0x55)
    case Absolute => Some(0x4D)
    case AbsoluteX => Some(0x5D)
    case AbsoluteY => Some(0x59)
    case IndirectX => Some(0x41)
    case IndirectY => Some(0x51)
    case _ => None
  }

  function ModesINC(am: AddrMode): Option<Byte>
  {
    match am
    case ZeroPage => Some(0xE6)
    case ZeroPageX => Some(0xF6)
    case Absolute => Some(0xEE)
    case AbsoluteX => Some(0xFE)
    case _ => None
  }

  function ModesINX(am: AddrMode): Option<Byte>
  {
    match am
    case Implied => Some(0xE8)
    case _ => None
  }

  function ModesINY(am: AddrMode): Option<Byte>
  {
    match am
    case Implied => Some(0xC8)
    case _ => None
  }

  function ModesJMP(am: AddrMode): Option<Byte>
  {
    match am
    case Absolute => Some(0x4C)
    case Indirect => Some(0x6C)
    case _ => None
  }

  function ModesJSR(am: AddrMode): Option<Byte>
  {
    match am
    case Absolute => Some(0x20)
    case _ => None
  }

  function ModesLDA(am: AddrMode): Option<Byte>
  {
    match am
    case Immediate => Some(0xA9)
    case ZeroPage => Some(0xA5)
    case ZeroPageX => Some(0xB5)
    case Absolute => Some(0xAD)
    case AbsoluteX => Some(0xBD)
    case AbsoluteY => Some(0xB9)
    case IndirectX => Some(0xA1)
    case IndirectY => Some(0xB1)
    case _ => None
  }

  function ModesLDX(am: AddrMode): Option<Byte>
  {
    match am
    case Immediate => Some(0xA2)
    case ZeroPage => Some(0xA6)
    case ZeroPageY => Some(0xB6)
    case Absolute => Some(0xAE)
    case AbsoluteY => Some(0xBE)
    case _ => None
  }

  function ModesLDY(am: AddrMode): Option<Byte>
  {
    match am
    case Immediate => Some(0xA0)
    case ZeroPage => Some(0xA4)
    case ZeroPageX => Some(0xB4)
    case Absolute => Some(0xAC)
    case AbsoluteX => Some(0xBC)
    case _ => None
  }

  function ModesLSR(am: AddrMode): Option<Byte>
  {
    match am
    case Accumulator => Some(0x4A)
    case ZeroPage => Some(0x46)
    case ZeroPageX => Some(0x56)
    case Absolute => Some(0x4E)
    case AbsoluteX => Some(0x5E)
    case _ => None
  }

  function ModesNOP(am: AddrMode): Option<Byte>
  {
    match am
    case Implied => Some(0xEA)
    case ZeroPage => Some(0x80)
    case AbsoluteX => Some(0xFC)
    case IndirectX => Some(0xF4)
    case _ => None
  }

  function ModesORA(am: AddrMode): Option<Byte>
  {
    match am
    case Immediate => Some(0x09)
    case ZeroPage => Some(0x05)
    case ZeroPageX => Some(0x15)
    case Absolute => Some(0x0D)
    case AbsoluteX => Some(0x1D)
    case AbsoluteY => Some(0x19)
    case IndirectX => Some(0x01)
    case IndirectY => Some(0x11)
    case _ => None
  }

  function ModesPHA(am: AddrMode): Option<Byte>
  {
    match am
    case Implied => Some(0x48)
    case _ => None
  }

  function ModesPHP(am: AddrMode): Option<Byte>
  {
    match am
    case Implied => Some(0x08)
    case _ => None
  }

  function ModesPLA(am: AddrMode): Option<Byte>
  {
    match am
    case Implied => Some(0x68)
    case _ => None
  }

  function ModesPLP(am: AddrMode): Option<Byte>
  {
    match am
    case Implied => Some(0x28)
    case _ => None
  }

  function ModesROL(am: AddrMode): Option<Byte>
  {
    match am
    case Accumulator => Some(0x2A)
    case ZeroPage => Some(0x26)
    case ZeroPageX => Some(0x36)
    case Absolute => Some(0x2E)
    case AbsoluteX => Some(0x3E)
    case _ => None
  }

  function ModesROR(am: AddrMode): Option<Byte>
  {
    match am
    case Accumulator => Some(0x6A)
    case ZeroPage => Some(0x66)
    case ZeroPageX => Some(0x76)
    case Absolute => Some(0x6E)
    case AbsoluteX => Some(0x7E)
    case _ => None
  }

  function ModesRTI(am: AddrMode): Option<Byte>
  {
    match am
    case Implied => Some(0x40)
    case _ => None
  }

  function ModesRTS(am: AddrMode): Option<Byte>
  {
    match am
    case Implied => Some(0x60)
    case _ => None
  }

  function ModesSBC(am: AddrMode): Option<Byte>
  {
    match am
    case Immediate => Some(0xE9)
    case ZeroPage => Some(0xE5)
    case ZeroPageX => Some(0xF5)
    case Absolute => Some(0xED)
    case AbsoluteX => Some(0xFD)
    case AbsoluteY => Some(0xF9)
    case IndirectX => Some(0xE1)
    case IndirectY => Some(0xF1)
    case _ => None
  }

  function ModesSEC(am: AddrMode): Option<Byte>
  {
    match am
    case Implied => Some(0x38)
    case _ => None
  }

  function ModesSED(am: AddrMode): Option<Byte>
  {
    match am
    case Implied => Some(0xF8)
    case _ => None
  }

  function ModesSEI(am: AddrMode): Option<Byte>
  {
    match am
    case Implied => Some(0x78)
    case _ => None
  }

  function ModesSTA(am: AddrMode): Option<Byte>
  {
    match am
    case ZeroPage => Some(0x85)
    case ZeroPageX => Some(0x95)
    case Absolute => Some(0x8D)
    case AbsoluteX => Some(0x9D)
    case AbsoluteY => Some(0x99)
    case IndirectX => Some(0x81)
    case IndirectY => Some(0x91)
    case _ => None
  }

  function ModesSTX(am: AddrMode): Option<Byte>
  {
    match am
    case ZeroPage => Some(0x86)
    case ZeroPageY => Some(0x96)
    case Absolute => Some(0x8E)
    case _ => None
  }

  function ModesSTY(am: AddrMode): Option<Byte>
  {
    match am
    case ZeroPage => Some(0x84)
    case ZeroPageX => Some(0x94)
    case Absolute => Some(0x8C)
    case _ => None
  }

  function ModesTAX(am: AddrMode): Option<Byte>
  {
    match am
    case Implied => Some(0xAA)
    case _ => None
  }

  function ModesTAY(am: AddrMode): Option<Byte>
  {
    match am
    case Implied => Some(0xA8)
    case _ => None
  }

  function ModesTSX(am: AddrMode): Option<Byte>
  {
    match am
    case Implied => Some(0xBA)
    case _ => None
  }

  function ModesTXA(am: AddrMode): Option<Byte>
  {
    match am
    case Implied => Some(0x8A)
    case _ => None
  }

  function ModesTXS(am: AddrMode): Option<Byte>
  {
    match am
    case Implied => Some(0x9A)
    case _ => None
  }

  function ModesTYA(am: AddrMode): Option<Byte>
  {
    match am
    case Implied => Some(0x98)
    case _ => None
  }

  function ModesLAX(am: AddrMode): Option<Byte>
  {
    match am
    case IndirectX => Some(0xA3)
    case ZeroPage => Some(0xA7)
    case Absolute => Some(0xAF)
    case IndirectY => Some(0xB3)
    case ZeroPageY => Some(0xB7)
    case AbsoluteY => Some(0xBF)
    case _ => None
  }

  function ModesSAX(am: AddrMode): Option<Byte>
  {
    match am
    case IndirectX => Some(0x83)
    case ZeroPage => Some(0x87)
    case Absolute => Some(0x8F)
    case ZeroPageY => Some(0x97)
    case _ => None
  }

  function ModesDCP(am: AddrMode): Option<Byte>
  {
    match am
    case IndirectX => Some(0xC3)
    case ZeroPage => Some(0xC7)
    case Absolute => Some(0xCF)
    case IndirectY => Some(0xD3)
    case ZeroPageX => Some(0xD7)
    case AbsoluteY => Some(0xDB)
    case AbsoluteX => Some(0xDF)
    case _ => None
  }

  function ModesISC(am: AddrMode): Option<Byte>
  {
    match am
    case IndirectX => Some(0xE3)
    case ZeroPage => Some(0xE7)
    case Absolute => Some(0xEF)
    case IndirectY => Some(0xF3)
    case ZeroPageX => Some(0xF7)
    case AbsoluteY => Some(0xFB)
    case AbsoluteX => Some(0xFF)
    case _ => None
  }

  function ModesSLO(am: AddrMode): Option<Byte>
  {
    match am
    case IndirectX => Some(0x03)
    case ZeroPage => Some(0x07)
    case Absolute => Some(0x0F)
    case IndirectY => Some(0x13)
    case ZeroPageX => Some(0x17)
    case AbsoluteY => Some(0x1B)
    case AbsoluteX => Some(0x1F)
    case _ => None
  }

  function ModesRLA(am: AddrMode): Option<Byte>
  {
    match am
    case IndirectX => Some(0x23)
    case ZeroPage => Some(0x27)
    case Absolute => Some(0x2F)
    case IndirectY => Some(0x33)
    case ZeroPageX => Some(0x37)
    case AbsoluteY => Some(0x3B)
    case AbsoluteX => Some(0x3F)
    case _ => None
  }

  function ModesSRE(am: AddrMode): Option<Byte>
  {
    match am
    case IndirectX => Some(0x43)
    case ZeroPage => Some(0x47)
    case Absolute => Some(0x4F)
    case IndirectY => Some(0x53)
    case ZeroPageX => Some(0x57)
    case AbsoluteY => Some(0x5B)
    case AbsoluteX => Some(0x5F)
    case _ => None
  }

  function ModesRRA(am: AddrMode): Option<Byte>
  {
    match am
    case IndirectX => Some(0x63)
    case ZeroPage => Some(0x67)
    case Absolute => Some(0x6F)
    case IndirectY => Some(0x73)
    case ZeroPageX => Some(0x77)
    case AbsoluteY => Some(0x7B)
    case AbsoluteX => Some(0x7F)
    case _ => None
  }

  /** The position of an opcode's `newinstr` call among all 227 of them,
      counting from 0 in source order; None for the unregistered bytes. */
  function RegistrationIndex(opc: Byte): Option<nat>
  {
    var lo := opc % 16;
    match opc / 16
    case 0 => IndexRow0(lo)
    case 1 => IndexRow1(lo)
    case 2 => IndexRow2(lo)
    case 3 => IndexRow3(lo)
    case 4 => IndexRow4(lo)
    case 5 => IndexRow5(lo)
    case 6 => IndexRow6(lo)
    case 7 => IndexRow7(lo)
    case 8 => IndexRow8(lo)
    case 9 => IndexRow9(lo)
    case 10 => IndexRowA(lo)
    case 11 => IndexRowB(lo)
    case 12 => IndexRowC(lo)
    case 13 => IndexRowD(lo)
    case 14 => IndexRowE(lo)
    case _ => IndexRowF(lo)
  }

  function IndexRow0(lo: int): Option<nat>
  {
    match lo
    case 10 => Some(16)
    case 6 => Some(17)
    case 14 => Some(19)
    case 0 => Some(29)
    case 4 => Some(103)
    case 12 => Some(107)
    case 9 => Some(120)
    case 5 => Some(121)
    case 13 => Some(123)
    case 1 => Some(126)
    case 8 => Some(129)
    case 3 => Some(199)
    case 7 => Some(200)
    case 15 => Some(201)
    case _ => None
  }

  function IndexRow1(lo: int): Option<nat>
  {
    match lo
    case 6 => Some(18)
    case 14 => Some(20)
    case 0 => Some(28)
    case 8 => Some(32)
    case 10 => Some(96)
    case 12 => Some(108)
    case 4 => Some(114)
    case 5 => Some(122)
    case 13 => Some(124)
    case 9 => Some(125)
    case 1 => Some(127)
    case 3 => Some(202)
    case 7 => Some(203)
    case 11 => Some(204)
    case 15 => Some(205)
    case _ => None
  }

  function IndexRow2(lo: int): Option<nat>
  {
    match lo
    case 9 => Some(8)
    case 5 => Some(9)
    case 13 => Some(11)
    case 1 => Some(14)
    case 4 => Some(24)
    case 12 => Some(25)
    case 0 => Some(72)
    case 8 => Some(131)
    case 10 => Some(132)
    case 6 => Some(133)
    case 14 => Some(135)
    case 3 => Some(206)
    case 7 => Some(207)
    case 15 => Some(208)
    case _ => None
  }

  function IndexRow3(lo: int): Option<nat>
  {
    match lo
    case 5 => Some(10)
    case 13 => Some(12)
    case 9 => Some(13)
    case 1 => Some(15)
    case 0 => Some(26)
    case 10 => Some(97)
    case 12 => Some(109)
    case 4 => Some(115)
    case 6 => Some(134)
    case 14 => Some(136)
    case 8 => Some(153)
    case 3 => Some(209)
    case 7 => Some(210)
    case 11 => Some(211)
    case 15 => Some(212)
    case _ => None
  }

  function IndexRow4(lo: int): Option<nat>
  {
    match lo
    case 9 => Some(56)
    case 5 => Some(57)
    case 13 => Some(59)
    case 1 => Some(62)
    case 12 => Some(70)
    case 10 => Some(91)
    case 6 => Some(92)
    case 14 => Some(94)
    case 4 => Some(104)
    case 8 => Some(128)
    case 0 => Some(142)
    case 3 => Some(213)
    case 7 => Some(214)
    case 15 => Some(215)
    case _ => None
  }

  function IndexRow5(lo: int): Option<nat>
  {
    match lo
    case 0 => Some(30)
    case 8 => Some(34)
    case 5 => Some(58)
    case 13 => Some(60)
    case 9 => Some(61)
    case 1 => Some(63)
    case 6 => Some(93)
    case 14 => Some(95)
    case 10 => Some(98)
    case 12 => Some(110)
    case 4 => Some(116)
    case 3 => Some(216)
    case 7 => Some(217)
    case 11 => Some(218)
    case 15 => Some(219)
    case _ => None
  }

  function IndexRow6(lo: int): Option<nat>
  {
    match lo
    case 9 => Some(0)
    case 5 => Some(1)
    case 13 => Some(3)
    case 1 => Some(6)
    case 12 => Some(71)
    case 4 => Some(105)
    case 8 => Some(130)
    case 10 => Some(137)
    case 6 => Some(138)
    case 14 => Some(140)
    case 0 => Some(143)
    case 3 => Some(220)
    case 7 => Some(221)
    case 15 => Some(222)
    case _ => None
  }

  function IndexRow7(lo: int): Option<nat>
  {
    match lo
    case 5 => Some(2)
    case 13 => Some(4)
    case 9 => Some(5)
    case 1 => Some(7)
    case 0 => Some(31)
    case 10 => Some(99)
    case 12 => Some(111)
    case 4 => Some(117)
    case 6 => Some(139)
    case 14 => Some(141)
    case 8 => Some(155)
    case 3 => Some(223)
    case 7 => Some(224)
    case 11 => Some(225)
    case 15 => Some(226)
    case _ => None
  }

  function IndexRow8(lo: int): Option<nat>
  {
    match lo
    case 8 => Some(55)
    case 0 => Some(106)
    case 5 => Some(156)
    case 13 => Some(158)
    case 1 => Some(161)
    case 6 => Some(163)
    case 14 => Some(165)
    case 4 => Some(166)
    case 12 => Some(168)
    case 10 => Some(172)
    case 3 => Some(181)
    case 7 => Some(182)
    case 15 => Some(183)
    case _ => None
  }

  function IndexRow9(lo: int): Option<nat>
  {
    match lo
    case 0 => Some(21)
    case 5 => Some(157)
    case 13 => Some(159)
    case 9 => Some(160)
    case 1 => Some(162)
    case 6 => Some(164)
    case 4 => Some(167)
    case 10 => Some(173)
    case 8 => Some(174)
    case 7 => Some(184)
    case _ => None
  }

  function IndexRowA(lo: int): Option<nat>
  {
    match lo
    case 9 => Some(73)
    case 5 => Some(74)
    case 13 => Some(76)
    case 1 => Some(79)
    case 2 => Some(81)
    case 6 => Some(82)
    case 14 => Some(84)
    case 0 => Some(86)
    case 4 => Some(87)
    case 12 => Some(89)
    case 10 => Some(169)
    case 8 => Some(170)
    case 3 => Some(175)
    case 7 => Some(176)
    case 15 => Some(177)
    case _ => None
  }

  function IndexRowB(lo: int): Option<nat>
  {
    match lo
    case 0 => Some(22)
    case 8 => Some(35)
    case 5 => Some(75)
    case 13 => Some(77)
    case 9 => Some(78)
    case 1 => Some(80)
    case 6 => Some(83)
    case 14 => Some(85)
    case 4 => Some(88)
    case 12 => Some(90)
    case 10 => Some(171)
    case 3 => Some(178)
    case 7 => Some(179)
    case 15 => Some(180)
    case _ => None
  }

  function IndexRowC(lo: int): Option<nat>
  {
    match lo
    case 9 => Some(36)
    case 5 => Some(37)
    case 13 => Some(39)
    case 1 => Some(42)
    case 0 => Some(47)
    case 4 => Some(48)
    case 12 => Some(49)
    case 6 => Some(50)
    case 14 => Some(52)
    case 10 => Some(54)
    case 8 => Some(69)
    case 3 => Some(185)
    case 7 => Some(186)
    case 15 => Some(187)
    case _ => None
  }

  function IndexRowD(lo: int): Option<nat>
  {
    match lo
    case 0 => Some(27)
    case 8 => Some(33)
    case 5 => Some(38)
    case 13 => Some(40)
    case 9 => Some(41)
    case 1 => Some(43)
    case 6 => Some(51)
    case 14 => Some(53)
    case 10 => Some(100)
    case 12 => Some(112)
    case 4 => Some(118)
    case 3 => Some(188)
    case 7 => Some(189)
    case 11 => Some(190)
    case 15 => Some(191)
    case _ => None
  }

  function IndexRowE(lo: int): Option<nat>
  {
    match lo
    case 0 => Some(44)
    case 4 => Some(45)
    case 12 => Some(46)
    case 6 => Some(64)
    case 14 => Some(66)
    case 8 => Some(68)
    case 10 => Some(102)
    case 11 => Some(144)
    case 9 => Some(145)
    case 5 => Some(146)
    case 13 => Some(148)
    case 1 => Some(151)
    case 3 => Some(192)
    case 7 => Some(193)
    case 15 => Some(194)
    case _ => None
  }

  function IndexRowF(lo: int): Option<nat>
  {
    match lo
    case 0 => Some(23)
    case 6 => Some(65)
    case 14 => Some(67)
    case 10 => Some(101)
    case 12 => Some(113)
    case 4 => Some(119)
    case 5 => Some(147)
    case 13 => Some(149)
    case 9 => Some(150)
    case 1 => Some(152)
    case 8 => Some(154)
    case 3 => Some(195)
    case 7 => Some(196)
    case 11 => Some(197)
    case 15 => Some(198)
    case _ => None
  }

  /** `earlier` and `later` are registered with the same pair of mnemonic and
      mode, and `later`'s `newinstr` call comes after `earlier`'s, so it is the
      one that stays in the pair dictionary. */
  predicate ShadowedBy(earlier: Byte, later: Byte)
  {
    && GetInOpc(earlier).Some? && GetInOpc(later).Some?
    && PairOf(later, GetInOpc(earlier).value.mnemonic, GetInOpc(earlier).value.addressingMode)
    && RegistrationIndex(earlier).Some? && RegistrationIndex(later).Some?
    && RegistrationIndex(earlier).value < RegistrationIndex(later).value
  }

  /** NOP Implied is registered 7 times (nes.js:892-898); `getinstr` answers with
      the last of them, 0xEA. */
  lemma NopImpliedKeepsLast()
    ensures GetInstr(NOP, Implied).Some? && GetInstr(NOP, Implied).value.opcode == 0xEA
    ensures ShadowedBy(0x1A, 0xEA)
    ensures ShadowedBy(0x3A, 0xEA)
    ensures ShadowedBy(0x5A, 0xEA)
    ensures ShadowedBy(0x7A, 0xEA)
    ensures ShadowedBy(0xDA, 0xEA)
    ensures ShadowedBy(0xFA, 0xEA)
  {
  }

  /** NOP ZeroPage is registered 4 times (nes.js:899-902); `getinstr` answers with
      the last of them, 0x80. */
  lemma NopZeroPageKeepsLast()
    ensures GetInstr(NOP, ZeroPage).Some? && GetInstr(NOP, ZeroPage).value.opcode == 0x80
    ensures ShadowedBy(0x04, 0x80)
    ensures ShadowedBy(0x44, 0x80)
    ensures ShadowedBy(0x64, 0x80)
  {
  }

  /** NOP AbsoluteX is registered 7 times (nes.js:903-909); `getinstr` answers with
      the last of them, 0xFC. */
  lemma NopAbsoluteXKeepsLast()
    ensures GetInstr(NOP, AbsoluteX).Some? && GetInstr(NOP, AbsoluteX).value.opcode == 0xFC
    ensures ShadowedBy(0x0C, 0xFC)
    ensures ShadowedBy(0x1C, 0xFC)
    ensures ShadowedBy(0x3C, 0xFC)
    ensures ShadowedBy(0x5C, 0xFC)
    ensures ShadowedBy(0x7C, 0xFC)
    ensures ShadowedBy(0xDC, 0xFC)
  {
  }

  /** NOP IndirectX is registered 6 times (nes.js:911-916); `getinstr` answers with
      the last of them, 0xF4. */
  lemma NopIndirectXKeepsLast()
    ensures GetInstr(NOP, IndirectX).Some? && GetInstr(NOP, IndirectX).value.opcode == 0xF4
    ensures ShadowedBy(0x14, 0xF4)
    ensures ShadowedBy(0x34, 0xF4)
    ensures ShadowedBy(0x54, 0xF4)
    ensures ShadowedBy(0x74, 0xF4)
    ensures ShadowedBy(0xD4, 0xF4)
  {
  }

  /** SBC Immediate is registered 2 times (nes.js:942-943); `getinstr` answers with
      the last of them, 0xE9. */
  lemma SbcImmediateKeepsLast()
    ensures GetInstr(SBC, Immediate).Some? && GetInstr(SBC, Immediate).value.opcode == 0xE9
    ensures ShadowedBy(0xEB, 0xE9)
  {
  }

}
