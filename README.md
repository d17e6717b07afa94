# nestk 6502 core in Dafny

This project models the CPU core of nestk, a NES emulator written in JavaScript, and proves properties of the model. The core is the 2A03/6502 interpreter `CPU6502` and its opcode table, the two buses, and the iNES cartridge reader with its byte helper:

- **wrappers.dfy**: `Option` and `Result`.
- **bytes.dfy** (`Bytes`): bytes and 16-bit words, the JavaScript bit operators on them (`&`, `|`, `^`, `~` via `bv8`), `_crosspage`, and two's-complement reading.
- **opcodes.dfy** (`Opcodes`): the `Mnemonic`, `AddrMode` and `Instruction` types. It holds the whole `newinstr` table as the total functions `GetInOpc` (by opcode byte) and `GetInstr` (by mnemonic and mode), plus the rule that the pair lookup keeps the last registration.
- **pairlookup.dfy** (`PairLookup`): every registered pair is found by the pair lookup, which keeps its last registration.
- **machine.dfy** (`Execution`): the CPU as functions on a `Machine` value, which holds the seven fields of `CPU6502` and the 64K memory of its `ArrayBus`. It covers the flags, push and pop, `operand`, `instructionCycles`, every `_instr_` handler, and `step`.
- **cpu.dfy** (`Cpu`): the class `CPU6502` with those seven fields over an `ArrayBus`. The state-changing methods update the fields and cells in place, and each contract ties the new `State()` to the matching `Execution` function of the old one. The exceptions:
  - `Flag` and `GetAddrOrAccum` change nothing and return the `Execution` value of the current state.
  - `Addr8` and `Addr16` state their result and the new pc directly against the bus cells.
  - The seven `FlagX` setters state the new `p` alone.
- **buses.dfy** (`Buses`): `ArrayBus` as a class over an array of bytes, and `MemoryBus` as a class with read and write route lists and a first-match search loop.
- **arith.dfy**, **shifts.dfy**, **stack.dfy**, **control.dfy**: what the handlers mean.
  - ADC and SBC against two's-complement arithmetic.
  - Shifts and rotations, and rotations undoing each other.
  - The stack pairs undoing each other.
  - Branches, the operand quirks, and the clock and pc after one `step()`.
- **buff.dfy** (`Buff`) and **ines.dfy** (`Ines`): `Buff.readInt8`, `Buff.readUInt32LE`, `inesparser` and `Cartridge.fromRomData`.

The model follows the code as written, quirks included:

- The Relative target ORs `(pc & 0xFF) + offset` into `pc & 0xFF00`. The offset is unsigned, so a sum past the page from an odd page lands 256 bytes short.
- The page-cross penalty compares pc with pc minus the index.
- Indirect mode charges 2 cycles when its target is in another page than pc.
- BRK pushes nothing.
- `step()` returns the old cycle count minus the new one.
- `handlePut` fills the read routes.
- `readInt8` does not sign-extend, and `readUInt32LE` is signed.
- `s` and `pc` are unbounded integers, as in the source, and every handler that touches the stack requires its cells to lie inside memory.

The source's tests disagree with its code in two places, and the model follows the code. At `spec/nesjs.spec.js:102-110` the test writes its value at `0xFE + X = 0x100`, but `LDA $fe,x` wraps in page 0 and reads `0x00` (`Control.LdaZeroPageXWraps`). The test at `spec/nesjs.spec.js:112-120` assembles `LDA $fe,y`, which has no table entry, so the assembler throws "No instr for LDA ZeroPageY" (nes.js:1069-1071) before the CPU runs (`Control.LdaHasNoZeroPageY`).

## Model

The `Execution.Instr*` handler functions have no contracts of their own. Each is named in the row of the `Cpu.CPU6502` method that is proved to follow it, and what it does is stated by the Arith, Shifts, Stack and Control lemmas.

| member | source | states |
|---|---|---|
| Bytes.BytesOfWord | nes.js:46-51 | the low byte and high byte of a 16-bit word put back together give the word, the little-endian `(hi << 8) | lo` of `addr16` |
| Bytes.WordOfBytes | nes.js:46-51 | every 16-bit value is the Word of its own low and high byte |
| Bytes.PageOf | nes.js:404-406 | `a & 0xFF00` is a multiple of 256 with the same high byte and a zero low byte |
| Bytes.CrossPageMeansDifferentHighByte | nes.js:404-406 | `_crosspage(a, b)` holds exactly when the two addresses differ in their high byte |
| Bytes.Or16 | nes.js:89 | the OR of two 16-bit values stays below 0x10000 (used for the Relative target and the carry bit of ROL and ROR) |
| Bytes.OrZeroLowByte | nes.js:89 | OR with 0 is the identity on bytes, on either side |
| Bytes.OrOneOnEven | nes.js:254 | `v | 1` on an even byte adds one: how ROL brings the carry into bit 0 |
| Bytes.OrOneOnOdd | nes.js:89 | `v | 1` on an odd byte changes nothing: why a Relative sum past the page from an odd page stays in that page |
| Bytes.AndSignMask | nes.js:142-145 | `(v & 0x80) != 0` holds exactly when bit 7 of v is set, the test of `flagS` |
| Bytes.Bit7OfAnd | nes.js:186-190 | bit 7 of `a & b` is set exactly when it is set in both |
| Bytes.Bit7OfXor | nes.js:196-200 | bit 7 of `a ^ b` is set exactly when it is set in one of them only |
| Bytes.Bit7OfNot | nes.js:213-214 | bit 7 of `~v` is the negation of bit 7 of v |
| Bytes.Signed | nes.js:202-223 | the two's-complement reading of a byte lies in -128..127, is negative exactly when bit 7 is set, and has the byte as its low byte |
| Opcodes.GetInOpc | nes.js:788-1034 | `getinopc(opc)`: the entry stored under an opcode answers to that opcode, its size is one plus the operand bytes its mode reads, and no entry uses a parser-only mode; unregistered bytes give None |
| Opcodes.Row0 | nes.js:795-1034 | the `newinstr` entries for opcodes 0x00 to 0x0F, each consistent with its opcode and mode |
| Opcodes.Row1 | nes.js:795-1034 | the `newinstr` entries for opcodes 0x10 to 0x1F, each consistent with its opcode and mode |
| Opcodes.Row2 | nes.js:795-1034 | the `newinstr` entries for opcodes 0x20 to 0x2F, each consistent with its opcode and mode |
| Opcodes.Row3 | nes.js:795-1034 | the `newinstr` entries for opcodes 0x30 to 0x3F, each consistent with its opcode and mode |
| Opcodes.Row4 | nes.js:795-1034 | the `newinstr` entries for opcodes 0x40 to 0x4F, each consistent with its opcode and mode |
| Opcodes.Row5 | nes.js:795-1034 | the `newinstr` entries for opcodes 0x50 to 0x5F, each consistent with its opcode and mode |
| Opcodes.Row6 | nes.js:795-1034 | the `newinstr` entries for opcodes 0x60 to 0x6F, each consistent with its opcode and mode |
| Opcodes.Row7 | nes.js:795-1034 | the `newinstr` entries for opcodes 0x70 to 0x7F, each consistent with its opcode and mode |
| Opcodes.Row8 | nes.js:795-1034 | the `newinstr` entries for opcodes 0x80 to 0x8F, each consistent with its opcode and mode |
| Opcodes.Row9 | nes.js:795-1034 | the `newinstr` entries for opcodes 0x90 to 0x9F, each consistent with its opcode and mode |
| Opcodes.RowA | nes.js:795-1034 | the `newinstr` entries for opcodes 0xA0 to 0xAF, each consistent with its opcode and mode |
| Opcodes.RowB | nes.js:795-1034 | the `newinstr` entries for opcodes 0xB0 to 0xBF, each consistent with its opcode and mode |
| Opcodes.RowC | nes.js:795-1034 | the `newinstr` entries for opcodes 0xC0 to 0xCF, each consistent with its opcode and mode |
| Opcodes.RowD | nes.js:795-1034 | the `newinstr` entries for opcodes 0xD0 to 0xDF, each consistent with its opcode and mode |
| Opcodes.RowE | nes.js:795-1034 | the `newinstr` entries for opcodes 0xE0 to 0xEF, each consistent with its opcode and mode |
| Opcodes.RowF | nes.js:795-1034 | the `newinstr` entries for opcodes 0xF0 to 0xFF, each consistent with its opcode and mode |
| Opcodes.GetInstr | nes.js:789-793 | `getinstr(mn, am)`: any entry found has that mnemonic and mode and is the very entry `getinopc` holds for its opcode |
| Opcodes.PairOpcodeRegistered | nes.js:790-1034 | every opcode named for a pair of mnemonic and mode is registered with that pair |
| Opcodes.NopImpliedKeepsLast | nes.js:892-898 | NOP Implied is registered seven times; `getinstr` keeps 0xEA, the last registration, and each earlier one is shadowed by it |
| Opcodes.NopZeroPageKeepsLast | nes.js:899-902 | NOP ZeroPage: `getinstr` keeps 0x80, registered after 0x04, 0x44 and 0x64 |
| Opcodes.NopAbsoluteXKeepsLast | nes.js:903-909 | NOP AbsoluteX: `getinstr` keeps 0xFC, registered after the six others |
| Opcodes.NopIndirectXKeepsLast | nes.js:911-916 | NOP IndirectX: `getinstr` keeps 0xF4, registered after the five others |
| Opcodes.SbcImmediateKeepsLast | nes.js:942-943 | SBC Immediate: `getinstr` keeps 0xE9, registered after 0xEB |
| PairLookup.RegisteredIsFound | nes.js:795-1034 | for every registered opcode, `getinstr` finds its pair, and finds that opcode itself or one whose `newinstr` call comes later with the same pair |
| PairLookup.GetInstrFindsRegisteredPairs | nes.js:789-793 | `getinstr(mn, am)` finds an entry exactly when some opcode is registered with that pair |
| PairLookup.LastOpcodeIsPairOpcode | nes.js:892-943 | for each of the five pairs registered more than once, the pair lookup keeps the opcode with the highest registration index: 0xEA, 0x80, 0xFC, 0xF4 and 0xE9 |
| Execution.PowerOn | nes.js:29-40 | a new CPU has A, X, Y and pc 0, a zero clock, s at 0xFD and p 0x24, that is, of the flags only Interrupt and Unused set, over the bus memory it was given |
| Execution.SetFlagIsOrOrAndNot | nes.js:142-169 | setting a flag ORs its mask in and clearing it ANDs the complement, as every `flagX` setter does |
| Execution.SetFlagSetsOnlyThatFlag | nes.js:142-169 | after setting a flag it has the value asked for and every other flag keeps its value |
| Execution.FlagZSMeaning | nes.js:142-165 | after `flagZ(v); flagS(v)`, Z says whether v is 0, S holds bit 7 of v, and the other six flags keep their values |
| Execution.CarryIn | nes.js:204 | `+this.flag(Carry)` is 1 when C is set and 0 otherwise |
| Execution.Push | nes.js:133-135 | `push(v)` stores v at 0x100 + s and decrements s |
| Execution.Pop | nes.js:136-138 | `pop()` increments s and returns the byte at 0x100 + the new s, changing nothing else |
| Execution.RelativeTarget | nes.js:87-89 | the Relative target `(pc & 0xFF00) | ((pc & 0xFF) + offset)` is an address inside memory |
| Execution.IndexOf | nes.js:72-85 | the X modes add X and the Y modes add Y |
| Execution.IndirectTarget | nes.js:52-67 | `addr16ind`, the JMP ($nnnn) target; no contract of its own, its properties are those of Control.IndirectStaysInPage, Control.IndirectPageWrap and Execution.OperandConsumesItsBytes |
| Execution.Operand | nes.js:42-93 | `operand(instr)`; no contract of its own, its properties are those of Execution.OperandConsumesItsBytes, Execution.OperandAbsoluteModes and the Control lemmas on the zero-page and indirect modes |
| Execution.OperandAbsoluteModes | nes.js:46-77 | Absolute, AbsoluteX and AbsoluteY read the little-endian word at pc and add 0, X or Y to it on 16 bits; pc moves two bytes |
| Execution.OperandConsumesItsBytes | nes.js:42-93 | `operand()` throws exactly for the two parser-only modes, with the "Invalid Address Mode" error; otherwise it yields an address inside memory, moves pc past the operand bytes, and only Indirect touches the clock |
| Execution.InstructionCyclesAddsBaseOrOneMore | nes.js:95-109 | `instructionCycles` changes only the clock, by the base cycles or one more; the extra cycle is spent exactly when the entry has checkPageCross and `_crosspage(pc, pc - X)` holds in AbsoluteX mode or `_crosspage(pc, pc - Y)` in AbsoluteY or IndirectY mode |
| Execution.InstructionCycles | nes.js:95-109 | `instructionCycles(instr)`; no contract of its own, its property is that of Execution.InstructionCyclesAddsBaseOrOneMore |
| Execution.Execute | nes.js:117-122 | the `_instr_` lookup and call, one handler per mnemonic; no contract of its own, what the handlers do is stated by the Arith, Shifts, Stack and Control lemmas and the clock and pc frame by Control.ExecuteClockAndPc |
| Execution.Run | nes.js:120-123 | the part of `step()` after decoding; no contract of its own, its properties are those of Control.RunClock |
| Execution.Step | nes.js:111-124 | `step()`; no contract of its own, its properties are those of Control.StepFailsOnlyOnUnregistered, Control.StepDecodes and Control.StepClock |
| Execution.OverflowMaskIsSignTest | nes.js:202-217 | the mask `~(a ^ value) & (a ^ res) & 0x80` is nonzero exactly when A and the operand agree in bit 7 and the result does not |
| Execution.OrHighBit | nes.js:262 | `v | 0x100` on a byte adds 0x100: how ROR brings the carry into bit 8 |
| Execution.OrLowBit | nes.js:254 | `v | 1` on an even 16-bit value adds one |
| Arith.AdcOverflowIsSigned | nes.js:202-207 | after an addition, V holds exactly when the signed sum A + M + C leaves -128..127 |
| Arith.SbcOverflowIsSigned | nes.js:213-218 | after a subtraction, V holds exactly when the signed difference A - M - (1 - C) leaves -128..127 |
| Arith.AddWithCarryFlags | nes.js:206-211 | the common tail of ADC and SBC sets V and C as told, Z and S from the new A, and keeps I, D, B, the unused bit, the other registers and memory |
| Arith.FourFlagsSet | nes.js:206-211 | setting V, Z, S and C in turn gives each the value asked for and leaves the four other flags alone |
| Arith.AdcComputesSum | nes.js:202-212 | `_instr_ADC`: A becomes (A + M + C) mod 256, C says the unsigned sum passed 0xFF, V that the signed sum overflowed, Z and S describe the new A, nothing else changes |
| Arith.SbcComputesDifference | nes.js:213-223 | `_instr_SBC`: A becomes (A - M - 1 + C) mod 256, C is set exactly when A + C > M (no borrow), V on signed overflow, nothing else changes |
| Arith.AdcSmallSum | nes.js:202-212 | 0x50 + 0x10 with C clear gives 0x60 with V and C clear |
| Arith.AdcSignedOverflow | nes.js:202-212 | 0x50 + 0x50 with C clear gives 0xA0 with V and S set and C clear |
| Stack.PopUndoesPush | nes.js:133-138 | `pop()` right after `push(v)` returns v and restores s; only the pushed cell stays changed |
| Stack.PlaUndoesPha | nes.js:381-392 | PHA then PLA restores A and s, sets Z and S from A, and leaves only the stack cell changed |
| Stack.StatusBits | nes.js:384-386 | `p | 0x30` sets B and the unused bit and keeps the other six bits, so PLP of it gives back p with U set and B clear |
| Stack.PulledStatusBits | nes.js:393-395 | PLP's `(v | Unused) & ~Break` sets U, clears B and keeps the other six bits of v |
| Stack.PhpPushesBreakAndUnused | nes.js:384-386 | PHP pushes P with B and the unused bit set and the six other flags as they are; it changes only that cell and s |
| Stack.PlpForcesUnusedClearsBreak | nes.js:393-395 | PLP takes every flag from the pulled byte except U, forced on, and B, forced off; only s and p change |
| Stack.PlpAfterPhp | nes.js:384-395 | PHP then PLP restores s and P, except that U ends up set and B clear; no register other than P changes |
| Stack.RtsUndoesJsr | nes.js:362-373 | JSR pushes pc - 1 high byte first and jumps; RTS after it returns to the instruction after the JSR with s restored, leaving only the two stack cells changed |
| Shifts.ThreeFlagsSet | nes.js:236-267 | setting C, Z and S in turn gives each the value asked for and keeps the other five flags |
| Shifts.TailFlags | nes.js:236-267 | the common `flagC; flagZ; flagS` of the shift handlers: C from the carry, Z and S from the stored value, other flags kept |
| Shifts.StoreTouchesOnlyOperand | nes.js:230-235 | `_setAddrOrAccum` changes A in Accumulator mode and the one memory cell otherwise |
| Shifts.ShiftTail | nes.js:236-267 | a shift handler's tail stores the value, sets C, Z and S from it, and changes nothing else |
| Shifts.LsrMeaning | nes.js:236-243 | LSR stores v / 2 with C = bit 0 of v and S always clear |
| Shifts.AslMeaning | nes.js:244-251 | ASL stores 2v mod 256 with C = bit 7 of v |
| Shifts.RolValue | nes.js:252-254 | ROL's `(v << 1 | 1) & 0xFF` or `(v << 1) & 0xFF` is (2v + C) mod 256 |
| Shifts.RolMeaning | nes.js:252-259 | ROL stores (2v + C) mod 256 with the new C = bit 7 of v |
| Shifts.RorValue | nes.js:260-262 | ROR's `(v | 0x100) >> 1` or `v >> 1` is v / 2 + 128 C |
| Shifts.RorMeaning | nes.js:260-267 | ROR stores v / 2 + 128 C with the new C = bit 0 of v |
| Shifts.RotateLeftThenRight | nes.js:252-267 | rotating a byte and carry left and then right gives both back |
| Shifts.RotateRightThenLeft | nes.js:252-267 | rotating a byte and carry right and then left gives both back |
| Shifts.OutcomeOperand | nes.js:225-235 | after a shift, the operand (A or the cell) holds the stored value and C its carry |
| Shifts.RestoredOperand | nes.js:225-235 | a second shift that stores back the value the first one found restores every register but P and all of memory |
| Shifts.RightAfterLeft | nes.js:252-267 | on the outcomes of two rotations, ROR after ROL restores A or the cell and C |
| Shifts.RorUndoesRol | nes.js:252-267 | ROR undoes ROL on the same operand in every mode: value, C, other registers and memory come back; only Z and S may differ |
| Shifts.LeftAfterRight | nes.js:252-267 | on the outcomes of two rotations, ROL after ROR restores A or the cell and C |
| Shifts.RolUndoesRor | nes.js:252-267 | ROL undoes ROR on the same operand in every mode |
| Shifts.SloMeaning | nes.js:490-493 | SLO shifts the cell left, sets C from bit 7 of the old cell, and ORs the shifted cell into A |
| Shifts.RraMeaning | nes.js:502-505 | RRA rotates the cell right, then A becomes A + rotated + bit 0 of the old cell, mod 256, with C from that sum passing 0xFF |
| Shifts.IscMeaning | nes.js:486-489 | ISC increments the cell mod 256, then A becomes A - inc - 1 + C mod 256, with C set exactly when A + C > inc |
| Control.ExecuteBranch | nes.js:407-442 | each of the eight branches jumps when its flag agrees, spending one cycle or two when the high byte changes, and otherwise changes nothing, neither pc nor the clock |
| Control.RelativeTargetInPage | nes.js:87-89 | while `(pc & 0xFF) + offset` stays in the page the Relative target is pc + offset, the offset read unsigned |
| Control.RelativeTargetPastPage | nes.js:87-89 | past the page, the OR merges bit 8 into the page number: from an even page the target is still pc + offset, from an odd page it is 256 short |
| Control.ZeroPageStaysInPageZero | nes.js:72-74 | the three zero-page modes add the index modulo 256 and never leave page 0 |
| Control.PageWrapArith | nes.js:55-63 | the byte after a pointer, wrapped in the pointer's page, is `operand - 0xFF` at a page's last byte and `operand + 1` otherwise |
| Control.IndirectStaysInPage | nes.js:52-67 | JMP ($nnnn) takes the target's high byte from the same page as its low byte, for every pointer |
| Control.IndirectPageWrap | nes.js:57-60 | JMP ($30FF) reads its target from $30FF and $3000 |
| Control.IndirectPointerWraps | nes.js:79-86 | (zp,X) and (zp),Y read the pointer's low byte at z, the operand byte plus X mod 256 or the operand byte itself, and its high byte at the next cell of page 0, $00 after $FF; (zp),Y adds Y on 16 bits |
| Control.ExecuteFrameGroup1 | nes.js:176-466 | ADC to EOR: no handler changes the clock and only BRK changes pc |
| Control.ExecuteFrameGroup2 | nes.js:186-395 | INC to ROL: no handler changes the clock and only JMP and JSR change pc |
| Control.ExecuteFrameGroup3 | nes.js:182-379 | ROR to SEI: no handler changes the clock and only RTS and RTI change pc |
| Control.ExecuteFrameGroup6 | nes.js:319-356 | STA to TYA: no handler changes the clock or pc |
| Control.ExecuteFrameGroup4 | nes.js:468-489 | LAX, SAX, DCP, ISC: no handler changes the clock or pc |
| Control.ExecuteFrameGroup5 | nes.js:490-505 | SLO, RLA, SRE, RRA: no handler changes the clock or pc |
| Control.ExecuteClockAndPc | nes.js:116-505 | every handler adds 0 to 2 cycles, only branches add any, and only branches, jumps, calls, returns and BRK move pc |
| Control.StepFailsOnlyOnUnregistered | nes.js:111-124 | `step()` throws exactly for an unregistered opcode, with "Invalid opcode", pc one past it and nothing else changed |
| Control.StepOpcode02Throws | nes.js:113-115 | opcode 0x02 throws "Invalid opcode" with pc moved past it |
| Control.StepDecodes | nes.js:111-116 | a registered opcode runs its entry with pc past the opcode byte |
| Control.RunClock | nes.js:116-123 | after decoding, the step returns the old cycle count minus the new one, at most minus the base cycles, at least minus one more outside branches and Indirect, and pc moves past the operand unless the handler sets it |
| Control.StepClock | nes.js:111-124 | `step()` on a registered opcode returns minus the cycles spent, at most minus the base cycle count, and moves pc past the whole instruction unless the handler sets it |
| Control.LdaImmediate | spec/nesjs.spec.js:85-91 | LDA #$FE at 0x0600 loads 0xFE, sets S, clears Z, moves pc two bytes and returns -2 |
| Control.LdaZeroPage | spec/nesjs.spec.js:93-100 | LDA $FE loads the cell at 0x00FE and returns -3 |
| Control.LdaZeroPageXWraps | spec/nesjs.spec.js:102-110 | LDA $FE,X with X = 2 loads the cell at 0x0000, not 0x0100, and returns -4 |
| Control.LdaHasNoZeroPageY | spec/nesjs.spec.js:112-120 | the table has no LDA ZeroPageY entry |
| Buses.ArrayBus.constructor | nes.js:1253-1255 | `new ArrayBus(s)` has s cells, all 0 |
| Buses.ArrayBus.Read | nes.js:1256-1258 | `read(addr)` returns the cell at addr |
| Buses.ArrayBus.Write | nes.js:1259-1261 | `write(addr, data)` changes that one cell |
| Buses.ArrayBus.WriteBuffer | nes.js:1262-1265 | `writeBuffer(addr, buffer)` puts the buffer at addr, addr+1, ... and keeps every other cell |
| Buses.MemoryBus.constructor | nes.js:509 | a new bus has no routes |
| Buses.MemoryBus.HandleGet | nes.js:510 | `handleGet` appends a read route and leaves the write routes alone |
| Buses.MemoryBus.HandlePut | nes.js:511 | `handlePut` appends to the READ routes, as written, and never to the write routes |
| Buses.MemoryBus.FindCallback | nes.js:514-518 | `findCallback` returns the callback of the first route covering the address, or throws "Invalid address" when none does |
| Buses.MemoryBus.Read | nes.js:512 | `read(addr)` uses the first read route covering addr |
| Buses.MemoryBus.Write | nes.js:513 | `write(addr)` uses the first write route covering addr |
| Buses.HandlePutRoutesReads | nes.js:509-518 | after one `handlePut`, reads inside the range reach its callback and every write throws "Invalid address" |
| Buses.FirstCovering | nes.js:514-518 | the first route covering an address, as a recursive function; no contract of its own, its properties are those of Buses.FirstCoveringIsTheFirst, Buses.EarlierRouteWins and Buses.AppendedRouteAnswersTheRest |
| Buses.FirstCoveringIsTheFirst | nes.js:514-518 | the result the search loop promises is the recursive first-covering-route function |
| Buses.EarlierRouteWins | nes.js:514-518 | a route added after one that already covers an address never answers for it |
| Buses.AppendedRouteAnswersTheRest | nes.js:514-518 | a route added last answers for an address no earlier route covers exactly when it covers it |
| Buff.ReadInt8 | ui/src/buff.js:7-9 | `readInt8(offset)` is defined exactly inside the buffer and is the stored byte, unsigned |
| Buff.Unsigned32LE | ui/src/buff.js:10-15 | the four bytes at offset read least significant first, missing ones as 0, form a number below 2^32 |
| Buff.ReadUInt32LE | ui/src/buff.js:10-15 | `readUInt32LE(offset)` lies in the signed 32-bit range |
| Buff.DigitsDetermineNumber | ui/src/buff.js:10-15 | four bytes in base 256 and the number they spell determine each other |
| Buff.LowByteIgnoresWholePages | ui/src/buff.js:10-15 | subtracting a multiple of 256 keeps the low byte |
| Buff.WrapKeepsBytes | ui/src/buff.js:10-15 | subtracting 2^32 keeps every one of the four bytes |
| Buff.ReadUInt32LERecoversBytes | ui/src/buff.js:10-15 | each of the four bytes comes back out of `readUInt32LE`'s result, negative results included |
| Buff.ReadUInt32LESign | ui/src/buff.js:10-15 | the result is negative exactly when the fourth byte has bit 7 set |
| Buff.MagicWordMeansMagicBytes | ui/src/buff.js:10-15 | the first word equals 0x1A53454E exactly when the buffer starts with 4E 45 53 1A |
| Buff.ReadInt8IsNotSigned | ui/src/buff.js:7-9 | a byte of 0x80 or more reads as itself, not as its signed value |
| Ines.Slice | nes.js:734-735 | `slice(start, end)` with bounds clamped to the buffer: no longer than the buffer or than end - start, and the plain subsequence when both bounds are inside it, the rest of the buffer from start when end passes its end, and empty when start is not below end or not inside the buffer |
| Ines.FromRomData | nes.js:1087-1095 | `Cartridge.fromRomData`: succeeds exactly when `inesparser` does, with its PRG and CHR, and otherwise fails with its error |
| Ines.InesParse | nes.js:704-738 | `inesparser(buffer)`; no contract of its own, its properties are those of the InesParse lemmas below |
| Ines.InesParseChecksMagic | nes.js:704-709 | `inesparser` throws exactly when the buffer does not start with 4E 45 53 1A |
| Ines.InesParseLayout | nes.js:704-738 | on a whole image, PRG is byte4 x 16 KB at offset 16, or 528 with a trainer, and CHR is byte5 x 8 KB right after it |
| Ines.InesParseTruncated | nes.js:704-738 | on a short buffer PRG is whatever part of its data is present, and CHR is empty unless PRG is complete |
| Ines.InesParseShortHeader | nes.js:704-738 | a header of fewer than 16 bytes yields two empty ROMs |
| Ines.InesParseImage | nes.js:704-738 | parsing an image built from a header, an optional trainer, PRG and CHR banks and any trailer gives back exactly those PRG and CHR banks |
| Cpu.CPU6502.constructor | nes.js:29-40 | the fields of a new CPU are `PowerOn` of its bus |
| Cpu.CPU6502.Push | nes.js:133-135 | `push` changes s and the one stack cell, as `Execution.Push` |
| Cpu.CPU6502.Pop | nes.js:136-138 | `pop` moves s up one and returns the byte `Execution.Pop` reads |
| Cpu.CPU6502.FlagS | nes.js:142-145 | S takes bit 7 of the value, other flags kept |
| Cpu.CPU6502.FlagV | nes.js:146-149 | V takes bit 6 of the value, other flags kept |
| Cpu.CPU6502.FlagB | nes.js:150-153 | B takes the truth value, other flags kept |
| Cpu.CPU6502.FlagD | nes.js:154-157 | D takes the truth value, other flags kept |
| Cpu.CPU6502.FlagI | nes.js:158-161 | I takes the truth value, other flags kept |
| Cpu.CPU6502.FlagZ | nes.js:162-165 | Z is set exactly when the value is 0, other flags kept |
| Cpu.CPU6502.FlagC | nes.js:166-169 | C takes the truth value, other flags kept |
| Cpu.CPU6502.Flag | nes.js:170-172 | `flag(f)` has no bit outside f and agrees with p on f |
| Cpu.CPU6502.Addr8 | nes.js:43-45 | `addr8(offset)` is the byte at pc plus the offset, and pc moves one byte |
| Cpu.CPU6502.Addr16 | nes.js:46-51 | `addr16(offset)` is the word at pc plus the offset on 16 bits, and pc moves two bytes |
| Cpu.CPU6502.Addr16Ind | nes.js:52-67 | `addr16ind` yields the JMP ($nnnn) target with the page-wrap quirk and the 2-cycle page-cross charge, as `IndirectTarget` |
| Cpu.CPU6502.OperandZeroPage | nes.js:43-74 | the zero-page modes as `Execution.Operand` |
| Cpu.CPU6502.OperandAbsolute | nes.js:46-77 | the absolute modes as `Execution.Operand` |
| Cpu.CPU6502.OperandIndirectX | nes.js:79-81 | IndirectX as `Execution.Operand` |
| Cpu.CPU6502.OperandIndirectY | nes.js:82-86 | IndirectY as `Execution.Operand` |
| Cpu.CPU6502.OperandRelative | nes.js:87-89 | Relative as `Execution.Operand` |
| Cpu.CPU6502.Operand | nes.js:42-93 | `operand(instr)` returns what `Execution.Operand` yields and leaves its machine, or throws its error and changes nothing |
| Cpu.CPU6502.InstructionCycles | nes.js:95-109 | `instructionCycles` leaves the state `Execution.InstructionCycles` gives |
| Cpu.CPU6502.Step | nes.js:111-124 | `step()` returns and leaves what `Execution.Step` gives |
| Cpu.CPU6502.Run | nes.js:116-123 | the part of `step()` after decoding, as `Execution.Run` |
| Cpu.CPU6502.Execute | nes.js:116-121 | the `_instr_` lookup and call, as `Execution.Execute` |
| Cpu.CPU6502.InstrNop | nes.js:176 | Changes nothing; the new state is `Execution.InstrNop` of the old one |
| Cpu.CPU6502.InstrClv | nes.js:177 | Clears V; the new state is `Execution.InstrClv` of the old one |
| Cpu.CPU6502.InstrClc | nes.js:178 | Clears C; the new state is `Execution.InstrClc` of the old one |
| Cpu.CPU6502.InstrCli | nes.js:179 | Clears I; the new state is `Execution.InstrCli` of the old one |
| Cpu.CPU6502.InstrCld | nes.js:180 | Clears D; the new state is `Execution.InstrCld` of the old one |
| Cpu.CPU6502.InstrSec | nes.js:182 | Sets C; the new state is `Execution.InstrSec` of the old one |
| Cpu.CPU6502.InstrSei | nes.js:183 | Sets I; the new state is `Execution.InstrSei` of the old one |
| Cpu.CPU6502.InstrSed | nes.js:184 | Sets D; the new state is `Execution.InstrSed` of the old one |
| Cpu.CPU6502.InstrAnd | nes.js:186-190 | A becomes A AND M, with Z and S from it; the new state is `Execution.InstrAnd` of the old one |
| Cpu.CPU6502.InstrOra | nes.js:191-195 | A becomes A OR M, with Z and S from it; the new state is `Execution.InstrOra` of the old one |
| Cpu.CPU6502.InstrEor | nes.js:196-200 | A becomes A XOR M, with Z and S from it; the new state is `Execution.InstrEor` of the old one |
| Cpu.CPU6502.AddWithCarry | nes.js:206-211 | The common tail of ADC and SBC; the new state is `Execution.AddWithCarry` of the old one |
| Cpu.CPU6502.InstrAdc | nes.js:202-212 | A + M + C with V from the sign test and C from the carry out; the new state is `Execution.InstrAdc` of the old one |
| Cpu.CPU6502.InstrSbc | nes.js:213-223 | A + ~M + C with V from the sign test and C when the sum is not negative; the new state is `Execution.InstrSbc` of the old one |
| Cpu.CPU6502.GetAddrOrAccum | nes.js:225-229 | returns `Execution.GetAddrOrAccum` of the current state, A in Accumulator mode and the cell otherwise, and changes nothing |
| Cpu.CPU6502.SetAddrOrAccum | nes.js:230-235 | Stores into A in Accumulator mode and into the cell otherwise; the new state is `Execution.SetAddrOrAccum` of the old one |
| Cpu.CPU6502.InstrLsr | nes.js:236-243 | Shifts A or the cell right, bit 0 to C; the new state is `Execution.InstrLsr` of the old one |
| Cpu.CPU6502.InstrAsl | nes.js:244-251 | Shifts A or the cell left modulo 256, bit 7 to C; the new state is `Execution.InstrAsl` of the old one |
| Cpu.CPU6502.InstrRol | nes.js:252-259 | Rotates A or the cell left through C; the new state is `Execution.InstrRol` of the old one |
| Cpu.CPU6502.InstrRor | nes.js:260-267 | Rotates A or the cell right through C; the new state is `Execution.InstrRor` of the old one |
| Cpu.CPU6502.InstrLda | nes.js:269-273 | Loads A, with Z and S from it; the new state is `Execution.InstrLda` of the old one |
| Cpu.CPU6502.InstrLdx | nes.js:274-278 | Loads X, with Z and S from it; the new state is `Execution.InstrLdx` of the old one |
| Cpu.CPU6502.InstrLdy | nes.js:279-283 | Loads Y, with Z and S from it; the new state is `Execution.InstrLdy` of the old one |
| Cpu.CPU6502.InstrDec | nes.js:285-290 | Decrements the cell modulo 256, with Z and S from it; the new state is `Execution.InstrDec` of the old one |
| Cpu.CPU6502.InstrDex | nes.js:291-295 | Decrements X, wrapping 0 to 0xFF; the new state is `Execution.InstrDex` of the old one |
| Cpu.CPU6502.InstrDey | nes.js:296-300 | Decrements Y, wrapping 0 to 0xFF; the new state is `Execution.InstrDey` of the old one |
| Cpu.CPU6502.InstrInc | nes.js:302-307 | Increments the cell modulo 256, with Z and S from it; the new state is `Execution.InstrInc` of the old one |
| Cpu.CPU6502.InstrInx | nes.js:308-312 | Increments X, wrapping 0xFF to 0; the new state is `Execution.InstrInx` of the old one |
| Cpu.CPU6502.InstrIny | nes.js:313-317 | Increments Y, wrapping 0xFF to 0; the new state is `Execution.InstrIny` of the old one |
| Cpu.CPU6502.InstrTax | nes.js:319-323 | Copies A into X; the new state is `Execution.InstrTax` of the old one |
| Cpu.CPU6502.InstrTay | nes.js:324-328 | Copies A into Y; the new state is `Execution.InstrTay` of the old one |
| Cpu.CPU6502.InstrTya | nes.js:329-333 | Copies Y into A; the new state is `Execution.InstrTya` of the old one |
| Cpu.CPU6502.InstrTxa | nes.js:334-338 | Copies X into A; the new state is `Execution.InstrTxa` of the old one |
| Cpu.CPU6502.InstrTsx | nes.js:339-343 | Copies s into X; the new state is `Execution.InstrTsx` of the old one |
| Cpu.CPU6502.InstrTxs | nes.js:344-346 | Copies X into s, leaving the flags alone; the new state is `Execution.InstrTxs` of the old one |
| Cpu.CPU6502.InstrSta | nes.js:348-350 | Stores A; the new state is `Execution.InstrSta` of the old one |
| Cpu.CPU6502.InstrStx | nes.js:351-353 | Stores X; the new state is `Execution.InstrStx` of the old one |
| Cpu.CPU6502.InstrSty | nes.js:354-356 | Stores Y; the new state is `Execution.InstrSty` of the old one |
| Cpu.CPU6502.InstrJmp | nes.js:358-360 | Sets pc; the new state is `Execution.InstrJmp` of the old one |
| Cpu.CPU6502.InstrJsr | nes.js:362-367 | Pushes pc - 1, high byte first, and jumps; the new state is `Execution.InstrJsr` of the old one |
| Cpu.CPU6502.InstrRts | nes.js:369-373 | Pops the return word and continues one past it; the new state is `Execution.InstrRts` of the old one |
| Cpu.CPU6502.InstrRti | nes.js:374-379 | PLP, then pops pc; the new state is `Execution.InstrRti` of the old one |
| Cpu.CPU6502.InstrPha | nes.js:381-383 | Pushes A; the new state is `Execution.InstrPha` of the old one |
| Cpu.CPU6502.InstrPhp | nes.js:384-386 | Pushes P with B and U set; the new state is `Execution.InstrPhp` of the old one |
| Cpu.CPU6502.InstrPla | nes.js:388-392 | Pulls A, with Z and S from it; the new state is `Execution.InstrPla` of the old one |
| Cpu.CPU6502.InstrPlp | nes.js:393-395 | Pulls P with U set and B clear; the new state is `Execution.InstrPlp` of the old one |
| Cpu.CPU6502.InstrBrk | nes.js:397-402 | Sets B and I and jumps through 0xFFFE, pushing nothing; the new state is `Execution.InstrBrk` of the old one |
| Cpu.CPU6502.Branch | nes.js:407-410 | Takes a branch: one cycle, two on a page change; the new state is `Execution.Branch` of the old one |
| Cpu.CPU6502.InstrBcs | nes.js:411-414 | Branches when C is set; the new state is `Execution.InstrBcs` of the old one |
| Cpu.CPU6502.InstrBcc | nes.js:415-418 | Branches when C is clear; the new state is `Execution.InstrBcc` of the old one |
| Cpu.CPU6502.InstrBeq | nes.js:419-422 | Branches when Z is set; the new state is `Execution.InstrBeq` of the old one |
| Cpu.CPU6502.InstrBne | nes.js:423-426 | Branches when Z is clear; the new state is `Execution.InstrBne` of the old one |
| Cpu.CPU6502.InstrBvs | nes.js:427-430 | Branches when V is set; the new state is `Execution.InstrBvs` of the old one |
| Cpu.CPU6502.InstrBvc | nes.js:431-434 | Branches when V is clear; the new state is `Execution.InstrBvc` of the old one |
| Cpu.CPU6502.InstrBmi | nes.js:435-438 | Branches when S is set; the new state is `Execution.InstrBmi` of the old one |
| Cpu.CPU6502.InstrBpl | nes.js:439-442 | Branches when S is clear; the new state is `Execution.InstrBpl` of the old one |
| Cpu.CPU6502.InstrBit | nes.js:444-449 | S and V from bits 7 and 6 of M, Z from M AND A; the new state is `Execution.InstrBit` of the old one |
| Cpu.CPU6502.Compare | nes.js:451-456 | C when the register is at least M, Z and S from the difference; the new state is `Execution.Compare` of the old one |
| Cpu.CPU6502.InstrCmp | nes.js:458-460 | Compares A; the new state is `Execution.InstrCmp` of the old one |
| Cpu.CPU6502.InstrCpx | nes.js:461-463 | Compares X; the new state is `Execution.InstrCpx` of the old one |
| Cpu.CPU6502.InstrCpy | nes.js:464-466 | Compares Y; the new state is `Execution.InstrCpy` of the old one |
| Cpu.CPU6502.InstrLax | nes.js:468-474 | Loads A and X; the new state is `Execution.InstrLax` of the old one |
| Cpu.CPU6502.InstrSax | nes.js:475-477 | Stores A AND X; the new state is `Execution.InstrSax` of the old one |
| Cpu.CPU6502.InstrDcp | nes.js:478-485 | Decrements the cell then compares A with it; the new state is `Execution.InstrDcp` of the old one |
| Cpu.CPU6502.InstrIsc | nes.js:486-489 | INC then SBC; the new state is `Execution.InstrIsc` of the old one |
| Cpu.CPU6502.InstrSlo | nes.js:490-493 | ASL then ORA; the new state is `Execution.InstrSlo` of the old one |
| Cpu.CPU6502.InstrRla | nes.js:494-497 | ROL then AND; the new state is `Execution.InstrRla` of the old one |
| Cpu.CPU6502.InstrSre | nes.js:498-501 | LSR then EOR; the new state is `Execution.InstrSre` of the old one |
| Cpu.CPU6502.InstrRra | nes.js:502-505 | ROR then ADC; the new state is `Execution.InstrRra` of the old one |

## Left out

- `run()` (nes.js:126-129) is an endless loop of `step()`. Only `step()` is modelled.
- The "No executor" error of `step()` cannot happen: `Execute` has a handler for every mnemonic, and every table entry uses one of them.
- The Implied operand is `undefined` in the source; here it is 0. No Implied handler reads it.
- Memory accesses outside the 64K bus are not modelled. A JavaScript `ArrayBus` returns `undefined` there, or grows on a write. `Execution.CanStep`, `CanPush`/`CanPop` and the `requires` of the bus methods keep every access inside memory.
- `ArrayBus` cells hold bytes here. The JavaScript array can hold any value.
- Execution.InstrTsx: requires `s` to be a byte, since X is one. The source copies whatever `s` holds.
- `MemoryBus.read`/`write` return the chosen callback rather than calling it. The callbacks belong to the PPU, the joypad and the work RAM, which are not part of this model.
- The CPU runs over an `ArrayBus` only, as in the tests and the nestest driver. The CPU over a `MemoryBus` is not modelled.
- `PPU2c02`, `Joypad`, the `NES` console wiring, the assembler and parser (`asm6502code`, `parse6502asm`), nestest, `dis.js` and the React UI are not part of this model. The cartridge mirroring mode is never returned by the source, so it is not here either.
- `Buff` models the browser `Uint8Array` shim, not Node's `Buffer`, whose `readInt8` sign-extends.
- Ines.Slice: modelled only for non-negative bounds, the only bounds `inesparser` passes. A NaN bound is modelled as the empty slice it produces.
- Cycle counts are unbounded integers. The source's doubles are exact to 2^53.
- Shifts.SloMeaning: requires a memory operand. No SLO or RRA entry of the table uses Accumulator mode.
- Shifts.RraMeaning: requires a memory operand, for the same reason.
