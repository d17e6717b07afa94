/** Completeness of the pair lookup of the opcode table (nes.js:789-1034):
    every pair of mnemonic and addressing mode that `newinstr` registers is
    found by `getinstr`, which keeps the last registration of that pair. The
    proof visits the 256 opcode bytes four at a time. */
module PairLookup {
  import opened Wrappers
  import opened Bytes
  import opened Opcodes

  /** The five pairs `newinstr` registers more than once: SBC Immediate and
      NOP in four modes (nes.js:892-916 and 942-943). */
  predicate MultiplyRegistered(mn: Mnemonic, am: AddrMode)
  {
    || (mn == NOP && (am == Implied || am == ZeroPage || am == AbsoluteX || am == IndirectX))
    || (mn == SBC && am == Immediate)
  }

  /** For a pair registered more than once, the opcode registered last. */
  function LastOpcode(mn: Mnemonic, am: AddrMode): Byte
    requires MultiplyRegistered(mn, am)
  {
    if mn == SBC then 0xE9
    else match am
      case Implied => 0xEA
      case ZeroPage => 0x80
      case AbsoluteX => 0xFC
      case _ => 0xF4
  }

  /** For a pair registered more than once, the registration index of the
      opcode registered last. */
  function LastIndex(mn: Mnemonic, am: AddrMode): nat
    requires MultiplyRegistered(mn, am)
  {
    if mn == SBC then 145
    else match am
      case Implied => 102
      case ZeroPage => 106
      case AbsoluteX => 113
      case _ => 119
  }

  /** LastOpcode is the opcode PairOpcode names, and LastIndex its
      registration index. */
  lemma LastOpcodeIsPairOpcode(mn: Mnemonic, am: AddrMode)
    requires MultiplyRegistered(mn, am)
    ensures PairOpcode(mn, am) == Some(LastOpcode(mn, am))
    ensures RegistrationIndex(LastOpcode(mn, am)) == Some(LastIndex(mn, am))
  {
    if mn == SBC {
      assert RegistrationIndex(0xE9) == IndexRowE(9);
    } else {
      match am
      case Implied => assert RegistrationIndex(0xEA) == IndexRowE(10);
      case ZeroPage => assert RegistrationIndex(0x80) == IndexRow8(0);
      case AbsoluteX => assert RegistrationIndex(0xFC) == IndexRowF(12);
      case IndirectX => assert RegistrationIndex(0xF4) == IndexRowF(4);
    }
  }

  /** The pair of entry `r` is looked up as `r`'s own opcode, unless it is one
      of the pairs registered more than once. */
  predicate FoundUnlessRepeated(r: Option<Instruction>)
  {
    r.Some? ==>
      || PairOpcode(r.value.mnemonic, r.value.addressingMode) == Some(r.value.opcode)
      || r.value.mnemonic == NOP
      || (r.value.mnemonic == SBC && r.value.addressingMode == Immediate)
  }

  /** An entry `r` with registration index `index` whose pair is registered
      more than once is the last registration of the pair or comes before it. */
  predicate RepeatedComesFirst(r: Option<Instruction>, index: Option<nat>)
  {
    (&& r.Some?
     && (r.value.mnemonic == NOP || (r.value.mnemonic == SBC && r.value.addressingMode == Immediate)))
    ==>
      && MultiplyRegistered(r.value.mnemonic, r.value.addressingMode)
      && (|| r.value.opcode == LastOpcode(r.value.mnemonic, r.value.addressingMode)
          || (index.Some? && index.value < LastIndex(r.value.mnemonic, r.value.addressingMode)))
  }

  /** Every pair `newinstr` registers (nes.js:795-1034) is found by
      `getinstr`, and what it finds is that very opcode or one registered
      later with the same pair: the pair lookup keeps the last registration. */
  lemma RegisteredIsFound(opc: Byte)
    requires GetInOpc(opc).Some?
    ensures GetInstr(GetInOpc(opc).value.mnemonic, GetInOpc(opc).value.addressingMode).Some?
    ensures var f := GetInstr(GetInOpc(opc).value.mnemonic, GetInOpc(opc).value.addressingMode).value.opcode;
      f == opc || ShadowedBy(opc, f)
  {
    var e := GetInOpc(opc).value;
    EveryEntryFound(opc);
    PairOpcodeRegistered(e.mnemonic, e.addressingMode);
    if MultiplyRegistered(e.mnemonic, e.addressingMode) {
      LastOpcodeIsPairOpcode(e.mnemonic, e.addressingMode);
    }
  }

  /** `getinstr(mn, am)` finds an entry exactly when some opcode is
      registered with that pair. */
  lemma GetInstrFindsRegisteredPairs(mn: Mnemonic, am: AddrMode)
    ensures GetInstr(mn, am).Some? <==> exists opc: Byte :: PairOf(opc, mn, am)
  {
    if opc: Byte :| PairOf(opc, mn, am) {
      RegisteredIsFound(opc);
    }
    if GetInstr(mn, am).Some? {
      assert PairOf(GetInstr(mn, am).value.opcode, mn, am);
    }
  }

  /** Both predicates hold for every opcode byte and its `getinopc` entry. */
  lemma EveryEntryFound(opc: Byte)
    ensures FoundUnlessRepeated(GetInOpc(opc))
    ensures RepeatedComesFirst(GetInOpc(opc), RegistrationIndex(opc))
  {
    var lo := opc % 16;
    match opc / 16
    case 0 => FoundRow0(lo); RepeatedRow0(lo);
    case 1 => FoundRow1(lo); RepeatedRow1(lo);
    case 2 => FoundRow2(lo); RepeatedRow2(lo);
    case 3 => FoundRow3(lo); RepeatedRow3(lo);
    case 4 => FoundRow4(lo); RepeatedRow4(lo);
    case 5 => FoundRow5(lo); RepeatedRow5(lo);
    case 6 => FoundRow6(lo); RepeatedRow6(lo);
    case 7 => FoundRow7(lo); RepeatedRow7(lo);
    case 8 => FoundRow8(lo); RepeatedRow8(lo);
    case 9 => FoundRow9(lo); RepeatedRow9(lo);
    case 10 => FoundRowA(lo); RepeatedRowA(lo);
    case 11 => FoundRowB(lo); RepeatedRowB(lo);
    case 12 => FoundRowC(lo); RepeatedRowC(lo);
    case 13 => FoundRowD(lo); RepeatedRowD(lo);
    case 14 => FoundRowE(lo); RepeatedRowE(lo);
    case _ => FoundRowF(lo); RepeatedRowF(lo);
  }

  /* Row by row: RepeatedRowR covers the opcodes 0xR0 to 0xRF, FoundRowR
     splits them into four, and FoundRowRQ covers the four opcodes from 0xRQ
     on. */

  lemma RepeatedRow0(lo: int)
    requires 0 <= lo < 16
    ensures RepeatedComesFirst(Row0(lo), IndexRow0(lo))
  {
  }

  lemma FoundRow0(lo: int)
    requires 0 <= lo < 16
    ensures FoundUnlessRepeated(Row0(lo))
  {
    if lo < 4 { FoundRow00(lo); }
    else if lo < 8 { FoundRow04(lo); }
    else if lo < 12 { FoundRow08(lo); }
    else { FoundRow0C(lo); }
  }

  lemma FoundRow00(lo: int)
    requires 0 <= lo < 4
    ensures FoundUnlessRepeated(Row0(lo))
  {
  }

  lemma FoundRow04(lo: int)
    requires 4 <= lo < 8
    ensures FoundUnlessRepeated(Row0(lo))
  {
  }

  lemma FoundRow08(lo: int)
    requires 8 <= lo < 12
    ensures FoundUnlessRepeated(Row0(lo))
  {
  }

  lemma FoundRow0C(lo: int)
    requires 12 <= lo < 16
    ensures FoundUnlessRepeated(Row0(lo))
  {
  }

  lemma RepeatedRow1(lo: int)
    requires 0 <= lo < 16
    ensures RepeatedComesFirst(Row1(lo), IndexRow1(lo))
  {
  }

  lemma FoundRow1(lo: int)
    requires 0 <= lo < 16
    ensures FoundUnlessRepeated(Row1(lo))
  {
    if lo < 4 { FoundRow10(lo); }
    else if lo < 8 { FoundRow14(lo); }
    else if lo < 12 { FoundRow18(lo); }
    else { FoundRow1C(lo); }
  }

  lemma FoundRow10(lo: int)
    requires 0 <= lo < 4
    ensures FoundUnlessRepeated(Row1(lo))
  {
  }

  lemma FoundRow14(lo: int)
    requires 4 <= lo < 8
    ensures FoundUnlessRepeated(Row1(lo))
  {
  }

  lemma FoundRow18(lo: int)
    requires 8 <= lo < 12
    ensures FoundUnlessRepeated(Row1(lo))
  {
  }

  lemma FoundRow1C(lo: int)
    requires 12 <= lo < 16
    ensures FoundUnlessRepeated(Row1(lo))
  {
  }

  lemma RepeatedRow2(lo: int)
    requires 0 <= lo < 16
    ensures RepeatedComesFirst(Row2(lo), IndexRow2(lo))
  {
  }

  lemma FoundRow2(lo: int)
    requires 0 <= lo < 16
    ensures FoundUnlessRepeated(Row2(lo))
  {
    if lo < 4 { FoundRow20(lo); }
    else if lo < 8 { FoundRow24(lo); }
    else if lo < 12 { FoundRow28(lo); }
    else { FoundRow2C(lo); }
  }

  lemma FoundRow20(lo: int)
    requires 0 <= lo < 4
    ensures FoundUnlessRepeated(Row2(lo))
  {
  }

  lemma FoundRow24(lo: int)
    requires 4 <= lo < 8
    ensures FoundUnlessRepeated(Row2(lo))
  {
  }

  lemma FoundRow28(lo: int)
    requires 8 <= lo < 12
    ensures FoundUnlessRepeated(Row2(lo))
  {
  }

  lemma FoundRow2C(lo: int)
    requires 12 <= lo < 16
    ensures FoundUnlessRepeated(Row2(lo))
  {
  }

  lemma RepeatedRow3(lo: int)
    requires 0 <= lo < 16
    ensures RepeatedComesFirst(Row3(lo), IndexRow3(lo))
  {
  }

  lemma FoundRow3(lo: int)
    requires 0 <= lo < 16
    ensures FoundUnlessRepeated(Row3(lo))
  {
    if lo < 4 { FoundRow30(lo); }
    else if lo < 8 { FoundRow34(lo); }
    else if lo < 12 { FoundRow38(lo); }
    else { FoundRow3C(lo); }
  }

  lemma FoundRow30(lo: int)
    requires 0 <= lo < 4
    ensures FoundUnlessRepeated(Row3(lo))
  {
  }

  lemma FoundRow34(lo: int)
    requires 4 <= lo < 8
    ensures FoundUnlessRepeated(Row3(lo))
  {
  }

  lemma FoundRow38(lo: int)
    requires 8 <= lo < 12
    ensures FoundUnlessRepeated(Row3(lo))
  {
  }

  lemma FoundRow3C(lo: int)
    requires 12 <= lo < 16
    ensures FoundUnlessRepeated(Row3(lo))
  {
  }

  lemma RepeatedRow4(lo: int)
    requires 0 <= lo < 16
    ensures RepeatedComesFirst(Row4(lo), IndexRow4(lo))
  {
  }

  lemma FoundRow4(lo: int)
    requires 0 <= lo < 16
    ensures FoundUnlessRepeated(Row4(lo))
  {
    if lo < 4 { FoundRow40(lo); }
    else if lo < 8 { FoundRow44(lo); }
    else if lo < 12 { FoundRow48(lo); }
    else { FoundRow4C(lo); }
  }

  lemma FoundRow40(lo: int)
    requires 0 <= lo < 4
    ensures FoundUnlessRepeated(Row4(lo))
  {
  }

  lemma FoundRow44(lo: int)
    requires 4 <= lo < 8
    ensures FoundUnlessRepeated(Row4(lo))
  {
  }

  lemma FoundRow48(lo: int)
    requires 8 <= lo < 12
    ensures FoundUnlessRepeated(Row4(lo))
  {
  }

  lemma FoundRow4C(lo: int)
    requires 12 <= lo < 16
    ensures FoundUnlessRepeated(Row4(lo))
  {
  }

  lemma RepeatedRow5(lo: int)
    requires 0 <= lo < 16
    ensures RepeatedComesFirst(Row5(lo), IndexRow5(lo))
  {
  }

  lemma FoundRow5(lo: int)
    requires 0 <= lo < 16
    ensures FoundUnlessRepeated(Row5(lo))
  {
    if lo < 4 { FoundRow50(lo); }
    else if lo < 8 { FoundRow54(lo); }
    else if lo < 12 { FoundRow58(lo); }
    else { FoundRow5C(lo); }
  }

  lemma FoundRow50(lo: int)
    requires 0 <= lo < 4
    ensures FoundUnlessRepeated(Row5(lo))
  {
  }

  lemma FoundRow54(lo: int)
    requires 4 <= lo < 8
    ensures FoundUnlessRepeated(Row5(lo))
  {
  }

  lemma FoundRow58(lo: int)
    requires 8 <= lo < 12
    ensures FoundUnlessRepeated(Row5(lo))
  {
  }

  lemma FoundRow5C(lo: int)
    requires 12 <= lo < 16
    ensures FoundUnlessRepeated(Row5(lo))
  {
  }

  lemma RepeatedRow6(lo: int)
    requires 0 <= lo < 16
    ensures RepeatedComesFirst(Row6(lo), IndexRow6(lo))
  {
  }

  lemma FoundRow6(lo: int)
    requires 0 <= lo < 16
    ensures FoundUnlessRepeated(Row6(lo))
  {
    if lo < 4 { FoundRow60(lo); }
    else if lo < 8 { FoundRow64(lo); }
    else if lo < 12 { FoundRow68(lo); }
    else { FoundRow6C(lo); }
  }

  lemma FoundRow60(lo: int)
    requires 0 <= lo < 4
    ensures FoundUnlessRepeated(Row6(lo))
  {
  }

  lemma FoundRow64(lo: int)
    requires 4 <= lo < 8
    ensures FoundUnlessRepeated(Row6(lo))
  {
  }

  lemma FoundRow68(lo: int)
    requires 8 <= lo < 12
    ensures FoundUnlessRepeated(Row6(lo))
  {
  }

  lemma FoundRow6C(lo: int)
    requires 12 <= lo < 16
    ensures FoundUnlessRepeated(Row6(lo))
  {
  }

  lemma RepeatedRow7(lo: int)
    requires 0 <= lo < 16
    ensures RepeatedComesFirst(Row7(lo), IndexRow7(lo))
  {
  }

  lemma FoundRow7(lo: int)
    requires 0 <= lo < 16
    ensures FoundUnlessRepeated(Row7(lo))
  {
    if lo < 4 { FoundRow70(lo); }
    else if lo < 8 { FoundRow74(lo); }
    else if lo < 12 { FoundRow78(lo); }
    else { FoundRow7C(lo); }
  }

  lemma FoundRow70(lo: int)
    requires 0 <= lo < 4
    ensures FoundUnlessRepeated(Row7(lo))
  {
  }

  lemma FoundRow74(lo: int)
    requires 4 <= lo < 8
    ensures FoundUnlessRepeated(Row7(lo))
  {
  }

  lemma FoundRow78(lo: int)
    requires 8 <= lo < 12
    ensures FoundUnlessRepeated(Row7(lo))
  {
  }

  lemma FoundRow7C(lo: int)
    requires 12 <= lo < 16
    ensures FoundUnlessRepeated(Row7(lo))
  {
  }

  lemma RepeatedRow8(lo: int)
    requires 0 <= lo < 16
    ensures RepeatedComesFirst(Row8(lo), IndexRow8(lo))
  {
  }

  lemma FoundRow8(lo: int)
    requires 0 <= lo < 16
    ensures FoundUnlessRepeated(Row8(lo))
  {
    if lo < 4 { FoundRow80(lo); }
    else if lo < 8 { FoundRow84(lo); }
    else if lo < 12 { FoundRow88(lo); }
    else { FoundRow8C(lo); }
  }

  lemma FoundRow80(lo: int)
    requires 0 <= lo < 4
    ensures FoundUnlessRepeated(Row8(lo))
  {
  }

  lemma FoundRow84(lo: int)
    requires 4 <= lo < 8
    ensures FoundUnlessRepeated(Row8(lo))
  {
  }

  lemma FoundRow88(lo: int)
    requires 8 <= lo < 12
    ensures FoundUnlessRepeated(Row8(lo))
  {
  }

  lemma FoundRow8C(lo: int)
    requires 12 <= lo < 16
    ensures FoundUnlessRepeated(Row8(lo))
  {
  }

  lemma RepeatedRow9(lo: int)
    requires 0 <= lo < 16
    ensures RepeatedComesFirst(Row9(lo), IndexRow9(lo))
  {
  }

  lemma FoundRow9(lo: int)
    requires 0 <= lo < 16
    ensures FoundUnlessRepeated(Row9(lo))
  {
    if lo < 4 { FoundRow90(lo); }
    else if lo < 8 { FoundRow94(lo); }
    else if lo < 12 { FoundRow98(lo); }
    else { FoundRow9C(lo); }
  }

  lemma FoundRow90(lo: int)
    requires 0 <= lo < 4
    ensures FoundUnlessRepeated(Row9(lo))
  {
  }

  lemma FoundRow94(lo: int)
    requires 4 <= lo < 8
    ensures FoundUnlessRepeated(Row9(lo))
  {
  }

  lemma FoundRow98(lo: int)
    requires 8 <= lo < 12
    ensures FoundUnlessRepeated(Row9(lo))
  {
  }

  lemma FoundRow9C(lo: int)
    requires 12 <= lo < 16
    ensures FoundUnlessRepeated(Row9(lo))
  {
  }

  lemma RepeatedRowA(lo: int)
    requires 0 <= lo < 16
    ensures RepeatedComesFirst(RowA(lo), IndexRowA(lo))
  {
  }

  lemma FoundRowA(lo: int)
    requires 0 <= lo < 16
    ensures FoundUnlessRepeated(RowA(lo))
  {
    if lo < 4 { FoundRowA0(lo); }
    else if lo < 8 { FoundRowA4(lo); }
    else if lo < 12 { FoundRowA8(lo); }
    else { FoundRowAC(lo); }
  }

  lemma FoundRowA0(lo: int)
    requires 0 <= lo < 4
    ensures FoundUnlessRepeated(RowA(lo))
  {
  }

  lemma FoundRowA4(lo: int)
    requires 4 <= lo < 8
    ensures FoundUnlessRepeated(RowA(lo))
  {
  }

  lemma FoundRowA8(lo: int)
    requires 8 <= lo < 12
    ensures FoundUnlessRepeated(RowA(lo))
  {
  }

  lemma FoundRowAC(lo: int)
    requires 12 <= lo < 16
    ensures FoundUnlessRepeated(RowA(lo))
  {
  }

  lemma RepeatedRowB(lo: int)
    requires 0 <= lo < 16
    ensures RepeatedComesFirst(RowB(lo), IndexRowB(lo))
  {
  }

  lemma FoundRowB(lo: int)
    requires 0 <= lo < 16
    ensures FoundUnlessRepeated(RowB(lo))
  {
    if lo < 4 { FoundRowB0(lo); }
    else if lo < 8 { FoundRowB4(lo); }
    else if lo < 12 { FoundRowB8(lo); }
    else { FoundRowBC(lo); }
  }

  lemma FoundRowB0(lo: int)
    requires 0 <= lo < 4
    ensures FoundUnlessRepeated(RowB(lo))
  {
  }

  lemma FoundRowB4(lo: int)
    requires 4 <= lo < 8
    ensures FoundUnlessRepeated(RowB(lo))
  {
  }

  lemma FoundRowB8(lo: int)
    requires 8 <= lo < 12
    ensures FoundUnlessRepeated(RowB(lo))
  {
  }

  lemma FoundRowBC(lo: int)
    requires 12 <= lo < 16
    ensures FoundUnlessRepeated(RowB(lo))
  {
  }

  lemma RepeatedRowC(lo: int)
    requires 0 <= lo < 16
    ensures RepeatedComesFirst(RowC(lo), IndexRowC(lo))
  {
  }

  lemma FoundRowC(lo: int)
    requires 0 <= lo < 16
    ensures FoundUnlessRepeated(RowC(lo))
  {
    if lo < 4 { FoundRowC0(lo); }
    else if lo < 8 { FoundRowC4(lo); }
    else if lo < 12 { FoundRowC8(lo); }
    else { FoundRowCC(lo); }
  }

  lemma FoundRowC0(lo: int)
    requires 0 <= lo < 4
    ensures FoundUnlessRepeated(RowC(lo))
  {
  }

  lemma FoundRowC4(lo: int)
    requires 4 <= lo < 8
    ensures FoundUnlessRepeated(RowC(lo))
  {
  }

  lemma FoundRowC8(lo: int)
    requires 8 <= lo < 12
    ensures FoundUnlessRepeated(RowC(lo))
  {
  }

  lemma FoundRowCC(lo: int)
    requires 12 <= lo < 16
    ensures FoundUnlessRepeated(RowC(lo))
  {
  }

  lemma RepeatedRowD(lo: int)
    requires 0 <= lo < 16
    ensures RepeatedComesFirst(RowD(lo), IndexRowD(lo))
  {
  }

  lemma FoundRowD(lo: int)
    requires 0 <= lo < 16
    ensures FoundUnlessRepeated(RowD(lo))
  {
    if lo < 4 { FoundRowD0(lo); }
    else if lo < 8 { FoundRowD4(lo); }
    else if lo < 12 { FoundRowD8(lo); }
    else { FoundRowDC(lo); }
  }

  lemma FoundRowD0(lo: int)
    requires 0 <= lo < 4
    ensures FoundUnlessRepeated(RowD(lo))
  {
  }

  lemma FoundRowD4(lo: int)
    requires 4 <= lo < 8
    ensures FoundUnlessRepeated(RowD(lo))
  {
  }

  lemma FoundRowD8(lo: int)
    requires 8 <= lo < 12
    ensures FoundUnlessRepeated(RowD(lo))
  {
  }

  lemma FoundRowDC(lo: int)
    requires 12 <= lo < 16
    ensures FoundUnlessRepeated(RowD(lo))
  {
  }

  lemma RepeatedRowE(lo: int)
    requires 0 <= lo < 16
    ensures RepeatedComesFirst(RowE(lo), IndexRowE(lo))
  {
  }

  lemma FoundRowE(lo: int)
    requires 0 <= lo < 16
    ensures FoundUnlessRepeated(RowE(lo))
  {
    if lo < 4 { FoundRowE0(lo); }
    else if lo < 8 { FoundRowE4(lo); }
    else if lo < 12 { FoundRowE8(lo); }
    else { FoundRowEC(lo); }
  }

  lemma FoundRowE0(lo: int)
    requires 0 <= lo < 4
    ensures FoundUnlessRepeated(RowE(lo))
  {
  }

  lemma FoundRowE4(lo: int)
    requires 4 <= lo < 8
    ensures FoundUnlessRepeated(RowE(lo))
  {
  }

  lemma FoundRowE8(lo: int)
    requires 8 <= lo < 12
    ensures FoundUnlessRepeated(RowE(lo))
  {
  }

  lemma FoundRowEC(lo: int)
    requires 12 <= lo < 16
    ensures FoundUnlessRepeated(RowE(lo))
  {
  }

  lemma RepeatedRowF(lo: int)
    requires 0 <= lo < 16
    ensures RepeatedComesFirst(RowF(lo), IndexRowF(lo))
  {
  }

  lemma FoundRowF(lo: int)
    requires 0 <= lo < 16
    ensures FoundUnlessRepeated(RowF(lo))
  {
    if lo < 4 { FoundRowF0(lo); }
    else if lo < 8 { FoundRowF4(lo); }
    else if lo < 12 { FoundRowF8(lo); }
    else { FoundRowFC(lo); }
  }

  lemma FoundRowF0(lo: int)
    requires 0 <= lo < 4
    ensures FoundUnlessRepeated(RowF(lo))
  {
  }

  lemma FoundRowF4(lo: int)
    requires 4 <= lo < 8
    ensures FoundUnlessRepeated(RowF(lo))
  {
  }

  lemma FoundRowF8(lo: int)
    requires 8 <= lo < 12
    ensures FoundUnlessRepeated(RowF(lo))
  {
  }

  lemma FoundRowFC(lo: int)
    requires 12 <= lo < 16
    ensures FoundUnlessRepeated(RowF(lo))
  {
  }
}
