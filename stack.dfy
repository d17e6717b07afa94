/** The stack instructions against one another: `push` and `pop`
    (nes.js:133-138) undo each other, and so do PHA and PLA, PHP and PLP, and
    JSR and RTS (nes.js:362-395). */
module Stack {
  import opened Bytes
  import opened Execution

  /** `pop()` right after `push(v)` reads v back and returns `s` to where it
      was; the pushed byte stays in memory below the stack pointer. */
  lemma {:induction false} PopUndoesPush(m: Machine, v: Byte)
    requires CanPush(m.s, 1)
    ensures CanPop(Push(m, v).s, 1)
    ensures Pop(Push(m, v)) == Popped(m.(mem := m.mem[0x100 + m.s := v]), v)
  {
    var m1 := Push(m, v);
    assert m1 == m.(mem := m.mem[0x100 + m.s := v], s := m.s - 1);
    assert 0x101 + m1.s == 0x100 + m.s;
  }

  /** PHA then PLA gives A and `s` back. PLA sets Z and S from the byte it
      pulls, which is A itself; nothing else changes but the stack cell. */
  lemma {:induction false} PlaUndoesPha(m: Machine)
    requires CanPush(m.s, 1)
    ensures CanPop(InstrPha(m).s, 1)
    ensures InstrPla(InstrPha(m)) == m.(mem := m.mem[0x100 + m.s := m.a], p := FlagZS(m.p, m.a))
  {
    PopUndoesPush(m, m.a);
  }

  /** `p | 0x30` sets B and the unused bit and keeps the other six; PLP's
      `(v | Unused) & ~Break` then clears B again. */
  lemma StatusBits(p: bv8)
    ensures var q := p | 0x30;
      && q == p | Mask(Break) | Mask(Unused)
      && HasFlag(q, Break) && HasFlag(q, Unused)
      && q & !0x30 == p & !0x30
      && (q | Mask(Unused)) & !Mask(Break) == (p | Mask(Unused)) & !Mask(Break)
  {
  }

  /** PLP's mask sets the unused bit, clears B and keeps the other six. */
  lemma PulledStatusBits(v: bv8)
    ensures var q := (v | Mask(Unused)) & !Mask(Break);
      HasFlag(q, Unused) && !HasFlag(q, Break) && q & !0x30 == v & !0x30
  {
  }

  /** The byte PHP pushes is P with B and the unused bit set and the other
      six flags as they are. */
  lemma {:induction false} PhpPushesBreakAndUnused(m: Machine)
    requires CanPush(m.s, 1)
    ensures var pushed := InstrPhp(m).mem[0x100 + m.s] as bv8;
      && pushed == m.p | Mask(Break) | Mask(Unused)
      && HasFlag(pushed, Break) && HasFlag(pushed, Unused)
      && pushed & !0x30 == m.p & !0x30
    ensures InstrPhp(m) == m.(mem := InstrPhp(m).mem, s := m.s - 1)
  {
    var q := m.p | 0x30;
    VectorAsByte(q);
    var pushed := InstrPhp(m).mem[0x100 + m.s] as bv8;
    assert pushed == q;
    StatusBits(m.p);
  }

  /** PLP takes every flag from the pulled byte except two: the unused bit is
      forced on and B forced off. */
  lemma {:induction false} PlpForcesUnusedClearsBreak(m: Machine)
    requires CanPop(m.s, 1)
    ensures var r, pulled := InstrPlp(m), m.mem[0x101 + m.s] as bv8;
      && r == m.(s := m.s + 1, p := r.p)
      && HasFlag(r.p, Unused) && !HasFlag(r.p, Break)
      && r.p & !0x30 == pulled & !0x30
  {
    PulledStatusBits(m.mem[0x101 + m.s] as bv8);
  }

  /** PHP then PLP restores P, except that the unused bit ends up set and B
      clear, and restores `s`. */
  lemma {:induction false} PlpAfterPhp(m: Machine)
    requires CanPush(m.s, 1)
    ensures CanPop(InstrPhp(m).s, 1)
    ensures var r := InstrPlp(InstrPhp(m));
      && r.s == m.s
      && r.p == (m.p | Mask(Unused)) & !Mask(Break)
      && r == m.(mem := r.mem, p := r.p)
  {
    var q := m.p | 0x30;
    PopUndoesPush(m, q as int);
    VectorAsByte(q);
    StatusBits(m.p);
  }

  /** JSR pushes the address of its own last operand byte, `pc - 1`, high
      byte first, and RTS adds one to the word it pulls: together they come
      back to the instruction after the JSR with `s` restored. Only the two
      stack cells keep the return address. */
  lemma {:induction false} RtsUndoesJsr(m: Machine, target: int)
    requires CanPush(m.s, 2)
    requires 1 <= m.pc <= 0x10000
    ensures var j := InstrJsr(m, target);
      && j.pc == target && j.s == m.s - 2
      && j.mem == m.mem[0x100 + m.s := Hi8(m.pc - 1)][0xFF + m.s := Lo8(m.pc - 1)]
      && CanPop(j.s, 2)
      && InstrRts(j) == m.(mem := j.mem)
  {
    var ret := m.pc - 1;
    var j := InstrJsr(m, target);
    assert j == m.(mem := m.mem[0x100 + m.s := Hi8(ret)][0xFF + m.s := Lo8(ret)], s := m.s - 2, pc := target);
    var lo := Pop(j);
    assert lo.value == Lo8(ret);
    var hi := Pop(lo.m);
    assert hi.value == Hi8(ret);
    WordOfBytes(ret);
  }
}
