/** Properties relating several instruction semantics: inverses, round trips and the
    arithmetic tables over the full nibble range. */
module OpsFacts {
  import opened Types
  import CallStack
  import opened Machine
  import opened Ops

  /** LDM v; XCH r; LD r leaves the low nibble of v in the accumulator and in register r. */
  lemma LdmXchLd(s: State, v: Byte, i: Nibble)
    requires Valid(s)
    ensures var t := Ld(Xch(Ldm(s, v), i), i); t.acc == v % 16 && t.reg[i] == v % 16
  {
  }

  /** XCH twice with the same register restores the state. */
  lemma XchTwice(s: State, i: Nibble)
    requires Valid(s)
    ensures Xch(Xch(s, i), i) == s
  {
    assert Xch(Xch(s, i), i).reg == s.reg;
  }

  /** FIM p, imm followed by SRC p points the data store at imm. */
  lemma FimThenSrc(s: State, p: Pair, imm: Byte)
    requires Valid(s)
    ensures Src(Fim(s, p, imm), p).dptr == imm
  {
  }

  /** FIN splits the addressed program-store byte exactly as FIM splits an immediate. */
  lemma FinSplitsLikeFim(s: State, p: Pair)
    requires Valid(s)
    ensures var b := s.rom[16 * (s.reg[0] as int) + s.reg[1]];
      && Fin(s, p).reg[p] == b / 16
      && Fin(s, p).reg[p + 1] == b % 16
  {
  }

  /** CMC and CMA are involutions. */
  lemma ComplementTwice(s: State)
    ensures Cmc(Cmc(s)) == s
    ensures Cma(Cma(s)) == s
  {
  }

  /** Two states agreeing outside carry and accumulator are equal when their 5-bit
      links agree. */
  lemma LinkDetermines(s: State, t: State)
    requires s == t.(acc := s.acc, cy := s.cy)
    requires Link(s) == Link(t)
    ensures s == t
  {
  }

  /** The five bits of a 5-bit word, most significant first. */
  lemma FiveBits(w: nat) returns (b4: nat, b3: nat, b2: nat, b1: nat, b0: nat)
    requires w < 32
    ensures b4 <= 1 && b3 <= 1 && b2 <= 1 && b1 <= 1 && b0 <= 1
    ensures w == 16 * b4 + 8 * b3 + 4 * b2 + 2 * b1 + b0
  {
    b4 := w / 16;
    var rest := w % 16;
    b3 := rest / 8;
    rest := rest % 8;
    b2 := rest / 4;
    rest := rest % 4;
    b1 := rest / 2;
    b0 := rest % 2;
  }

  /** One left rotation on the 5-bit word, written out bit by bit. */
  lemma RotL5Bits(b4: nat, b3: nat, b2: nat, b1: nat, b0: nat)
    requires b4 <= 1 && b3 <= 1 && b2 <= 1 && b1 <= 1 && b0 <= 1
    ensures RotL5(16 * b4 + 8 * b3 + 4 * b2 + 2 * b1 + b0) == 16 * b3 + 8 * b2 + 4 * b1 + 2 * b0 + b4
  {
  }

  /** One right rotation on the 5-bit word, written out bit by bit. */
  lemma RotR5Bits(b4: nat, b3: nat, b2: nat, b1: nat, b0: nat)
    requires b4 <= 1 && b3 <= 1 && b2 <= 1 && b1 <= 1 && b0 <= 1
    ensures RotR5(16 * b4 + 8 * b3 + 4 * b2 + 2 * b1 + b0) == 16 * b0 + 8 * b4 + 4 * b3 + 2 * b2 + b1
  {
  }

  /** The two reference rotations undo each other on 5-bit words. */
  lemma RotInverse(w: nat)
    requires w < 32
    ensures RotR5(RotL5(w)) == w
    ensures RotL5(RotR5(w)) == w
  {
    var b4, b3, b2, b1, b0 := FiveBits(w);
    RotL5Bits(b4, b3, b2, b1, b0);
    RotR5Bits(b3, b2, b1, b0, b4);
    RotR5Bits(b4, b3, b2, b1, b0);
    RotL5Bits(b0, b4, b3, b2, b1);
  }

  /** RAR undoes RAL. */
  lemma RarUndoesRal(s: State)
    ensures Rar(Ral(s)) == s
  {
    RotInverse(Link(s));
    LinkDetermines(Rar(Ral(s)), s);
  }

  /** RAL undoes RAR. */
  lemma RalUndoesRar(s: State)
    ensures Ral(Rar(s)) == s
  {
    RotInverse(Link(s));
    LinkDetermines(Ral(Rar(s)), s);
  }

  /** Five left rotations of the 5-bit word return it to its start. */
  lemma RotL5Five(w: nat)
    requires w < 32
    ensures RotL5(RotL5(RotL5(RotL5(RotL5(w))))) == w
  {
    var b4, b3, b2, b1, b0 := FiveBits(w);
    RotL5Bits(b4, b3, b2, b1, b0);
    RotL5Bits(b3, b2, b1, b0, b4);
    RotL5Bits(b2, b1, b0, b4, b3);
    RotL5Bits(b1, b0, b4, b3, b2);
    RotL5Bits(b0, b4, b3, b2, b1);
  }

  /** Five right rotations of the 5-bit word return it to its start. */
  lemma RotR5Five(w: nat)
    requires w < 32
    ensures RotR5(RotR5(RotR5(RotR5(RotR5(w))))) == w
  {
    var b4, b3, b2, b1, b0 := FiveBits(w);
    RotR5Bits(b4, b3, b2, b1, b0);
    RotR5Bits(b0, b4, b3, b2, b1);
    RotR5Bits(b1, b0, b4, b3, b2);
    RotR5Bits(b2, b1, b0, b4, b3);
    RotR5Bits(b3, b2, b1, b0, b4);
  }

  /** Five RALs in a row, or five RARs, are the identity. */
  lemma RalFive(s: State)
    ensures Ral(Ral(Ral(Ral(Ral(s))))) == s
    ensures Rar(Rar(Rar(Rar(Rar(s))))) == s
  {
    RotL5Five(Link(s));
    RotR5Five(Link(s));
    LinkDetermines(Ral(Ral(Ral(Ral(Ral(s))))), s);
    LinkDetermines(Rar(Rar(Rar(Rar(Rar(s))))), s);
  }

  /** ADD over every accumulator, register value and carry-in: the sum mod 16 and the
      carry out of bit 3; the register is not changed. */
  lemma AddTable(s: State, i: Nibble)
    requires Valid(s)
    ensures var n := s.acc + s.reg[i] + Bit(s.cy);
      && Add(s, i).acc == n % 16
      && (Add(s, i).cy <==> n > 15)
      && Add(s, i).reg == s.reg
  {
  }

  /** ADM follows the same table with the data-store cell as operand. */
  lemma AdmTable(s: State, address: Byte)
    requires Valid(s)
    ensures var n := s.acc + s.mem[address] + Bit(s.cy);
      && Adm(s, address).acc == n % 16
      && (Adm(s, address).cy <==> n > 15)
      && Adm(s, address).mem == s.mem
  {
  }

  /** IAC: carry out exactly when the accumulator was 15. */
  lemma IacTable(s: State)
    ensures Iac(s).acc == (s.acc + 1) % 16
    ensures Iac(s).cy <==> s.acc == 15
  {
  }

  /** With carry set (no pending borrow) SUB is plain subtraction mod 16. */
  lemma SubIsSubtraction(s: State, i: Nibble)
    requires Valid(s) && s.cy
    ensures Sub(s, i).acc == (s.acc - s.reg[i]) % 16
    ensures Sub(s, i).cy <==> s.acc >= s.reg[i]
  {
  }

  /** SUB with carry set, then ADD of the same register with carry clear, restores
      the accumulator. */
  lemma SubThenAdd(s: State, i: Nibble)
    requires Valid(s) && s.cy
    ensures Add(Clc(Sub(s, i)), i).acc == s.acc
  {
  }

  /** DAC undoes IAC and IAC undoes DAC on the accumulator. */
  lemma IacDacInverse(s: State)
    ensures Dac(Iac(s)).acc == s.acc
    ensures Iac(Dac(s)).acc == s.acc
  {
  }

  /** WRM followed by RDM leaves the accumulator (and all else) as WRM left it. */
  lemma WrmThenRdm(s: State)
    requires Valid(s)
    ensures Rdm(Wrm(s)) == Wrm(s)
  {
  }

  /** The four JCN variants jump exactly when carry is set, the accumulator is zero,
      carry is clear, the accumulator is non-zero, respectively. */
  lemma JcnVariants(s: State, addr: Word16)
    ensures Jcn(s, CarrySet, addr).pc == (if s.cy then addr % ROM_SIZE else s.pc)
    ensures Jcn(s, AccZero, addr).pc == (if s.acc == 0 then addr % ROM_SIZE else s.pc)
    ensures Jcn(s, CarryClear, addr).pc == (if !s.cy then addr % ROM_SIZE else s.pc)
    ensures Jcn(s, AccNonZero, addr).pc == (if s.acc != 0 then addr % ROM_SIZE else s.pc)
  {
  }

  /** ISZ jumps exactly when the register was 15. */
  lemma IszJumpsAtFifteen(s: State, i: Nibble, addr: Word16)
    requires Valid(s)
    ensures Isz(s, i, addr).pc == (if s.reg[i] == 15 then addr % ROM_SIZE else s.pc)
  {
  }

  /** JMS then BBL returns to the instruction after the JMS, loads the accumulator and
      restores the stack's contents. */
  lemma JmsThenBbl(s: State, addr: Word16, val: Byte)
    requires Valid(s) && s.stack.sptr < STACK_DEPTH
    ensures Jms(s, addr).Ok? && Bbl(Jms(s, addr).value, val).Ok?
    ensures var t := Bbl(Jms(s, addr).value, val).value;
      && t.pc == (s.pc + 2) % ROM_SIZE
      && t.acc == val % 16
      && CallStack.Live(t.stack) == CallStack.Live(s.stack)
  {
    var j := Jms(s, addr).value;
    var t := Bbl(j, val).value;
    assert CallStack.Live(j.stack) == CallStack.Live(t.stack) + [t.pc]
        == CallStack.Live(s.stack) + [(s.pc + 2) % ROM_SIZE];
  }
}
