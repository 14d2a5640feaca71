/** Parts of i4004.c modelled exactly as written where that differs from the evident
    intent, each with the input that shows the difference. The rest of the model uses
    the corrected definitions (Ops.Inc, Ops.Dac, Processor.Step, Processor.OperandAddr,
    Decoder.Cost). */
module AsWritten {
  import opened Types
  import opened Machine
  import Ops
  import opened Decoder
  import opened Processor

  /** `inc` as written: `++reg[index]` on a byte-wide register, with no 4-bit mask. */
  function IncAsWritten(reg: seq<Byte>, i: Nibble): (r: seq<Byte>)
    requires |reg| == REG_COUNT
    ensures |r| == REG_COUNT
    ensures reg[i] < 255 ==> r[i] == reg[i] + 1
    ensures forall k :: 0 <= k < REG_COUNT && k != i ==> r[k] == reg[k]
  {
    reg[i := (reg[i] as int + 1) % 256]
  }

  /** A register holding 15 becomes 16, outside the 4-bit range; the corrected INC
      wraps it to 0. */
  lemma IncAsWrittenLeavesNibbleRange(s: State, i: Nibble)
    requires Valid(s) && s.reg[i] == 15
    ensures IncAsWritten(s.reg, i)[i] == 16
    ensures Ops.Inc(s, i).reg[i] == 0
  {
  }

  /** `dac` as written: the borrow test of the `uint8_t` result is stored in carry,
      but the result itself is never stored in the accumulator. */
  function DacAsWritten(s: State): (r: State)
    ensures r.acc == s.acc
    ensures r.cy <==> s.acc != 0
    ensures r == s.(cy := r.cy)
  {
    var result := (s.acc - 1) % 256;
    s.(cy := result < s.acc)
  }

  /** With 5 in the accumulator the source's DAC leaves 5 there; the corrected DAC
      leaves 4. Both agree on the carry. */
  lemma DacAsWrittenKeepsAcc(s: State)
    requires s.acc == 5
    ensures DacAsWritten(s).acc == 5
    ensures Ops.Dac(s).acc == 4
    ensures DacAsWritten(s).cy == Ops.Dac(s).cy
  {
  }

  /** The source's `skip`: the instruction length, except 0 for BBL. */
  function SkipAsWritten(i: Instr): (n: nat)
    ensures n <= 2
    ensures !i.Bbl? ==> n == Length(i)
    ensures i.Bbl? ==> n == 0
  {
    if i.Bbl? then 0 else Length(i)
  }

  /** The program counter after `cptr += skip` at the end of the loop body, applied
      even after JUN, JCN or ISZ already wrote it. */
  function NextPcAsWritten(s: State, i: Instr): (pc: Addr)
    requires Valid(s) && WellFormed(i) && !i.Illegal?
    requires Exec(s, i).Ok?
    ensures !i.Bbl? ==> pc == (Exec(s, i).value.pc + Length(i)) % ROM_SIZE
    ensures i.Bbl? ==> pc == Exec(s, i).value.pc
  {
    (Exec(s, i).value.pc + SkipAsWritten(i)) % ROM_SIZE
  }

  /** A JUN to 0x123 placed at address 0 continues, as written, at 0x125; the corrected
      step continues at 0x123. */
  lemma JunAsWrittenOvershoots(s: State)
    requires Valid(s) && s.pc == 0 && s.rom[0] == 0x41 && s.rom[1] == 0x23
    ensures Fetch(s) == Jun(0x123)
    ensures NextPcAsWritten(s, Fetch(s)) == 0x125
    ensures Step(s).Ok? && Step(s).value.state.pc == 0x123
  {
    StepJun(s);
  }

  /** The index `cptr + 1` the source reads an operand from. */
  function OperandIndexAsWritten(pc: Addr): (k: nat)
    ensures 0 < k <= ROM_SIZE
    ensures k == ROM_SIZE <==> pc == ROM_SIZE - 1
  {
    pc + 1
  }

  /** At the last program-store address the source's operand index is one past the
      4096-byte array; the corrected operand address wraps to 0. */
  lemma OperandIndexAsWrittenOutOfBounds(s: State)
    requires Valid(s) && s.pc == ROM_SIZE - 1
    ensures OperandIndexAsWritten(s.pc) == |s.rom|
    ensures OperandAddr(s.pc) == 0
  {
  }

  /** The `clocks` each case of the source's switch assigns; cases that assign
      nothing, and unhandled opcodes, leave the initial 0. */
  function ClocksAsWritten(op: Byte): (c: nat)
    ensures c == 0 || c == 8 || c == 16
  {
    var hi, lo := op / 16, op % 16;
    if hi == 0x1 then 0
    else if hi == 0x2 then (if lo % 2 == 0 then 16 else 8)
    else if hi == 0x3 then (if lo % 2 == 0 then 16 else 0)
    else if hi == 0x4 || hi == 0x5 || hi == 0x7 then 16
    else if hi == 0xE then 0
    else if hi == 0xF && lo >= 10 then 0
    else 8
  }

  /** The source's clock counts agree with the corrected costs on every handled opcode
      except the JCN and JIN forms, which the source charges 0 clock periods. */
  lemma ClocksAsWrittenAgreeExceptJcnJin(op: Byte, next: Byte)
    requires Handled(op)
    ensures var i := Decode(op, next);
      ClocksAsWritten(op) == (if i.Jcn? || i.Jin? then 0 else Cost(i))
    ensures var i := Decode(op, next);
      i.Jcn? ==> Cost(i) == 16
  {
  }
}
