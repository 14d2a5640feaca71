/** The opcode classification of `execute` (i4004.c), separated from execution: the
    opcode byte and the byte after it decode to one tagged instruction. */
module Decoder {
  import opened Types
  import opened Machine

  /** One decoded instruction with its operands. `Nop` keeps the low nibble because the
      source accepts all of 0x00..0x0F as no-ops; `Jcn` keeps its condition nibble
      because 0x10 and 0x12 both test carry. `Illegal` carries an opcode the source's
      dispatch does not handle. */
  datatype Instr =
    | Nop(low: Nibble)
    | Jcn(cond: Nibble, target: Byte)
    | Fim(p: Pair, imm: Byte)
    | Src(p: Pair)
    | Fin(p: Pair)
    | Jin(p: Pair)
    | Jun(addr: Addr)
    | Jms(addr: Addr)
    | Inc(r: Nibble)
    | Isz(r: Nibble, target: Byte)
    | Add(r: Nibble)
    | Sub(r: Nibble)
    | Ld(r: Nibble)
    | Xch(r: Nibble)
    | Bbl(v: Nibble)
    | Ldm(v: Nibble)
    | Clb | Clc | Iac | Cmc | Cma | Ral | Rar | Tcc | Dac | Stc
    | Illegal(op: Byte)

  /** The condition nibbles of the JCN opcodes the source handles. */
  predicate JcnCode(c: int) {
    c == 0x0 || c == 0x2 || c == 0x4 || c == 0xA || c == 0xC
  }

  /** Opcodes the source's switch handles; every other byte falls through it. */
  predicate Handled(op: Byte) {
    !(&& 0x10 <= op < 0x20 && !JcnCode(op - 0x10))
    && !(0xE0 <= op < 0xF0)
    && op < 0xFA
  }

  /** Opcodes whose handler consumes the following byte. */
  predicate TwoByte(op: Byte) {
    || (0x10 <= op < 0x20 && JcnCode(op - 0x10))
    || (0x20 <= op < 0x30 && op % 2 == 0)
    || (0x40 <= op < 0x60)
    || (0x70 <= op < 0x80)
  }

  /** Instructions the decoder can produce. */
  predicate WellFormed(i: Instr) {
    match i
    case Jcn(c, _) => JcnCode(c)
    case Illegal(op) => !Handled(op)
    case _ => true
  }

  /** Instruction length in bytes, as the source's `skip`. */
  function Length(i: Instr): (n: nat)
    ensures n == 1 || n == 2
  {
    match i
    case Jcn(_, _) | Fim(_, _) | Jun(_) | Jms(_) | Isz(_, _) => 2
    case _ => 1
  }

  /** Clock periods an instruction takes: 8 per machine cycle. FIN is the one-byte
      instruction that takes two cycles (the source charges it 16). */
  function Cost(i: Instr): (c: nat)
    ensures c == (if i.Fin? then 16 else 8 * Length(i))
  {
    match i
    case Jcn(_, _) | Fim(_, _) | Fin(_) | Jun(_) | Jms(_) | Isz(_, _) => 16
    case _ => 8
  }

  /** The one-byte operations of the 0xF0 family, in opcode order. */
  function Accumulator(lo: Nibble): (i: Instr)
    requires lo < 10
  {
    if lo == 0 then Clb
    else if lo == 1 then Clc
    else if lo == 2 then Iac
    else if lo == 3 then Cmc
    else if lo == 4 then Cma
    else if lo == 5 then Ral
    else if lo == 6 then Rar
    else if lo == 7 then Tcc
    else if lo == 8 then Dac
    else Stc
  }

  /** Classify the opcode by its high nibble, and by the parity of the low nibble in
      the 0x2X and 0x3X families; `next` is the operand of two-byte forms. */
  function Decode(op: Byte, next: Byte): (i: Instr)
    ensures WellFormed(i)
    ensures i.Illegal? <==> !Handled(op)
    ensures i.Illegal? ==> i.op == op
    ensures !i.Illegal? ==> (Length(i) == 2 <==> TwoByte(op))
  {
    var hi, lo := op / 16, op % 16;
    if hi == 0x0 then Nop(lo)
    else if hi == 0x1 then (if JcnCode(lo) then Jcn(lo, next) else Illegal(op))
    else if hi == 0x2 then (if lo % 2 == 0 then Fim(lo, next) else Src(lo - 1))
    else if hi == 0x3 then (if lo % 2 == 0 then Fin(lo) else Jin(lo - 1))
    else if hi == 0x4 then Jun(lo * 256 + next)
    else if hi == 0x5 then Jms(lo * 256 + next)
    else if hi == 0x6 then Inc(lo)
    else if hi == 0x7 then Isz(lo, next)
    else if hi == 0x8 then Add(lo)
    else if hi == 0x9 then Sub(lo)
    else if hi == 0xA then Ld(lo)
    else if hi == 0xB then Xch(lo)
    else if hi == 0xC then Bbl(lo)
    else if hi == 0xD then Ldm(lo)
    else if hi == 0xE then Illegal(op)
    else if lo < 10 then Accumulator(lo)
    else Illegal(op)
  }

  /** The bytes an instruction is written as: the opcode, then the operand of a
      two-byte form. */
  function Encode(i: Instr): (bytes: seq<Byte>)
    requires WellFormed(i)
    ensures |bytes| == Length(i)
  {
    match i
    case Nop(lo) => [lo]
    case Jcn(c, t) => [0x10 + c, t]
    case Fim(p, imm) => [0x20 + p, imm]
    case Src(p) => [0x21 + p]
    case Fin(p) => [0x30 + p]
    case Jin(p) => [0x31 + p]
    case Jun(a) => [0x40 + a / 256, a % 256]
    case Jms(a) => [0x50 + a / 256, a % 256]
    case Inc(r) => [0x60 + r]
    case Isz(r, t) => [0x70 + r, t]
    case Add(r) => [0x80 + r]
    case Sub(r) => [0x90 + r]
    case Ld(r) => [0xA0 + r]
    case Xch(r) => [0xB0 + r]
    case Bbl(v) => [0xC0 + v]
    case Ldm(v) => [0xD0 + v]
    case Clb => [0xF0]
    case Clc => [0xF1]
    case Iac => [0xF2]
    case Cmc => [0xF3]
    case Cma => [0xF4]
    case Ral => [0xF5]
    case Rar => [0xF6]
    case Tcc => [0xF7]
    case Dac => [0xF8]
    case Stc => [0xF9]
    case Illegal(op) => [op]
  }

  /** Decoding the encoding of any instruction gives it back; a one-byte form decodes
      the same whatever byte follows it. */
  lemma DecodeEncode(i: Instr, next: Byte)
    requires WellFormed(i)
    ensures var bytes := Encode(i);
      Decode(bytes[0], if |bytes| == 2 then bytes[1] else next) == i
  {
  }

  /** Every handled opcode is the encoding of what it decodes to (so distinct opcodes
      decode to distinct instructions), and a two-byte form takes its operand from
      the byte after the opcode. */
  lemma EncodeDecode(op: Byte, next: Byte)
    requires Handled(op)
    ensures var bytes := Encode(Decode(op, next));
      && bytes[0] == op
      && (|bytes| == 2 ==> bytes[1] == next)
  {
  }

  /** Two opcodes that decode to the same instruction are the same opcode. */
  lemma DecodeInjective(op1: Byte, op2: Byte, next1: Byte, next2: Byte)
    requires Handled(op1) && Handled(op2)
    requires Decode(op1, next1) == Decode(op2, next2)
    ensures op1 == op2
  {
    EncodeDecode(op1, next1);
    EncodeDecode(op2, next2);
  }

  /** The opcodes the source leaves unhandled, listed explicitly. */
  lemma IllegalOpcodes(op: Byte, next: Byte)
    ensures Decode(op, next).Illegal? <==>
      || op in {0x11, 0x13, 0x15, 0x16, 0x17, 0x18, 0x19, 0x1B, 0x1D, 0x1E, 0x1F}
      || 0xE0 <= op <= 0xEF
      || 0xFA <= op <= 0xFF
  {
  }
}
