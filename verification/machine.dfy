/** The processor state of struct i4004 and the register-pair accessor shared by
    FIM, FIN, SRC and JIN. */
module Machine {
  import opened Types
  import CallStack

  /** An even register index naming the pair (p, p + 1). */
  type Pair = p: int | 0 <= p < 16 && p % 2 == 0

  /** Program store, data store, registers, call stack, program counter, data pointer,
      accumulator and carry. The data store and registers hold 4-bit values: every
      write in the source masks with 0xF (INC excepted, see Ops.Inc). */
  datatype State = State(
    rom: seq<Byte>,
    mem: seq<Nibble>,
    reg: seq<Nibble>,
    stack: CallStack.Stack,
    pc: Addr,
    dptr: Byte,
    acc: Nibble,
    cy: bool)

  /** The fixed sizes of every array in the struct. */
  predicate Valid(s: State) {
    && |s.rom| == ROM_SIZE
    && |s.mem| == RAM_SIZE
    && |s.reg| == REG_COUNT
    && CallStack.Valid(s.stack)
  }

  /** The 8-bit value of a register pair: the even register is the high nibble. */
  function PairValue(s: State, p: Pair): (v: Byte)
    requires Valid(s)
    ensures v / 16 == s.reg[p] && v % 16 == s.reg[p + 1]
  {
    (s.reg[p] as int) * 16 + s.reg[p + 1]
  }

  /** Split a byte into a register pair, high nibble first; nothing else changes. */
  function WritePair(s: State, p: Pair, b: Byte): (r: State)
    requires Valid(s)
    ensures Valid(r)
    ensures r.reg[p] == b / 16 && r.reg[p + 1] == b % 16
    ensures PairValue(r, p) == b
    ensures forall k :: 0 <= k < REG_COUNT && k != p && k != p + 1 ==> r.reg[k] == s.reg[k]
    ensures r == s.(reg := r.reg)
  {
    s.(reg := s.reg[p := b / 16][p + 1 := b % 16])
  }

  /** Writing back a pair's own value changes nothing. */
  lemma WritePairOwnValue(s: State, p: Pair)
    requires Valid(s)
    ensures WritePair(s, p, PairValue(s, p)) == s
  {
    assert WritePair(s, p, PairValue(s, p)).reg == s.reg;
  }

  /** The state at reset: every field zero and the program store loaded from an
      image of at most 4096 bytes, the rest of the store zero. */
  function Reset(image: seq<Byte>): (s: State)
    requires |image| <= ROM_SIZE
    ensures Valid(s)
    ensures forall k :: 0 <= k < |image| ==> s.rom[k] == image[k]
    ensures forall k :: |image| <= k < ROM_SIZE ==> s.rom[k] == 0
    ensures forall k :: 0 <= k < RAM_SIZE ==> s.mem[k] == 0
    ensures forall k :: 0 <= k < REG_COUNT ==> s.reg[k] == 0
    ensures CallStack.Live(s.stack) == []
    ensures s.pc == 0 && s.dptr == 0 && s.acc == 0 && !s.cy
  {
    State(image + seq(ROM_SIZE - |image|, _ => 0), seq(RAM_SIZE, _ => 0), seq(REG_COUNT, _ => 0),
          CallStack.Empty(), 0, 0, 0, false)
  }
}
