/** The instruction semantics of i4004.c: one pure transition per operation. The
    source's `assert`s on register indices become the types `Nibble` and `Pair`
    (an index outside 0..15, or an odd pair index, cannot be passed). Only JUN, JCN,
    ISZ, JMS, BBL and JIN write the program counter; advancing it past the
    instruction is the step's job (module Processor). */
module Ops {
  import opened Types
  import CallStack
  import opened Machine

  // ---------------------------------------------------------------- load / move

  /** LDM: the accumulator takes the low nibble of the immediate. */
  function Ldm(s: State, imm: Byte): (r: State)
    ensures r.acc == imm % 16
    ensures r == s.(acc := r.acc)
  {
    s.(acc := imm % 16)
  }

  /** XCH: swap the accumulator with a register. */
  function Xch(s: State, i: Nibble): (r: State)
    requires Valid(s)
    ensures Valid(r)
    ensures r.acc == s.reg[i] && r.reg[i] == s.acc
    ensures forall k :: 0 <= k < REG_COUNT && k != i ==> r.reg[k] == s.reg[k]
    ensures r == s.(acc := r.acc, reg := r.reg)
  {
    var t := s.reg[i];
    s.(reg := s.reg[i := s.acc], acc := t)
  }

  /** LD: copy a register into the accumulator; no register changes. */
  function Ld(s: State, i: Nibble): (r: State)
    requires Valid(s)
    ensures r.acc == s.reg[i]
    ensures r.reg == s.reg
    ensures r == s.(acc := r.acc)
  {
    s.(acc := s.reg[i])
  }

  /** FIM: load an 8-bit immediate into a register pair. */
  function Fim(s: State, p: Pair, imm: Byte): (r: State)
    requires Valid(s)
    ensures Valid(r)
    ensures PairValue(r, p) == imm
    ensures forall k :: 0 <= k < REG_COUNT && k != p && k != p + 1 ==> r.reg[k] == s.reg[k]
    ensures r == s.(reg := r.reg)
  {
    WritePair(s, p, imm)
  }

  /** FIN: load into a register pair the program-store byte addressed by pair 0.
      The address is the 8-bit value of pair 0, so only the first page is reachable. */
  function Fin(s: State, p: Pair): (r: State)
    requires Valid(s)
    ensures Valid(r)
    ensures PairValue(r, p) == s.rom[PairValue(s, 0)]
    ensures forall k :: 0 <= k < REG_COUNT && k != p && k != p + 1 ==> r.reg[k] == s.reg[k]
    ensures r == s.(reg := r.reg)
  {
    WritePair(s, p, s.rom[PairValue(s, 0)])
  }

  // ---------------------------------------------------------------- flags and logic

  /** CLC: clear carry. */
  function Clc(s: State): (r: State)
    ensures !r.cy && r == s.(cy := false)
  {
    s.(cy := false)
  }

  /** STC: set carry. */
  function Stc(s: State): (r: State)
    ensures r.cy && r == s.(cy := true)
  {
    s.(cy := true)
  }

  /** CLB: clear both carry and accumulator. */
  function Clb(s: State): (r: State)
    ensures !r.cy && r.acc == 0
    ensures r == s.(cy := false, acc := 0)
  {
    s.(cy := false, acc := 0)
  }

  /** CMC: toggle carry. */
  function Cmc(s: State): (r: State)
    ensures r.cy != s.cy
    ensures r == s.(cy := r.cy)
  {
    s.(cy := !s.cy)
  }

  /** CMA: one's complement of the accumulator (`acc ^= 0xF`). */
  function Cma(s: State): (r: State)
    ensures r.acc + s.acc == 15
    ensures r == s.(acc := r.acc)
  {
    s.(acc := 15 - s.acc)
  }

  /** TCC: transfer carry into the accumulator, then clear carry. */
  function Tcc(s: State): (r: State)
    ensures r.acc <= 1 && (r.acc == 1 <==> s.cy)
    ensures !r.cy
    ensures r == s.(acc := r.acc, cy := false)
  {
    s.(acc := Bit(s.cy), cy := false)
  }

  /** The 5-bit word formed by carry (bit 4) above the accumulator. */
  function Link(s: State): nat {
    16 * Bit(s.cy) + s.acc
  }

  /** Reference rotation of a 5-bit word one place left. */
  function RotL5(w: nat): nat {
    (2 * w) % 32 + (w / 16) % 2
  }

  /** Reference rotation of a 5-bit word one place right. */
  function RotR5(w: nat): nat {
    (w % 32) / 2 + 16 * (w % 2)
  }

  /** RAL: rotate {carry, accumulator} left; the old carry enters bit 0. */
  function Ral(s: State): (r: State)
    ensures Link(r) == RotL5(Link(s))
    ensures r == s.(acc := r.acc, cy := r.cy)
  {
    var result := 2 * s.acc + Bit(s.cy);
    s.(cy := result >= 16, acc := result % 16)
  }

  /** RAR: rotate {carry, accumulator} right; the old carry enters bit 3. */
  function Rar(s: State): (r: State)
    ensures Link(r) == RotR5(Link(s))
    ensures r == s.(acc := r.acc, cy := r.cy)
  {
    var result := s.acc + 16 * Bit(s.cy);
    s.(cy := result % 2 == 1, acc := result / 2)
  }

  // ---------------------------------------------------------------- arithmetic

  /** ADD: add a register and the carry into the accumulator; carry-out is the fifth bit. */
  function Add(s: State, i: Nibble): (r: State)
    requires Valid(s)
    ensures 16 * Bit(r.cy) + r.acc == s.acc + s.reg[i] + Bit(s.cy)
    ensures r == s.(acc := r.acc, cy := r.cy)
  {
    var result := s.acc + s.reg[i] + Bit(s.cy);
    s.(cy := result > 15, acc := result % 16)
  }

  /** SUB, repaired: the source calls an undefined `invert` and compares the accumulator
      with the register array. This reads `invert` as the 4-bit complement and takes the
      carry of the sum, so carry set means "no borrow". */
  function Sub(s: State, i: Nibble): (r: State)
    requires Valid(s)
    ensures r.acc == (s.acc - s.reg[i] - 1 + Bit(s.cy)) % 16
    ensures r.cy <==> s.acc + Bit(s.cy) > s.reg[i]
    ensures r == s.(acc := r.acc, cy := r.cy)
  {
    var result := s.acc + (15 - s.reg[i]) + Bit(s.cy);
    s.(cy := result > 15, acc := result % 16)
  }

  /** IAC: increment the accumulator; carry reports the wrap past 15 (carry-in ignored). */
  function Iac(s: State): (r: State)
    ensures 16 * Bit(r.cy) + r.acc == s.acc + 1
    ensures r == s.(acc := r.acc, cy := r.cy)
  {
    var result := s.acc + 1;
    s.(cy := result > 15, acc := result % 16)
  }

  /** DAC, repaired: the source computes the borrow but never stores the accumulator.
      The accumulator is decremented mod 16; carry is what `result < acc` yields in
      `uint8_t`: set exactly when no borrow occurred. */
  function Dac(s: State): (r: State)
    ensures (r.acc + 1) % 16 == s.acc
    ensures r.cy <==> s.acc != 0
    ensures r == s.(acc := r.acc, cy := r.cy)
  {
    s.(acc := (s.acc + 15) % 16, cy := s.acc != 0)
  }

  /** INC, repaired: the source increments the byte-wide register without masking;
      here the register wraps mod 16 as ISZ's does. Carry is untouched. */
  function Inc(s: State, i: Nibble): (r: State)
    requires Valid(s)
    ensures Valid(r)
    ensures (s.reg[i] < 15 ==> r.reg[i] == s.reg[i] + 1) && (s.reg[i] == 15 ==> r.reg[i] == 0)
    ensures forall k :: 0 <= k < REG_COUNT && k != i ==> r.reg[k] == s.reg[k]
    ensures r == s.(reg := r.reg)
  {
    s.(reg := s.reg[i := (s.reg[i] as int + 1) % 16])
  }

  // ---------------------------------------------------------------- data store

  /** SRC: the data pointer takes the value of a register pair. */
  function Src(s: State, p: Pair): (r: State)
    requires Valid(s)
    ensures r.dptr / 16 == s.reg[p] && r.dptr % 16 == s.reg[p + 1]
    ensures r == s.(dptr := r.dptr)
  {
    s.(dptr := PairValue(s, p))
  }

  /** WRM: store the accumulator at the data pointer; no other cell changes. */
  function Wrm(s: State): (r: State)
    requires Valid(s)
    ensures Valid(r)
    ensures r.mem[s.dptr] == s.acc
    ensures forall k :: 0 <= k < RAM_SIZE && k != s.dptr ==> r.mem[k] == s.mem[k]
    ensures r == s.(mem := r.mem)
  {
    s.(mem := s.mem[s.dptr := s.acc])
  }

  /** RDM: load the cell at the data pointer into the accumulator. */
  function Rdm(s: State): (r: State)
    requires Valid(s)
    ensures r.acc == s.mem[s.dptr]
    ensures r == s.(acc := r.acc)
  {
    s.(acc := s.mem[s.dptr])
  }

  /** ADM: add a data-store cell and the carry into the accumulator, as ADD does.
      The source takes the cell's address as a parameter rather than the data pointer. */
  function Adm(s: State, address: Byte): (r: State)
    requires Valid(s)
    ensures 16 * Bit(r.cy) + r.acc == s.acc + s.mem[address] + Bit(s.cy)
    ensures r == s.(acc := r.acc, cy := r.cy)
  {
    var result := s.acc + s.mem[address] + Bit(s.cy);
    s.(cy := result > 15, acc := result % 16)
  }

  // ---------------------------------------------------------------- control transfer

  /** The four tests the source's JCN variants perform. */
  datatype Condition = CarrySet | AccZero | CarryClear | AccNonZero

  predicate Holds(c: Condition, s: State) {
    match c
    case CarrySet => s.cy
    case AccZero => s.acc == 0
    case CarryClear => !s.cy
    case AccNonZero => s.acc != 0
  }

  /** JUN: jump to the 12-bit address. */
  function Jun(s: State, addr: Word16): (r: State)
    ensures r.pc == addr % ROM_SIZE
    ensures r == s.(pc := r.pc)
  {
    s.(pc := addr % ROM_SIZE)
  }

  /** JCN: jump when the condition holds, otherwise leave the state as it is. */
  function Jcn(s: State, c: Condition, addr: Word16): (r: State)
    ensures Holds(c, s) ==> r.pc == addr % ROM_SIZE
    ensures !Holds(c, s) ==> r.pc == s.pc
    ensures r == s.(pc := r.pc)
  {
    if Holds(c, s) then s.(pc := addr % ROM_SIZE) else s
  }

  /** ISZ: increment a register mod 16 and jump when it wrapped to zero. */
  function Isz(s: State, i: Nibble, addr: Word16): (r: State)
    requires Valid(s)
    ensures Valid(r)
    ensures (r.reg[i] as int + 15) % 16 == s.reg[i]
    ensures r.reg[i] == 0 ==> r.pc == addr % ROM_SIZE
    ensures r.reg[i] != 0 ==> r.pc == s.pc
    ensures forall k :: 0 <= k < REG_COUNT && k != i ==> r.reg[k] == s.reg[k]
    ensures r == s.(reg := r.reg, pc := r.pc)
  {
    var v := (s.reg[i] as int + 1) % 16;
    s.(reg := s.reg[i := v], pc := if v == 0 then addr % ROM_SIZE else s.pc)
  }

  /** JMS (absent from the source): push the address of the following two-byte
      instruction, then jump. A full stack overflows. */
  function Jms(s: State, addr: Word16): (r: Result<State>)
    requires Valid(s)
    ensures r.Ok? <==> s.stack.sptr < STACK_DEPTH
    ensures r.Err? ==> r.fault == StackOverflow
    ensures r.Ok? ==> Valid(r.value) && r.value.pc == addr % ROM_SIZE
    ensures r.Ok? ==> CallStack.Live(r.value.stack) == CallStack.Live(s.stack) + [(s.pc + 2) % ROM_SIZE]
    ensures r.Ok? ==> r.value == s.(stack := r.value.stack, pc := r.value.pc)
  {
    var st :- CallStack.Push(s.stack, (s.pc + 2) % ROM_SIZE);
    Ok(s.(stack := st, pc := addr % ROM_SIZE))
  }

  /** BBL: return to the most recently pushed address and load the accumulator with
      the immediate's low nibble. An empty stack underflows. */
  function Bbl(s: State, val: Byte): (r: Result<State>)
    requires Valid(s)
    ensures r.Ok? <==> s.stack.sptr > 0
    ensures r.Err? ==> r.fault == StackUnderflow
    ensures r.Ok? ==> Valid(r.value) && r.value.acc == val % 16
    ensures r.Ok? ==> CallStack.Live(s.stack) == CallStack.Live(r.value.stack) + [r.value.pc]
    ensures r.Ok? ==> r.value == s.(stack := r.value.stack, pc := r.value.pc, acc := r.value.acc)
  {
    var (ret, st) :- CallStack.Pop(s.stack);
    Ok(s.(stack := st, pc := ret, acc := val % 16))
  }

  /** JIN (called but never defined in the source): replace the low eight bits of the
      program counter with a register pair, keeping the current page. */
  function Jin(s: State, p: Pair): (r: State)
    requires Valid(s)
    ensures r.pc / 256 == s.pc / 256 && r.pc % 256 == PairValue(s, p)
    ensures r == s.(pc := r.pc)
  {
    s.(pc := (s.pc / 256) * 256 + PairValue(s, p))
  }
}
