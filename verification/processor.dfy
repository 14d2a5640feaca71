/** One fetch-decode-execute cycle of `execute` (i4004.c), and a bounded run of
    cycles standing in for its endless loop. */
module Processor {
  import opened Types
  import CallStack
  import opened Machine
  import Ops
  import opened Decoder

  /** The state after a cycle and the clock periods it took. */
  datatype Stepped = Stepped(state: State, cycles: nat)

  /** The address of the operand byte: the one after the opcode, wrapping at the end
      of the 12-bit program store. */
  function OperandAddr(pc: Addr): (a: Addr)
    ensures pc < ROM_SIZE - 1 ==> a == pc + 1
    ensures pc == ROM_SIZE - 1 ==> a == 0
  {
    (pc + 1) % ROM_SIZE
  }

  /** The instruction at the program counter. */
  function Fetch(s: State): (i: Instr)
    requires Valid(s)
    ensures WellFormed(i)
  {
    Decode(s.rom[s.pc], s.rom[OperandAddr(s.pc)])
  }

  /** The JCN test a condition nibble selects; 0x0 tests carry, as 0x2 does. */
  function TestOf(c: Nibble): (t: Ops.Condition)
    requires JcnCode(c)
    ensures t == Ops.CarrySet <==> c in {0x0, 0x2}
    ensures t == Ops.AccZero <==> c == 0x4
    ensures t == Ops.CarryClear <==> c == 0xA
    ensures t == Ops.AccNonZero <==> c == 0xC
  {
    if c == 0x4 then Ops.AccZero
    else if c == 0xA then Ops.CarryClear
    else if c == 0xC then Ops.AccNonZero
    else Ops.CarrySet
  }

  /** The instruction transfers control in this state: the program counter it leaves
      stands and is not advanced past the instruction. */
  predicate Jumps(s: State, i: Instr)
    requires Valid(s) && WellFormed(i)
  {
    match i
    case Jun(_) | Jms(_) | Bbl(_) | Jin(_) => true
    case Jcn(c, _) => Ops.Holds(TestOf(c), s)
    case Isz(r, _) => s.reg[r] == 15
    case _ => false
  }

  /** Run the semantics of a decoded instruction. Only a control transfer moves the
      program counter; only JMS and BBL can fail. */
  function Exec(s: State, i: Instr): (r: Result<State>)
    requires Valid(s) && WellFormed(i) && !i.Illegal?
    ensures r.Ok? ==> Valid(r.value) && r.value.rom == s.rom
    ensures r.Ok? && !Jumps(s, i) ==> r.value.pc == s.pc
    ensures r == Err(StackOverflow) <==> i.Jms? && s.stack.sptr == STACK_DEPTH
    ensures r == Err(StackUnderflow) <==> i.Bbl? && s.stack.sptr == 0
    ensures r.Err? ==> r.fault != IllegalOpcode
  {
    match i
    case Nop(_) => Ok(s)
    case Jcn(c, t) => Ok(Ops.Jcn(s, TestOf(c), t))
    case Fim(p, imm) => Ok(Ops.Fim(s, p, imm))
    case Src(p) => Ok(Ops.Src(s, p))
    case Fin(p) => Ok(Ops.Fin(s, p))
    case Jin(p) => Ok(Ops.Jin(s, p))
    case Jun(a) => Ok(Ops.Jun(s, a))
    case Jms(a) => Ops.Jms(s, a)
    case Inc(r) => Ok(Ops.Inc(s, r))
    case Isz(r, t) => Ok(Ops.Isz(s, r, t))
    case Add(r) => Ok(Ops.Add(s, r))
    case Sub(r) => Ok(Ops.Sub(s, r))
    case Ld(r) => Ok(Ops.Ld(s, r))
    case Xch(r) => Ok(Ops.Xch(s, r))
    case Bbl(v) => Ops.Bbl(s, v)
    case Ldm(v) => Ok(Ops.Ldm(s, v))
    case Clb => Ok(Ops.Clb(s))
    case Clc => Ok(Ops.Clc(s))
    case Iac => Ok(Ops.Iac(s))
    case Cmc => Ok(Ops.Cmc(s))
    case Cma => Ok(Ops.Cma(s))
    case Ral => Ok(Ops.Ral(s))
    case Rar => Ok(Ops.Rar(s))
    case Tcc => Ok(Ops.Tcc(s))
    case Dac => Ok(Ops.Dac(s))
    case Stc => Ok(Ops.Stc(s))
  }

  /** One cycle: fetch, decode, execute, then advance the program counter by the
      instruction's length unless the instruction transferred control. An opcode the
      dispatch does not handle is an error, as are stack overflow and underflow. */
  function Step(s: State): (r: Result<Stepped>)
    requires Valid(s)
    ensures r == Err(IllegalOpcode) <==> !Handled(s.rom[s.pc])
    ensures r == Err(StackOverflow) <==> Fetch(s).Jms? && s.stack.sptr == STACK_DEPTH
    ensures r == Err(StackUnderflow) <==> Fetch(s).Bbl? && s.stack.sptr == 0
    ensures r.Ok? ==> Valid(r.value.state) && r.value.state.rom == s.rom
    ensures r.Ok? ==> r.value.cycles == Cost(Fetch(s)) && (r.value.cycles == 8 || r.value.cycles == 16)
    ensures r.Ok? && !Jumps(s, Fetch(s)) ==> r.value.state.pc == (s.pc + Length(Fetch(s))) % ROM_SIZE
    ensures r.Ok? && Jumps(s, Fetch(s)) ==> r.value.state == Exec(s, Fetch(s)).value
    ensures r.Ok? ==> r.value.state.(pc := 0) == Exec(s, Fetch(s)).value.(pc := 0)
  {
    var i := Fetch(s);
    if i.Illegal? then Err(IllegalOpcode)
    else
      var t :- Exec(s, i);
      var pc := if Jumps(s, i) then t.pc else (s.pc + Length(i)) % ROM_SIZE;
      Ok(Stepped(t.(pc := pc), Cost(i)))
  }

  /** At most `fuel` cycles, stopping at the first fault; the cycle counts add up. */
  function Run(s: State, fuel: nat): (r: Result<Stepped>)
    requires Valid(s)
    ensures r.Ok? ==> Valid(r.value.state) && r.value.state.rom == s.rom
    ensures r.Ok? ==> 8 * fuel <= r.value.cycles <= 16 * fuel
    decreases fuel
  {
    if fuel == 0 then Ok(Stepped(s, 0))
    else
      var one :- Step(s);
      var rest :- Run(one.state, fuel - 1);
      Ok(Stepped(rest.state, one.cycles + rest.cycles))
  }

  /** A JUN lands exactly on its 12-bit target. */
  lemma StepJun(s: State)
    requires Valid(s) && 0x40 <= s.rom[s.pc] < 0x50
    ensures Step(s).Ok?
    ensures Step(s).value.state.pc == (s.rom[s.pc] as int - 0x40) * 256 + s.rom[OperandAddr(s.pc)]
  {
  }

  /** A JCN step jumps to its operand byte exactly when the test its opcode selects
      holds (0x10 and 0x12 carry set, 0x14 accumulator zero, 0x1A carry clear, 0x1C
      accumulator non-zero); otherwise it moves past the two-byte instruction. No other
      field changes. */
  lemma StepJcn(s: State)
    requires Valid(s) && s.rom[s.pc] in {0x10, 0x12, 0x14, 0x1A, 0x1C}
    ensures Step(s).Ok? && Step(s).value.cycles == 16
    ensures var op, next := s.rom[s.pc], s.rom[OperandAddr(s.pc)];
      var taken :=
        if op == 0x10 || op == 0x12 then s.cy
        else if op == 0x14 then s.acc == 0
        else if op == 0x1A then !s.cy
        else s.acc != 0;
      Step(s).value.state == s.(pc := if taken then next else (s.pc + 2) % ROM_SIZE)
  {
  }

  /** An ISZ step increments its register mod 16 and jumps to its operand byte exactly
      when the register wrapped to zero; otherwise it moves past the two-byte
      instruction. */
  lemma StepIsz(s: State)
    requires Valid(s) && 0x70 <= s.rom[s.pc] < 0x80
    ensures Step(s).Ok? && Step(s).value.cycles == 16
    ensures var r, next := s.rom[s.pc] - 0x70, s.rom[OperandAddr(s.pc)];
      var v := (s.reg[r] as int + 1) % 16;
      Step(s).value.state == s.(reg := s.reg[r := v], pc := if v == 0 then next else (s.pc + 2) % ROM_SIZE)
  {
  }

  /** A JIN step (an odd opcode 0x31..0x3F) keeps the current page, puts the value of
      the pair `op - 0x31` in the low byte of the program counter, costs 8 and changes
      nothing else. */
  lemma StepJin(s: State)
    requires Valid(s) && 0x30 <= s.rom[s.pc] < 0x40 && s.rom[s.pc] % 2 == 1
    ensures Step(s).Ok? && Step(s).value.cycles == 8
    ensures Step(s).value.state == s.(pc := (s.pc / 256) * 256 + PairValue(s, s.rom[s.pc] - 0x31))
  {
  }

  /** A JMS followed, at its target, by a BBL comes back to the byte after the JMS
      with the BBL's immediate in the accumulator and the stack as it was. */
  lemma StepJmsThenBbl(s: State)
    requires Valid(s) && 0x50 <= s.rom[s.pc] < 0x60
    requires s.stack.sptr < STACK_DEPTH
    requires var target := (s.rom[s.pc] as int - 0x50) * 256 + s.rom[OperandAddr(s.pc)];
      0xC0 <= s.rom[target] < 0xD0
    ensures Step(s).Ok? && Step(Step(s).value.state).Ok?
    ensures var t := Step(Step(s).value.state).value.state;
      && t.pc == (s.pc + 2) % ROM_SIZE
      && t.acc == s.rom[(s.rom[s.pc] as int - 0x50) * 256 + s.rom[OperandAddr(s.pc)]] - 0xC0
      && CallStack.Live(t.stack) == CallStack.Live(s.stack)
  {
    var target := (s.rom[s.pc] as int - 0x50) * 256 + s.rom[OperandAddr(s.pc)];
    var mid := Step(s).value.state;
    assert mid.pc == target;
    assert CallStack.Live(mid.stack) == CallStack.Live(s.stack) + [(s.pc + 2) % ROM_SIZE];
    var t := Step(mid).value.state;
    assert CallStack.Live(mid.stack) == CallStack.Live(t.stack) + [t.pc];
  }

  /** A budget that runs without a fault runs without a fault when cut shorter. */
  lemma {:induction false} RunPrefix(s: State, n: nat, m: nat)
    requires Valid(s) && n <= m
    requires Run(s, m).Ok?
    ensures Run(s, n).Ok?
    decreases n
  {
    if n > 0 {
      var one := Step(s).value;
      RunPrefix(one.state, n - 1, m - 1);
    }
  }
}
