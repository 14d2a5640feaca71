/** The outcome of whole programs started from reset, stated cycle by cycle. */
module Scenarios {
  import opened Types
  import CallStack
  import opened Machine
  import Decoder
  import opened Processor

  /** LDM 5; INC 0; BBL 0 loaded at address 0. */
  function ReturnProgram(): State {
    Reset([0xD5, 0x60, 0xC0])
  }

  /** Cycle 1: LDM 5. */
  lemma ReturnProgramCycle1()
    ensures Step(ReturnProgram()) == Ok(Stepped(ReturnProgram().(acc := 5, pc := 1), 8))
  {
    assert ReturnProgram().rom[0] == 0xD5;
  }

  /** Cycle 2: INC 0. */
  lemma ReturnProgramCycle2()
    ensures var s1 := ReturnProgram().(acc := 5, pc := 1);
      Step(s1) == Ok(Stepped(s1.(reg := s1.reg[0 := 1], pc := 2), 8))
  {
    assert ReturnProgram().rom[1] == 0x60;
  }

  /** Cycle 3: BBL 0 on an empty stack. */
  lemma ReturnProgramCycle3()
    ensures var s1 := ReturnProgram().(acc := 5, pc := 1);
      Step(s1.(reg := s1.reg[0 := 1], pc := 2)) == Err(StackUnderflow)
  {
    assert ReturnProgram().rom[2] == 0xC0;
  }

  /** LDM 5; INC 0; BBL 0 from reset: the first cycle loads the accumulator, the second
      bumps register 0, the third returns with nothing on the stack and underflows. */
  lemma ReturnWithoutCallUnderflows()
    ensures Run(ReturnProgram(), 2).Ok?
    ensures var s2 := Run(ReturnProgram(), 2).value.state;
      s2.acc == 5 && s2.reg[0] == 1 && s2.pc == 2
    ensures Run(ReturnProgram(), 3) == Err(StackUnderflow)
  {
    ReturnProgramCycle1();
    ReturnProgramCycle2();
    ReturnProgramCycle3();
  }

  /** JMS 2; JMS 4; JMS 6; JMS 8 loaded at address 0: each call lands on the next. */
  function CallProgram(): State {
    Reset([0x50, 0x02, 0x50, 0x04, 0x50, 0x06, 0x50, 0x08])
  }

  /** The state after k of the calls: at address 2k with 2, .., 2k on the stack. */
  function AfterCalls(k: nat): State
    requires k <= 3
  {
    var s := CallProgram();
    if k == 0 then s
    else if k == 1 then s.(pc := 2, stack := CallStack.Stack([2, 0, 0], 1))
    else if k == 2 then s.(pc := 4, stack := CallStack.Stack([2, 4, 0], 2))
    else s.(pc := 6, stack := CallStack.Stack([2, 4, 6], 3))
  }

  /** Call 1: JMS 2. */
  lemma CallCycle0()
    ensures Step(AfterCalls(0)) == Ok(Stepped(AfterCalls(1), 16))
  {
    assert CallProgram().rom[0] == 0x50 && CallProgram().rom[1] == 2;
    assert Fetch(AfterCalls(0)) == Decoder.Jms(2);
    assert [0, 0, 0][0 := 2] == [2, 0, 0];
  }

  /** Call 2: JMS 4. */
  lemma CallCycle1()
    ensures Step(AfterCalls(1)) == Ok(Stepped(AfterCalls(2), 16))
  {
    assert CallProgram().rom[2] == 0x50 && CallProgram().rom[3] == 4;
    assert Fetch(AfterCalls(1)) == Decoder.Jms(4);
    assert [2, 0, 0][1 := 4] == [2, 4, 0];
  }

  /** Call 3: JMS 6. */
  lemma CallCycle2()
    ensures Step(AfterCalls(2)) == Ok(Stepped(AfterCalls(3), 16))
  {
    assert CallProgram().rom[4] == 0x50 && CallProgram().rom[5] == 6;
    assert Fetch(AfterCalls(2)) == Decoder.Jms(6);
    assert [2, 4, 0][2 := 6] == [2, 4, 6];
  }

  /** Four nested JMS: three fit on the stack, the fourth overflows. */
  lemma FourthCallOverflows()
    ensures Run(CallProgram(), 3).Ok?
    ensures CallStack.Live(Run(CallProgram(), 3).value.state.stack) == [2, 4, 6]
    ensures Run(CallProgram(), 4) == Err(StackOverflow)
  {
    CallCycle0();
    CallCycle1();
    CallCycle2();
    assert CallProgram().rom[6] == 0x50;
    assert Step(AfterCalls(3)) == Err(StackOverflow);
  }
}
