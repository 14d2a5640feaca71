/** The three-level return-address stack (`stack[3]` and `sptr` of struct i4004). */
module CallStack {
  import opened Types

  /** Three slots and a pointer to the first free one. Popping leaves the slot's old content in place. */
  datatype Stack = Stack(slots: seq<Addr>, sptr: nat)

  predicate Valid(st: Stack) {
    |st.slots| == STACK_DEPTH && st.sptr <= STACK_DEPTH
  }

  /** The return addresses currently on the stack, oldest first. */
  function Live(st: Stack): seq<Addr>
    requires Valid(st)
  {
    st.slots[..st.sptr]
  }

  /** The stack after reset: all slots zero, nothing pushed. */
  function Empty(): (st: Stack)
    ensures Valid(st) && Live(st) == []
  {
    Stack([0, 0, 0], 0)
  }

  /** `spush`: store at the free slot and bump the pointer; a full stack overflows. */
  function Push(st: Stack, a: Addr): (r: Result<Stack>)
    requires Valid(st)
    ensures r.Ok? <==> st.sptr < STACK_DEPTH
    ensures r.Err? ==> r.fault == StackOverflow
    ensures r.Ok? ==> Valid(r.value) && Live(r.value) == Live(st) + [a]
    ensures r.Ok? ==> forall k :: 0 <= k < STACK_DEPTH && k != st.sptr ==> r.value.slots[k] == st.slots[k]
  {
    if st.sptr < STACK_DEPTH then
      Ok(Stack(st.slots[st.sptr := a], st.sptr + 1))
    else
      Err(StackOverflow)
  }

  /** `spop`: drop the pointer and return the most recently pushed address; an empty stack underflows. */
  function Pop(st: Stack): (r: Result<(Addr, Stack)>)
    requires Valid(st)
    ensures r.Ok? <==> st.sptr > 0
    ensures r.Err? ==> r.fault == StackUnderflow
    ensures r.Ok? ==> Valid(r.value.1) && Live(st) == Live(r.value.1) + [r.value.0]
    ensures r.Ok? ==> r.value.1.slots == st.slots
  {
    if st.sptr > 0 then
      Ok((st.slots[st.sptr - 1], Stack(st.slots, st.sptr - 1)))
    else
      Err(StackUnderflow)
  }

  /** A pop right after a push returns the pushed address, restores the depth, and
      leaves every slot other than the one written untouched. */
  lemma PushThenPop(st: Stack, a: Addr)
    requires Valid(st) && st.sptr < STACK_DEPTH
    ensures Push(st, a).Ok? && Pop(Push(st, a).value).Ok?
    ensures var (x, st') := Pop(Push(st, a).value).value;
      && x == a
      && st'.sptr == st.sptr
      && Live(st') == Live(st)
      && forall k :: 0 <= k < STACK_DEPTH && k != st.sptr ==> st'.slots[k] == st.slots[k]
  {
    var pushed := Push(st, a).value;
    var (x, st') := Pop(pushed).value;
    assert Live(pushed) == Live(st') + [x] == Live(st) + [a];
  }

  /** A push right after a pop rebuilds the original stack exactly. */
  lemma PopThenPush(st: Stack)
    requires Valid(st) && st.sptr > 0
    ensures Pop(st).Ok?
    ensures var (x, st') := Pop(st).value; Push(st', x) == Ok(st)
  {
    var (x, st') := Pop(st).value;
    assert st'.slots[st'.sptr := x] == st.slots;
  }
}
