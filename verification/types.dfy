/** Machine words of the Intel 4004 interpreter and the faults a step can raise. */
module Types {

  /** A 4-bit value: the accumulator, a register, a data-store cell. */
  type Nibble = x: int | 0 <= x < 16

  /** An 8-bit value: a program-store byte, the data pointer. */
  type Byte = x: int | 0 <= x < 256

  /** A 16-bit value, the width of the source's address parameters before masking. */
  type Word16 = x: int | 0 <= x < 0x1_0000

  /** A 12-bit program-store address. */
  type Addr = x: int | 0 <= x < 4096

  const ROM_SIZE: nat := 4096
  const RAM_SIZE: nat := 256
  const REG_COUNT: nat := 16
  const STACK_DEPTH: nat := 3

  /** The carry flag as the 0/1 value the source adds into sums. */
  function Bit(b: bool): (n: Nibble)
    ensures n <= 1
    ensures n == 1 <==> b
  {
    if b then 1 else 0
  }

  /** The fatal conditions a step propagates to the host. */
  datatype Fault = StackOverflow | StackUnderflow | IllegalOpcode

  /** Either a value or the fault that stopped the computation; usable with `:-`. */
  datatype Result<+T> = Ok(value: T) | Err(fault: Fault) {

    predicate IsFailure() {
      Err?
    }

    function PropagateFailure<U>(): Result<U>
      requires Err?
    {
      Err(fault)
    }

    function Extract(): T
      requires Ok?
    {
      value
    }
  }
}
