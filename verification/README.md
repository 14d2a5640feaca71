# Intel 4004 interpreter, modelled in Dafny

This project models `i4004.c`, an interpreter for the Intel 4004 4-bit CPU. The model has three layers:

- **Processor state** (`machine.dfy`, `callstack.dfy`). The state holds a 4096-byte program store, a 256-cell data store and sixteen 4-bit registers. It also holds a three-slot return stack with its pointer `sptr`, a 12-bit program counter, an 8-bit data pointer, a 4-bit accumulator and a carry flag.
- **Instruction semantics** (`ops.dfy`). Each instruction is a pure transition `State -> State`. JMS and BBL can overflow or underflow the stack, so they return `Result<State>`. The source's `assert`s on register indices become the types `Nibble` (0..15) and `Pair` (an even index below 16). Properties relating several instructions are in `opsfacts.dfy`.
- **Fetch, decode and step** (`decoder.dfy`, `processor.dfy`).
  - `Decode` turns an opcode byte and the byte after it into a tagged `Instr`. Opcodes the source's switch does not handle decode to `Illegal`.
  - `Step` runs one cycle. It returns the new state and the cycle cost (8 or 16), or one of the faults `StackOverflow`, `StackUnderflow` or `IllegalOpcode`.
  - `Run` performs at most a given number of cycles.

`scenarios.dfy` states, cycle by cycle, the outcome of two programs started from reset. `aswritten.dfy` models the places where the code as written differs from its evident intent (see "## Findings").

## Choices where the source is incomplete

- **SUB** (i4004.c:80-85) calls an undefined `invert` and compares `acc` with the array `reg`.
  - The model reads `invert` as the 4-bit complement: `acc' = (acc + (15 - reg[r]) + cy) mod 16`.
  - Carry is the carry out of that sum, so carry set means "no borrow". Equivalently, carry is set exactly when `acc + cy > reg[r]`. With carry-in set, this is the source's intended `acc >= reg[r]`.
- **DAC** (i4004.c:93-96) never stores the accumulator. The model decrements it mod 16. It keeps the carry the source computes, `result < acc` in `uint8_t`, which is `acc != 0`.
- **INC** (i4004.c:98-101) does not mask the register. The model wraps it mod 16, as ISZ does, so every register stays a 4-bit value.
- **JMS** exists only as a comment (i4004.c:154). The model pushes the address of the following instruction, `(pc + 2) mod 4096`, then jumps.
- **JIN** is called (i4004.c:254) but never defined. The model replaces the low eight bits of the program counter with the pair's value and keeps the current page.
- **JUN and JMS call sites** pass two operands to one-address functions (i4004.c:261, 268). The target is `((op & 0xF) << 8) | next`.
- **JCN and ISZ targets.** The source passes a `uint8_t` operand through `addr & 0xFFF`. The model follows the code: the target is the operand byte itself, an address in the first page.
- **JCN opcode 0x10** tests carry, exactly as 0x12 does, because the source lists both in one case.
- **Control transfer.** The source adds `skip` even after JUN, JCN or ISZ has written `cptr` (i4004.c:366). Only BBL sets `skip = 0`. The model follows BBL: a target that an instruction writes stands and is not advanced. This deviates from line 366.
- **Operand fetch** at `cptr == 4095` reads past the array (i4004.c:212 and its siblings). The model reads `(pc + 1) mod 4096`.
- **Unhandled opcodes** fall through the switch with `skip = 1`. They are 0x11, 0x13, 0x15-0x19, 0x1B, 0x1D-0x1F, 0xE0-0xEF and 0xFA-0xFF. The model decodes them to `Illegal`, and `Step` returns `IllegalOpcode` for them.
- **Cycle cost.** The model charges 16 for FIM, FIN, JUN, JMS, ISZ and JCN, and 8 for the rest, JIN included. The source assigns the same values except for JCN and JIN, where it never sets `clocks` and so leaves it at 0.
- **Data store and registers** are `uint8_t` in the source. Every write masks to 4 bits (INC repaired), so the model stores them as `Nibble`, and the masks on read are the identity.
- **ADM** takes its cell address as a parameter, as the source does, not the data pointer.

## Model

| member | source | states |
|---|---|---|
| Machine.PairValue | i4004.c:165-166 | a pair's 8-bit value has the even register as high nibble and the odd one as low nibble |
| Machine.WritePair | i4004.c:61-62 | writing a byte into a pair stores its high and low nibbles, reads back as that byte, and changes no other register or field |
| Machine.WritePairOwnValue | i4004.c:184-185 | writing a pair's own value back leaves the state unchanged |
| Machine.Reset | i4004.c:6-16 | the state at reset has every array at its fixed size, the loaded image followed by zeros in the program store, everything else zero, and an empty stack |
| CallStack.Push | i4004.c:18-21 | a push succeeds iff fewer than 3 addresses are stored; it appends the address to the live stack and changes no other slot; a full stack gives StackOverflow |
| CallStack.Pop | i4004.c:23-26 | a pop succeeds iff the stack is non-empty; it returns the most recently pushed address, and the remaining live stack plus that address is the old one; an empty stack gives StackUnderflow |
| CallStack.PushThenPop | i4004.c:18-26 | a pop right after a push returns the pushed address, restores the depth and the live contents, and no other slot changes |
| CallStack.PopThenPush | i4004.c:18-26 | a push right after a pop rebuilds the original stack |
| Ops.Ldm | i4004.c:28-30 | LDM puts the immediate's low nibble in the accumulator and changes nothing else |
| Ops.Xch | i4004.c:32-37 | XCH swaps the accumulator with register r; no other register changes |
| Ops.Ld | i4004.c:39-42 | LD copies register r into the accumulator; no register changes |
| Ops.Clc | i4004.c:44-46 | CLC clears carry only |
| Ops.Stc | i4004.c:48-50 | STC sets carry only |
| Ops.Clb | i4004.c:52-55 | CLB leaves accumulator 0 and carry clear |
| Ops.Fim | i4004.c:57-63 | FIM makes the pair's value equal the immediate, touching no other register |
| Ops.Cmc | i4004.c:65-67 | CMC flips carry only |
| Ops.Cma | i4004.c:69-71 | CMA's result and the old accumulator sum to 15 |
| Ops.Add | i4004.c:73-78 | ADD's carry-out and accumulator form the 5-bit sum of accumulator, register and carry-in |
| Ops.Sub | i4004.c:80-85 | SUB yields acc - reg - 1 + cy mod 16, and carry is set iff acc + cy > reg (no borrow) |
| Ops.Iac | i4004.c:87-91 | IAC's carry-out and accumulator form acc + 1 |
| Ops.Dac | i4004.c:93-96 | DAC's result plus one is the old accumulator mod 16; carry is set iff the accumulator was non-zero |
| Ops.Inc | i4004.c:98-101 | INC adds one to register r, wrapping 15 to 0; no other register and not the carry changes |
| Ops.Ral | i4004.c:103-107 | RAL rotates the 5-bit word {carry, accumulator} left by one, as the reference RotL5 does |
| Ops.Rar | i4004.c:109-113 | RAR rotates the 5-bit word {carry, accumulator} right by one, as the reference RotR5 does |
| Ops.Tcc | i4004.c:115-118 | TCC leaves 1 in the accumulator iff carry was set, otherwise 0, and clears carry |
| Ops.Jun | i4004.c:120-122 | JUN sets the program counter to the address mod 4096 and changes nothing else |
| Ops.Jcn | i4004.c:124-142 | JCN sets the program counter to the address mod 4096 when its condition holds and otherwise changes nothing |
| Ops.Isz | i4004.c:144-152 | ISZ increments register r mod 16 and jumps iff the result is 0; no other register changes |
| Ops.Jms | i4004.c:265-270 | JMS succeeds iff the stack has room; it pushes the address after the two-byte instruction and jumps; otherwise StackOverflow |
| Ops.Bbl | i4004.c:156-159 | BBL succeeds iff the stack is non-empty; the program counter becomes the popped address and the accumulator the immediate's low nibble; otherwise StackUnderflow |
| Ops.Src | i4004.c:161-167 | SRC sets the data pointer to the pair's value |
| Ops.Wrm | i4004.c:169-172 | WRM stores the accumulator at the data pointer; no other cell changes |
| Ops.Rdm | i4004.c:174-177 | RDM loads the cell at the data pointer into the accumulator |
| Ops.Fin | i4004.c:179-186 | FIN makes the pair's value equal the program-store byte addressed by pair 0, touching no other register |
| Ops.Adm | i4004.c:188-193 | ADM's carry-out and accumulator form the 5-bit sum of accumulator, the data-store cell and carry-in |
| Ops.Jin | i4004.c:253-255 | JIN keeps the current page and replaces the low eight bits of the program counter with the pair's value |
| OpsFacts.LdmXchLd | i4004.c:28-42 | LDM v; XCH r; LD r leaves v's low nibble in the accumulator and in register r |
| OpsFacts.XchTwice | i4004.c:32-37 | XCH r twice restores the state |
| OpsFacts.FimThenSrc | i4004.c:57-63 | FIM p, imm followed by SRC p sets the data pointer to imm |
| OpsFacts.FinSplitsLikeFim | i4004.c:179-186 | FIN puts the high nibble of rom[16 * reg[0] + reg[1]] in the even register and the low nibble in the odd one |
| OpsFacts.ComplementTwice | i4004.c:65-71 | CMC twice and CMA twice are each the identity |
| OpsFacts.LinkDetermines | i4004.c:103-113 | two states that differ at most in carry and accumulator are equal when their 5-bit words agree |
| OpsFacts.RotInverse | i4004.c:103-113 | the left and right 5-bit rotations undo each other |
| OpsFacts.RarUndoesRal | i4004.c:103-113 | RAL followed by RAR restores the state |
| OpsFacts.RalUndoesRar | i4004.c:103-113 | RAR followed by RAL restores the state |
| OpsFacts.FiveBits | i4004.c:103-113 | every 5-bit word is the sum of its five bits |
| OpsFacts.RotL5Bits | i4004.c:103-107 | a left rotation moves each bit one place up and bit 4 to bit 0 |
| OpsFacts.RotR5Bits | i4004.c:109-113 | a right rotation moves each bit one place down and bit 0 to bit 4 |
| OpsFacts.RotL5Five | i4004.c:103-107 | five left rotations of a 5-bit word are the identity |
| OpsFacts.RotR5Five | i4004.c:109-113 | five right rotations of a 5-bit word are the identity |
| OpsFacts.RalFive | i4004.c:103-113 | five RALs in a row, and five RARs, are the identity on the state |
| OpsFacts.AddTable | i4004.c:73-78 | for every accumulator, register value and carry-in, ADD gives (a + v + c) mod 16 with carry iff a + v + c > 15, and leaves the registers unchanged |
| OpsFacts.AdmTable | i4004.c:188-193 | ADM follows the same table with the data-store cell as operand, and leaves the data store unchanged |
| OpsFacts.IacTable | i4004.c:87-91 | IAC gives (acc + 1) mod 16 with carry iff acc was 15 |
| OpsFacts.SubIsSubtraction | i4004.c:80-85 | with carry set, SUB is plain subtraction mod 16 and carry reports acc >= reg |
| OpsFacts.SubThenAdd | i4004.c:73-85 | SUB with carry set, then ADD of the same register with carry clear, restores the accumulator |
| OpsFacts.IacDacInverse | i4004.c:87-96 | DAC undoes IAC and IAC undoes DAC on the accumulator |
| OpsFacts.WrmThenRdm | i4004.c:169-177 | WRM followed by RDM leaves the state as WRM left it, so the accumulator is unchanged |
| OpsFacts.JcnVariants | i4004.c:124-142 | the four JCN tests jump on carry set, accumulator zero, carry clear and accumulator non-zero, respectively, and otherwise leave the counter |
| OpsFacts.IszJumpsAtFifteen | i4004.c:144-152 | ISZ sets the program counter to its target when the register held 15 and leaves it unchanged otherwise |
| OpsFacts.JmsThenBbl | i4004.c:156-159 | JMS then BBL returns to the address after the JMS with the immediate in the accumulator and the stack's contents restored |
| Decoder.Cost | i4004.c:202-364 | the cost is 8 clock periods per instruction byte, except FIN, which costs 16 |
| Decoder.Decode | i4004.c:205-365 | an opcode decodes to Illegal iff the switch does not handle it; otherwise the instruction is two bytes long iff the handler reads the next byte |
| Decoder.Encode | i4004.c:205-365 | every instruction is written as exactly as many bytes as its length |
| Decoder.DecodeEncode | i4004.c:205-365 | decoding the encoding of any instruction gives it back, whatever byte follows a one-byte form |
| Decoder.EncodeDecode | i4004.c:205-365 | every handled opcode is the first byte of the encoding of its decoded instruction, and a two-byte form takes the next byte as operand |
| Decoder.DecodeInjective | i4004.c:205-365 | distinct handled opcodes decode to distinct instructions |
| Decoder.IllegalOpcodes | i4004.c:205-365 | exactly 0x11, 0x13, 0x15-0x19, 0x1B, 0x1D-0x1F, 0xE0-0xEF and 0xFA-0xFF decode to Illegal |
| Processor.OperandAddr | i4004.c:212 | the operand is read from the next address, which wraps to 0 after 4095 |
| Processor.Fetch | i4004.c:204 | the instruction at the program counter is one the decoder can produce |
| Processor.TestOf | i4004.c:210-233 | each JCN opcode selects its test: 0x10 and 0x12 carry set, 0x14 accumulator zero, 0x1A carry clear, 0x1C accumulator non-zero, and each test is selected by those opcodes only |
| Processor.Exec | i4004.c:205-365 | executing a decoded instruction preserves the array sizes and the program store, and moves the program counter only on a control transfer; it overflows iff it is a JMS on a full stack and underflows iff it is a BBL on an empty one |
| Processor.Step | i4004.c:200-366 | one cycle fails with IllegalOpcode iff the opcode is unhandled, with StackOverflow iff a JMS meets a full stack, and with StackUnderflow iff a BBL meets an empty one; otherwise it costs 8 or 16, keeps the program store, and advances a non-jumping instruction by its length mod 4096; a control transfer's target stands, and every field other than the program counter is what the instruction's semantics leave |
| Processor.Run | i4004.c:200-367 | n cycles without a fault keep the state valid and the program store unchanged, and take between 8n and 16n clock periods |
| Processor.RunPrefix | i4004.c:200-367 | a budget that runs without a fault also runs without a fault when cut shorter |
| Processor.StepJun | i4004.c:258-263 | a JUN step lands exactly on (op & 0xF) * 256 + next |
| Processor.StepJcn | i4004.c:210-233 | a JCN step costs 16 and jumps to the operand byte exactly when the test its opcode selects holds, otherwise moves to pc + 2 mod 4096; nothing else changes |
| Processor.StepIsz | i4004.c:277-282 | an ISZ step costs 16, increments its register mod 16, and jumps to the operand byte exactly when the register wrapped to 0, otherwise moves to pc + 2 mod 4096 |
| Processor.StepJin | i4004.c:249-255 | a JIN step costs 8, keeps the current page and puts the value of pair op - 0x31 in the low byte of the program counter; nothing else changes |
| Processor.StepJmsThenBbl | i4004.c:265-308 | a JMS step followed by a BBL step at its target returns to the byte after the JMS with the BBL's immediate in the accumulator and the stack's contents restored |
| Scenarios.ReturnWithoutCallUnderflows | i4004.c:272-313 | from reset with LDM 5; INC 0; BBL 0, two cycles leave acc 5, reg[0] 1 and pc 2, and the third fails with StackUnderflow |
| Scenarios.FourthCallOverflows | i4004.c:18-21 | three nested JMS fill the stack with 2, 4, 6 and the fourth fails with StackOverflow |
| Scenarios.ReturnProgramCycle1 | i4004.c:310-313 | LDM 5 at reset sets the accumulator to 5 and the counter to 1 in 8 clock periods |
| Scenarios.ReturnProgramCycle2 | i4004.c:272-275 | INC 0 then sets register 0 to 1 and the counter to 2 |
| Scenarios.ReturnProgramCycle3 | i4004.c:304-308 | BBL 0 with an empty stack then fails with StackUnderflow |
| Scenarios.CallCycle0 | i4004.c:265-270 | the first JMS pushes 2 and lands on 2 in 16 clock periods |
| Scenarios.CallCycle1 | i4004.c:265-270 | the second JMS pushes 4 and lands on 4 |
| Scenarios.CallCycle2 | i4004.c:265-270 | the third JMS pushes 6 and lands on 6, filling the stack |
| AsWritten.IncAsWritten | i4004.c:98-101 | the source's INC adds one to the byte-wide register with no 4-bit mask |
| AsWritten.IncAsWrittenLeavesNibbleRange | i4004.c:98-101 | as written, INC takes a register holding 15 to 16; the corrected INC takes it to 0 |
| AsWritten.DacAsWritten | i4004.c:93-96 | the source's DAC sets carry iff acc != 0 and leaves the accumulator unchanged |
| AsWritten.DacAsWrittenKeepsAcc | i4004.c:93-96 | as written, DAC leaves 5 in the accumulator where the corrected DAC leaves 4; both agree on carry |
| AsWritten.SkipAsWritten | i4004.c:203-307 | the source's skip is the instruction length for every instruction but BBL, and 0 for BBL |
| AsWritten.NextPcAsWritten | i4004.c:366 | as written, every instruction but BBL is advanced by its length after its handler, jumps included; BBL's popped address is not advanced |
| AsWritten.JunAsWrittenOvershoots | i4004.c:366 | as written, a JUN to 0x123 at address 0 ends at 0x125; the corrected step ends at 0x123 |
| AsWritten.OperandIndexAsWritten | i4004.c:212 | the source's operand index cptr + 1 reaches 4096 exactly at cptr 4095 |
| AsWritten.OperandIndexAsWrittenOutOfBounds | i4004.c:212 | at address 4095 the source's operand index is one past the program store; the corrected address wraps to 0 |
| AsWritten.ClocksAsWritten | i4004.c:202-364 | the source assigns 0, 8 or 16 clock periods per case |
| AsWritten.ClocksAsWrittenAgreeExceptJcnJin | i4004.c:202-364 | the source's clock counts equal the model's costs on every handled opcode except JCN and JIN, which the source charges 0; JCN costs 16 in the model |

## Findings

| source | as written | input that shows it | evidently intended | confidence | as-written member | corrected member |
|---|---|---|---|---|---|---|
| i4004.c:98-101 | INC increments the byte-wide register without masking to 4 bits | register r holds 15: it becomes 16 | wrap to 0, as ISZ does at i4004.c:148 | high; not executed | AsWritten.IncAsWrittenLeavesNibbleRange | Ops.Inc |
| i4004.c:93-96 | DAC computes `acc - 1` and its borrow but never stores the result in the accumulator | acc = 5: the accumulator stays 5 | acc becomes 4 | high; not executed | AsWritten.DacAsWrittenKeepsAcc | OpsFacts.IacDacInverse |
| i4004.c:366 | `cptr += skip` runs after JUN, JCN and ISZ have written `cptr` | JUN 0x123 at address 0: execution continues at 0x125 | the target stands, as BBL's `skip = 0` shows | high; not executed | AsWritten.JunAsWrittenOvershoots | Processor.StepJun, Processor.StepJcn, Processor.StepIsz |
| i4004.c:212 | the operand is read from `rom[cptr + 1]` | a two-byte opcode at 4095 reads index 4096 of a 4096-byte array | wrap to address 0 with the 12-bit counter | medium; not executed | AsWritten.OperandIndexAsWrittenOutOfBounds | Processor.OperandAddr |
| i4004.c:210-233 | the JCN cases never assign `clocks`, so a JCN costs 0 | opcode 0x12 costs 0 clock periods | 16, like the other two-byte forms | medium; not executed | AsWritten.ClocksAsWrittenAgreeExceptJcnJin | Decoder.Cost |

## Left out

- `main` (i4004.c:371-373) is an empty host entry point.
- The endless `while (true)` of `execute` is modelled as `Processor.Run`, which performs a bounded number of cycles. A program that never faults is therefore only described up to a given budget.
- The source's `assert`s abort the process. Here they are types and `requires` clauses: `Nibble` and `Pair` indices, and fixed array sizes in `Machine.Valid`. The decoder cannot produce an out-of-range index, so no precondition-violation fault appears as a value.
- SBM (i4004.c:195-198) is cut off in the middle of a declaration and has no semantics to model.
- WRM, RDM and ADM are modelled as operations, but `Step` never reaches them. The source's switch has no case for 0xE0-0xEF, so those opcodes decode to `Illegal`.
- I/O ports, RAM status characters, bank selection and interrupts do not appear in the source.
- Loading the program image from storage belongs to the host. `Machine.Reset` takes the image as a parameter.
