# CHIP-8 interpreter core in Dafny

This project models the core of a small CHIP-8 interpreter written in Rust,
all of it in `src/main.rs`. The interpreter keeps a register file: sixteen
8-bit registers V0..VF, a 16-bit index register I and a 16-bit program
counter PC. It also has 4096 bytes of memory and a call stack. A ROM image
is copied to address 0x200. Each cycle then fetches a big-endian 16-bit word
at PC and advances PC by two. It decodes the word into a value of the
36-variant instruction type (never the native call, which the decoder does
not produce), and executes the decoded instruction. Only four instructions
have an effect: `Call`, `JUMP`, `SET` and `SETI`. Every other instruction
leaves the machine unchanged.

The model is split into five modules:

- `RegisterFile` (`registers.dfy`): register identifiers, the register file,
  and the mapping from a register number to an identifier.
- `Instructions` (`instructions.dfy`): the instruction datatype, its
  well-formedness, and an encoder. The encoder writes each instruction as
  the CHIP-8 word that denotes it, and it is the independent reference the
  decoder is proved against.
- `Decoder` (`decoder.dfy`): the opcode decoder, with correctness, both
  round trips, injectivity, and the fallback behaviour.
- `Machine` (`machine.dfy`): the machine state, power-on and reset, ROM
  placement, fetch, the four executed instructions, execute, and one cycle.
- `CycleProperties` (`cycle.dfy`): whole-cycle properties, stated on the two
  bytes at PC.

Where the source differs from the usual CHIP-8 description, the model
follows the source:

- A word the decoder does not recognise becomes a jump to 0x200. There is no
  decode-failure result.
- The stack starts as sixteen zero entries, not empty. A call pushes a
  seventeenth entry, and nothing bounds the stack.
- Skips, returns, arithmetic flags, drawing, keys and timers have no effect.
- The `_Call` (0NNN) variant is declared but never produced. Every 0NNN word
  other than 0000, 00E0 and 00EE falls back.
- `SET` zero-extends a value written to I or PC.

## Model

| member | source | states |
|---|---|---|
| RegisterFile.RegisterOf | src/main.rs:31-50 | the numbers 0x0-0xF map to the general register with that number; every larger byte maps to PC |
| RegisterFile.NewRegisters | src/main.rs:13-19 | every register of a fresh register file reads zero |
| RegisterFile.ReadDeterminesRegisters | src/main.rs:6-10 | two register files that agree on all eighteen registers are equal, so reading by identifier loses nothing |
| Instructions.EncodeIsCanonical | src/main.rs:56-95 | every well-formed instruction except the native call encodes to a word the decoder recognises, with a zero low nibble in families 5 and 9 |
| Decoder.OperandX | src/main.rs:181 | bits 11-8 of the word always name a general register, never I or PC |
| Decoder.OperandY | src/main.rs:183 | bits 7-4 of the word always name a general register |
| Decoder.DecodeSystem | src/main.rs:171-178 | a family-0 word yields NOP, Display or Return, or else the fallback exactly when it is not one of the three literal words |
| Decoder.DecodeArithmetic | src/main.rs:186-199 | a family-8 word falls back exactly when it is unrecognised; otherwise it yields a two-register instruction on the given operands |
| Decoder.DecodeKeys | src/main.rs:205-211 | a family-E word falls back exactly when it is unrecognised; otherwise it yields a one-register key instruction on the given register |
| Decoder.DecodeMisc | src/main.rs:212-225 | a family-F word falls back exactly when it is unrecognised; otherwise it yields a one-register instruction on the given register |
| Decoder.Decode | src/main.rs:166-229 | every unrecognised word decodes to the fallback jump to 0x200 |
| Decoder.Significant | src/main.rs:183-200 | on a canonical word, the bits the decoder reads are the whole word |
| Decoder.DecodeCorrect | src/main.rs:166-229 | on every word, the decoded instruction is well formed and its operands are the right bit fields; a recognised word re-encodes to its significant bits, and an unrecognised one gives the fallback |
| Decoder.DecodeOperands | src/main.rs:179-204 | register operands are general registers numbered by bits 11-8 and 7-4; immediates are the low byte; the sprite height is the low nibble and below 16; addresses fit in twelve bits |
| Decoder.DecodeSystemWords | src/main.rs:171-178 | in family 0, 0000, 00E0 and 00EE decode to NOP, Display and Return (each an if-and-only-if), and every other word falls back |
| Decoder.DecodeIgnoresSkipLowNibble | src/main.rs:183-200 | families 5 and 9 always give the register-equality skips, whatever the low nibble holds |
| Decoder.DecodeSubTables | src/main.rs:186-224 | in families 8, E and F a word falls back exactly when its selector is none of the listed sub-opcodes; the selector alone chooses the operation, so a word of the same family with the same selector as a recognised word decodes to the same operation on its own register operands |
| Decoder.EncodeDecode | src/main.rs:166-229 | a recognised word decodes to a well-formed instruction whose encoding is the word up to the ignored nibble; a canonical word is restored exactly |
| Decoder.DecodeInjective | src/main.rs:166-229 | two distinct canonical words never decode to the same instruction |
| Decoder.DecodeEncode | src/main.rs:166-229 | decoding the encoding of any well-formed instruction except the native call gives the instruction back |
| Machine.NewCpu | src/main.rs:128-134 | the power-on machine is in the reset state: registers and memory are zero, and the stack holds sixteen zeros |
| Machine.Initialize | src/main.rs:136-158 | re-initialising any machine gives the reset state |
| Machine.ResetIsUnique | src/main.rs:128-158 | there is only one reset state |
| Machine.InitializeIsNew | src/main.rs:136-158 | re-initialising any machine gives exactly the power-on machine |
| Machine.LoadRom | src/main.rs:109-112 | ROM byte k lands at address 0x200 + k; every other cell keeps its value; PC becomes 0x200; V, I and the stack are unchanged |
| Machine.Fetch | src/main.rs:119-126 | the word's high byte is the byte at PC and its low byte the byte after it; PC advances by two without wrapping; V, I, memory and stack are unchanged |
| Machine.FetchIsBigEndian | src/main.rs:120-123 | read as a number, the fetched word is the byte at PC times 256 plus the byte after it |
| Machine.SetRegister | src/main.rs:250-272 | the target register reads the value, zero-extended; every other register, memory and stack are unchanged |
| Machine.SetIndex | src/main.rs:241-243 | I reads the value; every other register, memory and stack are unchanged |
| Machine.JumpTo | src/main.rs:274-276 | PC reads the address; every other register, memory and stack are unchanged |
| Machine.CallSubroutine | src/main.rs:245-248 | the stack gains exactly one entry, the PC before the call, on top of the old stack; PC reads the address; nothing else changes |
| Machine.Execute | src/main.rs:231-276 | a call appends the current PC to the stack and sets PC to its address; a jump sets PC; `SET` makes its register read the zero-extended value; `SETI` sets I; a register changes only when the instruction writes it, memory never changes and only a call touches the stack; every other instruction leaves the machine as it was |
| Machine.Cycle | src/main.rs:160-164 | a cycle never writes memory, and it changes the stack only by pushing the address after the fetched word |
| CycleProperties.CycleCallPushesReturnAddress | src/main.rs:245-248 | a 2NNN word at PC pushes PC + 2 and continues at NNN; V, I and memory are unchanged |
| CycleProperties.CycleJump | src/main.rs:274-276 | a 1NNN word sets PC to NNN and changes nothing else |
| CycleProperties.CycleSet | src/main.rs:250-272 | a 6XNN word writes NN into VX, leaves the other registers alone, advances PC by two, and keeps memory and stack |
| CycleProperties.CycleSetIndex | src/main.rs:241-243 | an ANNN word sets I to NNN, advances PC by two, and changes nothing else |
| CycleProperties.CycleUnexecuted | src/main.rs:231-239 | a word that decodes to any other instruction only advances PC by two |
| CycleProperties.CycleUnrecognised | src/main.rs:168 | an unrecognised word sends PC to 0x200 and changes nothing else |

## Left out

- `main`: not modelled. It reads a path from standard input, calls
  `load_rom`, and prints.
- `fs::read` and the trimming of the path in `load_rom`: file I/O. The model
  takes the image as a byte sequence and covers only the copy loop and the
  PC assignment. The read-error result is left out with the I/O.
- `print_registers_state`, and the `eprintln!` diagnostics of
  `parse_opcode` and `execute`: output only, with no effect on state.
- `LoadRom`: requires the image to fit in memory above 0x200. A larger image
  makes the source index past the end of memory, which panics.
- `Fetch` and `Cycle`: require PC + 1 to address memory. Otherwise the
  source's memory read panics.
- Integer overflow of `PC += 1`: cannot happen under the requirement above.
- The unreachable fallback arm of `SET`: every register identifier is
  covered by a named arm. The sixteen V arms are one indexed update of the
  register bank.
- The behaviour of `NOP`, `Display`, `Return`, the skips, the ALU
  operations, `JMP0`, `RAND`, `DRAW`, the key, timer and sprite operations,
  `BCD`, `DUMP` and `LOAD`: not modelled as effects, because the source
  gives them none. `Machine.Execute` and `CycleProperties.CycleUnexecuted`
  state that they leave the machine unchanged apart from the fetch's
  advance of PC.
