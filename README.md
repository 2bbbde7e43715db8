# cpu-emulator: the fetch-decode-execute core in Dafny

This project models the byte-code CPU of `main.c`, a small CHIP-8-style machine. It has 16 eight-bit registers V0..VF, a position in memory and 4096 bytes of memory. The run loop does four things on every cycle:

- It reads a big-endian 16-bit opcode at the position.
- It advances the position by 2.
- It splits the opcode into four nibbles `c x y d` with masks and shifts.
- It dispatches. `0x0000` halts. `8XY4` adds Vy into Vx with the carry in VF. Every other opcode is reported and skipped.

The project has four modules:

- `Bits` (bits.dfy) defines C's `&`, `|`, `<<` and `>>` on unsigned operands as functions on natural numbers, bit by bit. It proves the mask and shift facts the decoder needs.
- `Opcode` (opcode.dfy) holds the types `Byte`, `Word` and `Nibble`. It also holds:
  - `Combine`, the opcode assembly of `read_opcode`;
  - `Decode`, the mask-and-shift decoding;
  - its reference definition `Digits`, which returns base-16 digits, and the inverse `Encode`;
  - the dispatch chain `Classify`.
- `Machine` (machine.dfy) gives the execution semantics on values:
  - `State` is the CPU record;
  - `AddXY` is ADD Vx,Vy;
  - `Step` is one cycle;
  - `Run` is the loop cut off after `fuel` cycles.

  It also proves lemmas about runs, and the end-to-end scenario of `main`.
- `Emulator` (emulator.dfy) is the imperative CPU. Its `Cpu` class has the register and memory arrays and a mutable position. It provides the methods `AddXY`, `Cycle` and `Run`, the last one a `while` loop. Each is proved to do to the record what the `Machine` functions do to its value. `MainScenario` is what `main` does.

The C `while (1)` loop has no bound. The model gives it a `fuel` bound on the number of cycles, with the precondition `position + 2 * fuel <= 0x1000`. That precondition keeps every fetch inside memory. Below it, a run either halts or uses up its fuel. The unhandled-opcode `printf` is modelled as a log: `Run` returns the sequence of opcodes it would have printed, in order.

`main.c` implements only HALT and 8XY4. It has no call stack, no jumps and no fault state. An unhandled opcode only prints a message, and the loop goes on with the next opcode.

## Model

| member | source | states |
|---|---|---|
| Bits.OrDisjoint | main.c:39 | the OR of `hi << k` and `lo` equals `hi * 2^k + lo` when `lo` fits in the low k bits, so OR of a shifted high byte and a low byte is addition |
| Bits.AndLowMask | main.c:53 | `a & (2^n - 1)` keeps exactly the n low bits of `a` |
| Bits.AndShiftedMask | main.c:50-52 | masking with `m << k` equals masking the value shifted right by k with `m`, shifted back |
| Bits.NibbleAt | main.c:50-52 | `(w & (0xF << k)) >> k` is the four bits of `w` starting at bit k |
| Opcode.Combine | main.c:31-40 | the OR of `op_byte1 << 8` and `op_byte2` is `hi * 256 + lo`: the opcode is big-endian |
| Opcode.CombineInjective | main.c:35-39 | two byte pairs that make the same opcode are the same pair |
| Opcode.CombineSurjective | main.c:35-39 | every 16-bit word is made from its own high and low byte |
| Opcode.DecodeSplits | main.c:50-53 | the four masked and shifted fields are each below 16, and `c*4096 + x*256 + y*16 + d` is the opcode |
| Opcode.Decode | main.c:50-53 | the decoded fields recompose to the opcode and are its base-16 digits |
| Opcode.NibbleDigits | main.c:50-53 | nibbles that recompose to an opcode are its digits: the decomposition is unique |
| Opcode.DigitsEncode | main.c:50-53 | decoding the opcode built from four nibbles gives back those nibbles |
| Opcode.EncodeDigits | main.c:50-53 | recomposing the digits of an opcode gives back the opcode |
| Opcode.Classify | main.c:56-64 | the chain selects HALT exactly when all four fields are 0, and ADD exactly when `c == 8` and `d == 4`, with `x` and `y` taken from the fields; everything else is unhandled |
| Opcode.DispatchCases | main.c:56-64 | on the opcode itself: HALT exactly for `0x0000`, ADD exactly for `op >> 12 == 8` and `op & 0xF == 4` with x and y its middle digits, unhandled otherwise |
| Opcode.Dispatch | main.c:50-64 | the instruction an opcode selects, the dispatch chain applied to its fields: HALT exactly for the word `0x0000` |
| Opcode.ClassifyAddAnyRegisters | main.c:58-59 | every opcode `8XY4` selects ADD Vx,Vy, whatever x and y are |
| Machine.Fetch | main.c:31-40 | the opcode at the position has the byte there as its high byte and the next byte as its low byte: `op / 256 == memory[p]` and `op % 256 == memory[p + 1]` |
| Machine.Carry | main.c:23-27 | the flag is 0 or 1, and it is the ninth bit of the sum of two bytes |
| Machine.AddXY | main.c:13-28 | VF always receives the carry, even when x is VF. For x other than VF, Vx plus 256 times VF is the full sum. The other 14 registers keep their values |
| Machine.AddXYTruncates | main.c:18-20 | for x other than VF, Vx receives `(Vx + Vy) mod 256` |
| Machine.Step | main.c:45-64 | one cycle advances the position by exactly 2 and never writes memory |
| Machine.StepCases | main.c:45-64 | a cycle halts exactly on `0x0000`, with registers untouched and nothing reported. On `8XY4` it applies AddXY to x and y. On any other opcode it reports the opcode and leaves the registers as they were |
| Machine.Run | main.c:43-66 | memory is unchanged, and the final position is the starting one plus 2 per cycle run. A run that does not halt uses up its fuel. A halted run ran at least one cycle. At most one opcode is reported per cycle |
| Machine.RunHaltedOnHalt | main.c:56-57 | a run that halts stopped on a HALT opcode: the two bytes just before the final position are zero |
| Machine.StepHaltsOnZero | main.c:56-57 | a cycle halts only when both bytes at the position are zero |
| Machine.RunCoversMemory | main.c:44-47 | with the largest fuel `Run` allows, `(0x1000 - p) / 2`, a run that does not halt ends where the next fetch would read past the end of memory |
| Machine.RunAtHalt | main.c:56-57 | a run at a HALT opcode returns after one cycle, with the position at the HALT address + 2 and the registers unchanged |
| Machine.RunPastAdd | main.c:58-59 | at an `8XY4` opcode the run is AddXY followed by the run from the next opcode, with nothing reported |
| Machine.RunPastUnhandled | main.c:60-63 | at an unhandled opcode the run reports it and goes on from the next opcode with registers and memory unchanged |
| Machine.RunGoesOn | main.c:44-65 | one more non-halting cycle extends a run prefix: reports are appended and the cycle count grows by one |
| Machine.Scenario | main.c:76-92 | from V0=5, V1=V2=V3=10 with `8014 8024 8034 0000` at address 0, any run of 4 to 2048 cycles halts after 4 cycles at position 8 with V0 = 35, VF = 0 and nothing reported |
| Machine.ScenarioFrom2 | main.c:85-87 | the same program from its second opcode with V0 = 15 halts after 3 cycles with V0 = 35 |
| Machine.ScenarioFrom4 | main.c:86-87 | the same program from its third opcode with V0 = 25 halts after 2 cycles with V0 = 35 |
| Emulator.Cpu.constructor | main.c:71 | a fresh record has all registers and all memory zero and position 0 |
| Emulator.Cpu.ReadOpcode | main.c:31-40 | the OR of the shifted high byte and the low byte is `Machine.Fetch` of the record, so the record and the value semantics read one and the same opcode. It is a function on the record, so it changes nothing. It needs `p + 1 < 0x1000` |
| Emulator.Cpu.AddXY | main.c:13-28 | the register array afterwards is Machine.AddXY of the array before, and position and memory are unchanged |
| Emulator.Cpu.Cycle | main.c:45-64 | one turn of the loop body leaves the record in the state Machine.Step gives, with the same halt status and report |
| Emulator.Cpu.Run | main.c:43-66 | the loop leaves the record in the final state of Machine.Run from the starting record, and returns its halt status and the opcodes it reported |
| Emulator.MainScenario | main.c:69-92 | the program of main halts with nothing reported, V0 = 35 and VF = 0 |

## Left out

- `printf` (main.c:62, main.c:95) is console output. The unhandled-opcode message is modelled as the opcode appended to the returned `reports` sequence. The final message of `main` is not modelled.
- The `assert` in `main` (main.c:92) becomes the postcondition of `MainScenario` and the lemma `Machine.Scenario`.
- Emulator.Cpu.Run: the C loop runs until HALT, with no bound, and the model runs at most `fuel` cycles. No opcode moves the position backwards. So the largest fuel the precondition allows, `(0x1000 - p) / 2`, covers every cycle whose fetch stays inside memory (`Machine.RunCoversMemory`), and `MainScenario` runs with exactly that fuel. What the bound leaves out is the C behaviour after the position reaches the end of memory, where `read_opcode` would read past the array.
- Emulator.Cpu.ReadOpcode: the C reads `memory[p]` and `memory[p + 1]` without a bounds check, and `position_in_memory` is a `size_t` that could wrap. The model requires `p + 1 < 0x1000` instead of inventing a behaviour for a read past the end. `Run` requires `position + 2 * fuel <= 0x1000`.
- Emulator.Cpu.AddXY: in C, `x` and `y` are `uint8_t`, and an index of 16 or more would write outside the register array. The model takes nibbles, which is all the run loop ever passes.
- Calls, returns, jumps, skips, a stack and fault results do not exist in `main.c`. They are not modelled.
- The record's fields are modelled as separate arrays. Pointer aliasing between `cpu` and other memory is not modelled.
