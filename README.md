# A line-oriented virtual machine, modelled in Dafny

This project models the core of a small virtual machine written in Rust.
The model covers two stages of the machine's development.

The earlier stage is line-addressed:

- A program is a vector of `Line`s, each four `u32` words.
- Word 0 of a line is an opcode and words 1..3 are its operands.
- The machine fetches the line at its program counter, decodes it into an
  `Instruction` and executes it against the same memory.
- A fetch past the end of memory halts the machine.

The later stage is byte-addressed:

- An in-memory backend keeps a `usize` cursor over a growable byte vector.
- It reads, writes and seeks fixed-width values through the `ReadWriteable`
  trait.

Modules: `Wrappers` holds shared result types, and each other module
models one source file:

- `Wrappers` (wrappers.dfy): `Option`, and an `Outcome` that records a Rust
  panic (`todo!()`, a debug-build overflow check, a slice past the end) as
  a result instead of forbidding it by precondition.
- `Types` (types.dfy, src/types.rs): the `u32` wrapper types, `Line` and
  its 16-byte form, and the closed `Instruction` set with its line codec.
- `LineMemory` (line_memory.dfy, src/machine/memory.rs): the class `Memory`
  holding a program counter and a sequence of lines.
- `VirtualMachine` (machine.dfy, src/machine.rs): the class `Machine`, the
  dispatcher `run_line` and the `run` loop. The pure functions `Execute`
  and `RunSpec` specify them, and lemmas replay the source's unit tests.
- `InMemory` (in_memory.dfy, src/memory/in_memory_memory.rs): the class
  `InMemoryMemory`. A `ReadWriteable` type is modelled as a `Codec`: a
  width of at most 8 bytes, an encoder and a decoder. `ValidCodec` assumes
  that the two round-trip. `U32CodecValid` shows that a 4-byte
  little-endian codec satisfies that assumption.

Modelling choices:

- **Byte order.** The source converts words with native-endian byte
  functions. The model fixes little-endian.
- **Floats.** A `Float` is its 32-bit pattern, so float operands round-trip
  exactly.
- **Instruction count.** The instruction table declares 34 opcodes, and
  the model has all 34.
- **Unbounded runs.** `run` may loop forever, for example on a
  self-jumping program. `Machine.Run` and `RunSpec` therefore take a
  `fuel` bound on the number of executed lines, and they report
  `OutOfFuel` when it is used up.
- **Debug-build semantics.** Integer overflow panics, as in the source's
  debug build and unit tests:
  - `Address::incr` at `u32::MAX` panics. `read_next` of the line at
    address `u32::MAX` is therefore the fault `PcOverflow`.
  - In `seek`, an `i16` sum out of range panics.
  - In `read`, `read_if_present` and `write`, a cursor plus width past
    `usize::MAX` panics.
- **A 64-bit target.** A `usize` holds values below 2^64 (`USIZE_LIMIT`
  in in_memory.dfy). This bound decides when `pc + W` overflows in `read`,
  `read_if_present` and `write`. It also decides where a negative `seek`
  lands.
- **`seek` is modelled as written.** `pc as i16` keeps only the low 16
  bits of the cursor. A negative sum cast back to `usize` becomes a cursor
  near `usize::MAX`. `SeekTruncates` shows both effects.

Behaviour of the source that the model keeps:

- The only dispatcher is the line-addressed one (src/machine.rs:29-74),
  and its jumps go to absolute line addresses.
- `read` slices the vector past its end when the value does not fit, and
  so panics (src/memory/in_memory_memory.rs:21-22). The model returns
  `Panicked(IndexOutOfBounds)`.
- `read_if_present` returns `None` whenever the value does not fit
  completely before the end (src/memory/in_memory_memory.rs:27), and the
  model does the same.

## Model

| member | source | states |
|---|---|---|
| `Types.Address.Incr` | src/types.rs:5-7 | below `u32::MAX`, the incremented address is exactly one more |
| `Types.SignedFromU32` | src/types.rs:40-44 | `u32 as i32`: the result has the same bits modulo 2^32 and is negative exactly when bit 31 is set |
| `Types.SignedToU32` | src/types.rs:46-50 | `i32 as u32`: the result has the same bits modulo 2^32 and has bit 31 set exactly when the value is negative |
| `Types.SignedRoundTrip` | src/types.rs:40-50 | `u32 → SignedInteger → u32` and `SignedInteger → u32 → SignedInteger` are both the identity |
| `Types.FloatRoundTrip` | src/types.rs:55-65 | `u32 → Float → u32` and `Float → u32 → Float` preserve the bit pattern |
| `Types.WordBytes` | src/types.rs:87 | a word's four little-endian bytes reassemble into the same word |
| `Types.WordFromBytesInverse` | src/types.rs:109-112 | four bytes assembled into a word split back into the same four bytes |
| `Types.LineBytes` | src/types.rs:84-90 | word `i` of a line occupies bytes `4i .. 4i+4` of its 16-byte form |
| `Types.LineFromBytes` | src/types.rs:105-128 | `From<[u8;16]>` (and the identical `From<&[u8;16]>`) yields the line whose byte form is the input, so bytes → line → bytes is the identity |
| `Types.LineBytesRoundTrip` | src/types.rs:84-116 | `as_bytes` followed by `From<[u8;16]>` gives back the original line |
| `Types.AsBytes` | src/types.rs:84-90 | the loop filling a zeroed 16-byte array produces the line's byte form, which decodes back to the line |
| `Types.Opcode` | src/types.rs:171-223 | every instruction's opcode is one of the 34 declared opcodes |
| `Types.Decode` | src/types.rs:138-149 | an undeclared word 0 decodes to `NoOperation`; otherwise the instruction has opcode word 0 and its k-th operand is word k+1 |
| `Types.Encode` | src/types.rs:151-167 | decoding the encoded line of any instruction gives the same instruction |
| `Types.EncodeDecode` | src/types.rs:138-167 | a line with a declared opcode and zero unused words is re-encoded to itself after decoding |
| `Types.ToLine` | src/types.rs:151-167 | the running-index encoder puts the opcode in word 0 and the k-th operand in word k, leaves the rest 0, and equals `Encode` |
| `Types.DecodeExamples` | src/types.rs:230-256 | `[0,0,0,0]` and `[999,0,0,0]` decode to `NoOperation`, `[1,10,0,0]` to `Jump(10)`, `[2,10,11,12]` to `JumpIfNotEqual(10,11,12)` |
| `LineMemory.Stored` | src/machine/memory.rs:40-47 | after `set(a, l)`: the length is max(old length, a+1), line `a` is `l`, other old lines are kept, and other new lines are the default line |
| `LineMemory.NextLine` | src/machine/memory.rs:24-30 | the fetch halts exactly when `pc` is past the end, and then `pc` stays put; otherwise it yields `lines[pc]` and advances `pc` by one, or at `u32::MAX` panics |
| `LineMemory.Memory.Default` | src/machine/memory.rs:5-9 | the default memory has `pc = 0` and no lines |
| `LineMemory.Memory.FromVec` | src/machine/memory.rs:12-16 | `from_vec` (and `From<Vec<Line>>`, lines 50-56) sets `pc = 0` and keeps the lines unchanged |
| `LineMemory.Memory.WithOffset` | src/machine/memory.rs:19-22 | hands back the same memory with `pc` set to the address and lines unchanged |
| `LineMemory.Memory.SetOffset` | src/machine/memory.rs:32-34 | sets `pc` to the address and leaves the lines unchanged |
| `LineMemory.Memory.Get` | src/machine/memory.rs:36-38 | `Some(lines[a])` exactly when `a` is in range, `None` otherwise; reads state only |
| `LineMemory.Memory.ReadNext` | src/machine/memory.rs:24-30 | performs `NextLine` on the memory's state and never changes the lines |
| `LineMemory.Memory.Set` | src/machine/memory.rs:40-47 | the lines become `Stored(old lines, a, l)`; `pc` is unchanged and memory never shrinks |
| `VirtualMachine.Execute` | src/machine.rs:29-74 | a line panics exactly when it decodes to one of the 30 `todo!()` instructions; executing never shrinks memory; only the two jumps move `pc` |
| `VirtualMachine.ExecuteNoOperation` | src/machine.rs:31 | a no-op changes nothing |
| `VirtualMachine.ExecuteJump` | src/machine.rs:32-34 | `Jump(a)` sets `pc := a`, even past the end, and keeps the lines |
| `VirtualMachine.ExecuteJumpIfNotEqual` | src/machine.rs:35-39 | the jump is taken exactly when the two `get`s differ; two out-of-range addresses compare equal; the lines never change |
| `VirtualMachine.ExecuteMoveIntegerUnsigned` | src/machine.rs:67-69 | writes `[n,0,0,0]` at line `a` through `set`, growing memory, and keeps `pc` |
| `VirtualMachine.ExecuteUnimplemented` | src/machine.rs:40-72 | every other declared instruction panics with its own opcode |
| `VirtualMachine.RunSpec` | src/machine.rs:76-80 | with no fuel left the run ends as `OutOfFuel` with the state unchanged; with `pc` past the end it halts at once with the state unchanged; every fault is a `pc` overflow or the `todo!()` of a declared opcode |
| `VirtualMachine.RunHaltsPastEnd` | src/machine.rs:76-80 | a run that halts leaves `pc` at or past the last line |
| `VirtualMachine.RunNeverShrinks` | src/machine.rs:76-80 | running never shrinks memory |
| `VirtualMachine.RunThroughNoOperations` | src/machine.rs:76-80 | a run over lines that all decode to no-ops halts with `pc` at the end of memory and the lines unchanged |
| `VirtualMachine.RunEmptyProgram` | src/machine.rs:87-92 | the empty program halts with memory equal to the default |
| `VirtualMachine.RunSingleNoOperation` | src/machine.rs:94-102 | a one-no-op program halts with `pc = 1` and the program unchanged |
| `VirtualMachine.RunJumpOutsideProgram` | src/machine.rs:104-112 | `Jump(100)` halts with `pc = 100` and the program unchanged |
| `VirtualMachine.RunSetsData` | src/machine.rs:114-124 | `MoveIntegerUnsigned(123, 0)` overwrites itself with `[123,0,0,0]` and halts with `pc = 1` |
| `VirtualMachine.RunSetsFutureMemory` | src/machine.rs:126-144 | `MoveIntegerUnsigned(999, 5)` grows memory to six lines, with four default lines and `[999,0,0,0]` last, and halts with `pc = 6` |
| `VirtualMachine.RunJumpIfNotEqualTaken` | src/machine.rs:146-165 | unequal lines 1 and 2 make the jump to 4 skip the final write, so memory is unchanged with `pc = 4` |
| `VirtualMachine.RunJumpIfNotEqualNotTaken` | src/machine.rs:167-186 | equal lines 1 and 2 run on to the final write of `[999,0,0,0]` to line 0, ending with `pc = 4` |
| `VirtualMachine.Machine.constructor` | src/machine.rs:13-17 | `Machine::new` owns a fresh default memory |
| `VirtualMachine.Machine.Load` | src/machine.rs:19-21 | replaces the memory with a fresh one holding the program at `pc = 0` |
| `VirtualMachine.Machine.WithProgram` | src/machine.rs:23-27 | a new machine with the program loaded at `pc = 0` |
| `VirtualMachine.Machine.RunLine` | src/machine.rs:29-74 | the new memory state is `Execute` of the old state and the line; on a panic the state is untouched |
| `VirtualMachine.Machine.Run` | src/machine.rs:76-80 | result and final state are `RunSpec` of the initial state; a halted run ends with `pc` past the last line |
| `InMemory.Written` | src/memory/in_memory_memory.rs:35-42 | after a write, length is max(old length, pc+W), bytes `[pc, pc+W)` are the encoding, bytes added before `pc` are 0, and other old bytes are unchanged |
| `InMemory.WriteThenPeek` | src/memory/in_memory_memory.rs:35-42 | a value written at `pc` decodes back from `pc` |
| `InMemory.WriteKeepsDisjointValue` | src/memory/in_memory_memory.rs:35-42 | a write leaves every stored value that does not overlap it readable as before |
| `InMemory.SignedLow16` | src/memory/in_memory_memory.rs:46 | `pc as i16` is the `i16` that agrees with `pc` modulo 2^16 |
| `InMemory.SeekTarget` | src/memory/in_memory_memory.rs:45-47 | the seek overflows exactly when `pc as i16 + pos` leaves the `i16` range; otherwise the new cursor is the one `usize` in the bottom or top 2^15 of the range that agrees with `pc + pos` modulo 2^16 |
| `InMemory.SeekInRange` | src/memory/in_memory_memory.rs:45-47 | with `pc <= 32767` and `0 <= pc + pos <= 32767`, the new cursor is `pc + pos` |
| `InMemory.SeekTruncates` | src/memory/in_memory_memory.rs:45-47 | from 65536, a seek by 0 lands on 0; from 32767, a seek by 1 overflows; from 0, a seek by -1 lands on `usize::MAX` |
| `InMemory.InMemoryMemory.FromVec` | src/memory/in_memory_memory.rs:11-14 | `pc = 0` and the buffer unchanged |
| `InMemory.InMemoryMemory.Read` | src/memory/in_memory_memory.rs:20-24 | with `pc + W <= len` it returns the decoded bytes `[pc, pc+W)` and advances `pc` by `W`; otherwise it panics without moving; the buffer never changes |
| `InMemory.InMemoryMemory.ReadIfPresent` | src/memory/in_memory_memory.rs:26-33 | `None` with nothing changed when `pc + W > len`; otherwise exactly `read`'s value in `Some` and the same advance |
| `InMemory.InMemoryMemory.Write` | src/memory/in_memory_memory.rs:35-43 | the buffer becomes `Written(old buffer, pc, encode(v))`, `pc` never moves, and the result is always `Ok` unless `pc + W` overflows |
| `InMemory.InMemoryMemory.Seek` | src/memory/in_memory_memory.rs:45-48 | `pc` becomes `SeekTarget(pc, pos)`, or the seek panics and `pc` is kept; the buffer never changes |
| `InMemory.WriteThenRead` | src/memory/in_memory_memory.rs:20-43 | a `write` then a `read` at the same cursor returns the written value and leaves the cursor just past it |

## Left out

- src/memory/file_memory.rs: the file backend's behaviour is file I/O through the operating system's cursor, so the model does not cover it.
- src/main.rs: argument parsing and process entry are not modelled.
- src/memory/memory_trait.rs and src/memory/mod.rs declare a signature and re-exports only. The trait is not modelled separately, because `InMemoryMemory` has its four methods directly.
- tests/test_file_memory.rs uses a builder, `Machine::with_memory` and float opcodes that are not in the modelled sources.
- `ReadWriteable` and `Offset` are not part of this model. A value type is the abstract `Codec`, whose round trip is assumed through `ValidCodec`.
- The `dbg!` calls in `read` print to standard error, which is not modelled.
- Floating-point arithmetic is not modelled. A `Float` is only a bit pattern, and all float opcodes are `todo!()` anyway.
- `Machine.Run`: the model executes at most `fuel` lines. A program that never halts ends the model's run with `OutOfFuel` instead of running forever.
- `Machine.Load`: only the `Vec<Line>` form of `impl Into<Memory>` is modelled. Loading an existing `Memory` value is left out.
- `Types.FloatFromU32` and `Types.FloatToU32` (`From<u32> for Float` and back, src/types.rs:55-65) keep the bit pattern and have no contracts of their own. `FloatRoundTrip` states their round trip.
- `Line::new` (`NewLine`) and `From<[u32; 4]>` / `From<&[u32; 4]>` are the identity on the four words in this model, so they have no separate contracts.
- `InMemoryMemory.Write`: a resize that the allocator cannot satisfy is not modelled.
- The derived `Debug`, `Hash` and ordering traits are not modelled.
