# flake: a verified model of the CHIP-8 interpreter and its debugger

This project models the core of `flake`, a CHIP-8 emulator with a
built-in step debugger. The model has two parts:

- `src/chip8.rs`: the machine. It covers the opcode decoder, `tick`
  (fetch, decode, execute), the scheduler (`step_debug`,
  `step_with_time`), `new`, `load`, `clone_from` and `compare`.
- `src/debugger.rs`: the debugger. It covers its key bookkeeping and
  `update`, the per-frame driver that pauses, plays, steps, rewinds,
  undoes and changes the execution speed.

Each part appears twice:

- as a specification on values: a `State` datatype for the machine and a
  `Session` datatype for the debugger, with pure functions such as
  `Machine.Tick`, `Machine.StepDebug`, `Machine.CatchUp` and
  `DebugSession.Update`;
- as the source's own objects: class `Interpreter.Chip8`, whose fields
  are the interpreter's arrays and registers, and class
  `Debugging.Debugger`, whose `states` stack holds machine snapshots.
  Every method of these classes is proved to leave the object in the
  state given by the matching specification function.

Lemmas then state what the source promises about those functions.

Files:

| file | module | contents |
|---|---|---|
| `bytes.dfy` | `Bytes` | `u8`/`u16` types; the bitwise `&`, `|`, `^`; the sprite-bit test |
| `opcodes.dfy` | `OpCodes` | the 35 opcodes, the decoder, an encoder and the round trips between them |
| `machine.dfy` | `Machine` | machine state, faults, `tick`, `step_debug`, `step_with_time`, `new`, `load` as functions |
| `compare.dfy` | `Compare` | the change report of `compare` |
| `interpreter.dfy` | `Interpreter` | class `Chip8`; its methods are proved against `Machine` |
| `session.dfy` | `DebugSession` | debugger state and `update` as functions |
| `debugger.dfy` | `Debugging` | class `Debugger`; its methods are proved against `DebugSession` |
| `*_lemmas.dfy` | | properties of instructions, the display, memory, the scheduler and debugger sessions |

Modelling choices:

- Faults. Where the source panics, the model reports a `Fault`. A single
  `load`, `tick` or `step_debug` that faults leaves the machine as it was.
  After a fault inside the catch-up loop of `step_with_time`, the machine
  is left unspecified. The panic cases are:
  - an unknown opcode;
  - `RET` on an empty stack;
  - a fetch, memory access or key index out of range;
  - a `u8`/`u16` overflow in `LD F, Vx` or `ADD I, Vx`, as in a build
    with overflow checks (see "## Left out");
  - an image too large for memory.
- Time.
  - Instants are natural numbers.
  - The periods `1/(700·speed)` and `1/(60·speed)` are supplied by a
    `Clock` as functions of the speed. They must be positive.
  - The speed is a whole number of tenths: normal is 10.
  - "Now" is a parameter.
- Randomness. The random byte of `RND` is a parameter. The catch-up loop
  draws the k-th byte from `rand(k)`.
- The code, not the prose description, decides behaviour. The cases
  where they differ:
  - `SUB`/`SUBN` set VF to 1 on a borrow.
  - When both deadlines are equal, an instruction runs, not the timers.
  - The slower key sets the speed to 0.1, not a decrement.
  - `DRW` clears VF before reading Vx and Vy, so a sprite drawn at VF
    starts at column or row 0.
  - The key tests `SKP`/`SKNP` fault when Vx ≥ 16.

## Model

| member | source | states |
|---|---|---|
| OpCodes.Decode | src/chip8.rs:226-291 | every word decodes to a well-formed opcode (register fields below 16, addresses below 0x1000); an unknown word is kept in `Unkn` |
| OpCodes.DecodeFields | src/chip8.rs:230-288 | the family dispatch on the split nibbles yields a well-formed opcode, and `Unkn` carries the original word |
| OpCodes.WordOfFields | src/chip8.rs:230-238 | the four nibbles, the low byte and the 12-bit address extracted by the decoder reassemble the word |
| OpCodes.DecodeEncode | src/chip8.rs:226-291 | decoding the encoding of any known opcode gives that opcode back |
| OpCodes.DecodeEncodeLogic | src/chip8.rs:253-257 | round trip for the 8XY0–8XY3 family, dispatched on the low nibble |
| OpCodes.DecodeEncodeArithmetic | src/chip8.rs:258-260 | round trip for 8XY4, 8XY5, 8XY7 |
| OpCodes.DecodeEncodeShifts | src/chip8.rs:261-263 | round trip for 8XY6 and 8XYE |
| OpCodes.DecodeEncodeKeys | src/chip8.rs:271-275 | round trip for EX9E and EXA1 |
| OpCodes.EncodeDecode | src/chip8.rs:226-291 | re-encoding a decoded word gives the word back, except that 5XY_ and 9XY_ lose their low nibble |
| OpCodes.UnknownWords | src/chip8.rs:241-288 | a word is unknown exactly when it is a 0-family word other than 00E0/00EE, an 8-family word with low nibble 8–D or F, or an E/F word with an unlisted low byte |
| OpCodes.IgnoredNibble | src/chip8.rs:250 | 5XY_ and 9XY_ words that differ only in the low nibble decode alike |
| Bytes.SpriteTest | src/chip8.rs:406-413 | the mask test `(0x80 >> dx) & line != 0` holds exactly when bit dx of the row, counted from the top bit, is set |
| Bytes.BitsBelow | src/chip8.rs:473-481 | or and xor of two values below a power of two stay below it, so `OR`/`XOR` produce bytes |
| Bytes.XorSelf | src/chip8.rs:479-481 | `a ^ a == 0` |
| Bytes.AndOrSelf | src/chip8.rs:473-478 | `a & a == a` and `a | a == a` |
| Bytes.BitAnd | src/chip8.rs:476-478 | `a & b` is a byte no larger than either operand; `Bytes.AndOrSelf` and `Bytes.SpriteTest` give its other properties |
| Bytes.BitOr | src/chip8.rs:473-475 | `a | b` is a byte no smaller than either operand; `Bytes.BitsBelow` and `Bytes.AndOrSelf` give its other properties |
| Bytes.BitXor | src/chip8.rs:479-481 | `a ^ b` is a byte, and it is 0 exactly when the operands are equal; `Bytes.BitsBelow` and `Bytes.XorSelf` give its other properties |
| Bytes.XorZero | src/chip8.rs:479-481 | `a ^ b == 0` exactly when `a == b`, by induction on the bits |
| Bytes.XorOnes | src/chip8.rs:414 | xor with all ones below a power of two is the complement, by induction on the bits |
| Bytes.XorAllOnes | src/chip8.rs:414 | the blit's `cell ^= 255` equals `255 - cell`, the form `Machine.Blit` uses |
| Machine.FirstPressed | src/chip8.rs:521-527 | the key found is pressed and no lower key is; none is found only when no key is pressed |
| Machine.Origin | src/chip8.rs:398-402 | the sprite origin is `(Vx mod 64, Vy mod 32)`, always on the display |
| Machine.Blit | src/chip8.rs:403-419 | the display changes at a cell exactly when the sprite covers it, clipped at the right and bottom edges, with its bit set; a changed cell is XOR-ed with 0xFF |
| Machine.Collides | src/chip8.rs:412-418 | holds exactly when some cell that was 255 before the blit is 0 after it |
| Machine.Initial | src/chip8.rs:294-311 | a well-formed machine at 0x200 with an empty stack, both deadlines at `now` and no sound |
| Machine.Load | src/chip8.rs:313-338 | refuses, with `ImageTooLarge`, exactly the images longer than the memory past 0x200; otherwise only memory changes |
| Machine.Trap | src/chip8.rs:383-547 | each fault names the instruction that raises it: the unknown word, `RET` on an empty stack, a key test with Vx ≥ 16, the `LD F`/`ADD I` overflow, or a draw, `LD B` or block copy past memory; no other instruction faults |
| Machine.SkipIf | src/chip8.rs:445-464 | only pc changes, and it moves on by 2 exactly when the condition holds |
| Machine.Draw | src/chip8.rs:398-421 | only the display and VF change, and VF ends 0 or 1 |
| Machine.StoreBcd | src/chip8.rs:543-547 | I..I+2 hold three decimal digits that recompose Vx; the rest of memory is unchanged |
| Machine.StoreRegisters | src/chip8.rs:511-515 | I..I+x hold V0..Vx; the rest of memory is unchanged |
| Machine.LoadRegisters | src/chip8.rs:516-520 | V0..Vx hold I..I+x; the other registers are unchanged |
| Machine.IndexEffect | src/chip8.rs:389-547 | `LD I`, `ADD I` and `LD F` change only I; `ADD I` adds Vx exactly and `LD F` points I at glyph Vx below 0x100; `LD B` and `LD [I]` change only memory; `LD Vx, [I]` changes only the registers |
| Machine.Arithmetic | src/chip8.rs:392-510 | other instructions leave the registers alone; a register instruction changes only Vx and VF; one without a flag changes only Vx; the flag is 0 or 1 except for `SHL VF, Vy` |
| Machine.Unflagged | src/chip8.rs:392-481 | loads, immediate add, logic and random change only Vx |
| Machine.Flagged | src/chip8.rs:482-510 | add, subtract and the shifts change only Vx and VF, and VF ends 0 or 1 except for `SHL VF, Vy` |
| Machine.Execute | src/chip8.rs:378-547 | a successful instruction keeps the mode, keypad, speed, deadlines and sound flag; its faults are never fetch or image faults |
| Machine.Fetch | src/chip8.rs:374-376 | the word is big-endian: its high byte is memory[pc], its low byte memory[pc + 1] |
| Machine.Effect | src/chip8.rs:383-547 | an instruction that does not fault keeps the mode, keypad, speed, deadlines and sound flag |
| Machine.EffectIgnoresRandom | src/chip8.rs:392-394 | only `RND` depends on the random byte |
| Machine.Tick | src/chip8.rs:373-549 | a successful tick leaves a well-formed machine; what each instruction does is stated by the lemmas `ControlLemmas.SequentialAdvance`, `SkipAdvance`, `TickUnknown`, `FetchFault` and `CallThenReturn`, `ArithmeticLemmas.After`, `DisplayLemmas.Drawn` and `MemoryLemmas.StoreRegisterBlock` |
| Machine.StepDebug | src/chip8.rs:341-364 | exactly one of the two deadlines moves on by its period; the speed is kept; afterwards the sound flag equals `ST > 0` |
| Machine.CountDown | src/chip8.rs:342-349 | the timers never increase, the timer deadline moves on by its period, nothing else changes |
| Machine.Instruction | src/chip8.rs:350-353 | a successful instruction moves the instruction deadline on by its period and keeps the timer deadline and speed |
| Machine.Sound | src/chip8.rs:354-363 | the sound flag becomes `ST > 0` and nothing else changes |
| Machine.CatchUp | src/chip8.rs:366-371 | the loop ends with some deadline at or past `now`; deadlines never move back; the speed is kept |
| Interpreter.Chip8.constructor | src/chip8.rs:294-311 | the new object is the initial machine with both deadlines at `now` |
| Interpreter.Chip8.CloneFrom | src/chip8.rs:119-134 | every field takes the source's value |
| Interpreter.Chip8.Load | src/chip8.rs:313-338 | the object ends as `Machine.Load` gives, or unchanged with the fault |
| Interpreter.Chip8.WriteImage | src/chip8.rs:314-337 | memory becomes the font at 0, the image at 0x200 and zero elsewhere |
| Interpreter.Chip8.ClearMemory | src/chip8.rs:314 | every memory cell is 0 |
| Interpreter.Chip8.CopyToMemory | src/chip8.rs:316-337 | the given range holds the source bytes; other cells are unchanged |
| Interpreter.Chip8.Tick | src/chip8.rs:373-549 | the object ends as `Machine.Tick` gives, or unchanged with the fault |
| Interpreter.Chip8.Dispatch | src/chip8.rs:383-547 | the match of `tick` realises `Machine.Effect` |
| Interpreter.Chip8.ExecuteFlow | src/chip8.rs:386-469 | `CLS`, `RET`, `JP`, `CALL`, `JP V0` realise `Machine.Effect` |
| Interpreter.Chip8.ExecuteSkip | src/chip8.rs:423-527 | the skips and the key wait realise `Machine.Effect` |
| Interpreter.Chip8.ExecuteArithmetic | src/chip8.rs:470-510 | the register instructions give the registers of `Machine.Arithmetic` |
| Interpreter.Chip8.ExecuteUnflagged | src/chip8.rs:392-481 | loads, immediate add, logic and random give `Machine.Arithmetic` |
| Interpreter.Chip8.ExecuteFlagged | src/chip8.rs:482-510 | add, subtract and shifts write Vx then VF as `Machine.Arithmetic` |
| Interpreter.Chip8.ExecuteTimers | src/chip8.rs:528-536 | the timer loads realise `Machine.Effect` |
| Interpreter.Chip8.ExecuteIndex | src/chip8.rs:389-547 | the index and memory instructions realise `Machine.Effect` |
| Interpreter.Chip8.StoreRegisters | src/chip8.rs:511-515 | memory at I..I+x holds V0..Vx as `Machine.StoreRegisters` |
| Interpreter.Chip8.LoadRegisters | src/chip8.rs:516-520 | V0..Vx hold memory at I..I+x as `Machine.LoadRegisters` |
| Interpreter.Chip8.PressedKey | src/chip8.rs:521-527 | the lowest pressed key, or none when no key is pressed |
| Interpreter.Chip8.ClearDisplay | src/chip8.rs:386-388 | every display cell is 0 |
| Interpreter.Chip8.Draw | src/chip8.rs:398-421 | the display becomes the clipped XOR blit and VF the collision flag; no other register changes |
| Interpreter.Chip8.DrawRow | src/chip8.rs:404-420 | one sprite row, stopping at the right edge, keeps the blit and flag invariants |
| Interpreter.Chip8.DrawCell | src/chip8.rs:411-418 | one cell is toggled and VF raised exactly when it was lit and the sprite bit is set |
| Interpreter.AllVisited | src/chip8.rs:398-421 | once the loops stop, the display is the blit and VF is 1 exactly when the blit turned a lit cell off |
| Interpreter.Chip8.StepDebug | src/chip8.rs:341-364 | the object ends as `Machine.StepDebug` gives, or unchanged with the fault |
| Interpreter.Chip8.CountDown | src/chip8.rs:342-349 | the timer half of `step_debug` realises `Machine.CountDown` |
| Interpreter.Chip8.RunInstruction | src/chip8.rs:350-353 | the instruction half of `step_debug` realises `Machine.Instruction` |
| Interpreter.Chip8.UpdateSound | src/chip8.rs:354-363 | the sound flag becomes `ST > 0` |
| Interpreter.Chip8.StepWithTime | src/chip8.rs:366-371 | without a fault the loop ends in the state `Machine.CatchUp` gives; on a fault it returns that fault and the machine is left unspecified |
| ArithmeticLemmas.AddImmediate | src/chip8.rs:433-435 | `ADD Vx, NN` wraps mod 256 and changes no other register, VF included |
| ArithmeticLemmas.AddCarry | src/chip8.rs:482-486 | VF is 1 exactly when Vx + Vy > 255, and VF·256 + Vx is the full sum |
| ArithmeticLemmas.SubtractBorrow | src/chip8.rs:487-491 | VF is 1 exactly when Vx < Vy, and Vx − VF·256 is the true difference |
| ArithmeticLemmas.SubtractReversedBorrow | src/chip8.rs:492-496 | `SUBN`: VF is 1 exactly when Vy < Vx, and Vx − VF·256 is Vy − Vx |
| ArithmeticLemmas.ShiftRight | src/chip8.rs:497-503 | Vx := Vy >> 1 with the shifted-out bit in VF: 2·Vx + VF == Vy |
| ArithmeticLemmas.ShiftLeft | src/chip8.rs:504-510 | Vx := Vy << 1 mod 256 with the top bit in VF: Vx + 256·VF == 2·Vy |
| ArithmeticLemmas.ShiftIntoFlag | src/chip8.rs:497-510 | with x = F the shift applies to the flag: `SHR` leaves 0, `SHL` leaves 0 or 2 |
| ArithmeticLemmas.LogicSelf | src/chip8.rs:473-481 | `XOR Vx, Vx` clears Vx; `AND`/`OR` with itself changes nothing |
| ArithmeticLemmas.RandomMasked | src/chip8.rs:392-394 | `RND Vx, NN` stores at most NN and at most the random byte; only Vx changes |
| ArithmeticLemmas.TimerLoads | src/chip8.rs:528-536 | `LD Vx, DT`, `LD DT, Vx`, `LD ST, Vx` copy between Vx and the timers |
| ArithmeticLemmas.After | src/chip8.rs:395-536 | the register and timer instructions never fault and change only the registers, timers and pc |
| ControlLemmas.SequentialAdvance | src/chip8.rs:374-547 | a straight-line instruction moves pc past itself and keeps the stack |
| ControlLemmas.SkipAdvance | src/chip8.rs:423-464 | each skip adds 4 to pc exactly when its condition holds, else 2, and changes nothing else |
| ControlLemmas.KeyIndexFault | src/chip8.rs:423-432 | `SKP`/`SKNP` with Vx ≥ 16 fault on the keypad index |
| ControlLemmas.Jumps | src/chip8.rs:436-444 | `JP` sets pc to NNN, `JP V0` to NNN + V0; the stack is kept |
| ControlLemmas.CallThenReturn | src/chip8.rs:465-469 | `CALL` pushes the next address and jumps; `RET` then resumes there with the stack restored |
| ControlLemmas.ReturnUnderflow | src/chip8.rs:469 | `RET` on an empty stack faults |
| ControlLemmas.UnknownFatal | src/chip8.rs:383-385 | an unknown opcode faults with its word |
| ControlLemmas.TickUnknown | src/chip8.rs:374-385 | a fetched word that does not decode faults with that word |
| ControlLemmas.FetchFault | src/chip8.rs:374-376 | a fetch past the end of memory faults |
| ControlLemmas.WaitForKeyIdle | src/chip8.rs:521-527 | with no key pressed `LD Vx, K` leaves the whole state, pc included, as it was |
| ControlLemmas.WaitForKeyPressed | src/chip8.rs:521-527 | with a key pressed `LD Vx, K` stores the lowest one and moves on |
| DisplayLemmas.ClearScreen | src/chip8.rs:386-388 | `CLS` turns every cell off and changes nothing else |
| DisplayLemmas.Drawn | src/chip8.rs:398-421 | a draw that does not fault changes only the display, the registers and pc |
| DisplayLemmas.DrawClipped | src/chip8.rs:398-421 | only cells inside the clipped sprite rectangle change; nothing wraps |
| DisplayLemmas.DrawKeepsBinary | src/chip8.rs:409-413 | a display of 0 and 255 cells stays so |
| DisplayLemmas.DrawCollision | src/chip8.rs:398-421 | VF is 1 exactly when some lit cell was turned off; no other register changes |
| DisplayLemmas.DrawTwice | src/chip8.rs:398-421 | drawing the same sprite twice restores the display, for any coordinate registers, VF included |
| DisplayLemmas.DrawAtRightEdge | src/chip8.rs:398-421 | an illustration of `DrawClipped` on one input: a full row drawn at column 60 lights columns 60–63 only and sets no collision |
| DisplayLemmas.DrawFault | src/chip8.rs:404-406 | a sprite row past the end of memory faults |
| MemoryLemmas.DecimalDigits | src/chip8.rs:543-547 | the three digits computed are decimal digits and recompose the byte |
| MemoryLemmas.StoreDecimal | src/chip8.rs:543-547 | `LD B, Vx` writes the hundreds, tens and units at I..I+2 and nothing else |
| MemoryLemmas.StoreDecimalExample | src/chip8.rs:543-547 | an illustration of `StoreDecimal` on one input: 157 is stored as 1, 5, 7 |
| MemoryLemmas.StoreRegisterBlock | src/chip8.rs:511-515 | `LD [I], Vx` copies V0..Vx to I..I+x and changes no other memory |
| MemoryLemmas.LoadRegisterBlock | src/chip8.rs:516-520 | `LD Vx, [I]` copies I..I+x to V0..Vx and changes no other register |
| MemoryLemmas.StoreThenLoad | src/chip8.rs:511-520 | storing V0..Vx and loading them back restores the registers |
| MemoryLemmas.BlockFault | src/chip8.rs:511-520 | the block copies fault when they run past the end of memory |
| MemoryLemmas.DecimalFault | src/chip8.rs:543-547 | `LD B, Vx` faults when I + 2 is past the end of memory |
| MemoryLemmas.AddIndex | src/chip8.rs:540-542 | `ADD I, Vx` adds exactly, and faults when the 16-bit register would overflow |
| MemoryLemmas.FontGlyph | src/chip8.rs:537-539 | `LD F, Vx` points I at the 5-byte glyph of digit Vx; it faults exactly when the `u8` product Vx·5 overflows |
| MemoryLemmas.LoadLayout | src/chip8.rs:313-338 | the font at 0, the image at 0x200, zero elsewhere, nothing but memory changed; a too-long image is refused |
| MemoryLemmas.InitialState | src/chip8.rs:294-311 | a new machine starts at 0x200 with everything blank, both deadlines at `now` and normal speed |
| SchedulerLemmas.TimersDue | src/chip8.rs:341-349 | timers due strictly first count down, saturating at 0, and no instruction runs |
| SchedulerLemmas.InstructionDue | src/chip8.rs:350-353 | otherwise, ties included, one instruction runs and its fault is passed on |
| SchedulerLemmas.CatchUpBounded | src/chip8.rs:366-371 | no deadline ends more than one period past `now` unless it already was |
| SchedulerLemmas.CatchUpSound | src/chip8.rs:354-371 | after a catch-up that ran, the sound flag equals `ST > 0` |
| Compare.CellChanges | src/chip8.rs:31-55 | a cell is listed, with its old and new values, exactly when the two arrays differ there, in ascending order |
| Compare.Diff | src/chip8.rs:28-109 | the report is empty exactly when memory, display, registers, pc, ST, DT, I, mode, both deadlines and the sound flag all agree; `Compare.DiffCells` and `Compare.DiffIgnores` state what it lists and ignores |
| Compare.ScalarChanges | src/chip8.rs:57-106 | the scalar entries never name a cell, and there are none exactly when pc, ST, DT, I, mode, both deadlines and the sound flag agree |
| Compare.NoCellChanges | src/chip8.rs:31-55 | no cell is listed exactly when the arrays are equal |
| Compare.DiffEmpty | src/chip8.rs:28-109 | the report is empty exactly when every compared field agrees |
| Compare.DiffSelf | src/chip8.rs:28-109 | a machine compared with itself reports nothing |
| Compare.DiffCells | src/chip8.rs:31-55 | a cell change is reported exactly when the two machines differ at that cell |
| Compare.DiffIgnores | src/chip8.rs:28-109 | the stack, keypad and speed do not affect the report |
| DebugSession.NewSession | src/debugger.rs:24-32 | a new debugger is enabled, paused, with no history and no key held or pending |
| DebugSession.Consume | src/debugger.rs:33-37 | returns whether a press is pending and clears only that press |
| DebugSession.KeyDown | src/debugger.rs:41-44 | the key becomes held and pending; nothing else changes |
| DebugSession.KeyUp | src/debugger.rs:45-48 | the key is neither held nor pending; nothing else changes |
| DebugSession.MachineEngine | src/debugger.rs:53-89 | the debugger's single step is `Machine.StepDebug` and its catch-up is `Machine.CatchUp` at the frame's instant; both accept and return well-formed machines |
| DebugSession.SpeedCommands | src/debugger.rs:60-71 | the speed keys change only the pending presses and the speed |
| DebugSession.Toggle | src/debugger.rs:72-81 | play flips exactly when its key is pending; entering play moves both deadlines to `now` |
| DebugSession.Commands | src/debugger.rs:60-81 | changes only the pending presses and the play flag of the debugger, and only the speed and deadlines of the machine; play flips exactly when its key is pending |
| DebugSession.Pop | src/debugger.rs:99-109 | restores the latest snapshot and drops it; does nothing on an empty history |
| DebugSession.Rewind | src/debugger.rs:99-109 | the history only shrinks; the machine keeps running |
| DebugSession.Stepped | src/debugger.rs:86-109 | the frame crashes exactly when the step faults; otherwise the stepped pair is the machine before and after that step |
| DebugSession.Paused | src/debugger.rs:85-110 | a step report or a crash happens only when a step press was pending |
| DebugSession.Active | src/debugger.rs:60-110 | the debugger ends up playing exactly when it was playing or play was pressed, but not both; a playing frame reports no step |
| DebugSession.Update | src/debugger.rs:51-112 | terminate happens exactly when enabled with that key pending; the history stays well-formed; the effect of each branch is stated by `SessionLemmas.DisabledFrame`, `Terminate`, `QuietFrame`, `PausedStep`, `Undo`, `RewindHeld`, `ToggleIntoPlay`, `ToggleIntoPause`, `PlayingFrame` and `SpeedKeys` |
| SessionLemmas.ConsumeOnce | src/debugger.rs:33-37 | a second consume without a new press reports nothing |
| SessionLemmas.KeyEvents | src/debugger.rs:41-48 | after key-down the key is held and one consume succeeds; after key-up neither holds |
| SessionLemmas.ConsumeOther | src/debugger.rs:33-37 | consuming one key keeps every other pending press |
| SessionLemmas.KeyDownOther | src/debugger.rs:41-44 | a key-down changes only its own key |
| SessionLemmas.KeyUpOther | src/debugger.rs:45-48 | a key-up changes only its own key |
| SessionLemmas.NoCommands | src/debugger.rs:60-81 | with no command pending, machine and debugger are unchanged but for cleared presses |
| SessionLemmas.QuietFrame | src/debugger.rs:85-110 | a paused frame with nothing pending changes nothing |
| SessionLemmas.PausedStep | src/debugger.rs:86-98 | the step key pushes the old machine, runs one `step_debug` and reports its changes |
| SessionLemmas.Undo | src/debugger.rs:104-109 | the undo key restores the latest snapshot and drops it |
| SessionLemmas.UndoEmpty | src/debugger.rs:104-109 | with no history undo changes nothing |
| SessionLemmas.RewindHeld | src/debugger.rs:99-103 | while rewind is held each paused frame pops one snapshot |
| SessionLemmas.RewindEmpty | src/debugger.rs:99-103 | rewinding past the oldest snapshot does nothing |
| SessionLemmas.ToggleIntoPlay | src/debugger.rs:72-84 | play starts with both deadlines at `now`, pushes that machine and lets it catch up |
| SessionLemmas.ToggleIntoPause | src/debugger.rs:72-81 | pausing changes neither the machine nor the history |
| SessionLemmas.PlayingFrame | src/debugger.rs:82-84 | each playing frame pushes the machine as it was, then catches up |
| SessionLemmas.DisabledFrame | src/debugger.rs:52-56 | a disabled debugger only lets the machine catch up |
| SessionLemmas.Terminate | src/debugger.rs:57-59 | the terminate key ends the run before anything else |
| SessionLemmas.SpeedKeys | src/debugger.rs:60-71 | faster adds a tenth, slower sets one tenth, normal sets ten tenths; the history is kept |
| SessionLemmas.RunSnoc | src/debugger.rs:51-112 | running keys then one more key is running the keys then that key's frame |
| SessionLemmas.StepsThenUndos | src/debugger.rs:86-109 | n step presses then n undo presses give back the exact machine and history when the run keeps running, and with steps that never fault it always keeps running |
| Debugging.Debugger.constructor | src/debugger.rs:24-32 | the new object is `NewSession` |
| Debugging.Debugger.ConsumeKey | src/debugger.rs:33-37 | realises `Consume` |
| Debugging.Debugger.IsKeyDown | src/debugger.rs:38-40 | returns whether the key is held; nothing changes |
| Debugging.Debugger.KeyDownEvent | src/debugger.rs:41-44 | realises `KeyDown` |
| Debugging.Debugger.KeyUpEvent | src/debugger.rs:45-48 | realises `KeyUp` |
| Debugging.Debugger.SpeedCommands | src/debugger.rs:60-71 | realises `DebugSession.SpeedCommands` on the debugger and the machine |
| Debugging.Debugger.Toggle | src/debugger.rs:72-81 | realises `DebugSession.Toggle` |
| Debugging.Debugger.Commands | src/debugger.rs:60-81 | realises `DebugSession.Commands` |
| Debugging.Debugger.Playing | src/debugger.rs:82-84 | pushes the machine; when the catch-up succeeds the machine ends as `Machine.CatchUp` gives; after a `Crashed` outcome the machine is left unspecified |
| Debugging.Debugger.Pop | src/debugger.rs:99-109 | realises `DebugSession.Pop` |
| Debugging.Debugger.Rewind | src/debugger.rs:99-109 | realises `DebugSession.Rewind` |
| Debugging.Debugger.Step | src/debugger.rs:86-98 | pushes the machine, runs `step_debug`, and reports exactly the changes `compare` lists |
| Debugging.Debugger.Stepped | src/debugger.rs:86-109 | realises `DebugSession.Stepped` |
| Debugging.Debugger.Paused | src/debugger.rs:85-110 | realises `DebugSession.Paused`, with the change report |
| Debugging.Debugger.CatchUp | src/debugger.rs:52-56 | the outcome is `Machine.CatchUp`'s; when running, the machine is its state; after `Crashed` the machine is left unspecified |
| Debugging.Debugger.Active | src/debugger.rs:60-110 | realises `DebugSession.Active` |
| Debugging.Debugger.Update | src/debugger.rs:51-112 | realises `DebugSession.Update`: the new debugger, the outcome, the change report and, while running, the machine; after `Crashed` the machine is left unspecified |

## Left out

- `src/main.rs` and `src/sdf.rs` are not part of this model: the window, the rendering pipeline, texture upload, the event loop and `keycode_to_index`. The debugger's keys are abstract key codes.
- Printing: `println!`, the `Debug` formatting of the machine, and the text layout of `compare`. `compare` is modelled as a list of changes, not as a string.
- `process::exit(0)` on the terminate key is the `Terminated` outcome of a frame.
- File I/O in `load`. The file's bytes are the `image` parameter. A missing file (the `Err` return) is not modelled.
- Panics in `load`, `tick` and `step_debug` are faults that leave the machine as it was. The source aborts the process instead, and `load` may already have written part of memory by then.
- `Interpreter.Chip8.StepWithTime`: after a fault the machine is left unspecified. The units before the fault keep their effects, and `Machine.CatchUp` returns only the fault, not that state. The same holds for `Debugging.Debugger.CatchUp`, `Debugging.Debugger.Playing` and `Debugging.Debugger.Update` when the outcome is `Crashed`. The source aborts the process at that point.
- `Machine.Trap`: `LD F, Vx` computes `(Vx * 5) as u16` on a `u8` product, and `ADD I, Vx` computes `I += Vx` on a `u16`. The model follows a build with overflow checks, where both panic; `MemoryLemmas.FontGlyph` and `MemoryLemmas.AddIndex` state that behaviour. A release build wraps instead, giving I = (5·Vx) mod 256 and I = (I + Vx) mod 65536. That is not modelled. The other arithmetic instructions use explicit wrapping or overflowing operations and behave the same in every build.
- Floating point: the speed is a whole number of tenths. The periods computed with `Duration::from_secs_f32` are supplied by `Clock` and must be positive. `f32` rounding of repeated `+= 0.1` is not modelled.
- `Instant::now()` is the `now` parameter. The source reads the clock twice in `Chip8::new` (one read per deadline), twice in the play key and once in `step_with_time`. The model uses one instant per frame, and `Machine.Initial` and `Interpreter.Chip8.constructor` give both deadlines the same `now`.
- `rand::random` is an injected byte. In `Debugging.Debugger.Update` and `DebugSession.Run` the same `rand` serves every frame.
- Sound output: only the `sound_playing` flag is modelled. Starting and stopping audio is not.
- The `mode` field is carried and compared but never changes, as in the source.
- `Machine.CatchUp` needs a positive `Clock`. A zero period would make `step_with_time` loop forever, and the model excludes it.
- `Interpreter.Chip8.StepWithTime`, `Debugging.Debugger.Update` and the other methods whose contracts use `old` are proved against the specification functions. Their properties are the lemmas about those functions.
