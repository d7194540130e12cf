# CHIP-8 interpreter core, modelled and verified in Dafny

This project models the interpreter core of RubixDev/chip8, a CHIP-8
interpreter written in Rust. The model covers `Vm`, its run loop and its two
key-event readers from `src/vm.rs`, plus the host-key table `key_idx` and
`REQUIRED_KEYS` from `src/input.rs`.

The model has two layers.

- **Values.** The machine state is a datatype (`Machine.State`). One pass
  through the loop of `Vm::run` is a function: `Tick` is the saturating timer
  decrement, `Exec` is fetch, decode, one arm of the opcode `match` and the
  common `pc += 2`, and `Cycle` is `Tick` followed by `Exec`. `Run` repeats
  the cycle. Every arm is an `Effect`, a new state plus how the arm ended:
  fall through to `pc += 2`, `continue`, `break`, a panic, or waiting for a key.
- **The object.** `VmClass.Vm` is a class whose fields are the Rust struct's
  fields. Memory, registers, screen and keypad are `array`s and the stack is
  a `seq`. Its methods update those fields in place with the source's own
  loops: the nested Dxyn loops, the BCD loop, the Fx55/Fx65 loops and the
  event loops of `fetch_key_events` and `wait_for_key`. Each method is proved
  to leave the object in the state that the value layer computes from the
  state before the call. So every lemma about `Exec`, `Cycle` and `Run` also
  holds of the object.

Modules:

- `Bytes`: the `u8` newtype and the Rust integer operations on it (`wrapping_add`, `overflowing_add`, `wrapping_sub`, `saturating_sub`, the bitwise operators, the one-bit shifts).
- `Input`: host keys, input events, `key_idx`, `REQUIRED_KEYS`.
- `Keypad`: applying events to `pressed_keys`, and `wait_for_key` over the queued events.
- `Opcodes`: decoding the two instruction bytes into the arm they select, and the reverse encoding.
- `Machine`: the state, the arms, `Exec`, `Tick`, `Cycle`, `Run`.
- `Alu`, `Display`, `Control`, `Memory`: what the register, draw, control-flow/timer and memory instructions promise.
- `Scenarios`: the three unit tests of `src/vm.rs` (`jumps`, `arithmetic`, `collision`), stated as lemmas about `Machine.Run`.
- `VmClass`: the `Vm` class.

Behaviours of this interpreter worth knowing:

- **Addresses are not masked to 12 bits.** `i` is a `usize`. Fx1E adds with `wrapping_add` modulo 2^64, and Fx29 sets `i` to `Vx * 5`. The program counter is a `usize` too. An access outside the 4096 bytes of memory is a Rust index panic, reported as the `OutOfBounds` outcome; it is never a wrap-around. The same goes for an instruction fetch at `pc + 1 >= 4096`, for Dxyn, Fx33, Fx55 and Fx65 past the end of memory, and for Ex9E/ExA1 with `Vx >= 16`.
- **A call/return pair resumes after the call.** 2nnn pushes the address of the call itself. 00EE pops it and then falls through to `pc += 2`, so execution resumes at the call site plus 2 (`Control.CallThenReturn`).
- **The `arithmetic` test runs three instructions:** the jump, `9010` (which does not skip) and `00EE` (`Scenarios.ArithmeticHalts`).
- **A Dxyn sprite cannot overlap itself.** A sprite has at most 15 rows and 8 columns, so no two of its bits land on the same pixel even with wrap-around. `Display.DrawTogglesCovered` relies on this.

## Model

| member | source | states |
|---|---|---|
| Bytes.WrappingAdd | src/vm.rs:159 | the sum itself below 256, otherwise the sum minus 256 |
| Bytes.OverflowingAdd | src/vm.rs:183 | the wrapped sum, and a carry that is set exactly when the true sum exceeds 255; sum + 256 * carry is the true sum |
| Bytes.WrappingSub | src/vm.rs:190 | a - b when a >= b, otherwise a - b + 256 |
| Bytes.SaturatingSub | src/vm.rs:94-95 | t - d when t >= d, otherwise 0; never above t |
| Bytes.ShiftRight1 | src/vm.rs:195 | the result is below 128 and a = 2 * result + LowBit(a) |
| Bytes.HighBit | src/vm.rs:204 | the bit `a << 1` discards is 1 exactly when a >= 128 |
| Bytes.ShiftLeft1 | src/vm.rs:205 | the result is even and 2a = result + 256 * HighBit(a) |
| Bytes.FlagOr | src/vm.rs:250 | on 0/1 flag values, `\|` is logical or |
| Bytes.FullRowBits | src/vm.rs:433 | every pixel of the sprite row 0xFF is set |
| Bytes.BitOr | src/vm.rs:171 | `\|` on `u8` (the 8xy1 arm), computed on `bv8`; no contract of its own, Bytes.FlagOr states that on flag values it is logical or (the collision flag of Dxyn) |
| Bytes.BitAnd | src/vm.rs:175 | `&` on `u8` (the 8xy2 arm), computed on `bv8`; no contract of its own, Alu.RandomMasks states its use in Cxnn |
| Bytes.BitXor | src/vm.rs:179 | `^` on `u8` (the 8xy3 arm), computed on `bv8`; no contract of its own |
| Bytes.LowBit | src/vm.rs:194 | the bit `a >> 1` discards is 0 or 1; Bytes.ShiftRight1 states that it is the remainder of halving |
| Bytes.SpriteBit | src/vm.rs:249 | `(b >> (7 - column)) & 1 == 1`; no contract of its own, its meaning is stated by Bytes.SpriteBitIsDigit |
| Bytes.SpriteBitIsDigit | src/vm.rs:249 | sprite pixel `column` is the binary digit of weight 2^(7 - column) of the row byte, so bit 7 is the leftmost pixel |
| Input.KeyIdx | src/input.rs:46-70 | an index exactly for a key event of one of the sixteen named keys, and that index is below 16 |
| Input.RequiredKeysAreNamedKeys | src/input.rs:5-22 | a key is in REQUIRED_KEYS exactly when it is one of the keys `key_idx` names |
| Input.HostKey | src/input.rs:48-66 | the inverse table: the host key for each keypad index, always one of REQUIRED_KEYS |
| Input.LayoutPreserved | src/input.rs:48-66 | the 4x4 host block 1234/QWER/ASDF/ZXCV maps position for position onto the keypad 123C/456D/789E/A0BF |
| Input.HostKeyMapsBack | src/input.rs:48-66 | key_idx of HostKey(idx) is idx for every idx < 16 |
| Input.KeyIdxMapsBack | src/input.rs:48-66 | every required key maps to an index, and HostKey of that index is the key again |
| Input.KeyIdxInjective | src/input.rs:48-66 | two required keys with the same index are the same key |
| Input.KeypadIndexHasUniqueKey | src/input.rs:48-66 | every keypad index 0..15 comes from exactly one required key |
| Input.KeyIdxIgnoresValue | src/input.rs:46-47 | the event's value never changes whether or where it maps |
| Input.UnlistedMapsToNone | src/input.rs:68 | other keys and non-key events map to None |
| Input.ConcreteLayout | src/input.rs:48-66 | KEY_X to 0, KEY_1 to 1, KEY_4 to 0xC, KEY_R to 0xD, KEY_F to 0xE, KEY_V to 0xF |
| Keypad.ApplyEvent | src/vm.rs:353-358 | a mapped key becomes pressed exactly when the event's value is non-zero; every other key, and every key for an unmapped event, is unchanged |
| Keypad.ApplyEvents | src/vm.rs:352-360 | the keypad has sixteen keys afterwards; what each key holds is stated by Keypad.LastEventWins |
| Keypad.ApplyEventsSnoc | src/vm.rs:352-360 | events are applied one after another in arrival order |
| Keypad.LastEventWins | src/vm.rs:352-360 | after draining, a key holds the setting of its last event, or its old state if it had none |
| Keypad.WaitForKey | src/vm.rs:363-375 | a key it returns is below 16 and is marked pressed |
| Keypad.WaitForKeyStopsAtFirstPress | src/vm.rs:363-375 | with a press queued, it returns the first press's index, has applied every event up to and including it, and leaves the later events queued |
| Keypad.WaitForKeyWithoutPress | src/vm.rs:364-374 | with no press queued, it applies every event (releases included), finds nothing and empties the queue |
| Keypad.WaitForKeyFindsIffPress | src/vm.rs:363-375 | it finds a key exactly when some queued event is a press |
| Keypad.WaitForKeyResumes | src/vm.rs:364-365 | waiting through press-free events and then on later ones equals waiting on all of them, so the blocking receive is a resumable wait |
| Opcodes.Decode | src/vm.rs:100-326 | the arm of the `match (hi, lo)` and the operands it extracts; no contract of its own, its meaning is stated by Opcodes.DecodeEncode, Opcodes.EncodeDecode and Opcodes.IllegalIffUnmatched |
| Opcodes.Bytes2 | src/vm.rs:385 | `to_be_bytes`: hi * 256 + lo is the word |
| Opcodes.DecodeEncode | src/vm.rs:100-326 | decoding the canonical bytes of any legal instruction gives it back |
| Opcodes.EncodeDecode | src/vm.rs:100-326 | any byte pair an arm accepts is the canonical encoding of what it decodes to |
| Opcodes.IllegalIffUnmatched | src/vm.rs:100-326 | a byte pair goes to a panic arm exactly when it is 0-family other than 00E0/00EE, 5xy?/9xy? with a non-zero low nibble, 8xy8-8xyD/8xyF, Ex?? other than 9E/A1, or Fx?? outside the nine F operations |
| Opcodes.JumpOffsetIgnoresX | src/vm.rs:225-226 | every Bxnn decodes to a jump relative to V0 whose target includes the x nibble as part of nnn |
| Machine.BlankScreen | src/vm.rs:64 | a 32 x 64 screen with every pixel off |
| Machine.Boot | src/vm.rs:57-71 | a well-formed state; its content is stated by Memory.BootLayout |
| Machine.AluAdd | src/vm.rs:181-186 | sixteen registers; its content is stated by Alu.AddRegSemantics |
| Machine.AluSub | src/vm.rs:187-191 | sixteen registers; its content is stated by Alu.SubRegSemantics |
| Machine.AluShiftRight | src/vm.rs:192-196 | sixteen registers; its content is stated by Alu.ShiftRightSemantics |
| Machine.AluSubReverse | src/vm.rs:197-201 | sixteen registers; its content is stated by Alu.SubReverseSemantics |
| Machine.AluShiftLeft | src/vm.rs:202-206 | sixteen registers; its content is stated by Alu.ShiftLeftSemantics |
| Machine.DrawSprite | src/vm.rs:246-252 | a 32 x 64 screen; which pixels change is stated by Display.DrawTogglesCovered, Display.DrawChangesOnlyCovered and Display.DrawTwiceRestores |
| Machine.Collides | src/vm.rs:245-250 | the OR over the loops of (pixel AND sprite bit); Display.CollisionMeansErased states that it holds exactly when a lit pixel goes dark |
| Machine.SpriteRows | src/vm.rs:246-249 | at most n rows; Control.SpriteRowsShort states when fewer than n rows are in memory |
| Machine.ExecDraw | src/vm.rs:238-254 | a well-formed state; Memory.DrawEffect states the draw in range and Control.OutOfBoundsIffFault states when it panics |
| Machine.ExecReturn | src/vm.rs:105-111 | no contract of its own; Control.ReturnEffect and Control.HaltsIffReturnOnEmptyStack state both of its cases |
| Machine.ExecSkipKey | src/vm.rs:255-270 | a well-formed state; Control.SkipKeyDrains states the drain and Control.PcDiscipline the skip |
| Machine.ExecWaitKey | src/vm.rs:276-280 | a well-formed state; Control.WaitKeyEffect and Control.AwaitsIffNoPress state both of its cases |
| Machine.BcdDigits | src/vm.rs:305-308 | no contract of its own; Memory.BcdDigitsSpell states that the digits spell the byte |
| Machine.ExecBcd | src/vm.rs:301-309 | a well-formed state; Memory.BcdEffect states the write in range and Control.OutOfBoundsIffFault when it panics |
| Machine.StoredMemory | src/vm.rs:313-315 | 4096 bytes; their content is stated by Memory.StoreRegsWrites |
| Machine.LoadedRegs | src/vm.rs:320-322 | sixteen registers; their content is stated by Memory.LoadRegsReads |
| Machine.ExecStoreRegs | src/vm.rs:310-316 | a well-formed state; Memory.StoreRegsWrites and Memory.StoreThenLoadRegs state its content |
| Machine.ExecLoadRegs | src/vm.rs:317-323 | a well-formed state; Memory.LoadRegsReads and Memory.StoreThenLoadRegs state its content |
| Machine.ExecInstr | src/vm.rs:100-327 | a well-formed state; the Alu, Display, Control and Memory lemmas state what each arm does |
| Machine.Fetch | src/vm.rs:98 | no contract of its own; Control.OutOfBoundsIffFault states that a fetch past the end of memory panics |
| Machine.Finish | src/vm.rs:100-328 | no contract of its own; Control.PcDiscipline states where pc goes, Control.HaltsIffReturnOnEmptyStack when the loop breaks |
| Machine.Exec | src/vm.rs:98-328 | a well-formed state; Control.PcDiscipline, Control.HaltsIffReturnOnEmptyStack, Control.IllegalIffIllegalInstruction, Control.OutOfBoundsIffFault and Control.AwaitsIffNoPress state how a pass ends |
| Machine.Tick | src/vm.rs:94-95 | no contract of its own; Control.TickTimers states the saturating countdown |
| Machine.Cycle | src/vm.rs:93-328 | a well-formed state; Control.CycleTimers and Control.SetTimerEffect state the timers over a cycle |
| Machine.Run | src/vm.rs:80-329 | at most one cycle per byte; a run still going has used every byte, and a stopped run went at least one cycle |
| Memory.BootLayout | src/vm.rs:57-71 | booting puts FONT_SET at address 0, keeps every other byte of the image, sets pc to 0x200, I to 0, and leaves the stack and queue empty, registers and both timers zero, keys released and the screen blank |
| Memory.FontSpriteInFont | src/vm.rs:296-300 | Fx29 sets I to 5 * Vx, which lies inside the font set for digits 0 to F |
| Memory.BcdDigitsSpell | src/vm.rs:305-308 | the three digits are below 10 and 100 d0 + 10 d1 + d2 is the byte |
| Memory.BcdEffect | src/vm.rs:301-309 | Fx33 in range writes the digits of Vx at I, I+1, I+2, changes no other byte and moves to the next instruction |
| Memory.StoreRegsWrites | src/vm.rs:310-316 | Fx55 puts V0..Vx at I..I+x as far as memory reaches and changes no other byte |
| Memory.LoadRegsReads | src/vm.rs:317-323 | Fx65 loads V0..Vx from I..I+x as far as memory reaches and keeps the other registers |
| Memory.StoreThenLoadRegs | src/vm.rs:310-323 | loading back from where Fx55 dumped gives the registers unchanged, in range or not |
| Memory.DumpThenLoadProgram | src/vm.rs:310-323 | the program Fx55; Fx65 keeps running, and the Fx65 changes nothing but pc: it reloads exactly the registers the Fx55 dumped |
| Memory.DrawEffect | src/vm.rs:238-254 | Dxyn in range XORs the sprite at I onto the screen at (Vx, Vy), sets VF to 1 exactly when some pixel that was on is now off, and moves on |
| Memory.DrawTwiceProgram | src/vm.rs:238-254 | executing the same Dxyn twice (x, y not VF) restores the screen |
| Memory.RedrawReportsCollision | src/vm.rs:238-254 | the second of two identical Dxyn sets VF to 1 when some set sprite bit lands on a pixel that was off before the first |
| Alu.AddRegSemantics | src/vm.rs:181-186 | 8xy4 for every x and y: VF = 1 exactly when Vx + Vy >= 256; for x other than VF, Vx = (Vx + Vy) mod 256; for 8Fy4 the carry overwrites the sum; no other register changes |
| Alu.SubRegSemantics | src/vm.rs:187-191 | 8xy5 for every x and y, flag = (Vx > Vy) written first: for x, y other than VF, VF = flag and Vx = (Vx - Vy) mod 256; for 8xF5, Vx = (Vx - flag) mod 256; for 8Fy5, VF = (flag - Vy) mod 256; 8FF5 leaves VF = 0; no other register changes |
| Alu.SubReverseSemantics | src/vm.rs:197-201 | 8xy7 for every x and y, flag = (Vy > Vx) written first: for x, y other than VF, VF = flag and Vx = (Vy - Vx) mod 256; for 8xF7, Vx = (flag - Vx) mod 256; for 8Fy7, VF = (Vy - flag) mod 256; 8FF7 leaves VF = 0; no other register changes |
| Alu.ShiftRightSemantics | src/vm.rs:192-196 | 8xy6: for x other than VF, VF = the low bit of Vx and Vx = Vx / 2; 8Fy6 always leaves VF = 0; no other register changes |
| Alu.ShiftLeftSemantics | src/vm.rs:202-206 | 8xyE: for x other than VF, VF = the top bit of Vx and Vx = 2 Vx mod 256; 8FyE leaves VF = 2 * (VF >> 7); no other register changes |
| Alu.ShiftsIgnoreY | src/vm.rs:192-206 | the shifts give the same result whatever the y nibble |
| Alu.ShiftRightExample | src/vm.rs:192-196 | 8xy6 on 0b11 gives VF = 1 and Vx = 1 |
| Alu.AddImmKeepsFlag | src/vm.rs:155-160 | 7xnn adds modulo 256 and leaves VF alone |
| Alu.RandomMasks | src/vm.rs:231-237 | Cxnn stores the random byte masked by nn and changes nothing else |
| Display.DrawTogglesCovered | src/vm.rs:246-252 | the pixel that sprite bit (row, col) lands on, wrapped modulo 32 and 64, toggles exactly when the bit is set |
| Display.DrawChangesOnlyCovered | src/vm.rs:246-252 | a pixel changes exactly when some set sprite bit lands on it |
| Display.DrawTwiceRestores | src/vm.rs:246-252 | XOR-drawing the same sprite at the same place twice gives the screen back |
| Display.CollisionMeansErased | src/vm.rs:245-252 | the OR of (old pixel AND sprite bit) is 1 exactly when some pixel that was on is off afterwards |
| Display.CollisionErases | src/vm.rs:250-251 | a set bit over a lit pixel turns it off |
| Display.ErasedCollides | src/vm.rs:250-251 | a pixel that went off was hit by a set bit while lit |
| Display.BlankNeverCollides | src/vm.rs:245-252 | nothing collides with a blank screen |
| Display.RedrawCollides | src/vm.rs:245-252 | when a set sprite bit landed on a pixel that was off, drawing the same sprite again collides |
| Display.DrawnStep | src/vm.rs:248-251 | one step of the inner loop flips only the pixel it lands on, which no earlier bit has touched |
| Display.CollidesStep | src/vm.rs:250 | one step adds a collision exactly when its bit is set and lands on a lit pixel |
| Control.SpriteRowsShort | src/vm.rs:246-249 | Dxyn runs out of memory exactly when n > 0 and I + n > 4096 |
| Control.PcDiscipline | src/vm.rs:100-328 | a cycle that keeps running leaves pc at the jump/call target, nnn + V0, the return address + 2, or pc + 2, or pc + 4 when a skip condition holds |
| Control.HaltsIffReturnOnEmptyStack | src/vm.rs:105-111 | the loop ends normally exactly on 00EE with an empty stack |
| Control.IllegalIffIllegalInstruction | src/vm.rs:324-326 | the illegal-instruction panic happens exactly on a byte pair with no arm, and with the state untouched |
| Control.OutOfBoundsIffFault | src/vm.rs:98-323 | a cycle panics on an index exactly when the fetch, the sprite rows, Vx as a key, I+2 for Fx33, or I+x for Fx55/Fx65 is out of range |
| Control.AwaitsIffNoPress | src/vm.rs:276-280 | Fx0A stops to wait exactly when no queued event is a key press |
| Control.WaitKeyEffect | src/vm.rs:276-280 | Fx0A either takes the first queued press into Vx and leaves the later events queued, or applies every event and waits with pc still on the Fx0A |
| Control.SkipKeyDrains | src/vm.rs:255-270 | Ex9E/ExA1 drain the whole queue into the keypad |
| Control.JumpEffect | src/vm.rs:112-117 | 1nnn sets pc to nnn and changes nothing else |
| Control.JumpOffsetEffect | src/vm.rs:225-230 | Bnnn sets pc to nnn + V0, whatever the x nibble |
| Control.CallEffect | src/vm.rs:118-124 | 2nnn pushes the address of the call and sets pc to nnn |
| Control.ReturnEffect | src/vm.rs:105-111 | 00EE pops the last address and resumes two bytes after it |
| Control.CallThenReturn | src/vm.rs:105-124 | a return that finds the stack as the call left it resumes after the call, with the caller's stack |
| Control.TickTimers | src/vm.rs:94-95 | both timers drop by one and stay at zero; nothing else changes |
| Control.CycleTimers | src/vm.rs:94-95 | over a cycle the timers only tick unless the instruction is Fx15 or Fx18 |
| Control.SetTimerEffect | src/vm.rs:281-290 | Fx15/Fx18 load the timer with Vx after the tick |
| Control.RunSplits | src/vm.rs:80-329 | running a + b cycles is running a cycles and then b more from where it stopped, if it is still running |
| Control.RunStopsForGood | src/vm.rs:80-329 | a run that stopped after k cycles never uses the later bytes |
| Control.RunOneMore | src/vm.rs:80-329 | a run still going after k cycles runs cycle k + 1 from where it is, on the next byte |
| Scenarios.LoadProgram | src/vm.rs:382-386 | the image holds each test word big-endian at 0x200 + 2k |
| Scenarios.ArithmeticHalts | src/vm.rs:418-427 | the `arithmetic` test halts normally after 3 cycles at pc 0x208 with V0 = V1 = 0 (the jump passes over both loads) |
| Scenarios.JumpsHalts | src/vm.rs:400-416 | the `jumps` test halts after 4 cycles at pc 0x208 with V1 = 0xFF and V2 = 0xFE, so 9120 skipped the zero word at 0x206 |
| Scenarios.CollisionHalts | src/vm.rs:429-445 | the `collision` test halts normally on cycle 9 at its final 00EE (pc 0x216), so neither `1fff` trap is taken; it ends with VF = 1, I = 0x202 and a blank screen |
| VmClass.Vm.constructor | src/vm.rs:57-71 | the new object holds the boot state of the image |
| VmClass.Vm.Send | src/input.rs:38-42 | events sent to the channel are appended to the queue; nothing else changes |
| VmClass.Vm.Tick | src/vm.rs:94-95 | the object's timers tick as Machine.Tick says |
| VmClass.Vm.FetchKeyEvents | src/vm.rs:351-361 | the keypad becomes ApplyEvents of the old keypad and queue, and the queue is empty |
| VmClass.Vm.WaitForKey | src/vm.rs:363-375 | the key returned, the keypad and the remaining queue are what Keypad.WaitForKey computes |
| VmClass.Vm.Draw | src/vm.rs:238-254 | the nested loops leave the object, and report the flow, that ExecDraw computes, including the panic with the rows before it drawn |
| VmClass.Vm.DrawRow | src/vm.rs:247-252 | one row of the inner loop extends the drawn-so-far screen and VF by that row |
| VmClass.Vm.Plot | src/vm.rs:248-251 | one pixel is XOR-ed with the bit, VF ORed with the collision, nothing else changes |
| VmClass.Vm.ClearScreen | src/vm.rs:101-104 | every pixel is off and nothing else changes |
| VmClass.Vm.StoreBcd | src/vm.rs:301-309 | the BCD loop leaves the state and flow ExecBcd computes |
| VmClass.Vm.StoreRegs | src/vm.rs:310-316 | the dump loop leaves the state and flow ExecStoreRegs computes |
| VmClass.Vm.LoadRegs | src/vm.rs:317-323 | the load loop leaves the state and flow ExecLoadRegs computes |
| VmClass.Vm.SkipKey | src/vm.rs:255-270 | Ex9E/ExA1 on the object agree with ExecSkipKey |
| VmClass.Vm.WaitKey | src/vm.rs:276-280 | Fx0A on the object agrees with ExecWaitKey |
| VmClass.Vm.ExecuteFlow | src/vm.rs:105-124 | 00EE, 1nnn, 2nnn and Bnnn on the object agree with ExecInstr |
| VmClass.Vm.ExecuteSkip | src/vm.rs:125-148 | 3xnn, 4xnn, 5xy0 and 9xy0 on the object agree with ExecInstr |
| VmClass.Vm.ExecuteSet | src/vm.rs:149-160 | 6xnn, 7xnn, Cxnn and Fx07 on the object agree with ExecInstr |
| VmClass.Vm.ExecuteBitwise | src/vm.rs:165-180 | 8xy0 to 8xy3 on the object agree with ExecInstr |
| VmClass.Vm.ExecuteArith | src/vm.rs:181-201 | 8xy4, 8xy5 and 8xy7, in the source's order of writes, agree with ExecInstr |
| VmClass.Vm.ExecuteShift | src/vm.rs:192-206 | 8xy6 and 8xyE on the object agree with ExecInstr |
| VmClass.Vm.ExecuteIndex | src/vm.rs:281-300 | Annn, Fx15, Fx18, Fx1E and Fx29 on the object agree with ExecInstr |
| VmClass.Vm.ExecuteInstr | src/vm.rs:100-327 | any arm of the opcode `match` on the object agrees with ExecInstr |
| VmClass.Vm.Execute | src/vm.rs:98-328 | fetch, decode, execute and `pc += 2` on the object agree with Exec |
| VmClass.Vm.Step | src/vm.rs:93-328 | one pass through the loop on the object agrees with Cycle |
| VmClass.Vm.Run | src/vm.rs:80-329 | the loop on the object agrees with Machine.Run, stopping at the first cycle that does not keep running |

## Left out

- Rendering: `show_screen` and the viuer terminal output (src/vm.rs:333-349), the `println!`/`print!` tracing and the screen clear at start-up are output I/O only. The screen is modelled as state.
- Audio: `src/audio.rs`, the rodio sink and its play/pause logic, and the 50 ms hold on `sound_start` depend on floating point, wall-clock time and an external library. Fx18 only sets the sound timer.
- Input plumbing: `start_listeners` (device discovery and one thread per device) is concurrency and evdev I/O. The channel is a queue of events that the host fills with `Vm.Send`. `Machine.Run` and `Vm.Run` keep the queue fixed for the whole run; events that listener threads add between cycles are covered only by alternating `Vm.Send` with `Vm.Step` (or with shorter `Vm.Run`s), and no lemma composes runs with sends.
- Pacing: `thread::sleep` and `env::set_var` have no effect on the machine state.
- Program loading: `src/main.rs` (argument parsing, file reading, padding) is not part of this model. `Boot` takes any 4096-byte image, and `Scenarios.LoadProgram` builds the images of the unit tests.
- Randomness: `thread_rng` is replaced by a parameter, the byte Cxnn masks; `Run` takes one byte per cycle.
- Termination: `Vm::run` loops until it halts or panics. The model's `Run` takes at most one cycle per supplied byte, so a program that never stops is described by its finite prefixes.
- Blocking receive: when no key press is queued, `wait_for_key` blocks on the channel. The model reports `AwaitingKey` instead, keeps pc on the Fx0A, and has already applied the queued events. With pc still on the Fx0A, the next `Execute` after a `Send` picks up where it left off (`Keypad.WaitForKeyResumes`). Resuming through `Step` ticks the timers once more, whereas the original does not tick them while it blocks. A disconnected channel is not modelled either: when no device has every key of `REQUIRED_KEYS`, or every listener thread has died at its `unwrap`, the last `Sender` is gone and `recv().unwrap()` panics instead of blocking; the model still reports `AwaitingKey`.
- Panics: all index panics are reported as the single `OutOfBounds` outcome, together with the state at the moment of the panic. This includes a debug-build overflow of `i + k`. A release build would wrap `i + k` modulo 2^64 and could index low memory; that is not modelled.
- The two `panic!("illegal instruction")` arms (the unknown 8xy? nibble and the catch-all) are one outcome, `IllegalInstruction`; the panic message is not modelled.
