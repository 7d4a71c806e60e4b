# CHIP-8 interpreter core, modelled and verified in Dafny

This project models the CHIP-8 virtual machine of `src/cpu.rs`. The `CPU` holds:

- 4096 bytes of memory;
- sixteen byte registers V0..VF;
- the 16-bit index register I;
- the delay and sound timers;
- the program counter, the stack pointer and a 16-slot return stack;
- the `pc_advance` flag.

`CPU::run` loads the font and the program. It then loops:

- it ticks both timers;
- it fetches a big-endian 16-bit word at the program counter and splits it into four nibbles;
- it dispatches on the nibble pattern to one of 34 handlers;
- it advances the program counter by 2 unless the handler cleared `pc_advance`.

An unlisted pattern ends the run.

The model has two layers:

- **Values.** The state is the datatype `Isa.State`. Every handler, the dispatch and one whole iteration (`Isa.Perform`, `Isa.Exec`) are pure functions on it. `Driver` adds initialisation, the timers and the loop of `run` (`Driver.Loop`, `Driver.Run`).
- **Objects.** `Interpreter.Cpu` is a class whose fields are the fields of `CPU`:
  - memory, registers and stack are arrays updated in place, and the display is a 2048-cell `array<U32>`;
  - every handler is a method proved against its `Isa` function through `Model()`;
  - this holds for `draw` with its nested loops, `reg_to_mem` and `mem_to_reg` with theirs, `wait_for_key` and the digit loop of `store_bcd`;
  - `Step` and `Run` are proved against `Isa.Exec` and `Driver.Run`.

The properties are lemmas over the value layer, grouped by subject:

- `Alu`: flags and write order of 8xy_.
- `Graphics`: the collision flag, the cells a draw may touch, and drawing twice.
- `MemoryOps`: BCD, save/restore of registers, and font glyphs.
- `Flow`: skips, jumps, call/return, stack depth and waiting for a key.
- `Driver`: timers.
- `SampleRun`: a whole run of a small program.

Integer and panic semantics:

- **Wrapping arithmetic.** Plain u8 and u16 `+`, `-` and `*` wrap, as in a release build (`Bytes.Wrap8`, `Bytes.Wrap16`).
- **Out-of-bounds indexes panic.** This covers memory at pc, pc + 1 and I + k, a return-stack slot, and a key number above 0xF. A panic ends the run: it is the `Panicked` outcome (`Fault` for the class), and the machine after it is not described.
- **Reaching memory through I.** `I + k` is a wrapping u16 sum. `Isa.InBounds` shows that the whole range can be read or written exactly when `count == 0 || I + count <= 4096`.
- **The display.** A cell is "on" when its low byte is non-zero (`buffer[k] as u8 > 0`). Draw writes `u32::MAX` or 0.

Where the code differs from the usual CHIP-8 description, the model follows the code:

- Fx0A stores the **highest** held key. The loop overwrites Vx for every held key in increasing order.
- Each timer drops by 1 every **9th** loop iteration, because its counter runs 0..8.
- `call` pre-increments the stack pointer. From an empty stack, slot 0 is not written and nesting stops at 15. A `ret` on the empty stack does not panic: the u8 stack pointer wraps from 0 to 255. The next `call` then wraps it back to 0 and writes slot 0, and sixteen calls nest.
- `sub`, `subn`, `shr` and `shl` write VF first and Vx last. `add` writes VF last.

## Model

| member | source | states |
|---|---|---|
| `Opcode.Word` | src/cpu.rs:94-98 | the byte at pc is the high byte of the word, the byte at pc + 1 the low byte |
| `Opcode.Split` | src/cpu.rs:100-103 | the four nibbles, weighted 0x1000, 0x100, 0x10 and 1, add up to the word |
| `Opcode.Nnn` | src/cpu.rs:212 | the 12-bit address built from b, c, d has exactly those three nibbles |
| `Opcode.Kk` | src/cpu.rs:233 | the byte immediate built from c, d has exactly those two nibbles |
| `Opcode.Decode` | src/cpu.rs:108-150 | a word is left unmatched only when its first nibble is 0, 5, 8, 9, E or F; every other prefix always names a handler |
| `Opcode.Pack` | src/cpu.rs:100-103 | packing four nibbles into a word and splitting it again gives them back |
| `Opcode.DecodeEncode` | src/cpu.rs:108-142 | every instruction is decoded back from its own encoding, so no two patterns overlap |
| `Opcode.DecodeAlu` | src/cpu.rs:118-126 | the nine 8xy_ patterns are told apart by the last nibble |
| `Opcode.DecodeTimersAndMemory` | src/cpu.rs:134-142 | the nine Fx__ patterns are told apart by the last two nibbles |
| `Opcode.FieldsDecode` | src/cpu.rs:108-142 | filling the decoded operands back into their pattern gives the original nibbles |
| `Opcode.EncodeDecode` | src/cpu.rs:108-142 | every word that decodes to an instruction is that instruction's encoding |
| `Opcode.OperandsOfWord` | src/cpu.rs:98-103 | in a fetched instruction, nnn is the word mod 0x1000, x the low nibble of the first byte, and kk the second byte |
| `Opcode.ZeroWordIsUnknown` | src/cpu.rs:143-149 | the word 0x0000 matches no pattern |
| `Display.Blank` | src/cpu.rs:197-200 | the cleared buffer has 2048 cells, every one 0 and off |
| `Display.Cell` | src/cpu.rs:354-357 | the written index is below 2048, its column is (x + col) mod 64 and its row (y + row) mod 32 |
| `Display.RowAt` | src/cpu.rs:355 | the sprite row that can land on a cell is below 32 |
| `Display.ColAt` | src/cpu.rs:354 | the sprite column that can land on a cell is below 64 |
| `Display.RowColOfCell` | src/cpu.rs:354-357 | RowAt and ColAt recover the row and column of a pixel's cell |
| `Display.CellOfRowCol` | src/cpu.rs:354-357 | every cell is the cell of its own RowAt and ColAt, so the wrap covers the whole screen |
| `Display.Xored` | src/cpu.rs:357-366 | the written cell is u32::MAX or 0, and it is on exactly when the sprite bit differs from the old pixel |
| `Display.Drawn` | src/cpu.rs:345-368 | the buffer part-way through the blit keeps 2048 cells |
| `Display.DrawnStart` | src/cpu.rs:343-345 | before the first pixel the buffer is unchanged and there is no collision |
| `Display.DrawnStep` | src/cpu.rs:353-367 | blitting pixel (r, c) writes only its own cell, which until then holds its original value |
| `Display.DrawnRowEnd` | src/cpu.rs:345-368 | finishing sprite row r is starting row r + 1, for both the buffer and the collision flag |
| `Display.CollidesStep` | src/cpu.rs:357-364 | the collision flag grows by exactly "the sprite bit is set and the cell was on" |
| `Display.DrawnBinary` | src/cpu.rs:366 | a buffer of 0 and u32::MAX cells stays so after a blit |
| `Display.DrawnTouchesOnlySprite` | src/cpu.rs:353-366 | a cell that no sprite pixel lands on keeps its value |
| `Display.DrawnTwice` | src/cpu.rs:360-366 | blitting the same sprite at the same place twice restores a 0/u32::MAX buffer |
| `Display.XoredTwice` | src/cpu.rs:360-366 | XORing the same bit twice into a 0 or u32::MAX cell restores it |
| `Display.DrawnAtPixel` | src/cpu.rs:353-366 | the finished blit XORs each sprite pixel into the cell it lands on |
| `Display.CollisionErases` | src/cpu.rs:357-364 | a collision names a cell that went from on to off |
| `Display.ErasureCollides` | src/cpu.rs:357-364 | a cell that went from on to off is a collision |
| `Display.CollidesIffErased` | src/cpu.rs:357-364 | the collision flag is set exactly when some cell went from on to off |
| `Isa.InBounds` | src/cpu.rs:347 | the range I .. I + count can be indexed without a panic, with a wrapping u16 sum, exactly when count is 0 or I + count <= 4096 |
| `Isa.Ret` | src/cpu.rs:205-209 | panics exactly when the stack pointer indexes past the stack; otherwise pc becomes the slot at the stack pointer, the stack pointer drops by 1 modulo 256 (0 wraps to 255), the advance flag is cleared, and nothing else changes |
| `Isa.Jmp` | src/cpu.rs:211-222 | pc becomes nnn with no auto-advance; only pc and pc + 1 may change in memory, and memory changes exactly when the jump targets itself and those bytes were not already 0; registers, I, timers and stack are unchanged |
| `Isa.Call` | src/cpu.rs:224-230 | panics exactly when the stack pointer plus 1 modulo 256 is past the stack; otherwise the stack pointer becomes that value, its slot holds pc + 2 modulo 0x10000, pc becomes nnn without auto-advance, and memory, registers, I, timers and every other stack slot are unchanged |
| `Isa.Skip` | src/cpu.rs:232-237 | only pc can change, and it changes exactly when Vx == kk |
| `Isa.SkipIfNot` | src/cpu.rs:239-244 | only pc can change, and it changes exactly when Vx != kk |
| `Isa.SkipR` | src/cpu.rs:246-250 | only pc can change, and it changes exactly when Vx == Vy |
| `Isa.SetI` | src/cpu.rs:252-255 | Vx becomes kk and nothing else changes |
| `Isa.AddI` | src/cpu.rs:257-260 | Vx becomes Vx + kk mod 256 with no carry flag, and nothing else changes |
| `Isa.Store` | src/cpu.rs:262-264 | Vx becomes Vy, Vy keeps its value, and nothing else changes |
| `Isa.Or` | src/cpu.rs:266-268 | only Vx changes, and each of its 8 bits is set exactly when it is set in the old Vx or in Vy |
| `Isa.And` | src/cpu.rs:270-272 | only Vx changes, each of its 8 bits is set exactly when it is set in both the old Vx and Vy, and the result is at most Vy |
| `Isa.Xor` | src/cpu.rs:274-276 | only Vx changes, and each of its 8 bits is set exactly when the old Vx and Vy differ there |
| `Isa.Add` | src/cpu.rs:278-283 | only Vx and VF change (their values: `Alu.AddCarries`) |
| `Isa.Sub` | src/cpu.rs:285-293 | only Vx and VF change (their values: `Alu.SubBorrows`) |
| `Isa.Shr` | src/cpu.rs:295-299 | only Vx and VF change (their values: `Alu.ShrKeepsLowBit`) |
| `Isa.Subn` | src/cpu.rs:301-309 | only Vx and VF change (their values: `Alu.SubnBorrows`, `Alu.SubnOfFlagUsesNewFlag`, `Alu.SubnIntoFlagLosesFlag`) |
| `Isa.Shl` | src/cpu.rs:311-315 | only Vx and VF change (their values: `Alu.ShlKeepsHighBit`) |
| `Isa.SkipRNot` | src/cpu.rs:317-321 | only pc can change, and it changes exactly when Vx != Vy |
| `Isa.LoadI` | src/cpu.rs:323-326 | I becomes nnn and nothing else changes |
| `Isa.JmpPc` | src/cpu.rs:328-332 | pc becomes exactly nnn + V0 without auto-advance, and nothing else changes |
| `Isa.Rnd` | src/cpu.rs:334-337 | only Vx changes, and it has no bit outside kk |
| `Isa.Draw` | src/cpu.rs:339-371 | panics exactly when a sprite byte lies outside memory; otherwise only VF changes among the registers, and the buffer keeps 2048 cells |
| `Isa.Sprite` | src/cpu.rs:345-347 | the n sprite bytes are memory[I + off] for off < n |
| `Isa.SkipIfKey` | src/cpu.rs:373-378 | panics exactly when Vx > 0xF; otherwise only pc can change, and it changes exactly when key Vx is held |
| `Isa.SkipIfNotKey` | src/cpu.rs:380-385 | panics exactly when Vx > 0xF; otherwise only pc can change, and it changes exactly when key Vx is not held |
| `Isa.LoadDelay` | src/cpu.rs:387-389 | Vx becomes the delay timer and nothing else changes |
| `Isa.LastHeld` | src/cpu.rs:395-400 | the result is -1 or a held key, and no key above it is held |
| `Isa.WaitForKey` | src/cpu.rs:391-401 | only Vx and the advance flag can change |
| `Isa.SetDelay` | src/cpu.rs:403-406 | the delay timer becomes Vx and nothing else changes |
| `Isa.SetSound` | src/cpu.rs:408-411 | the sound timer becomes Vx and nothing else changes |
| `Isa.AddToI` | src/cpu.rs:413-415 | I becomes I + Vx mod 0x10000 and nothing else changes |
| `Isa.SetIToSprite` | src/cpu.rs:417-419 | only I changes; it is 5 * Vx modulo 256 (the u8 product wraps), which is 5 * Vx for a hex digit Vx |
| `Isa.Digits` | src/cpu.rs:425-430 | the pushed digits are below 10, there are none exactly for 0, and the last one is non-zero |
| `Isa.StoreBcd` | src/cpu.rs:421-435 | panics exactly when I .. I + 2 is outside memory; otherwise only memory[I .. I + 2] can change (digits: `MemoryOps.StoreBcdWritesDigits`) |
| `Isa.RegToMem` | src/cpu.rs:437-441 | panics exactly when I .. I + x is outside memory; otherwise memory[I + k] == Vk for k <= x, and all other memory and all registers are unchanged |
| `Isa.MemToReg` | src/cpu.rs:443-447 | panics exactly when I .. I + x is outside memory; otherwise Vk == memory[I + k] for k <= x, and V(x+1)..VF and all non-register state are unchanged |
| `Isa.Dispatch` | src/cpu.rs:108-150 | the step halts exactly on an unmatched pattern, changing nothing then; a running result stays well formed |
| `Isa.DispatchLow` | src/cpu.rs:109-117 | the handlers of 00E0 through 7xkk never halt the run |
| `Isa.DispatchAlu` | src/cpu.rs:118-126 | the 8xy_ handlers never halt the run |
| `Isa.DispatchHigh` | src/cpu.rs:127-133 | the 9xy0 through ExA1 handlers never halt the run |
| `Isa.DispatchF` | src/cpu.rs:134-142 | the Fx__ handlers never halt the run |
| `Isa.Perform` | src/cpu.rs:92-154 | after the fetch the step halts exactly on Unknown, and then only sets the advance flag; otherwise the result is well formed |
| `Isa.Exec` | src/cpu.rs:92-154 | a pc whose two bytes do not fit in memory panics; the step halts exactly when the fetched word matches no pattern |
| `Driver.PowerOn` | src/cpu.rs:24-40 | a new CPU has zero memory, registers, I, timers, stack pointer and stack, pc 512 and the advance flag set |
| `Driver.LoadSprites` | src/cpu.rs:174-195 | memory[0..80] becomes the font, and the rest of memory and the state are unchanged |
| `Driver.LoadProgram` | src/cpu.rs:47 | panics exactly when the program does not fit above 512; otherwise memory[512 + k] is byte k, and nothing else changes |
| `Driver.Tick` | src/cpu.rs:61-68 | a tick never raises a timer and lowers it by at most 1, only when the counter was 8 and resetting it to 0 |
| `Driver.TicksClosedForm` | src/cpu.rs:61-68 | after n ticks a positive timer has dropped once per 9 iterations and stops at 0 |
| `Driver.DelayOfOneLastsNineIterations` | src/cpu.rs:61-68 | a delay of 1 reads 0 after exactly 9 iterations |
| `Driver.DropsOncePerNine` | src/cpu.rs:82-87 | every 9 iterations a timer drops by exactly 1 until it reaches 0 |
| `Driver.TickBoth` | src/cpu.rs:61-87 | the timer ticks change only the two timers |
| `Driver.Loop` | src/cpu.rs:56-170 | a run that does not crash leaves a well-formed state and a 2048-cell buffer |
| `Driver.LoopAppend` | src/cpu.rs:56-170 | running over frames a then b is running over a and, if the window was still open, continuing over b from that state and those counters; a stop or crash is final |
| `Driver.Run` | src/cpu.rs:42-47 | a program that does not fit above 512 crashes the run |
| `Interpreter.DecimalDigits` | src/cpu.rs:422-430 | the `while num > 0` loop pushes exactly `Isa.Digits(num)` |
| `Interpreter.Cpu.constructor` | src/cpu.rs:24-40 | the new object's state is `Driver.PowerOn()` |
| `Interpreter.Cpu.LoadSprites` | src/cpu.rs:174-195 | the state after the method is `Driver.LoadSprites` of the state before |
| `Interpreter.Cpu.Clear` | src/cpu.rs:197-200 | the buffer becomes `Display.Blank()` |
| `Interpreter.Cpu.Ret` | src/cpu.rs:205-209 | reports a panic exactly when `Isa.Ret` panics, and otherwise leaves `Isa.Ret`'s state |
| `Interpreter.Cpu.Jmp` | src/cpu.rs:211-222 | the new state is `Isa.Jmp` of the old one |
| `Interpreter.Cpu.Call` | src/cpu.rs:224-230 | reports a panic exactly when `Isa.Call` panics, and otherwise leaves `Isa.Call`'s state |
| `Interpreter.Cpu.Skip` | src/cpu.rs:232-237 | the new state is `Isa.Skip` of the old one |
| `Interpreter.Cpu.SkipIfNot` | src/cpu.rs:239-244 | the new state is `Isa.SkipIfNot` of the old one |
| `Interpreter.Cpu.SkipR` | src/cpu.rs:246-250 | the new state is `Isa.SkipR` of the old one |
| `Interpreter.Cpu.SetI` | src/cpu.rs:252-255 | the new state is `Isa.SetI` of the old one |
| `Interpreter.Cpu.AddI` | src/cpu.rs:257-260 | the new state is `Isa.AddI` of the old one |
| `Interpreter.Cpu.Store` | src/cpu.rs:262-264 | the new state is `Isa.Store` of the old one |
| `Interpreter.Cpu.Or` | src/cpu.rs:266-268 | the new state is `Isa.Or` of the old one |
| `Interpreter.Cpu.And` | src/cpu.rs:270-272 | the new state is `Isa.And` of the old one |
| `Interpreter.Cpu.Xor` | src/cpu.rs:274-276 | the new state is `Isa.Xor` of the old one |
| `Interpreter.Cpu.Add` | src/cpu.rs:278-283 | the new state is `Isa.Add` of the old one |
| `Interpreter.Cpu.Sub` | src/cpu.rs:285-293 | the new state is `Isa.Sub` of the old one |
| `Interpreter.Cpu.Shr` | src/cpu.rs:295-299 | the new state is `Isa.Shr` of the old one |
| `Interpreter.Cpu.Subn` | src/cpu.rs:301-309 | the new state is `Isa.Subn` of the old one |
| `Interpreter.Cpu.Shl` | src/cpu.rs:311-315 | the new state is `Isa.Shl` of the old one |
| `Interpreter.Cpu.SkipRNot` | src/cpu.rs:317-321 | the new state is `Isa.SkipRNot` of the old one |
| `Interpreter.Cpu.LoadI` | src/cpu.rs:323-326 | the new state is `Isa.LoadI` of the old one |
| `Interpreter.Cpu.JmpPc` | src/cpu.rs:328-332 | the new state is `Isa.JmpPc` of the old one |
| `Interpreter.Cpu.Rnd` | src/cpu.rs:334-337 | the new state is `Isa.Rnd` of the old one, with the random byte as an input |
| `Interpreter.Cpu.Draw` | src/cpu.rs:339-371 | reports a panic exactly when `Isa.Draw` panics, and otherwise leaves `Isa.Draw`'s registers and buffer |
| `Interpreter.Cpu.DrawRows` | src/cpu.rs:345-368 | the `for off` loop leaves the finished blit in the buffer, and VF is set exactly on a collision |
| `Interpreter.Cpu.DrawRow` | src/cpu.rs:346-367 | one sprite row moves the buffer and VF from row off to row off + 1 of the blit |
| `Interpreter.Cpu.DrawPixel` | src/cpu.rs:353-367 | one pixel moves the buffer and VF one step along the blit |
| `Interpreter.Cpu.RowBits` | src/cpu.rs:346-351 | `bits[j]` is 1 exactly when bit j of the row, counted from the most significant, is set |
| `Interpreter.Cpu.Plot` | src/cpu.rs:354-366 | writes only the pixel's cell, as `Display.Xored`, and sets VF to 1 exactly when an on cell meets a set bit |
| `Interpreter.Cpu.SkipIfKey` | src/cpu.rs:373-378 | reports a panic exactly when `Isa.SkipIfKey` panics, and otherwise leaves its state |
| `Interpreter.Cpu.SkipIfNotKey` | src/cpu.rs:380-385 | reports a panic exactly when `Isa.SkipIfNotKey` panics, and otherwise leaves its state |
| `Interpreter.Cpu.LoadDelay` | src/cpu.rs:387-389 | the new state is `Isa.LoadDelay` of the old one |
| `Interpreter.Cpu.WaitForKey` | src/cpu.rs:391-401 | the `for i in 0..16` loop leaves `Isa.WaitForKey` of the old state |
| `Interpreter.Cpu.SetDelay` | src/cpu.rs:403-406 | the new state is `Isa.SetDelay` of the old one |
| `Interpreter.Cpu.SetSound` | src/cpu.rs:408-411 | the new state is `Isa.SetSound` of the old one |
| `Interpreter.Cpu.AddToI` | src/cpu.rs:413-415 | the new state is `Isa.AddToI` of the old one |
| `Interpreter.Cpu.SetIToSprite` | src/cpu.rs:417-419 | the new state is `Isa.SetIToSprite` of the old one |
| `Interpreter.Cpu.StoreBcd` | src/cpu.rs:421-435 | reports a panic exactly when `Isa.StoreBcd` panics, and otherwise leaves its state |
| `Interpreter.Cpu.RegToMem` | src/cpu.rs:437-441 | the `for reg in 0..=x` loop reports a panic exactly when `Isa.RegToMem` panics, and otherwise leaves its state |
| `Interpreter.Cpu.MemToReg` | src/cpu.rs:443-447 | the `for reg in 0..=x` loop reports a panic exactly when `Isa.MemToReg` panics, and otherwise leaves its state |
| `Interpreter.Cpu.Step` | src/cpu.rs:92-154 | one iteration after the timers goes on, halts or faults exactly as `Isa.Exec`, and otherwise leaves its state and buffer |
| `Interpreter.Cpu.Dispatch` | src/cpu.rs:108-150 | the match runs the handler that `Isa.Dispatch` describes, with the same outcome |
| `Interpreter.Cpu.DispatchLow` | src/cpu.rs:109-117 | the 00E0..7xkk arms agree with `Isa.DispatchLow` |
| `Interpreter.Cpu.DispatchAlu` | src/cpu.rs:118-126 | the 8xy_ arms agree with `Isa.DispatchAlu` |
| `Interpreter.Cpu.DispatchHigh` | src/cpu.rs:127-133 | the 9xy0..ExA1 arms agree with `Isa.DispatchHigh` |
| `Interpreter.Cpu.DispatchF` | src/cpu.rs:134-142 | the Fx__ arms agree with `Isa.DispatchF` |
| `Interpreter.Cpu.Load` | src/cpu.rs:46-47 | the font and program load panics exactly when `Driver.LoadProgram` does, and otherwise leaves its state |
| `Interpreter.Cpu.TickTimers` | src/cpu.rs:61-87 | the timers and counters `d_c`, `s_c` become those of `Driver.TickBoth` |
| `Interpreter.Cpu.Run` | src/cpu.rs:42-170 | the whole run ends as `Driver.Run` says: window closed, unknown opcode or panic, with the same state and buffer |
| `Interpreter.XorOfBits` | src/cpu.rs:360 | `bits[i] ^ prev_to_bit` on 0/1 values is their one-bit XOR |
| `Alu.AddCarries` | src/cpu.rs:278-283 | for x != F, VF:Vx is the 9-bit sum Vx + Vy, and VF is 1 exactly when the sum exceeds 255 |
| `Alu.AddIntoFlagKeepsCarry` | src/cpu.rs:281-282 | for 8Fy4, VF is written last and ends as the carry |
| `Alu.SubBorrows` | src/cpu.rs:285-293 | for x, y != F, VF is 1 exactly when Vx > Vy (strictly), and Vx + Vy equals the old Vx, plus 256 when Vx < Vy |
| `Alu.SubOfFlagUsesNewFlag` | src/cpu.rs:285-293 | for 8xF5, VF is overwritten before it is subtracted, so Vx drops by 1 exactly when Vx > the old VF |
| `Alu.SubIntoFlagLosesFlag` | src/cpu.rs:285-293 | for 8Fy5, VF ends as the new flag minus Vy, mod 256 |
| `Alu.SubnBorrows` | src/cpu.rs:301-309 | for x, y != F, VF is 1 exactly when Vy > Vx, and Vx is Vy - Vx mod 256 |
| `Alu.SubnOfFlagUsesNewFlag` | src/cpu.rs:301-309 | for 8xF7, VF is overwritten before it is read, so Vx becomes the new flag minus the old Vx, modulo 256 |
| `Alu.SubnIntoFlagLosesFlag` | src/cpu.rs:301-309 | for 8Fy7, Vx is written last, so VF ends as Vy minus the new flag, modulo 256 |
| `Alu.ShrKeepsLowBit` | src/cpu.rs:295-299 | for x != F, VF is the old bit 0, and 2 * Vx + VF is the old Vx |
| `Alu.ShrOfFlagClears` | src/cpu.rs:295-299 | for 8F_6, VF always ends 0 |
| `Alu.ShlKeepsHighBit` | src/cpu.rs:311-315 | for x != F, VF is the old bit 7, and VF:Vx is twice the old Vx |
| `Alu.ShlOfFlagDoubles` | src/cpu.rs:311-315 | for 8F_E, VF ends twice the old top bit |
| `Alu.XorTwiceRestores` | src/cpu.rs:274-276 | 8xy3 twice with y != x gives back the old state |
| `Alu.OrTwiceIsOnce` | src/cpu.rs:266-268 | 8xy1 with y != x is idempotent |
| `Alu.AndTwiceIsOnce` | src/cpu.rs:270-272 | 8xy2 with y != x is idempotent |
| `Graphics.DrawFlagsErasure` | src/cpu.rs:343-364 | VF ends 0 or 1, and it is 1 exactly when some cell went from on to off |
| `Graphics.DrawKeepsBinary` | src/cpu.rs:366 | every cell stays 0 or u32::MAX |
| `Graphics.DrawTouchesOnlySpriteCells` | src/cpu.rs:353-366 | a cell that no pixel (row < n, col < 8) lands on keeps its value |
| `Graphics.DrawTwiceRestores` | src/cpu.rs:339-368 | drawing the same sprite twice with x, y != F restores the buffer, and the second VF is 1 exactly when the first draw lit some cell |
| `MemoryOps.DigitsOfByte` | src/cpu.rs:425-434 | digits 0, 1 and 2 (0 when missing) are v mod 10, (v / 10) mod 10 and v / 100 |
| `MemoryOps.StoreBcdWritesDigits` | src/cpu.rs:421-435 | memory[I], [I + 1] and [I + 2] are v / 100, (v / 10) mod 10 and v mod 10, which spell v back |
| `MemoryOps.StoreBcdOfSeven` | src/cpu.rs:421-435 | Vx = 7 writes 0, 0, 7 |
| `MemoryOps.SaveThenLoad` | src/cpu.rs:437-447 | Fx55 then Fx65 with the same x and I leaves the registers unchanged |
| `MemoryOps.LoadThenSave` | src/cpu.rs:437-447 | Fx65 then Fx55 with the same x and I leaves memory unchanged |
| `MemoryOps.SpriteOfDigit` | src/cpu.rs:417-419 | with the font loaded, Fx29 points I at the 5-byte glyph of hex digit Vx |
| `Flow.StepIgnoresAdvanceFlag` | src/cpu.rs:92 | the step sets the advance flag first, so the flag it starts with makes no difference |
| `Flow.SkipMovesByTwoOrFour` | src/cpu.rs:232-250 | a taken skip leaves pc at the old pc + 4, an untaken one at the old pc + 2, and nothing else changes |
| `Flow.KeySkipPanics` | src/cpu.rs:373-385 | a key skip on a key number above 0xF panics |
| `Flow.JmpPcTarget` | src/cpu.rs:328-332 | Bnnn leaves pc at exactly nnn + V0 without auto-advance, and nothing else changes |
| `Flow.FetchedJmpPcTarget` | src/cpu.rs:98-103 | a fetched Bnnn goes to the low 12 bits of its word plus V0 |
| `Flow.SelfJumpStops` | src/cpu.rs:211-222 | a jump to itself zeroes its own two bytes and no others, and the next step halts |
| `Flow.CallThenReturn` | src/cpu.rs:205-230 | `ret` right after `call` lands on the caller's pc + 2, restores the stack pointer, and changes no register or memory byte |
| `Flow.Calls` | src/cpu.rs:224-230 | n nested calls that do not panic leave a well-formed state |
| `Flow.CallsNestFifteenDeep` | src/cpu.rs:226-227 | from an empty stack, n calls succeed exactly when n <= 15, leave sp == n and do not write slot 0 |
| `Flow.RetOnEmptyStackWraps` | src/cpu.rs:205-230 | `ret` with sp == 0 jumps to slot 0 and wraps sp to 255; the next `call` wraps sp back to 0 and pushes into slot 0 |
| `Flow.CallsNestSixteenAfterUnderflow` | src/cpu.rs:224-230 | from sp == 255, n calls succeed exactly when n <= 16, the k-th leaving sp == k - 1 |
| `Flow.WaitWithoutKeyRepeats` | src/cpu.rs:391-401 | with no key held, Fx0A only clears the advance flag, so pc and memory (and the next fetch) stay the same |
| `Flow.WaitWithKeyTakesHighest` | src/cpu.rs:391-401 | with keys held, Vx becomes the highest held key and pc moves on by 2 |
| `SampleRun.FetchesOfProgram` | src/cpu.rs:109-111 | 00E0 decodes to clear and 1202 to a jump to 0x202 |
| `SampleRun.ClearStep` | src/cpu.rs:197-200 | 00E0 at 0x200 blanks the screen and moves to 0x202 |
| `SampleRun.SelfJumpStep` | src/cpu.rs:211-222 | 1202 at 0x202 is the self-jump |
| `SampleRun.ZeroStep` | src/cpu.rs:143-149 | the zeroed word at 0x202 halts the step |
| `SampleRun.ClearThenSelfJumpStops` | src/cpu.rs:42-170 | the program 00E0 1202 stops on the third iteration with a blank screen and pc 0x202 |

## Left out

- Audio (`rodio` streams, the sink, the sine wave and the "beep!" line) is device output. Only the sound timer and its counter are modelled.
- The window is left out: `is_open`, `update`, `update_with_buffer`. The display is a 2048-cell array, and "the window stays open" is the length of the input sequence of `Driver.Loop`.
- The key snapshot `keypad::get_key_state` and the key queries of Ex9E/ExA1 are inputs. Each iteration takes one 16-bool snapshot, used for both. Mapping a key number to a `minifb` key is not modelled beyond its panic above 0xF. src/keypad.rs is not part of this model.
- `rand::random` is a foreign generator. Its byte is an input of each iteration.
- Wall-clock pacing (`Instant`, the 20 ms sleep every 10 instructions) and the instructions-per-second statistics are real-time behaviour, as is the final print, which divides by whole elapsed seconds. The `counter` and `ins_c` variables go with them.
- src/main.rs is not part of this model: argument parsing, the ROM file read and window creation.
- Debug-build overflow panics of plain u8/u16 arithmetic are left out. The model is the release build, where they wrap.
- The machine after a panic is not described. A handler that panics part-way (for example `reg_to_mem` running off the end of memory) may have written some bytes in the source, but the model only reports the panic.
- `Isa.Add`, `Isa.Sub`, `Isa.Shr`, `Isa.Subn`, `Isa.Shl`: their own contracts state only which registers change. The values written, including the cases x = F and y = F, are stated by the `Alu` lemmas named in their rows.
- `Isa.WaitForKey`: its own contract states only which fields can change. The key chosen and the flag are stated by `Flow.WaitWithoutKeyRepeats` and `Flow.WaitWithKeyTakesHighest`.
- `Driver.Loop`: its own contract states only well-formedness. How runs compose is stated by `Driver.LoopAppend`. The only whole-run result is the example `SampleRun.ClearThenSelfJumpStops`.
- The end of a run on an unknown opcode (src/cpu.rs:143-149) is modelled as the `break` at line 148, the `Stopped` end. The statistics print before it (line 146) divides `ins_c` by the whole seconds elapsed. That u64 division panics when less than one second has passed, in release builds too. Real time is not modelled, so this panic is not either. In the source, a short run such as the sample program of `SampleRun.ClearThenSelfJumpStops` would therefore crash at line 146 instead of stopping.
