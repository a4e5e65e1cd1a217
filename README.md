# CHIP-8 virtual machine, modelled in Dafny

This project models the CHIP-8 interpreter core of `emulator/chip8.go`. The core is the `Chip8` struct:

- 4 KiB of memory;
- a 64x32 one-bit display;
- a 16-slot return stack with its pointer `sp`;
- 16 keypad states;
- the delay and sound timers;
- registers V0..VF, the index register `iv`, the program counter `pc` and the current opcode `oc`;
- the `doDraw` redraw flag.

It also models the methods over that struct: `Init`, `Buffer`, `Draw`, `Push`, `Pop`, `Key`, `Cycle` (one fetch-decode-execute step, all opcode families) and the size check and copy of `Load`.

The model has two layers.

- `Machine` (machine.dfy) is the struct as a value. `State` is a datatype. Each Go method is a function from the state before to the state after. `Cycle` returns `Next(after)`, or `Panic` where Go would stop with an index out of range. Helpers: `Bytes` (bytes.dfy) holds Go's `uint8`/`uint16` arithmetic, with every wrap-around written out. `Sprite` (sprite.dfy) holds the Dxyn XOR draw on a 64x32 grid.
- `Emulator.Chip8` (chip8.dfy) is the struct as Go uses it: a class whose fixed-size Go arrays are Dafny arrays, updated in place by loops as in the Go code. Each method is proved to leave the object in exactly the state a function of `Machine` or `Sprite` gives. `StoreDigits` is proved against its three memory stores, written out. A method whose Go code could panic requires the `Machine` function not to return `Panic`.

The lemmas in `Properties` (properties.dfy) state what one `Cycle` does for each instruction family, including what it leaves unchanged. They cover the flag register VF as an operand wherever the Go code allows it. They also cover the start state, the redraw flag, the stack discipline and `Load`.

The Go code departs from the usual CHIP-8 behaviour in several places. The model follows the Go code, and the lemmas state each departure:

- `Push` moves `sp` up only from a non-zero slot, and `Pop` never moves it.
- 8xy4's `> 255` test is on a wrapped `uint8` sum, so it never holds and VF is always 1.
- 8xy5 sets VF = 1 only when Vx > Vy strictly, and otherwise leaves Vx as it was.
- 8xy7 also writes Vy.
- Every Ex?? other than Ex9E behaves as ExA1.
- Fx0A waits on key x and sets Vx = x.
- Fx1E does not mask I.
- Fx33's third byte repeats the hundreds digit.
- Fx55 stores V0..V(x+1).
- Fx55 and Fx65 leave I = x + 1.
- `Cycle` itself counts the delay timer down.

## Model

| member | source | states |
|---|---|---|
| Bytes.Add8 | emulator/chip8.go:153 | `uint8` addition: the plain sum below 256, the sum minus 256 otherwise |
| Bytes.Sub8 | emulator/chip8.go:178 | `uint8` subtraction: the plain difference when it is not negative, plus 256 otherwise |
| Bytes.Add16 | emulator/chip8.go:100 | `uint16` addition (pc += 2, I + Vx, iv + i): the plain sum below 65536, minus 65536 otherwise |
| Bytes.Sub16 | emulator/chip8.go:245 | `uint16` subtraction (Fx0A's pc -= 2): the plain difference, plus 65536 when negative |
| Bytes.Toggle | emulator/chip8.go:220 | `^= 1` on a display cell swaps 0 and 1 |
| Bytes.Or8 | emulator/chip8.go:163 | defines Go `\|` on `uint8`; its bits are stated by `Bytes.OrBits` |
| Bytes.And8 | emulator/chip8.go:165 | defines Go `&` on `uint8`; its bits are stated by `Bytes.AndBits` |
| Bytes.Xor8 | emulator/chip8.go:167 | defines Go `^` on `uint8`; its bits are stated by `Bytes.XorBits` |
| Bytes.Shr8 | emulator/chip8.go:184 | defines Go `>>` on `uint8`; `Bytes.ShiftRightBits` states the one-bit shift |
| Bytes.BitSet | emulator/chip8.go:216 | defines the sprite-bit test `pixel & (0x80 >> j) != 0` |
| Bytes.MaskIsSingleBit | emulator/chip8.go:216 | the mask `0x80 >> j` has exactly one bit set for j < 8 |
| Bytes.OrBits | emulator/chip8.go:163 | bit j of `a \| b` is set iff it is set in a or in b |
| Bytes.AndBits | emulator/chip8.go:165 | bit j of `a & b` is set iff it is set in both a and b |
| Bytes.XorBits | emulator/chip8.go:167 | bit j of `a ^ b` is set iff it is set in exactly one of a and b |
| Bytes.AndOneIsLowBit | emulator/chip8.go:183 | `a & 1` is 1 when the lowest bit of a is set, else 0 |
| Bytes.ShiftRightBits | emulator/chip8.go:184 | bit j of `a >> 1` is bit j-1 of a, and the top bit is clear |
| Sprite.Row | emulator/chip8.go:217 | defines Go `y + uint8(i)`, the screen row of sprite row i, wrapping at 256; `Sprite.OffsetInverse` states that the row and the offset i determine each other |
| Sprite.Col | emulator/chip8.go:217 | defines Go `x + uint8(j)`, the screen column of sprite bit j, wrapping at 256; `Sprite.OffsetInverse` states that the column and the offset j determine each other |
| Sprite.OnScreen | emulator/chip8.go:217-220 | defines the draw's no-panic condition: every set bit's wrapped row and column index the 64x32 display. `Properties.DrawSpriteEffect` states that Dxyn panics iff it fails |
| Sprite.SpriteInsideScreen | emulator/chip8.go:215-220 | a sprite whose 8-column box from (x, y) fits inside the 64x32 display (x + 8 <= 64, y + n <= 32) is on screen whatever its bits, so no wrapped index leaves the display |
| Sprite.Flip | emulator/chip8.go:220 | toggling a cell changes that cell to 1 minus its value and no other cell |
| Sprite.Plot | emulator/chip8.go:217-220 | defines one set sprite bit: a lit cell records a collision, then the cell is toggled |
| Sprite.DrawBits | emulator/chip8.go:215-222 | defines the inner draw loop over the first j bits, as a fold; the result stays a 64x32 grid |
| Sprite.DrawRows | emulator/chip8.go:213-224 | defines the outer draw loop over the first i rows, as a fold; the result stays a 64x32 grid |
| Sprite.Draw | emulator/chip8.go:206-225 | defines a whole Dxyn draw from a clear collision flag; its effect is stated by `Sprite.DrawPixels` and `Sprite.DrawCollision` |
| Sprite.OffsetInverse | emulator/chip8.go:217 | the wrapped screen coordinate `x + uint8(j)` and the offset `j` determine each other |
| Sprite.OnScreenRow | emulator/chip8.go:215-221 | every set bit of a row of an on-screen sprite indexes an existing display cell |
| Sprite.DrawBitsPixels | emulator/chip8.go:215-222 | the inner draw loop toggles exactly the cells of its row under the set bits it has visited |
| Sprite.DrawBitsCollision | emulator/chip8.go:215-222 | the inner loop reports a collision iff one came in, or a visited set bit fell on a lit cell |
| Sprite.DrawRowsPixels | emulator/chip8.go:213-224 | after i rows, exactly the cells under set bits of those rows are toggled |
| Sprite.DrawRowsCollision | emulator/chip8.go:213-224 | after i rows, a collision is reported iff one of those cells was lit before the draw |
| Sprite.CoveredByMoreRows | emulator/chip8.go:213-224 | one more row: a lit cell is covered by the first k+1 rows iff it is covered by the first k, or lies under row k and is still lit when row k is drawn |
| Sprite.DrawPixels | emulator/chip8.go:206-225 | a whole sprite draw toggles exactly the covered cells |
| Sprite.DrawCollision | emulator/chip8.go:206-225 | a whole sprite draw collides iff some covered cell was lit |
| Sprite.DrawTwiceRestores | emulator/chip8.go:206-225 | drawing the same sprite at the same place twice restores the display |
| Sprite.DrawTwiceCollides | emulator/chip8.go:206-225 | the second of two identical draws collides whenever the first lit a cell |
| Emulator.Chip8.State | emulator/chip8.go:27-42 | the `Chip8` struct read as a `Machine.State` value, field for field; the Go array sizes hold (4096 bytes, 32x64 cells, 16 stack slots, keys and registers) and sp indexes the stack |
| Machine.Blank | emulator/chip8.go:107-111 | the display 00E0 leaves: every cell of the 32x64 grid is 0 |
| Machine.Initial | emulator/chip8.go:44-61 | defines the `Init` state; it is stated field by field in `Properties.InitialState` |
| Machine.TakeDraw | emulator/chip8.go:67-72 | defines `Draw`; stated by `Properties.DrawConsumesFlag` |
| Machine.Pop | emulator/chip8.go:84-86 | defines `Pop` as the top slot; `Machine.Push` states that it returns the last push |
| Machine.SetKey | emulator/chip8.go:88-94 | key `num` becomes 1 when down and 0 when up; no other key and no other field changes |
| Machine.PushFits | emulator/chip8.go:76-80 | defines when `Push` stays inside the stack. A push with sp below 15 always fits; it fails only with sp = 15 on a non-zero slot, where Go's `sp += 1` indexes past the stack. `Properties.CallPushesReturnAddress` states that 2nnn panics iff it fails |
| Machine.Push | emulator/chip8.go:74-82 | the address is what Pop then returns; sp stays on a zero top slot, else moves up one; other slots and all other fields unchanged |
| Machine.Fetch | emulator/chip8.go:99 | the opcode is big-endian: high byte memory[pc], low byte memory[pc+1] |
| Machine.X | emulator/chip8.go:126 | the x field of an opcode names one of the 16 registers |
| Machine.Family | emulator/chip8.go:103 | the family `oc & 0xF000`, as its top nibble, is below 16; the model's match covers all 16 values, while the Go switch has cases for 14 of them (none for 0xB000 or 0xC000) |
| Machine.Y | emulator/chip8.go:140 | the y field `(oc & 0x00F0) >> 4` names one of the 16 registers |
| Machine.N | emulator/chip8.go:207 | the n field `oc & 0x000F` is below 16 |
| Machine.NN | emulator/chip8.go:127 | defines `uint8(oc & 0x00FF)` as op % 256; its meaning (the second opcode byte) is stated by `Machine.FetchFields` |
| Machine.NNN | emulator/chip8.go:119 | the address field of an opcode lies inside the 4096-byte memory |
| Machine.FetchFields | emulator/chip8.go:99-103 | the opcode fetched from memory[pc], memory[pc+1] splits into its fields: family and x are the high and low nibbles of memory[pc], y and n those of memory[pc+1], nn is memory[pc+1], nnn is x followed by nn |
| Machine.Fetched | emulator/chip8.go:99-100 | defines the fetch stage; its result keeps every array at its size. Stated by `Properties.CycleRecordsOpcode` (oc = the opcode at pc) and by the `r.pc == s.pc + 2` clause of each Cycle lemma |
| Machine.SkipIf | emulator/chip8.go:128-130 | defines the conditional `pc += 2`; stated by `Properties.ConditionalSkip` |
| Machine.Arithmetic | emulator/chip8.go:155-194 | 8xyn in the Go order of register reads and writes; keeps every array at its size. Stated per opcode by the Properties lemmas for 8xy0 to 8xy7 |
| Machine.SpriteRows | emulator/chip8.go:214 | defines the n sprite bytes read from memory at iv + i; there are n of them. Used by `Properties.DrawSpriteEffect` |
| Machine.InMemory | emulator/chip8.go:214 | defines when the k addresses iv + i (`uint16` wrap) all lie in memory: the no-panic condition of the reads and stores at lines 214, 270-272, 277 and 282 |
| Machine.InMemoryBounds | emulator/chip8.go:214 | the k addresses iv + i (i < k, `uint16` wrap) all index memory iff k = 0 or iv + k <= 4096: no wrap-around brings a block back into memory |
| Machine.DrawSprite | emulator/chip8.go:206-225 | Dxyn, with `Panic` off memory or off screen; a result keeps every array at its size. Stated by `Properties.DrawSpriteEffect` |
| Machine.KeySkip | emulator/chip8.go:227-238 | Ex??, with `Panic` for Vx >= 16; a result keeps every array at its size. Stated by `Properties.KeySkip` |
| Machine.StoreRegisters | emulator/chip8.go:276-278 | the Fx55 loop as a fold over the first k registers; memory keeps its size. Stated pointwise by `Properties.StoreRegistersEffect` |
| Machine.LoadRegisters | emulator/chip8.go:281-283 | the Fx65 loop as a fold over the first k registers; the registers keep their number. Stated pointwise by `Properties.LoadRegistersEffect` |
| Machine.Misc | emulator/chip8.go:239-286 | the Fx?? family, with `Panic` where Fx33, Fx55 or Fx65 index outside memory or the registers; a result keeps every array at its size |
| Machine.Execute | emulator/chip8.go:103-287 | the decode switch; the model's match covers all 16 top nibbles, and B and C, which have no Go case, only advance pc; a result keeps every array at its size |
| Machine.Tick | emulator/chip8.go:288-290 | the delay-timer count-down at the end of `Cycle`; stated by `Properties.CycleTimers` |
| Machine.Cycle | emulator/chip8.go:96-292 | a Cycle that does not panic keeps every array at its Go size and sp inside the stack |
| Machine.Load | emulator/chip8.go:307-318 | defines the size check and copy; a result keeps every array at its size. Stated by `Properties.LoadPlacesProgram` |
| Properties.JumpSetsPc | emulator/chip8.go:118-119 | 1nnn: pc = nnn and nothing else changes |
| Properties.ConditionalSkip | emulator/chip8.go:125-143 | 3xnn, 4xnn, 5xy0 (and 9xy0 at lines 196-201): pc moves on by 4 exactly when the condition holds, else by 2 |
| Properties.UnknownOpcodesOnlyAdvance | emulator/chip8.go:103-287 | Bnnn, Cxnn and opcodes with no case in the Go switches only move pc past themselves |
| Properties.CallPushesReturnAddress | emulator/chip8.go:121-123 | 2nnn: panics iff the push does not fit; else pushes pc+2 and jumps to nnn |
| Properties.ReturnKeepsStack | emulator/chip8.go:114-115 | 00EE: pc = the top slot; the stack and sp stay as they are |
| Properties.CallThenReturn | emulator/chip8.go:114-123 | a call at a followed by a return resumes at a + 2 |
| Properties.NestedCallsFill | emulator/chip8.go:74-82 | from an empty stack, up to 16 non-zero addresses land in slots 0, 1, ... in order; a 17th does not fit |
| Properties.PushesSnoc | emulator/chip8.go:74-82 | pushing one more address is pushing the others and then it |
| Properties.LoadImmediate | emulator/chip8.go:144-147 | 6xnn: Vx = nn, no other register or field changes |
| Properties.AddImmediateWraps | emulator/chip8.go:149-153 | 7xnn: Vx = (Vx + nn) mod 256, with no carry flag (with x = F the sum lands in VF); no other register or field changes |
| Properties.AddRegistersAlwaysSetsFlag | emulator/chip8.go:168-174 | 8xy4: VF = 1 for every sum, Vx = (Vx + Vy) mod 256 |
| Properties.CopyAndLogic | emulator/chip8.go:159-167 | 8xy0 to 8xy3: Vx = Vy, or each bit of Vx becomes the OR, AND or XOR of the bits of Vx and Vy; no other register changes |
| Properties.SubtractOnlyWithoutBorrow | emulator/chip8.go:175-181 | 8xy5: Vx > Vy gives VF = 1 and Vx - Vy; otherwise VF = 0 and Vx keeps its value. With y = F the flag 1 is subtracted; with x = F the flag ends as (1 - Vy) mod 256, or 0 |
| Properties.ShiftRightIntoFlag | emulator/chip8.go:182-184 | 8xy6: VF = 1 if the lowest bit of Vx is set, else 0; every bit of Vx moves one place down and the top bit clears; with x = F the flag ends 0 |
| Properties.ReverseSubtractWritesVy | emulator/chip8.go:185-192 | 8xy7: Vy > Vx sets Vy = Vy - Vx and VF = 1, else VF = 0; then Vx = (Vy - Vx) mod 256 with that Vy. With x = y, Vx and VF end 0; with x or y = F, the values the flag-first writes leave |
| Properties.SetIndex | emulator/chip8.go:203-204 | Annn: I = nnn |
| Properties.ClearScreen | emulator/chip8.go:106-112 | 00E0: every cell 0 and a redraw pending; nothing else changes |
| Properties.DrawSpriteEffect | emulator/chip8.go:206-225 | Dxyn: panics iff the sprite leaves memory or the screen (so a draw that runs needs n = 0 or I + n <= 4096); else toggles exactly the covered cells, VF = 1 if one was lit and 0 otherwise, redraw pending |
| Properties.DrawSpriteInBounds | emulator/chip8.go:206-225 | Dxyn never panics when I + n <= 4096, Vx + 8 <= 64 and Vy + n <= 32 |
| Properties.DrawTwiceRestoresDisplay | emulator/chip8.go:206-225 | two identical Dxyn in a row, with x and y not F, leave the display as it was |
| Properties.KeySkip | emulator/chip8.go:227-238 | Ex9E skips iff key Vx is down; every other Ex?? skips iff it is not; Vx >= 16 panics |
| Properties.WaitForKeyX | emulator/chip8.go:244-251 | Fx0A: pc stays on the opcode while key x is up; once it is down, pc moves on and Vx = x |
| Properties.CycleTimers | emulator/chip8.go:288-290 | each Cycle counts the delay timer down by one to no lower than 0, after Fx15 has copied Vx into it; only Fx18 changes the sound timer |
| Properties.CycleRecordsOpcode | emulator/chip8.go:99-100 | after any Cycle that does not panic, oc is the big-endian opcode at memory[pc], memory[pc+1] |
| Properties.CycleKeepsKeys | emulator/chip8.go:96-292 | no instruction changes the keypad |
| Properties.AddToIndex | emulator/chip8.go:259-265 | Fx1E: VF = 1 iff (I + Vx) mod 65536 exceeds 0xFFF, else 0; I = that sum, unmasked; with x = F, I = I plus the new flag |
| Properties.TimerTransfers | emulator/chip8.go:241-258 | Fx07: Vx = the delay timer; Fx15: delay timer = Vx; Fx18: sound timer = Vx; then the delay count-down; nothing else changes |
| Properties.FontAddress | emulator/chip8.go:266-267 | Fx29: I = 5 Vx, the glyph of digit Vx for Vx < 16 |
| Properties.DecimalDigits | emulator/chip8.go:269-272 | Fx33: panics iff I + 3 > 4096; else the hundreds and tens digits at I and I+1, the hundreds digit again at I+2, other memory unchanged |
| Properties.StoreRegistersEffect | emulator/chip8.go:276-278 | the Fx55 loop puts Vi at I+i for i < k and leaves other addresses alone |
| Properties.LoadRegistersEffect | emulator/chip8.go:281-283 | the Fx65 loop sets Vi = memory[I+i] for i < k and leaves other registers alone |
| Properties.StoreRegistersOneExtra | emulator/chip8.go:274-279 | Fx55 panics iff x = 15 or I + x + 2 > 4096; else it stores V0..V(x+1) at I on, then I = x + 1 |
| Properties.LoadRegistersFromMemory | emulator/chip8.go:280-284 | Fx65 panics iff I + x + 1 > 4096; else it loads V0..Vx from I on, other registers unchanged, then I = x + 1 |
| Properties.InitialState | emulator/chip8.go:44-61 | start state: font at 0..79, all other memory zero, pc = 0x200, sp = 0, redraw pending, everything else zero |
| Properties.DrawConsumesFlag | emulator/chip8.go:67-72 | Draw returns the flag and clears it; a second Draw returns false |
| Properties.LoadPlacesProgram | emulator/chip8.go:307-318 | refused iff the program exceeds 3584 bytes; otherwise byte i at 0x200 + i and nothing else changes |
| Properties.LoadKeepsFont | emulator/chip8.go:307-318 | after `Init` and a successful `Load`, memory below address 80 still holds `font_set` (the constant `Machine.FontSet`): the program goes at 0x200 and never over the font |
| Emulator.Chip8.Init | emulator/chip8.go:44-61 | the constructed object is the start state `Machine.Initial()` |
| Emulator.Chip8.LoadFont | emulator/chip8.go:51-53 | the font loop leaves the font at address 0 of a zeroed memory |
| Emulator.Chip8.Buffer | emulator/chip8.go:63-65 | the returned rows hold exactly the display's cells |
| Emulator.Chip8.Draw | emulator/chip8.go:67-72 | returns the flag and clears it, as `Machine.TakeDraw` |
| Emulator.Chip8.Push | emulator/chip8.go:74-82 | the new state is `Machine.Push` of the old one |
| Emulator.Chip8.Pop | emulator/chip8.go:84-86 | returns the top slot and changes nothing |
| Emulator.Chip8.Key | emulator/chip8.go:88-94 | the new state is `Machine.SetKey` of the old one |
| Emulator.Chip8.Cycle | emulator/chip8.go:96-292 | the new state is `Machine.Cycle` of the old one, whenever that does not panic |
| Emulator.Chip8.Execute | emulator/chip8.go:103-287 | the decode switch leaves the state `Machine.Execute` gives |
| Emulator.Chip8.ClearDisplay | emulator/chip8.go:107-111 | the nested clearing loops leave every cell 0 |
| Emulator.Chip8.Arithmetic | emulator/chip8.go:155-194 | 8xyn in place equals `Machine.Arithmetic`, with the Go order of register reads and writes |
| Emulator.Chip8.DrawSprite | emulator/chip8.go:206-225 | Dxyn in place equals `Machine.DrawSprite` |
| Emulator.Chip8.DrawRows | emulator/chip8.go:213-224 | the outer draw loop leaves the canvas `Sprite.DrawRows` gives, touching only the display and VF |
| Emulator.Chip8.DrawRow | emulator/chip8.go:215-222 | the inner draw loop leaves the canvas `Sprite.DrawBits` gives |
| Emulator.Chip8.Plot | emulator/chip8.go:217-220 | one set bit: VF = 1 if the cell was lit, then the cell toggled |
| Emulator.Chip8.KeySkip | emulator/chip8.go:227-238 | Ex?? in place equals `Machine.KeySkip` |
| Emulator.Chip8.Misc | emulator/chip8.go:239-286 | Fx?? in place equals `Machine.Misc` |
| Emulator.Chip8.StoreDigits | emulator/chip8.go:269-272 | the three Fx33 stores, and no other memory change |
| Emulator.Chip8.StoreRegisters | emulator/chip8.go:274-278 | the Fx55 loop leaves memory as `Machine.StoreRegisters` over V0..V(x+1) |
| Emulator.Chip8.LoadRegisters | emulator/chip8.go:280-283 | the Fx65 loop leaves the registers as `Machine.LoadRegisters` over V0..Vx |
| Emulator.Chip8.Load | emulator/chip8.go:307-318 | refuses iff the program is too large, leaving the state alone; else the copy loop gives `Machine.Load` |

## Left out

- The file I/O of `Load` (lines 296-314): opening, stat-ing, reading and closing the file. `Load` takes the program's bytes instead. Its error is a boolean (`ProgramTooLarge` in the value model), not the Go error text. Errors from the file system are not modelled.
- `main.go` is not part of this model: SDL set-up, rendering, event polling, the host key map and frame pacing.
- Go's runtime panics on out-of-range indices are not emulated. They are the outcome `Panic` in `Machine`, and the methods of `Chip8` require that no panic happens. A panic ends the state: any state written before it is not modelled. Examples are the cells a Dxyn toggles, the bytes Fx33 and Fx55 store, the registers Fx65 loads, and `Push`'s `sp += 1` before its out-of-range store.
- `Emulator.Chip8.Key` requires `num < 16`. Go panics on a larger key number, and `Machine.SetKey` has the same requirement.
- No sound is produced, and there is no clock or instruction rate. The sound timer is only a field that Fx18 sets.
- 8xy4's `> 255` branch (lines 169-170) is dead code, because the sum is a wrapped `uint8`. The model does not write that branch.
- Go writes the whole decode and execute stage inline in `Cycle`. Here its parts are separate methods of `Chip8`: `Execute` (the decode switch), `ClearDisplay` (00E0), `Arithmetic` (8xyn), `DrawSprite`, `DrawRows`, `DrawRow` and `Plot` (Dxyn), `KeySkip` (Ex??), `Misc` (Fx??), and `StoreDigits`, `StoreRegisters` and `LoadRegisters` (Fx33, Fx55, Fx65). The font loop of `Init` is likewise the method `LoadFont`.
