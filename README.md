# ChipEi interpreter core in Dafny

ChipEi is a CHIP-8 / SuperChip-8 interpreter written in C++. This project
models the part of it that runs programs: the machine state, the fetch /
decode / execute cycle and every instruction handler. It covers both
revisions of the interpreter that ChipEi contains, and proves properties of
each.

- **`CPU`** (`ChipEi/CPU.cpp`, `ChipEi/CPU.h`) is the SuperChip-8 revision.
  - It has a 128x64 framebuffer, the 8 HP-48 user flags and the three quirk
    switches of `Experimental`.
  - It decodes instructions with the nested `switch` of `ParseOpcodes`.
- **`Chip8`** (`ChipEi/Chip8.cpp`, `ChipEi/Chip8.h`) is the earlier base
  revision.
  - It has a 64x32 framebuffer and an 80-byte font.
  - It dispatches through five tables of pointers to member functions, which
    `SetupFunctionPointerTable` fills in.

The model has five modules, one file each.

| file | module | contents |
|---|---|---|
| `opcodes.dfy` | `Opcodes` | The C++ integer types as ranges of integers (`Byte`, `Word`, `Nibble`, `Address`), the decoded instruction `Instr`, the decoder `Decode`, and its inverse `Encode`. |
| `core.dfy` | `Core` | The state the two revisions share: registers, memory, I, pc, stack, sp, timers and keypad. It holds the handlers whose code is identical in both revisions, both as a pure function `CoreExec` and as the methods of the class `Processor`. `Processor` updates its arrays in place. |
| `sprite.dfy` | `Sprite` | The XOR sprite engine. It gives the cells a sprite's lit pixels land on, in loop order, the framebuffer after toggling them, and the two collision rules the handlers use. |
| `cpu.dfy` | `Cpu` | The SuperChip revision. The pure specification `Exec` / `Step` / `CycleSpec` sits beside a class `Machine`, which has one method per handler and the loops of the source. |
| `chip8.dfy` | `Chip8` | The base revision. It has the dispatch tables as data, a class `Machine` with the tables as arrays, the handlers this revision changes, and lemmas that compare it with the SuperChip revision. |

Every method of the two `Machine` classes and of `Processor` states its new
state as a function of the old one, for example
`ensures State() == Exec(old(State()), Draw(x, y, n), 0)`. The lemmas then
prove what the interpreter promises about those functions.

Modelling conventions:

- Integer wrap-around is written out explicitly. pc and I wrap modulo 2^16,
  registers modulo 2^8.
- A pixel is `0` or `0xFFFFFFFF`.
- The random byte of `Cxkk` is a parameter, `rnd`.
- The source checks no bounds on stack, memory, keypad or framebuffer
  indexing. Where an out-of-range index would be undefined behaviour, the
  model has a `Defined` predicate that the caller must meet.

## Model

| member | source | states |
|---|---|---|
| Opcodes.Decode | ChipEi/CPU.cpp:109-285 | The switch of `ParseOpcodes` is total. `Dxyn` is produced only with n ≠ 0, the 16x16 draw exactly for class D with n = 0, and the address operand is the word's low 12 bits. |
| Opcodes.DecodeEncode | ChipEi/CPU.cpp:112-279 | Every instruction the switch can reach is recovered from its canonical word: `Decode(Encode(i)) == i`. |
| Opcodes.DecodeNop | ChipEi/CPU.cpp:112-279 | If and only if: a word reaches no handler exactly when it is an unmatched sub-code of class 0, 8, E or F. Every top nibble has a case, so `default:` at line 281 is never taken. |
| Core.FirstPressed | ChipEi/CPU.cpp:707-713 | The key scan of Fx0A: it returns the lowest-numbered key that is down, and `None` if and only if no key is down. |
| Core.AddCarryIsLost | ChipEi/CPU.cpp:423-431 | 8xy4: the sum is held in a `uint8_t`, so VF ends 0 whenever x ≠ F. Vx becomes (Vx + Vy) mod 256, and every other register is kept. |
| Core.SubtractFlags | ChipEi/CPU.cpp:435-441 | 8xy5, and 8xy7 (lines 463-469), for x ≠ F and any y: VF = 1 if and only if the minuend is strictly greater, VF = 0 otherwise, and registers other than Vx and VF are kept. When y ≠ F as well, Vx is the difference modulo 256; y = F is `Core.SubtractFromFlag`. |
| Core.SubtractFromFlag | ChipEi/CPU.cpp:435-469 | With y = F the subtraction reads the flag just written: 8xF5 leaves Vx − f and 8xF7 leaves f − Vx modulo 256, where f is the new flag, and 8FF5 and 8FF7 leave VF = 0. |
| Core.SubtractIntoFlag | ChipEi/CPU.cpp:435-441 | VF is written before Vx. With x = F the subtraction reads the fresh flag, and its result is what remains in VF. |
| Core.CallThenRet | ChipEi/CPU.cpp:303-328 | 2nnn then 00EE with sp < 16 restores pc and sp. The only trace is the return address in `stack[sp]`; registers, memory and I are unchanged. |
| Core.WaitKeyEffect | ChipEi/CPU.cpp:707-713 | Fx0A with no key down only steps pc back by 2. With keys down, Vx gets the lowest pressed key and nothing else changes. |
| Core.StoreThenLoad | ChipEi/CPU.cpp:768-790 | Fx55 writes V0..Vx to memory[I..I+x] and leaves every other byte alone. Fx65 over the same range gives the registers back. |
| Core.LoadEffect | ChipEi/CPU.cpp:780-790 | Fx65 sets each Vk (k ≤ x) to memory[I+k], keeps the registers above x, and leaves memory and I alone. |
| Core.SmallGlyphAddress | ChipEi/CPU.cpp:739-744 | Fx29 with a hex digit points I at the first of that digit's five bytes inside the 80-byte small font at 0x50. |
| Core.TimersCountDown | ChipEi/CPU.cpp:90-96 | After k cycles' ticks each timer holds max(t − k, 0), so the sound timer is nonzero on exactly the first `soundTimer` cycles (the condition `isSoundPlaying` tests), and no other field changes. |
| Core.Processor.constructor | ChipEi/CPU.h:120-128 | Every field starts value-initialised to zero (`Blank`). |
| Core.Processor.Op00EE | ChipEi/CPU.cpp:303-306 | RET: sp goes down by one, then pc is reloaded from `stack[sp]`. It needs 1 ≤ sp ≤ 16, because nothing checks underflow. |
| Core.Processor.Op1nnn | ChipEi/CPU.cpp:316-319 | pc = nnn. |
| Core.Processor.Op2nnn | ChipEi/CPU.cpp:323-328 | `stack[sp]` = pc, then sp + 1 and pc = nnn. It needs sp < 16, because nothing checks overflow. |
| Core.Processor.Op3xkk | ChipEi/CPU.cpp:332-338 | pc advances 2 more exactly when Vx = kk. |
| Core.Processor.Op4xkk | ChipEi/CPU.cpp:342-348 | pc advances 2 more exactly when Vx ≠ kk. |
| Core.Processor.Op5xy0 | ChipEi/CPU.cpp:352-358 | pc advances 2 more exactly when Vx = Vy. |
| Core.Processor.Op6xkk | ChipEi/CPU.cpp:362-367 | Vx = kk, nothing else changes. |
| Core.Processor.Op7xkk | ChipEi/CPU.cpp:371-376 | Vx = (Vx + kk) mod 256; VF is not touched. |
| Core.Processor.Op8xy0 | ChipEi/CPU.cpp:380-385 | Vx = Vy. |
| Core.Processor.Op8xy1 | ChipEi/CPU.cpp:391-396 | Vx = Vx OR Vy (bitwise). |
| Core.Processor.Op8xy2 | ChipEi/CPU.cpp:402-407 | Vx = Vx AND Vy (bitwise). |
| Core.Processor.Op8xy3 | ChipEi/CPU.cpp:413-418 | Vx = Vx XOR Vy (bitwise). |
| Core.Processor.Op8xy4 | ChipEi/CPU.cpp:423-431 | The register file becomes `AddWithCarry`; its meaning is `Core.AddCarryIsLost`. |
| Core.Processor.Op8xy5 | ChipEi/CPU.cpp:435-441 | The register file becomes `SubWithBorrow`; its meaning is `Core.SubtractFlags`. |
| Core.Processor.Op8xy7 | ChipEi/CPU.cpp:463-469 | The register file becomes `ReverseSubWithBorrow`; its meaning is `Core.SubtractFlags`. |
| Core.Processor.Op9xy0 | ChipEi/CPU.cpp:491-497 | pc advances 2 more exactly when Vx ≠ Vy. |
| Core.Processor.OpAnnn | ChipEi/CPU.cpp:501-504 | I = nnn. |
| Core.Processor.OpBnnn | ChipEi/CPU.cpp:508-511 | pc = (nnn + V0) mod 2^16. |
| Core.Processor.OpCxkk | ChipEi/CPU.cpp:516-521 | Vx = rnd AND kk, for the drawn byte rnd. |
| Core.Processor.OpEx9E | ChipEi/CPU.cpp:604-610 | pc advances 2 more exactly when key Vx is down. It needs Vx < 16 (unchecked index). |
| Core.Processor.OpExA1 | ChipEi/CPU.cpp:614-621 | pc advances 2 more exactly when key Vx is up. It needs Vx < 16. |
| Core.Processor.OpFx07 | ChipEi/CPU.cpp:625-628 | Vx = delay timer. |
| Core.Processor.OpFx0A | ChipEi/CPU.cpp:707-713 | The key-scan loop, proved against `FirstPressed`. Vx gets the first key down; with none down, pc -= 2. |
| Core.Processor.OpFx15 | ChipEi/CPU.cpp:718-721 | delay timer = Vx. |
| Core.Processor.OpFx18 | ChipEi/CPU.cpp:725-728 | sound timer = Vx. |
| Core.Processor.OpFx1E | ChipEi/CPU.cpp:732-735 | I = (I + Vx) mod 2^16, with no flag. |
| Core.Processor.OpFx29 | ChipEi/CPU.cpp:739-744 | I = (0x50 + 5·Vx) mod 2^16. |
| Core.Processor.CopyIn | ChipEi/CPU.cpp:42-44 | The byte-copy loop (used for the font and the program): memory becomes `Copied(memory, start, bytes)` and nothing else changes. |
| Core.Processor.StoreRegisters | ChipEi/CPU.cpp:770-772 | The copy loop of Fx55, proved against `AfterStore`. |
| Core.Processor.LoadRegisters | ChipEi/CPU.cpp:783-785 | The copy loop of Fx65, proved against `AfterLoad`. |
| Core.Processor.TickTimers | ChipEi/CPU.cpp:90-96 | The timer decrements at the end of `Cycle`, proved against `AfterTick`. |
| Core.Processor.Execute | ChipEi/CPU.cpp:148-279 | The handlers common to both revisions, selected by the decoded instruction: the new state is `CoreExec(old state, i, rnd)`. |
| Sprite.PaintedSnoc | ChipEi/CPU.cpp:552-570 | One more lit pixel toggles its cells. The "last collision" flag becomes that pixel's collision; the "any collision" flag is OR-ed with it. |
| Sprite.PaintTwice | ChipEi/CPU.cpp:561-569 | Toggling the same sequence of cells twice restores the framebuffer, whatever the overlaps. |
| Sprite.LitIsMaskTest | ChipEi/CPU.cpp:550 | If and only if: `spriteByte & (0x80u >> col)` is nonzero exactly when bit 7 − col is set. For col ≥ 8 the mask is 0 and no pixel is lit. |
| Sprite.SpriteGroupsMembers | ChipEi/CPU.cpp:542-552 | If and only if: a cell group is drawn exactly when it is the placement of a lit sprite pixel. |
| Sprite.AnyHitDirect | ChipEi/Chip8.cpp:380-397 | If and only if: for an unscaled draw, VF ends 1 exactly when some lit sprite pixel lands on a cell that was lit before the draw. |
| Sprite.LowResLandsInside | ChipEi/CPU.cpp:534-558 | With scale 2 every coordinate is even, so each 2x2 block stays inside the 128x64 buffer. |
| Sprite.ScaledHighResDoubledOverflows | ChipEi/CPU.cpp:553-558 | With scale 1 and doubling forced, a block at row 63 reaches past the 8192 cells. |
| Sprite.LastHitIsNotAnyHit | ChipEi/CPU.cpp:559-567 | A concrete sprite shows that "VF assigned per pixel" reports 0 where "any collision" reports 1. |
| Cpu.LoadRomKeepsFont | ChipEi/CPU.cpp:51-77 | After start-up and a program load, the font is intact at 0x50 and the program sits at 0x200. pc = 0x200, and the loaded flag is set if and only if the file opened. |
| Cpu.ClearTouchesTwoCells | ChipEi/CPU.cpp:296-299 | 00E0's `memset` over the size of a pointer clears exactly cells 0 and 1 and keeps the rest. |
| Cpu.ScrollUpCell | ChipEi/CPU.cpp:796-810 | 00Bn cell by cell: columns below n go dark, rows up to n show the row n lines further down, and later rows are kept. |
| Cpu.ScrollDownCell | ChipEi/CPU.cpp:814-828 | 00Cn cell by cell: columns below n go dark, rows from n on show the row n lines further up, and earlier rows are kept. |
| Cpu.ScrollByZero | ChipEi/CPU.cpp:796-828 | Scrolling by 0 lines changes nothing. |
| Cpu.ShiftRightEffect | ChipEi/CPU.cpp:445-459 | 8xy6 with x ≠ F: VF = src mod 2 and other registers are kept. When src ≠ F, Vx = src / 2, so 2·Vx + VF = src; src = F is `Cpu.ShiftFromFlag`. |
| Cpu.ShiftLeftEffect | ChipEi/CPU.cpp:473-487 | 8xyE with x ≠ F: VF = src / 128 and other registers are kept. When src ≠ F, Vx = 2·src mod 256, so no bit is lost; src = F is `Cpu.ShiftFromFlag`. |
| Cpu.ShiftFromFlag | ChipEi/CPU.cpp:445-487 | With source F (the shift quirk and y = F) the source is read after the flag is written: 8xF6 always leaves Vx = 0, and 8xFE leaves Vx = 2·(old VF / 128). |
| Cpu.ShiftSourceQuirk | ChipEi/CPU.cpp:445-487 | The shift source is Vy exactly when `shift_flag` is set, otherwise Vx. |
| Cpu.ShiftIntoFlag | ChipEi/CPU.cpp:445-459 | With x = F the shifted value, written after the flag, is what remains in VF. |
| Cpu.BcdRoundTrip | ChipEi/CPU.cpp:749-764 | Fx33's three digits are decimal digits and 100·h + 10·t + o = Vx. |
| Cpu.BcdExamples | ChipEi/CPU.cpp:749-764 | 255 gives 2,5,5; 7 gives 0,0,7; 100 gives 1,0,0. |
| Cpu.BcdEffect | ChipEi/CPU.cpp:749-764 | Fx33 writes the digits at I, I+1 and I+2 and touches no other byte, register, I or pc. |
| Cpu.TransferIndex | ChipEi/CPU.cpp:768-790 | Fx55 and Fx65 move I by x + 1 exactly when `load_flag` is set, otherwise I is unchanged. |
| Cpu.StoreThenLoadRestores | ChipEi/CPU.cpp:768-790 | Without the load quirk, Fx65 after Fx55 gives the registers back. |
| Cpu.StoreThenLoadMovesOn | ChipEi/CPU.cpp:768-790 | With the load quirk, Fx65 after Fx55 reads the bytes just past those stored. |
| Cpu.FlagsRoundTrip | ChipEi/CPU.cpp:910-926 | Fx85 after Fx75 gives the registers back. |
| Cpu.FlagsFrame | ChipEi/CPU.cpp:910-926 | Fx75 changes only the user flags I..I+x; Fx85 changes only V0..Vx. |
| Cpu.LargeFontOffset | ChipEi/CPU.cpp:901-906 | Fx30 sets I = 0x50 + 10·Vx, which is 80 bytes before the large glyph. For digits below 8 it lands among the small glyphs, whose bytes differ. |
| Cpu.DrawTwice | ChipEi/CPU.cpp:528-572 | Dxyn with x, y ≠ F leaves what it reads alone, so drawing it again restores the framebuffer. |
| Cpu.DrawLargeTwice | ChipEi/CPU.cpp:862-897 | The same for Dxy0 in extended mode. |
| Cpu.LowResDrawDefined | ChipEi/CPU.cpp:534-564 | Outside extended mode every Dxyn whose rows lie in memory stays inside the framebuffer. |
| Cpu.DottedHighResOverflows | ChipEi/CPU.cpp:553-558 | In extended mode with `dotted_rendering_flag`, a lit pixel at row 63 writes past the framebuffer. |
| Cpu.DrawLargeFlag | ChipEi/CPU.cpp:873-891 | If and only if: Dxy0 sets VF exactly when some lit sprite pixel lands on a lit cell. |
| Cpu.DrawLargeLowRes | ChipEi/CPU.cpp:866-867 | Outside extended mode Dxy0 changes nothing. |
| Cpu.ExecKeepsFlow | ChipEi/CPU.cpp:109-285 | Every handler other than jumps, skips, call/return, Fx0A and the timer writes leaves pc and both timers alone. |
| Cpu.StepAdvances | ChipEi/CPU.cpp:80-97 | A cycle over such an instruction moves pc to the next word and ticks each timer once. |
| Cpu.WaitKeySpins | ChipEi/CPU.cpp:80-97 | A cycle over Fx0A with no key down leaves pc on the same instruction and the registers unchanged. |
| Cpu.CallThenReturnSteps | ChipEi/CPU.cpp:80-97 | A cycle over 2nnn then one over 00EE lands on the word after the call, with sp restored. |
| Cpu.ExecIgnoresRnd | ChipEi/CPU.cpp:516-521 | Only Cxkk depends on the random byte. |
| Cpu.Machine.constructor | ChipEi/CPU.cpp:34-48 | pc = 0x200, the 240-byte font copied to 0x50, all else zero, quirks off. |
| Cpu.Machine.LoadRom | ChipEi/CPU.cpp:51-77 | The program bytes are copied to 0x200 and the loaded flag is set; a file that fails to open changes nothing. |
| Cpu.Machine.IsSoundPlaying | ChipEi/CPU.cpp:103 | True if and only if the sound timer is positive. |
| Cpu.Machine.Op00E0 | ChipEi/CPU.cpp:296-299 | The new framebuffer is `Cleared`; see `Cpu.ClearTouchesTwoCells`. |
| Cpu.Machine.Op00Bn | ChipEi/CPU.cpp:796-810 | The copy loop and the in-bounds writes of the column-clearing loop: `video` becomes `ScrolledUp` of the old framebuffer and nothing else changes; see `Cpu.ScrollUpCell`. The writes past the end are `Cpu.ScrollOverruns`. |
| Cpu.Machine.Op00Cn | ChipEi/CPU.cpp:814-828 | The copy loop running upwards from row 63 and the in-bounds writes of the clearing loop: `video` becomes `ScrolledDown` of the old framebuffer; see `Cpu.ScrollDownCell`. The writes past the end are `Cpu.ScrollOverruns`. |
| Cpu.ScrollOverruns | ChipEi/CPU.cpp:805-809 | The clearing loop runs over 128 rows of the 64-row framebuffer. Row 64 starts at index 8192, the first index past `video`, so for n > 0 neither 00Bn nor 00Cn is `Defined`. |
| Cpu.Machine.ClearLeftColumns | ChipEi/CPU.cpp:805-809 | A cell becomes 0 if and only if its column is below n; other cells are kept. |
| Cpu.Machine.Op00FD | ChipEi/CPU.cpp:844-846 | quit = true. |
| Cpu.Machine.Op00FE | ChipEi/CPU.cpp:850-852 | extendedMode = false. |
| Cpu.Machine.Op00FF | ChipEi/CPU.cpp:856-858 | extendedMode = true. |
| Cpu.Machine.Op8xy6 | ChipEi/CPU.cpp:445-459 | Registers become `ShiftedRight` of the quirk-selected source; see `Cpu.ShiftRightEffect`. |
| Cpu.Machine.Op8xyE | ChipEi/CPU.cpp:473-487 | Registers become `ShiftedLeft` of the quirk-selected source; see `Cpu.ShiftLeftEffect`. |
| Cpu.Machine.DrawGroup | ChipEi/CPU.cpp:552-570 | The collision is read from the cells before any `^=`, and the cells are toggled in order. |
| Cpu.Machine.OpDxyn | ChipEi/CPU.cpp:528-572 | The nested row/column loops, proved against `DrawSprite`. VF is reset, then assigned per lit pixel; origin and pixels wrap, and scale 2 applies outside extended mode. |
| Cpu.Machine.OpDxy0 | ChipEi/CPU.cpp:862-897 | 16 rows of one byte by 16 columns, proved against `DrawLargeSprite`. VF is set by any collision; pixels do not wrap. |
| Cpu.Machine.OpFx30 | ChipEi/CPU.cpp:901-906 | I = 0x50 + 10·Vx; see `Cpu.LargeFontOffset`. |
| Cpu.Machine.OpFx33 | ChipEi/CPU.cpp:749-764 | Ones, tens and hundreds by successive division; see `Cpu.BcdEffect`. |
| Cpu.Machine.OpFx55 | ChipEi/CPU.cpp:768-776 | The store loop plus the optional I increment; see `Cpu.TransferIndex`. |
| Cpu.Machine.OpFx65 | ChipEi/CPU.cpp:780-790 | The load loop plus the optional I increment; see `Cpu.TransferIndex`. |
| Cpu.Machine.OpFx75 | ChipEi/CPU.cpp:910-916 | The loop writes `userRegisters[I + k]` = Vk. It needs I + x < 8 (unchecked index); see `Cpu.FlagsFrame`. |
| Cpu.Machine.OpFx85 | ChipEi/CPU.cpp:920-926 | The loop reads Vk = `userRegisters[I + k]`; see `Cpu.FlagsRoundTrip`. |
| Cpu.Machine.Cycle | ChipEi/CPU.cpp:80-97 | Fetch the big-endian word at pc, pc += 2, run the decoded handler, tick the timers: the new state is `CycleSpec`. |
| Cpu.Machine.ParseOpcodes | ChipEi/CPU.cpp:109-285 | Running the handler the switch picks: the new state is `Exec(old, Decode(opcode), rnd)`. |
| Cpu.Machine.Execute | ChipEi/CPU.cpp:112-284 | Each decoded instruction runs its handler; 00FB, 00FC and unmatched sub-codes change nothing. |
| Chip8.Initialised | ChipEi/Chip8.h:34-38 | The initialiser `{&Chip8::OP_NULL}`: n slots, slot 0 OP_NULL, every other slot null. |
| Chip8.IndexPastTable | ChipEi/Chip8.cpp:130-147 | If and only if: a sub-table index runs past the end exactly for low nibble F (classes 0, 8, E; 15-slot tables) or a low byte above 0x65 (class F). |
| Chip8.DispatchableWords | ChipEi/Chip8.cpp:84-147 | If and only if: the call through the tables is defined exactly for the listed words. The others hit a null slot or index past a table. |
| Chip8.SuperChipWordsUndefined | ChipEi/Chip8.cpp:130-147 | 00FF and F075 index past their tables; 00FD and F030 reach a null slot. |
| Chip8.DispatchMatchesDecode | ChipEi/Chip8.cpp:72 | Class 0 is decided by the low nibble alone, so every 0nn0 clears and every 0nnE returns. Class D always draws, even for n = 0. Every other dispatchable word runs what `Decode` gives it. |
| Chip8.LoadRomKeepsFont | ChipEi/Chip8.cpp:22-61 | The 80-byte font sits at 0x50..0x9F below 0x200; after start-up and a load the font and the program are both intact and pc = 0x200. |
| Chip8.DigitsAgree | ChipEi/Chip8.cpp:565-570 | `value/100`, `(value/10)%10` and `value%10` equal the successive-division digits of the SuperChip revision for every byte, and spell the value. |
| Chip8.RegisterOpsMatchCpu | ChipEi/Chip8.cpp:162-592 | On equal core states, the shared handlers and 8xy6, 8xyE, Fx33, Fx55 and Fx65 of this revision give the same core state as the SuperChip revision with every quirk off. |
| Chip8.ShiftsMoveVx | ChipEi/Chip8.cpp:298-326 | For x ≠ F, 8xy6 and 8xyE always shift Vx in place: VF gets the bit shifted out, other registers are kept. x = F is `Cpu.ShiftFromFlag` with source F. |
| Chip8.AddNeverCarries | ChipEi/Chip8.cpp:276-284 | 8xy4 leaves VF = 0 for every input (x ≠ F) and Vx = (Vx + Vy) mod 256. |
| Chip8.TransfersKeepIndex | ChipEi/Chip8.cpp:576-592 | Fx55 and Fx65 copy V0..Vx to and from memory[I..I+x] and never move I. |
| Chip8.DrawFlag | ChipEi/Chip8.cpp:376-397 | If and only if: Dxyn sets VF exactly when some lit sprite pixel lands on a lit cell. |
| Chip8.DrawTwice | ChipEi/Chip8.cpp:367-398 | With x, y ≠ F, drawing the same sprite again restores `video`. |
| Chip8.ClearOverruns | ChipEi/Chip8.cpp:155-158 | `fill_n(video, sizeof(video), 0)` writes 8192 elements, 6144 past the 2048 cells. So every word the tables send to 00E0 (each 0x0nn0) dispatches to it and gives a cycle that is not `CycleDefined`. |
| Chip8.BottomEdgeOverflows | ChipEi/Chip8.cpp:373-385 | Only the origin wraps: at row 31, a sprite whose second row has a lit first pixel indexes past the 2048 cells. |
| Chip8.CycleMatchesCpu | ChipEi/Chip8.cpp:64-81 | Outside class 0, a cycle over a shared instruction changes the core state exactly as the SuperChip revision's cycle does. |
| Chip8.CycleShared | ChipEi/Chip8.cpp:64-81 | A cycle over a shared instruction is fetch, pc += 2, the shared handler, and the timer tick. |
| Chip8.Machine.constructor | ChipEi/Chip8.cpp:22-36 | pc = 0x200, the 80-byte font at 0x50, a dark screen, and the five tables filled in (`Valid`). |
| Chip8.Machine.NewCore | ChipEi/Chip8.cpp:24-29 | The pc assignment and the font-copy loop give the start-up processor state. |
| Chip8.Machine.NewTable | ChipEi/Chip8.h:34-38 | A fresh table holding its initialiser. |
| Chip8.Machine.SetupFunctionPointerTable | ChipEi/Chip8.cpp:84-127 | From the initialisers, the five tables end holding exactly `MainTable`, `Table0Slots`, `Table8Slots`, `TableESlots` and `TableFSlots`. |
| Chip8.Machine.SetupMain | ChipEi/Chip8.cpp:85-100 | All 16 slots of `table`. |
| Chip8.Machine.SetupTable0 | ChipEi/Chip8.cpp:102-103 | Slots 0 and E of `table0`; the other 13 stay null. |
| Chip8.Machine.SetupTable8 | ChipEi/Chip8.cpp:105-113 | Slots 0-7 and E of `table8`; 8-D stay null. |
| Chip8.Machine.SetupTableE | ChipEi/Chip8.cpp:115-116 | Slots 1 and E of `tableE`; slot 0 keeps OP_NULL. |
| Chip8.Machine.SetupTableF | ChipEi/Chip8.cpp:118-126 | Nine slots of `tableF`; slot 0 keeps OP_NULL. |
| Chip8.Machine.LoadRom | ChipEi/Chip8.cpp:39-61 | The program bytes are copied to 0x200; a file that fails to open changes nothing. |
| Chip8.Machine.Op00E0 | ChipEi/Chip8.cpp:155-158 | The in-bounds writes of `fill_n`: every cell of `video` becomes 0 and nothing else changes. The writes past the end are `Chip8.ClearOverruns`. |
| Chip8.Machine.Op8xy6 | ChipEi/Chip8.cpp:298-305 | VF gets Vx's low bit, then Vx is halved (`ShiftedRight` with source Vx); see `Chip8.ShiftsMoveVx`. |
| Chip8.Machine.Op8xyE | ChipEi/Chip8.cpp:319-326 | VF gets Vx's high bit, then Vx is doubled in 8 bits; see `Chip8.ShiftsMoveVx`. |
| Chip8.Machine.OpFx33 | ChipEi/Chip8.cpp:547-572 | Memory gets `Digits(Vx)` at I..I+2; see `Chip8.DigitsAgree`. |
| Chip8.Machine.OpFx55 | ChipEi/Chip8.cpp:576-582 | The store loop; I unchanged; see `Chip8.TransfersKeepIndex`. |
| Chip8.Machine.OpFx65 | ChipEi/Chip8.cpp:586-592 | The load loop; I unchanged; see `Chip8.TransfersKeepIndex`. |
| Chip8.Machine.DrawCell | ChipEi/Chip8.cpp:384-395 | The collision is read before the cell is flipped with `^=`. |
| Chip8.Machine.OpDxyn | ChipEi/Chip8.cpp:367-398 | The nested loops, proved against `DrawSprite`: VF reset then set by any collision, the origin wrapped to 64x32, and pixels not wrapped. |
| Chip8.Machine.DrawRows | ChipEi/Chip8.cpp:380-397 | The row loop has drawn exactly the sprite's groups in order, with VF = 1 if and only if one of them collided. |
| Chip8.Machine.Cycle | ChipEi/Chip8.cpp:64-81 | Fetch, pc += 2, the call through the tables, the timer tick: the new state is `CycleSpec`. |
| Chip8.Machine.Dispatch | ChipEi/Chip8.cpp:130-147 | The call through `table` and, for classes 0, 8, E and F, through the sub-table. The new state is `Exec` of the instruction `Dispatched` gives. |
| Chip8.Machine.Execute | ChipEi/Chip8.cpp:150-592 | Each handler of this revision; OP_NULL changes nothing. |

## Left out

- `ChipEi/Platform.cpp`, `ChipEi/Platform.h` and `ChipEi/main.cpp` are not part of this model. They are SDL windowing, audio synthesis in floating point, argument parsing and frame pacing.
- The file-stream part of both `LoadROM`s (opening, `tellg`, `read`) is not modelled. The file's contents arrive as `Option<seq<Byte>>`, with `None` for a file that failed to open.
  - `Cpu.Machine.LoadRom` and `Chip8.Machine.LoadRom` require the program to fit below 4096 bytes, because the copy loop does not check the size.
  - `Chip8.Machine.LoadRom` does not model the open mode at ChipEi/Chip8.cpp:41. There `std::ios::binary || std::ios::ate` is a logical OR with value 1. The library reads that as its own mode bit 1 (`app` in libstdc++ and libc++, `in` in MSVC), never as `ate`. So `tellg()` reports position 0, and the copy loop at ChipEi/Chip8.cpp:54-56 as written copies nothing. The model copies the whole image, which is the evidently intended behaviour, not the as-written one.
- `Core.Processor.OpCxkk`: the clock-seeded `std::default_random_engine` is not modelled; its byte is the parameter `rnd`.
- The `std::cout` diagnostics of `OP_NULL` and `LoadROM` are not modelled.
- The Chip-8X and Chip-8E handlers (ChipEi/CPU.cpp:932-1077) and `OP_00FA` are not modelled. `ParseOpcodes` never calls them.
- `OP_00FB` and `OP_00FC` have empty bodies and are modelled as instructions that change nothing.
- `Cpu.Machine.Op00Bn`, `Cpu.Machine.Op00Cn` and `Cpu.Machine.ClearLeftColumns` model only the in-bounds cells of the column-clearing loops.
  - Those loops run over 128 rows of a 64-row buffer.
  - For n > 0 the writes to rows 64-127 fall outside `video`, which is undefined behaviour.
  - `Cpu.Defined` is therefore false for 00Bn and 00Cn with n > 0. `Cpu.Exec`, `Cpu.Machine.Cycle` and `Cpu.Machine.Execute` run them only for n = 0, and `Cpu.ScrollOverruns` records why.
- `Chip8.Machine.Op00E0` clears the 2048 cells of `video` and does not model the rest of the writes.
  - `std::fill_n(video, sizeof(video), 0)` writes 8192 elements into the 2048-element array, so 6144 writes land past its end.
  - `Chip8.Defined` is therefore false for 00E0, like every other out-of-range write. `Chip8.Exec`, `Chip8.Machine.Cycle` and `Chip8.Machine.Execute` never run it, and `Chip8.ClearOverruns` records why.
- `Cpu.Machine.Op00E0` models `memset` over `sizeof(current_video)` as 8 bytes (two cells), the size of a pointer on a 64-bit host.
- The `opcode` member is not a field of the model. Each handler receives the operand fields it extracts from `opcode` as arguments, and `Cycle` passes the fetched word on.
- Out-of-range indexing is excluded by `requires` (the `Defined` predicates), not modelled; the source checks none of it. This covers a stack overflow or underflow, a key number of 16 or more, I past memory in Fx33, Fx55, Fx65 or a draw, the user-flag index in Fx75/Fx85, a sprite pixel past the framebuffer, the column clear of a scroll by n > 0, the `fill_n` of the base revision's 00E0, and a dispatch-table index past the end or a null slot.
- The `current_video` pointer is not modelled. It always points at the single `video` buffer, which is modelled directly.
- The `isRomLoaded` and `shouldClose` accessors are not modelled separately. They return the `romLoaded` and `quit` fields of the state.
- Commented-out alternative code in both files is not modelled.
