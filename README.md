# CHIP-8 CPU model

A Dafny model of the virtual CPU `Chip8::CPU` of a CHIP-8 interpreter, with proofs about it.
It covers these parts of the CPU:

- **The machine state.** This is 4096 bytes of memory, sixteen V registers, a sixteen-entry call stack, the program counter, the index register and stack pointer, the current opcode, two timers, a 64 x 32 display of one byte per pixel, sixteen key states and the draw flag.
- **Construction.** Every array is value-initialised and the built-in font is copied to addresses 0x000-0x04F.
- **Program loading.** Byte i of the ROM image goes to address 0x200 + i.
- **The fetch / decode / execute cycle.**

The cycle fetches a big-endian opcode at pc and advances pc by 2 as an `unsigned short`. It then dispatches the opcode through two levels of member-function-pointer tables. The top nibble selects one of 16 top-level slots. Families 0x0, 0x8 and 0xE go on to a sub-table indexed by the low nibble, family 0xF to one indexed by the low byte, and every other family straight to its handler. `setFunctions` fills these tables.

There are 34 handlers. Only op00E0 (clear the screen) has a body; the other 33 are empty.

Modules:

- `Words` holds the unsigned machine values `Byte` and `Word`, 16-bit wrapping addition, and `Repeat`, the contents of a value-initialised array.
- `Font` holds the 16 hexadecimal glyphs and the 80-byte font set.
- `Dispatch` holds:
  - the handler and table-entry datatypes;
  - the tables as values;
  - `Lookup`, the dispatch through any tables;
  - `Decode`, the dispatch through the tables `setFunctions` installs;
  - the proofs that each handler is reached by exactly one (family, sub-key) position.
- `Chip8` holds:
  - the state as a value (`State`);
  - the spec functions `Boot`, `Loaded`, `Perform`, `Cycle` and `Run`;
  - the class `CPU`. It owns the arrays and tables and updates them in place. Its methods are tied to the spec functions through `Snapshot()` and `CurrentTables()`.

Modelling choices:

- **Masks.** The masks and shifts `(op & 0xF000) >> 12`, `op & 0x000F` and `op & 0x00FF` are written as `/ 0x1000`, `% 0x10` and `% 0x100`. These are equal on unsigned values.
- **Null slots.** A null table slot is `None`.
- **Table sizes.** The header in this snapshot declares neither the five tables nor `setFunctions`. Their sizes are taken from how they are indexed: 16 slots for nibble indices and 256 for the byte index.
- **Undefined behaviour is a precondition.** Some source behaviour is undefined:
  - reading past the end of memory during a fetch;
  - calling through a null table slot;
  - writing past the end of memory during a load.

  Each of these is excluded by a precondition, because the source neither checks nor handles them.
- **The op00E0 draw flag.** CHIP-8 interpreters usually mark the display dirty on 00E0. This one's clear-screen handler does not set `drawFlag`, and the model follows the code.
- **The load size limit.** A checked loader would reject an image longer than 3584 bytes with a "program too large" error. This one has no such check and writes past the array. The model follows the code: the limit is a precondition, not an error result.

## Model

| member | source | states |
|---|---|---|
| Words.WrapAdd | src/CPU.cpp:65 | `unsigned short` addition: the plain sum when it fits in 16 bits, and the sum less 2^16 when it overflows (by less than 2^16) |
| Words.Repeat | src/CPU.cpp:14-24 | a value-initialised array of n elements holds n copies of the same value: zero for the byte and word arrays, null for the tables |
| Font.Glyph | include/CPU.h:30-48 | each hexadecimal glyph is five rows |
| Font.FontSet | include/CPU.h:30-48 | the font set is exactly 80 bytes |
| Font.FontLayout | include/CPU.h:30-48 | byte 5d + r of the font set is row r of glyph d, and it lies inside the 80 bytes |
| Font.GlyphFourPixelsWide | include/CPU.h:30-48 | every glyph row has its low nibble clear (glyphs are 4 pixels wide) |
| Font.FontFourPixelsWide | include/CPU.h:30-48 | every one of the 80 font bytes has its low nibble clear |
| Chip8.LayoutFacts | include/CPU.h:26-57 | the font fits below 0x200, at most 3584 bytes fit above it, and the display has 64 * 32 = 2048 cells |
| Chip8.Blank | include/CPU.h:56 | the cleared display has 2048 cells |
| Chip8.BootMemory | src/CPU.cpp:14-48 | boot memory is 4096 bytes: the font set at 0x000-0x04F and zero everywhere else |
| Chip8.Boot | src/CPU.cpp:8-48 | the boot state has every array at its fixed size |
| Chip8.FetchWord | src/CPU.cpp:63 | the fetched opcode's high byte is memory[pc] and its low byte memory[pc + 1] |
| Chip8.Loaded | src/CPU.cpp:97-100 | after a load, address 0x200 + i holds image byte i and every address outside the image keeps its value |
| Chip8.Perform | src/CPU.cpp:114-252 | op00E0 blanks the display and changes nothing else, including drawFlag; every other handler leaves the state unchanged |
| Chip8.PerformAsWritten | src/CPU.cpp:114-120 | the handlers as written keep the state well formed (what op00E0 as written does to the display is stated by ClearAsWrittenKeepsPixels) |
| Chip8.ClearAsWrittenKeepsPixels | src/CPU.cpp:114-120 | with a lit pixel p, op00E0 as written leaves p lit and the display not blank, while the intended op00E0 turns p off |
| Chip8.Cycle | src/CPU.cpp:60-79 | a cycle is defined exactly when pc + 1 is in memory and the fetched opcode reaches an installed handler. It then sets opcode to the big-endian word at pc and pc to pc + 2. The display becomes blank when the opcode decodes to op00E0 and is otherwise unchanged. Nothing else changes |
| Chip8.Run | src/CPU.cpp:60-79 | after n defined cycles the state is well formed and pc has moved by exactly 2n. Memory, registers, stack, index, sp, timers, keys and drawFlag are unchanged, and the display is either unchanged or blank |
| Chip8.StepClearsFirst | src/CPU.cpp:60-68 | the first cycle of a run fetches an op00E0 exactly when the opcode it leaves behind decodes to op00E0 |
| Chip8.RunDisplay | src/CPU.cpp:60-252 | after n defined cycles the display is blank if one of the n fetched opcodes is an op00E0, and otherwise exactly as it was before |
| Chip8.LoadedReadBack | src/CPU.cpp:97-100 | reading the program area back after a load gives exactly the image |
| Chip8.LoadKeepsFont | src/CPU.cpp:97-100 | a load never changes the font area 0x000-0x04F |
| Chip8.LoadEmpty | src/CPU.cpp:81-105 | loading an empty image, which is also what happens when the file cannot be opened, leaves memory unchanged |
| Chip8.LoadedAt | src/CPU.cpp:97-100 | each address after a load holds the image byte if it lies in the image's range, else its old value |
| Chip8.LoadLongerOverShorter | src/CPU.cpp:97-100 | loading an image at least as long as the previous one gives the same memory as loading it alone |
| Chip8.LoadShorterOverLonger | src/CPU.cpp:97-100 | a shorter second load leaves the tail of the first image in place; memory above the loaded length is not cleared |
| Chip8.BootLoadFetch | src/CPU.cpp:45-100 | after boot and a load, the first fetch at 0x200 yields image[0] * 0x100 + image[1] |
| Chip8.CPU.constructor | src/CPU.cpp:8-58 | the object's state is the boot state, with pc at 0x200, zeros, and the font in memory. Every slot of all five dispatch tables is null, because setFunctions is never called. Every state array and table is freshly allocated, so the object owns it as it owns its by-value `std::array` members |
| Chip8.CPU.Create | src/CPU.cpp:275-320 | construction followed by setFunctions yields the boot state with exactly the installed tables. The object owns every state array and table it uses, so a caller may go on to loadProgram and emulateCycle |
| Chip8.CPU.FontMemory | src/CPU.cpp:44-48 | the font loop turns the zeroed memory into boot memory |
| Chip8.CPU.ZeroBytes | src/CPU.cpp:14-18 | a fresh value-initialised `unsigned char` array is all zeros |
| Chip8.CPU.ZeroWords | src/CPU.cpp:16 | a fresh value-initialised `unsigned short` array is all zeros |
| Chip8.CPU.NullEntries | src/CPU.cpp:20 | a fresh value-initialised top-level table is all null |
| Chip8.CPU.NullSlots | src/CPU.cpp:21-24 | a fresh value-initialised sub-table is all null |
| Chip8.CPU.SetFunctions | src/CPU.cpp:275-320 | every top-level slot holds its assigned entry, each listed sub-table slot holds its handler and every unlisted slot is unchanged. The tables are then Ready, and exactly the installed tables when they started out null |
| Chip8.CPU.SetTopSlots | src/CPU.cpp:277-292 | the top-level table holds the 16 assigned entries in slot order |
| Chip8.CPU.SetSlots0x0 | src/CPU.cpp:294-295 | slots 0x0 and 0xE of the family-0 table hold op00E0 and op00EE; the rest are unchanged |
| Chip8.CPU.SetSlots0x8 | src/CPU.cpp:297-305 | slots 0x0-0x7 and 0xE of the family-8 table hold their handlers; the rest are unchanged |
| Chip8.CPU.SetSlots0xE | src/CPU.cpp:307-308 | slots 0x1 and 0xE of the family-E table hold ExA1 and Ex9E; the rest are unchanged |
| Chip8.CPU.SetSlots0xF | src/CPU.cpp:310-318 | the nine listed low-byte slots of the family-F table hold their handlers; the rest are unchanged |
| Chip8.CPU.EmulateCycle | src/CPU.cpp:60-79 | the new state is what Cycle gives for the old one: opcode fetched big-endian, pc advanced by 2 with 16-bit wrap, and the decoded handler run. The tables stay Ready |
| Chip8.CPU.FindHandler | src/CPU.cpp:255-273 | the two-level call through the tables reaches Lookup of the current tables, and it reaches Decode's handler whenever setFunctions' assignments are in place |
| Chip8.CPU.Execute | src/CPU.cpp:114-252 | op00E0 blanks the display; every other handler leaves it unchanged |
| Chip8.CPU.ClearScreen | src/CPU.cpp:114-120 | every display cell is 0 afterwards |
| Chip8.CPU.LoadProgram | src/CPU.cpp:97-100 | memory afterwards is Loaded(old memory, image) |
| Dispatch.Family | src/CPU.cpp:68 | the top-level index is below 16 |
| Dispatch.LowNibble | src/CPU.cpp:255-268 | the sub-table index of families 0, 8 and E is below 16 |
| Dispatch.LowByte | src/CPU.cpp:270-273 | the sub-table index of family F is below 256 |
| Dispatch.Lookup | src/CPU.cpp:68 | no ensures: the dispatch through any five tables. Its meaning is stated by Chip8.CPU.FindHandler (the imperative walk equals it), by AssignedDecodes (installed slots give Decode) and by NullTablesReachNothing (null tables give nothing) |
| Dispatch.Decode | src/CPU.cpp:255-273 | no ensures: Lookup through the installed tables. Its meaning is stated by DecodeByKey (it decodes to h exactly at h's position), DecodeNone (it decodes to nothing exactly where no handler sits) and DecodePattern (every handler is reached) |
| Dispatch.DispatchKey | src/CPU.cpp:255-273 | the position read last has the opcode's family. It is a sub-table position exactly for families 0, 8, E and F, and its index lies inside that sub-table |
| Dispatch.TopSlot | src/CPU.cpp:277-292 | setFunctions assigns exactly the 16 top-level slots 0x0-0xF |
| Dispatch.Sub0Slot | src/CPU.cpp:294-295 | every family-0 slot setFunctions assigns lies inside the 16-slot table |
| Dispatch.Sub8Slot | src/CPU.cpp:297-305 | every family-8 slot setFunctions assigns lies inside the 16-slot table |
| Dispatch.SubESlot | src/CPU.cpp:307-308 | every family-E slot setFunctions assigns lies inside the 16-slot table |
| Dispatch.SubFSlot | src/CPU.cpp:310-318 | every family-F slot setFunctions assigns lies inside the 256-slot table |
| Dispatch.Slot | src/CPU.cpp:275-320 | no ensures: the handler setFunctions stores at a position. Its meaning is stated by SlotOfKey and KeyOfSlot, which show it is the inverse of KeyOf |
| Dispatch.Assigned | src/CPU.cpp:275-320 | no ensures: every slot setFunctions assigns holds its entry. Chip8.CPU.SetFunctions establishes it, and AssignedDecodes shows it is enough for dispatch to agree with Decode |
| Dispatch.TopRow | src/CPU.cpp:277-292 | the 16 top-level assignments, in slot order, agree with the slot-by-slot definition TopSlot |
| Dispatch.Installed | src/CPU.cpp:275-320 | the installed tables have 16, 16, 16, 16 and 256 slots |
| Dispatch.AssignedDecodes | src/CPU.cpp:255-273 | tables holding every setFunctions assignment dispatch each known opcode to the handler Decode gives, whatever the unassigned slots hold |
| Dispatch.KeyOf | src/CPU.cpp:275-320 | each handler's table position has a family below 16. It is a sub-table position exactly for families 0, 8, E and F, with an index inside that sub-table |
| Dispatch.DecodeReadsSlot | src/CPU.cpp:255-273 | decoding an opcode reads exactly the installed slot at its dispatch position |
| Dispatch.SlotOfKey | src/CPU.cpp:275-320 | setFunctions stores every handler at the position KeyOf names |
| Dispatch.KeyOfSlot | src/CPU.cpp:275-320 | a handler found at a position is the one whose KeyOf is that position: KeyOf inverts Slot |
| Dispatch.KeyOfSlot8 | src/CPU.cpp:297-305 | the same inversion for the family-8 sub-table |
| Dispatch.KeyOfSlotF | src/CPU.cpp:310-318 | the same inversion for the family-F sub-table |
| Dispatch.DecodeByKey | src/CPU.cpp:255-320 | an opcode decodes to handler h if and only if its dispatch position is h's position |
| Dispatch.KeyOfInjective | src/CPU.cpp:275-320 | no two handlers share a table position |
| Dispatch.DecodePattern | src/CPU.cpp:255-320 | every one of the 34 handlers is reached: its pattern opcode decodes to it |
| Dispatch.DecodeNone | src/CPU.cpp:255-320 | an opcode decodes to nothing if and only if no handler has its dispatch position |
| Dispatch.DecodeIgnoresOperands | src/CPU.cpp:255-273 | opcodes with the same dispatch position decode alike; operand bits never matter |
| Dispatch.TopLevelShape | src/CPU.cpp:277-292 | every top-level slot is assigned, and it holds a handler directly exactly for the families other than 0, 8, E and F |
| Dispatch.DecodeExamples0 | src/CPU.cpp:255-258 | 00E0 and 00EE decode to their handlers, and so do 0xy0 and 0xyE for every x and y |
| Dispatch.DecodeExamples8 | src/CPU.cpp:260-263 | 8xyE decodes to op8xyE and 8xy8 to nothing, for every x and y |
| Dispatch.DecodeExamplesEF | src/CPU.cpp:265-273 | Ex9E and ExA1 decode to their handlers, Fx65 to opFx65 and FxE5 to nothing, for every x |
| Dispatch.DecodeExampleDirect | src/CPU.cpp:278 | 1nnn decodes to op1nnn for every nnn |
| Dispatch.NullTablesReachNothing | src/CPU.cpp:20-24 | through value-initialised tables that were never filled, every opcode dispatches through a null slot |

## Left out

- The file I/O of loadProgram is left out. LoadProgram takes the bytes of the ROM file. The branch where the file cannot be opened equals loading an empty image (LoadEmpty).
- Logging, the NovelRT runner, and the constructor's `exit(3)` when the runner is null are left out. They are outside the CPU's state.
- Audio (`generateBeep`, `beep`) is left out because it is host I/O.
- `setKeys` has an empty body, so there is nothing to model.
- `cycleTimers` is declared with no body in this source, so there is nothing to model.
- The 33 handlers other than op00E0 are left out. They are empty in this snapshot, so the model runs them as no-ops and states no CHIP-8 instruction semantics for them.
- Timer decrements are not modelled. The decrement in emulateCycle is commented out in the source, and no modelled operation changes the timers.
- Chip8.CPU.EmulateCycle requires that pc + 1 is inside memory and that the fetched opcode reaches an assigned slot. In both other cases the source has undefined behaviour: it reads past the array or calls through a null member pointer.
- Chip8.CPU.LoadProgram requires an image of at most 3584 bytes. The source does not check the size, and a longer image writes past the array.
- The host program that drives the CPU is not part of this model: the main loop, window, input and rendering.

## Findings

| source | as written | input that shows it | evidently intended | confidence | as-written member | corrected member |
|---|---|---|---|---|---|---|
| src/CPU.cpp:8-58 | the constructor value-initialises the five dispatch tables to null and never calls setFunctions; nothing else calls it either | any opcode: the first emulateCycle calls through a null `_funcTable` slot | the tables are filled by setFunctions before the first cycle | not executed | Dispatch.NullTablesReachNothing | Chip8.CPU.Create |
| src/CPU.cpp:114-120 | op00E0's `for each (auto var in gfx)` assigns 0 to a copy of each cell, so the display is not cleared | a display with any lit pixel p: after op00E0, p is still lit | every display cell becomes 0 | not executed | Chip8.ClearAsWrittenKeepsPixels | Chip8.CPU.ClearScreen |
