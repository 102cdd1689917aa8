# SimpleChip8 core in Dafny

This project models the CHIP-8 interpreter core of SimpleChip8, which is the class `chip8`.
The model covers:

- the machine state: 4095 bytes of memory, sixteen 8-bit V registers, the 16-bit index `I`
  and program counter `pc`, a 16-slot call stack with its pointer, the 64 x 32 screen, the
  16-key keypad, the delay and sound timers, and `drawFlag`;
- the built-in 80-byte hexadecimal font;
- `initialize()`, run by the constructor;
- `emulateCycle()`, meaning fetch, decode, all 34 opcode cases of the switch (any other
  opcode decodes to `Unknown` and does nothing) and the timer update;
- `loadApplication()`, the copy of the program image to 0x200.

The project has four modules:

- `Bits`: byte and word widths with explicit wrap-around, and bitwise AND/OR/XOR on
  naturals.
- `Chip8Spec`: the state as a datatype, and the decoder. Each `case` of the switch is a
  `Step`/`Execute` function returning an `Effect`, and `Cycle` is one call of
  `emulateCycle()`.
- `Chip8Machine`: the class `Chip8`, whose arrays are updated in place by methods with the
  source's loops. Each method is proved to change the abstract state `Abs()` exactly as
  the matching `Chip8Spec` function says. `EmulateCycle` follows `Cycle` directly.
  `Performs` is a proof device. It lists the switch case by case, so that each `RunX`
  method can be checked against its own group without unfolding all of `Execute`. The
  lemma `PerformsIsExecute` turns it back into `Execute` for `EmulateCycle`. It is not a
  property of the program.
- `Chip8Properties`: the properties of the specification functions. These include the
  opcodes round-tripping through decode, carry and borrow, BCD, register block
  save/restore, XOR drawing and collision, FX0A blocking, whole-instruction soundness and
  multi-cycle behaviour.

Where the C++ code indexes past an array (undefined behaviour), the model stops the cycle
with a `Fault`. There is one exception: `V[0xF]`, which the model treats as a 16th
register (see "## Findings"). On a fault the machine is left exactly as it was and the
timers do not tick. The conditions are:

- `InvalidFetch`: `pc + 1` is past memory.
- `StackOverflow`: 2NNN with 16 frames already on the stack.
- `StackUnderflow`: 00EE with an empty stack.
- `MemoryOutOfRange`: DXYN, FX33, FX55 or FX65 reading or writing past memory.
- `PixelOutOfRange`: a set sprite bit whose screen index is at or past 2048.
- `KeyOutOfRange`: EX9E or EXA1 with VX > 15.

A sprite that runs off the right edge is not undefined in the C++ code. Its flat index
simply continues on the next row, and the model does the same.

Some behaviours of the code as written are kept and proved:

- The register loop of `initialize()` stops at 0xF, so VF survives a reset
  (`ResetKeepsFlag`).
- CXNN computes `rand() % 0xFF`, so it never produces 255 (`RandomMasked`).
- The 0x0 family looks only at the last digit, and 5XYN and 9XYN ignore N
  (`DecodeIgnoredDigits`). In particular the zero word of erased memory is 00E0.
- FX0A keeps the highest pressed key, because its loop assigns VX for every key that is
  down (`LastPressedIsHighest`).
- FX0A with no key down returns before the timers, so the whole cycle leaves the machine
  unchanged (`AwaitKeyCycle`).
- 2NNN pushes the address of the call itself, and 00EE adds 2 after popping
  (`CallThenReturn`).
- DXYN with N = 0 draws nothing, touches no memory, clears VF and raises `drawFlag`
  (`DrawNothing`).
- BNNN does not reduce NNN + V0 to 12 bits, so it can jump past memory, and the next cycle
  then traps (`JumpOffsetCycle`, `JumpOffsetPastMemory`).
- EX9E tests `key[VX] == 1` and EXA1 tests `key[VX] == 0`, so a key value of 2 or more
  makes neither skip (`SkipKeyValues`).
- 8XY4 to 8XYE write VF before VX, so with X = F the result overwrites the flag
  (`FlagAsDestination`, `ShiftFlagAsDestination`). With Y = F, 8XY4, 8XY5 and 8XY7 read
  the flag they have just written as the operand: 8XF4 adds the carry to VX, not the old
  VF (`FlagAsOperand`). With X = Y = F, 8FF4 leaves twice the carry and 8FF5 and 8FF7
  always leave 0 (`FlagAsBothOperands`).
- FX1E also writes VF before I, so with X = F the index grows by the new flag rather than
  the old VF (`AddIndexFlagAsOperand`).

The comment next to `memory[0xFFF]` in SimpleChip8/chip8.h says the memory is 4096 bytes,
but the declaration gives 4095 cells. The model follows the declaration. This is
consistent with `BUFFERSIZE = 0xFFF - 0x200` in `loadApplication`.

## Model

| member | source | states |
|---|---|---|
| Chip8Spec.LoadImage | SimpleChip8/chip8.cpp:380-394 | memory below 0x200 is kept, and from 0x200 on it is exactly the BUFFERSIZE-byte buffer |
| Chip8Spec.Fetch | SimpleChip8/chip8.cpp:78 | the opcode's high byte is `memory[pc]` and its low byte is `memory[pc + 1]` |
| Chip8Spec.LastPressed | SimpleChip8/chip8.cpp:293-312 | the key found by the FX0A scan is -1 (none) or an index below 16 |
| Chip8Spec.StoreBlock | SimpleChip8/chip8.cpp:345-350 | the FX55 copy keeps the memory size |
| Chip8Spec.LoadBlock | SimpleChip8/chip8.cpp:352-357 | the FX65 copy keeps the register count |
| Chip8Spec.StepClearScreen | SimpleChip8/chip8.cpp:86-92 | 00E0 makes every pixel 0, raises drawFlag, advances pc by 2, and changes nothing else |
| Chip8Spec.StepReturn | SimpleChip8/chip8.cpp:95-99 | 00EE fails with StackUnderflow exactly when sp is 0; otherwise it changes only sp (one less) and pc |
| Chip8Spec.StepJump | SimpleChip8/chip8.cpp:105-107 | 1NNN sets pc to NNN and changes nothing else |
| Chip8Spec.StepCall | SimpleChip8/chip8.cpp:109-113 | 2NNN fails with StackOverflow exactly when all 16 slots are used; otherwise it changes only the stack, sp (one more) and pc (to NNN) |
| Chip8Spec.StepJumpOffset | SimpleChip8/chip8.cpp:225-227 | BNNN sets pc to NNN + V0, with no reduction to 12 bits, and changes nothing else |
| Chip8Spec.StepSkipKey | SimpleChip8/chip8.cpp:267-284 | EX9E/EXA1 fail with KeyOutOfRange exactly when VX > 15; otherwise they change only pc, which advances by 4 exactly when `key[VX] == 1` (EX9E) or `key[VX] == 0` (EXA1) and by 2 otherwise |
| Chip8Spec.StepAddRegs | SimpleChip8/chip8.cpp:169-176 | 8XY4 changes only V and pc |
| Chip8Spec.StepSubRegs | SimpleChip8/chip8.cpp:178-185 | 8XY5 changes only V and pc |
| Chip8Spec.StepShiftRight | SimpleChip8/chip8.cpp:187-191 | 8XY6 changes only V and pc |
| Chip8Spec.StepSubReversed | SimpleChip8/chip8.cpp:193-200 | 8XY7 changes only V and pc |
| Chip8Spec.StepShiftLeft | SimpleChip8/chip8.cpp:202-206 | 8XYE changes only V and pc |
| Chip8Spec.StepAddIndex | SimpleChip8/chip8.cpp:324-331 | FX1E changes only V, I and pc |
| Chip8Spec.StepDraw | SimpleChip8/chip8.cpp:234-265 | DXYN fails exactly when a sprite row is past memory (MemoryOutOfRange) or a set bit lands past the screen (PixelOutOfRange); otherwise it changes only V, the screen, drawFlag (raised) and pc |
| Chip8Spec.StepAwaitKey | SimpleChip8/chip8.cpp:293-312 | FX0A blocks exactly when no key is down, never faults, and otherwise changes only V and pc |
| Chip8Spec.StepStoreBcd | SimpleChip8/chip8.cpp:338-343 | FX33 fails with MemoryOutOfRange exactly when I + 2 is past memory; otherwise it changes only memory and pc |
| Chip8Spec.StepStoreRegs | SimpleChip8/chip8.cpp:345-350 | FX55 fails exactly when I + X is past memory; otherwise it changes only memory and pc |
| Chip8Spec.StepLoadRegs | SimpleChip8/chip8.cpp:352-357 | FX65 fails exactly when I + X is past memory; otherwise it changes only V and pc |
| Chip8Machine.Chip8.constructor | SimpleChip8/chip8.cpp:30-34 | the new machine's state is `PowerOn()`, i.e. `initialize()` applied to zeroed storage |
| Chip8Machine.Chip8.Initialize | SimpleChip8/chip8.cpp:42-73 | the new state is `Reset` of the old one |
| Chip8Machine.Chip8.ClearStack | SimpleChip8/chip8.cpp:55-56 | every stack slot is 0 |
| Chip8Machine.Chip8.ClearRegisters | SimpleChip8/chip8.cpp:59-60 | V0..VE are 0 and VF keeps its old value |
| Chip8Machine.Chip8.ResetMemory | SimpleChip8/chip8.cpp:63-68 | memory is the font set followed by zeros |
| Chip8Machine.Chip8.ClearMemory | SimpleChip8/chip8.cpp:63-64 | every memory cell is 0 |
| Chip8Machine.Chip8.LoadFontSet | SimpleChip8/chip8.cpp:67-68 | the first 80 cells hold the font set and the rest of memory is unchanged |
| Chip8Machine.Chip8.EmulateCycle | SimpleChip8/chip8.cpp:75-378 | `Cycle(old state, rnd)` is `Stepped(new state)` when no fault is returned, and `Trapped(fault)` otherwise; on a fault the state is unchanged |
| Chip8Machine.Chip8.ExecuteInstruction | SimpleChip8/chip8.cpp:80-362 | the reported effect satisfies `Performs` on the old state; when blocked or faulted the state is unchanged |
| Chip8Machine.Chip8.RunSystem | SimpleChip8/chip8.cpp:84-102 | 0x0 family: `SystemPerforms` holds of the old state and the reported effect |
| Chip8Machine.Chip8.RunJumps | SimpleChip8/chip8.cpp:105-113 | 1NNN, 2NNN, BNNN: `JumpsPerforms` holds |
| Chip8Machine.Chip8.RunSkips | SimpleChip8/chip8.cpp:115-134 | 3XNN, 4XNN, 5XY0, 9XY0: `SkipsPerforms` holds |
| Chip8Machine.Chip8.RunLoads | SimpleChip8/chip8.cpp:136-144 | 6XNN, 7XNN, ANNN, CXNN: `LoadsPerforms` holds |
| Chip8Machine.Chip8.RunLogic | SimpleChip8/chip8.cpp:149-167 | 8XY0 to 8XY3: `LogicPerforms` holds |
| Chip8Machine.Chip8.RunArithmetic | SimpleChip8/chip8.cpp:169-206 | 8XY4 to 8XYE: `ArithmeticPerforms` holds |
| Chip8Machine.Chip8.RunScreenAndKeys | SimpleChip8/chip8.cpp:234-284 | DXYN, EX9E, EXA1: `ScreenAndKeysPerforms` holds |
| Chip8Machine.Chip8.RunTimers | SimpleChip8/chip8.cpp:288-322 | FX07, FX0A, FX15, FX18: `TimersPerforms` holds |
| Chip8Machine.Chip8.RunIndex | SimpleChip8/chip8.cpp:324-357 | FX1E, FX29, FX33, FX55, FX65: `IndexPerforms` holds |
| Chip8Machine.Chip8.RunClearScreen | SimpleChip8/chip8.cpp:88-93 | the new state is `StepClearScreen` of the old |
| Chip8Machine.Chip8.RunReturn | SimpleChip8/chip8.cpp:95-99 | the result and new state are `StepReturn` of the old state |
| Chip8Machine.Chip8.RunCall | SimpleChip8/chip8.cpp:109-113 | the result and new state are `StepCall` of the old state |
| Chip8Machine.Chip8.RunSkip | SimpleChip8/chip8.cpp:115-134 | pc advances by 4 when the comparison holds and by 2 otherwise, and nothing else changes |
| Chip8Machine.Chip8.RunSkipKey | SimpleChip8/chip8.cpp:267-284 | the result and new state are `StepSkipKey` of the old state |
| Chip8Machine.Chip8.RunSetRegister | SimpleChip8/chip8.cpp:136-167 | VX takes the given value and pc advances by 2 |
| Chip8Machine.Chip8.RunAddRegs | SimpleChip8/chip8.cpp:169-176 | the new state is `StepAddRegs` of the old |
| Chip8Machine.Chip8.RunSubRegs | SimpleChip8/chip8.cpp:178-185 | the new state is `StepSubRegs` of the old |
| Chip8Machine.Chip8.RunShiftRight | SimpleChip8/chip8.cpp:187-191 | the new state is `StepShiftRight` of the old |
| Chip8Machine.Chip8.RunSubReversed | SimpleChip8/chip8.cpp:193-200 | the new state is `StepSubReversed` of the old |
| Chip8Machine.Chip8.RunShiftLeft | SimpleChip8/chip8.cpp:202-206 | the new state is `StepShiftLeft` of the old |
| Chip8Machine.Chip8.RunAddIndex | SimpleChip8/chip8.cpp:324-331 | the new state is `StepAddIndex` of the old |
| Chip8Machine.Chip8.RunDraw | SimpleChip8/chip8.cpp:234-265 | the result and new state are `StepDraw` of the old state |
| Chip8Machine.Chip8.RunAwaitKey | SimpleChip8/chip8.cpp:293-312 | the result and new state are `StepAwaitKey` of the old state |
| Chip8Machine.Chip8.RunStoreBcd | SimpleChip8/chip8.cpp:338-343 | the result and new state are `StepStoreBcd` of the old state |
| Chip8Machine.Chip8.RunStoreRegs | SimpleChip8/chip8.cpp:345-350 | the result and new state are `StepStoreRegs` of the old state |
| Chip8Machine.Chip8.RunLoadRegs | SimpleChip8/chip8.cpp:352-357 | the result and new state are `StepLoadRegs` of the old state |
| Chip8Machine.Chip8.LoadApplication | SimpleChip8/chip8.cpp:380-394 | it returns true, and memory becomes `LoadImage` of the old memory and the buffer |
| Chip8Machine.Chip8.ClearScreen | SimpleChip8/chip8.cpp:51-52 | every pixel is 0 |
| Chip8Machine.Chip8.DrawSprite | SimpleChip8/chip8.cpp:246-259 | the screen becomes `SpriteDrawn` of the old screen, and VF becomes 1 exactly when `Collides` and 0 otherwise |
| Chip8Machine.Chip8.DrawRow | SimpleChip8/chip8.cpp:249-258 | one more sprite row is XORed on, and VF accumulates the collision of the rows so far |
| Chip8Machine.Chip8.DrawBit | SimpleChip8/chip8.cpp:251-257 | one more sprite bit is XORed on, and VF accumulates the collision of the bits so far |
| Chip8Machine.Chip8.ScanKeys | SimpleChip8/chip8.cpp:297-304 | it reports a key pressed exactly when some key is down, and VX is then the highest pressed key; otherwise V is unchanged |
| Chip8Machine.Chip8.StoreRegisters | SimpleChip8/chip8.cpp:347-348 | memory becomes `StoreBlock`, meaning V0..VX at I..I+X with the rest unchanged |
| Chip8Machine.Chip8.LoadRegisters | SimpleChip8/chip8.cpp:354-355 | V becomes `LoadBlock`, meaning V0..VX from I..I+X with the rest unchanged |
| Chip8Machine.Chip8.UpdateTimers | SimpleChip8/chip8.cpp:368-377 | the new state is `Tick` of the old: each nonzero timer is decremented once |
| Chip8Properties.DecodeDigits | SimpleChip8/chip8.cpp:78-83 | splitting a 16-bit opcode into its four hexadecimal digits is exact, so the decoder sees the digits it was built from |
| Chip8Properties.DecodeFieldsDigits | SimpleChip8/chip8.cpp:80-362 | the digit tuple of every known instruction selects that instruction in the switch |
| Chip8Properties.DecodeEncode | SimpleChip8/chip8.cpp:80-362 | decoding the canonical opcode of every known instruction gives that instruction back |
| Chip8Properties.DecodeIgnoredDigits | SimpleChip8/chip8.cpp:84-134 | 0XY0 is 00E0 and 0XYE is 00EE for any X and Y; 5XYN and 9XYN compare VX and VY for any N; opcode 0 clears the screen |
| Chip8Properties.PowerOnState | SimpleChip8/chip8.cpp:30-73 | after the constructor, pc is 0x200, the font is at 0x000-0x04F, and other memory, registers, stack, screen, keys, I, sp and timers are 0 |
| Chip8Properties.ResetKeepsFlag | SimpleChip8/chip8.cpp:59-60 | `initialize()` zeroes V0..VE, keeps VF, keeps the sizes, and is idempotent |
| Chip8Properties.LastPressedIsHighest | SimpleChip8/chip8.cpp:297-304 | the scan's key is down, every higher key is up, and -1 means no key is down |
| Chip8Properties.AddRegsCarry | SimpleChip8/chip8.cpp:169-176 | for X, Y ≠ F: VX + 256·VF after 8XY4 is the exact sum, VF is 1 exactly on overflow, other registers are kept, and pc advances by 2 |
| Chip8Properties.SubRegsBorrow | SimpleChip8/chip8.cpp:178-185 | for X, Y ≠ F: VX after 8XY5 is VX − VY mod 256, and VF is 1 exactly when VX ≥ VY |
| Chip8Properties.SubReversedBorrow | SimpleChip8/chip8.cpp:193-200 | for X, Y ≠ F: VX after 8XY7 is VY − VX mod 256, and VF is 1 exactly when VY ≥ VX |
| Chip8Properties.AddThenSubtract | SimpleChip8/chip8.cpp:169-185 | for distinct X and Y, neither F: 8XY4 then 8XY5 gives back the original VX |
| Chip8Properties.ShiftRightSplits | SimpleChip8/chip8.cpp:187-191 | for X ≠ F: the old VX is 2·new VX + VF, with VF ≤ 1 |
| Chip8Properties.ShiftLeftSplits | SimpleChip8/chip8.cpp:202-206 | for X ≠ F: 2·old VX is new VX + 256·VF, with VF ≤ 1 |
| Chip8Properties.FlagAsDestination | SimpleChip8/chip8.cpp:169-200 | with X = F and Y ≠ F the result overwrites the flag: 8FY4 leaves (carry + VY) mod 256, 8FY5 leaves (no-borrow − VY) mod 256, and 8FY7 leaves (VY − no-borrow) mod 256 |
| Chip8Properties.FlagAsOperand | SimpleChip8/chip8.cpp:169-200 | with Y = F and X ≠ F the operand is the new flag: 8XF4 leaves VX = (VX + carry) mod 256, 8XF5 leaves (VX − no-borrow) mod 256, and 8XF7 leaves (no-borrow − VX) mod 256 |
| Chip8Properties.FlagAsBothOperands | SimpleChip8/chip8.cpp:169-200 | with X = Y = F: 8FF4 leaves VF = 2·carry of VF + VF, and 8FF5 and 8FF7 always leave VF = 0 |
| Chip8Properties.ShiftFlagAsDestination | SimpleChip8/chip8.cpp:187-206 | with X = F, 8FY6 leaves VF = 0 and 8FYE leaves VF = 2·(old VF >> 7) |
| Chip8Properties.AddIndexFlag | SimpleChip8/chip8.cpp:324-331 | for X ≠ F: I becomes I + VX mod 65536, VF is 1 exactly when the sum exceeds 0xFFF, and the other registers are kept |
| Chip8Properties.AddIndexFlagAsOperand | SimpleChip8/chip8.cpp:324-331 | FX1E with X = F: VF becomes the flag of I + old VF > 0xFFF, and I grows by that new flag mod 65536, not by the old VF; the other registers are kept |
| Chip8Properties.StoreBcdDigits | SimpleChip8/chip8.cpp:338-343 | when I + 2 is within memory: FX33 completes, writes three decimal digits whose value is VX, and changes no other cell |
| Chip8Properties.StoreThenLoad | SimpleChip8/chip8.cpp:345-357 | when I + X is within memory: FX55 then FX65 restores all registers, leaves V0..VX at I.., memory elsewhere untouched, and I unchanged |
| Chip8Properties.LoadThenStore | SimpleChip8/chip8.cpp:345-357 | when I + X is within memory: FX65 then FX55 leaves memory unchanged |
| Chip8Properties.RandomMasked | SimpleChip8/chip8.cpp:229-232 | the CXNN result has no bit outside NN, is at most NN and at most 254, and pc advances by 2 |
| Chip8Properties.FontCharPointsAtGlyph | SimpleChip8/chip8.cpp:333-336 | with the font loaded and VX < 16, I points at the five bytes of glyph VX |
| Chip8Properties.DrawnCell | SimpleChip8/chip8.cpp:247-259 | for sprite rows within memory, a screen cell is XORed with 1 exactly when the sprite covers it, and is otherwise unchanged |
| Chip8Properties.CollisionIsPixelCleared | SimpleChip8/chip8.cpp:246-259 | for sprite rows within memory, VF is set exactly when some lit pixel becomes dark |
| Chip8Properties.DrawTwiceRestores | SimpleChip8/chip8.cpp:247-259 | for sprite rows within memory, drawing the same sprite twice gives back the original screen |
| Chip8Properties.DrawKeepsBinary | SimpleChip8/chip8.cpp:247-259 | for sprite rows within memory, a screen of 0/1 pixels stays 0/1 |
| Chip8Properties.RedrawCollides | SimpleChip8/chip8.cpp:246-259 | for sprite rows within memory and a 0/1 screen, redrawing a sprite collides exactly when it covers a cell that was dark before the first draw |
| Chip8Properties.DrawNothing | SimpleChip8/chip8.cpp:234-265 | DXYN with N = 0 always completes, leaves the screen and memory unchanged, sets VF to 0, raises drawFlag and advances pc by 2 |
| Chip8Properties.LogicCommutes | SimpleChip8/chip8.cpp:154-167 | 8YX1, 8YX2 and 8YX3 store in VY the value that 8XY1, 8XY2 and 8XY3 store in VX |
| Chip8Properties.DrawTwice | SimpleChip8/chip8.cpp:234-265 | for X, Y ≠ F, a 0/1 screen and a first DXYN that completes: the same DXYN again also completes, restores the screen, and its VF reports whether a covered cell was dark |
| Chip8Properties.ExecuteSound | SimpleChip8/chip8.cpp:80-362 | every instruction keeps the array sizes, never writes the keypad, keeps a 0/1 screen, blocks only as FX0A with no key down, and (unless it jumps, calls or returns) moves pc by 2 or, for a skip, by 2 or 4; unknown opcodes change nothing |
| Chip8Properties.SystemSound | SimpleChip8/chip8.cpp:84-102 | the 0x0 family satisfies `Sound` |
| Chip8Properties.JumpsSound | SimpleChip8/chip8.cpp:105-113 | 1NNN, 2NNN and BNNN satisfy `Sound` |
| Chip8Properties.SkipsSound | SimpleChip8/chip8.cpp:115-134 | the register skips satisfy `Sound` |
| Chip8Properties.LoadsSound | SimpleChip8/chip8.cpp:136-144 | 6XNN, 7XNN, ANNN and CXNN satisfy `Sound` |
| Chip8Properties.LogicSound | SimpleChip8/chip8.cpp:149-167 | 8XY0 to 8XY3 satisfy `Sound` |
| Chip8Properties.ArithmeticSound | SimpleChip8/chip8.cpp:169-206 | 8XY4 to 8XYE satisfy `Sound` |
| Chip8Properties.ScreenAndKeysSound | SimpleChip8/chip8.cpp:234-284 | DXYN, EX9E and EXA1 satisfy `Sound` |
| Chip8Properties.TimersSound | SimpleChip8/chip8.cpp:288-322 | FX07, FX0A, FX15 and FX18 satisfy `Sound` |
| Chip8Properties.IndexSound | SimpleChip8/chip8.cpp:324-357 | FX1E to FX65 satisfy `Sound` |
| Chip8Properties.CycleSound | SimpleChip8/chip8.cpp:75-378 | a cycle traps on the fetch exactly when pc + 1 is past memory; a completed cycle keeps the sizes, the keypad and a 0/1 screen |
| Chip8Properties.AwaitKeyCycle | SimpleChip8/chip8.cpp:293-312 | the cycle leaves the machine unchanged (no tick) exactly when no key is down; otherwise VX is the highest pressed key, pc advances by 2 and both timers tick |
| Chip8Properties.UnknownOpcodeRepeats | SimpleChip8/chip8.cpp:361-362 | an unmatched opcode only ticks the timers, so the next cycle fetches it again |
| Chip8Properties.SetDelayCycle | SimpleChip8/chip8.cpp:314-317 | FX15 in a cycle leaves the delay timer at VX − 1, or 0 when VX is 0 |
| Chip8Properties.ClearScreenCycle | SimpleChip8/chip8.cpp:86-92 | a cycle running 00E0 leaves every pixel 0, raises drawFlag, advances pc by 2 and ticks both timers |
| Chip8Properties.JumpToSelfSpins | SimpleChip8/chip8.cpp:105-107 | 1NNN with NNN = pc only ticks the timers, so the machine stays on that instruction |
| Chip8Properties.JumpOffsetCycle | SimpleChip8/chip8.cpp:225-227 | a cycle running BNNN sets pc to NNN + V0, and when that is past the last fetchable address the next cycle traps with InvalidFetch |
| Chip8Properties.JumpOffsetPastMemory | SimpleChip8/chip8.cpp:225-227 | B FFF with V0 = 0xFF sets pc to 0x10FE, where the next cycle traps |
| Chip8Properties.SkipKeyValues | SimpleChip8/chip8.cpp:267-284 | with VX < 16: for a key value of 0 or 1 exactly one of EX9E and EXA1 skips, and for 2 or more neither does |
| Chip8Properties.CallThenReturn | SimpleChip8/chip8.cpp:95-113 | with a free stack slot, 2NNN then 00EE at NNN returns to pc + 2 with sp, the registers, I, memory, screen and the live stack slots as before |
| Chip8Properties.CarryPastDeclaredRegisters | SimpleChip8/chip8.h:29 | opcode 0x8014 with V0 = 0xFF and V1 = 1 stores a carry of 1 at index 15, outside a fifteen-register file |
| Chip8Properties.RegistersWrittenInRange | SimpleChip8/chip8.cpp:136-357 | every register an instruction may write is below 16, and each flag-setting instruction (8XY4 to 8XYE, DXYN, FX1E) may write VF |
| Chip8Properties.RegistersWrittenSound | SimpleChip8/chip8.cpp:80-362 | a completed instruction leaves 16 registers and changes none outside `RegistersWritten`: VX for the loads, moves, bitwise operators, CXNN, FX07 and FX0A; VX and VF for 8XY4 to 8XYE; VF for DXYN and FX1E; V0..VX for FX65; none for the rest |
| Chip8Properties.SystemKeeps | SimpleChip8/chip8.cpp:84-102 | 00E0 and 00EE change no register |
| Chip8Properties.JumpsKeeps | SimpleChip8/chip8.cpp:105-113 | 1NNN, 2NNN and BNNN change no register |
| Chip8Properties.SkipsKeeps | SimpleChip8/chip8.cpp:115-134 | the register skips change no register |
| Chip8Properties.LoadsKeeps | SimpleChip8/chip8.cpp:136-144 | 6XNN, 7XNN and CXNN change only VX, and ANNN changes no register |
| Chip8Properties.LogicKeeps | SimpleChip8/chip8.cpp:149-167 | 8XY0 to 8XY3 change only VX |
| Chip8Properties.ArithmeticKeeps | SimpleChip8/chip8.cpp:169-206 | 8XY4 to 8XYE change only VX and VF |
| Chip8Properties.ScreenAndKeysKeeps | SimpleChip8/chip8.cpp:234-284 | DXYN changes only VF, and EX9E/EXA1 change no register |
| Chip8Properties.TimersKeeps | SimpleChip8/chip8.cpp:288-322 | FX07 and FX0A change only VX, and FX15/FX18 change no register |
| Chip8Properties.IndexKeeps | SimpleChip8/chip8.cpp:324-357 | FX1E changes only VF, FX65 only V0..VX, and FX29/FX33/FX55 no register |

## Left out

- The `printf` calls (BEEP when the sound timer reaches 1, and the unknown-opcode messages) are output only and are not modelled.
- The `Sleep(1000/60)` pacing in `emulateCycle` is timing only and is not modelled.
- `rand()` in CXNN becomes the parameter `rnd` of `EmulateCycle` and `Cycle`.
- The `fopen`, `fread` and `fclose` calls of `loadApplication` are file I/O. The model takes the `BUFFERSIZE`-byte buffer after `fread`. Bytes past what `fread` filled are indeterminate in C, and the model takes them as given.
- The `opcode` member field is a per-cycle temporary, so it is a local of `EmulateCycle` and not part of the state.
- The destructor is empty and not modelled.
- Undefined behaviour (indexing past an array) becomes a `Fault` that leaves the whole state unchanged, except for `V[0xF]`, which the model treats as a 16th register (see "## Findings"). The model does not say what the C++ program would do in the faulting cases.
- StepDraw: on a DXYN that faults, the model does not perform the source's `V[0xF] = 0` before the out-of-range access. The whole instruction is refused instead.
- The keypad is written by the host program between cycles. The model takes `key` as part of the state and never changes it.
- Nothing in the core clears `drawFlag`, since the host does that, so the model only raises it.
- The host's SDL rendering, input handling and main loop are outside the core.

## Findings

| source | as written | input that shows it | evidently intended | confidence | as-written member | corrected member |
|---|---|---|---|---|---|---|
| SimpleChip8/chip8.h:29 | `unsigned char V[0xF]` declares fifteen registers, V0..VE, yet 8XY4 to 8XYE, DXYN and FX1E write `V[0xF]` | opcode 0x8014 with V0 = 0xFF and V1 = 1, whose carry is stored at index 15 | sixteen registers V0..VF, as CHIP-8 defines | high, not executed | Chip8Properties.CarryPastDeclaredRegisters | Chip8Properties.RegistersWrittenSound |
