/** Class `chip8` of SimpleChip8: the machine's storage as fixed-size arrays updated in
    place, `initialize`, `emulateCycle` and `loadApplication`. Every method is proved to
    change the abstract state exactly as the matching function of Chip8Spec says. */
module Chip8Machine {
  import opened Bits
  import opened Chip8Spec

  class Chip8 {
    var memory: array<byte>
    var V: array<byte>
    var I: word
    var pc: word
    var sp: word
    var stack: array<word>
    var gfx: array<byte>
    var key: array<byte>
    var delayTimer: byte
    var soundTimer: byte
    var drawFlag: bool

    /** The declared sizes, distinct arrays, and a stack pointer within the stack. */
    ghost predicate Valid()
      reads this
    {
      memory.Length == MemorySize && V.Length == RegisterCount && stack.Length == StackDepth &&
      gfx.Length == GfxSize && key.Length == KeyCount && sp <= StackDepth &&
      memory != V && memory != gfx && memory != key && V != gfx && V != key && gfx != key
    }

    /** The machine as a Chip8Spec state. */
    ghost function Abs(): (s: State)
      reads this, memory, V, stack, gfx, key
      ensures Valid() ==> WellFormed(s)
    {
      State(memory[..], V[..], I, pc, sp, stack[..], gfx[..], key[..], delayTimer, soundTimer, drawFlag)
    }

    /** How an instruction's run ended, as a Chip8Spec effect on the current state. */
    ghost function Reported(blocked: bool, fault: Option<Fault>): Effect
      reads this, memory, V, stack, gfx, key
    {
      if fault.Some? then Failed(fault.value) else if blocked then Blocked else Done(Abs())
    }

    /** `chip8::chip8()` on the zero-initialised global instance: runs `initialize()`. */
    constructor ()
      ensures Valid()
      ensures fresh(memory) && fresh(V) && fresh(stack) && fresh(gfx) && fresh(key)
      ensures Abs() == PowerOn()
    {
      memory := new byte[MemorySize](_ => 0);
      V := new byte[RegisterCount](_ => 0);
      stack := new word[StackDepth](_ => 0);
      gfx := new byte[GfxSize](_ => 0);
      key := new byte[KeyCount](_ => 0);
      I, pc, sp := 0, 0, 0;
      delayTimer, soundTimer := 0, 0;
      drawFlag := false;
      new;
      assert Abs() == Blank();
      Initialize();
    }

    /** `chip8::initialize()`. */
    method Initialize()
      requires Valid()
      modifies this`pc, this`I, this`sp, this`delayTimer, this`soundTimer, memory, V, stack, gfx
      ensures Valid()
      ensures Abs() == Reset(old(Abs()))
    {
      pc := ProgramStart;
      I := 0;
      sp := 0;
      ClearScreen();
      ClearStack();
      ClearRegisters();
      ResetMemory();
      delayTimer := 0;
      soundTimer := 0;
    }

    /** The `stack[i] = 0` loop of `initialize()`. */
    method ClearStack()
      requires Valid()
      modifies stack
      ensures stack[..] == seq(StackDepth, _ => 0)
    {
      for i := 0 to StackDepth
        invariant forall k :: 0 <= k < i ==> stack[k] == 0
      {
        stack[i] := 0;
      }
    }

    /** The `V[i] = 0` loop of `initialize()`: its bound is 0xF, so VF keeps its value. */
    method ClearRegisters()
      requires Valid()
      modifies V
      ensures V[..] == Zeros(0xF) + [old(V[VF])]
    {
      for i := 0 to 0xF
        invariant forall k :: 0 <= k < i ==> V[k] == 0
        invariant V[VF] == old(V[VF])
      {
        V[i] := 0;
      }
    }

    /** The memory half of `initialize()`: clear it, then copy the font set to the bottom. */
    method ResetMemory()
      requires Valid()
      modifies memory
      ensures memory[..] == FontSet + Zeros(MemorySize - |FontSet|)
    {
      ClearMemory();
      ZerosSuffix(MemorySize, |FontSet|);
      LoadFontSet();
    }

    /** The `memory[i] = 0` loop of `initialize()`. */
    method ClearMemory()
      requires Valid()
      modifies memory
      ensures memory[..] == Zeros(MemorySize)
    {
      for i := 0 to MemorySize
        invariant forall k :: 0 <= k < i ==> memory[k] == 0
      {
        memory[i] := 0;
      }
    }

    /** The font copy loop of `initialize()`: `memory[i] = chip8_fontset[i]` for i < 80. */
    method LoadFontSet()
      requires Valid()
      modifies memory
      ensures memory[..] == FontSet + old(memory[|FontSet|..])
    {
      for i := 0 to |FontSet|
        invariant forall k :: 0 <= k < i ==> memory[k] == FontSet[k]
        invariant forall k :: i <= k < MemorySize ==> memory[k] == old(memory[k])
      {
        memory[i] := FontSet[i];
      }
    }

    /** `chip8::emulateCycle()`, with `rnd` standing for the value `rand()` returns. The
        machine changes exactly as Cycle says; on a fault it does not change at all. */
    method EmulateCycle(rnd: nat) returns (fault: Option<Fault>)
      requires Valid()
      modifies this`pc, this`I, this`sp, this`delayTimer, this`soundTimer, this`drawFlag, memory, V, stack, gfx
      ensures Valid()
      ensures Cycle(old(Abs()), rnd) == if fault.None? then Stepped(Abs()) else Trapped(fault.value)
      ensures fault.Some? ==> Abs() == old(Abs())
    {
      if pc as int + 1 >= MemorySize {
        return Some(InvalidFetch);
      }
      ghost var s0 := Abs();
      var opcode := memory[pc] as int * 0x100 + memory[pc as int + 1];
      assert opcode == Fetch(memory[..], pc);
      var blocked;
      blocked, fault := ExecuteInstruction(Decode(opcode), rnd);
      PerformsIsExecute(s0, Decode(opcode), rnd, Reported(blocked, fault));
      if fault.None? && !blocked {
        UpdateTimers();
      }
    }

    /** The `switch` of `emulateCycle` for one decoded instruction. `blocked` is FX0A's early
        `return` with no key down. */
    method ExecuteInstruction(ins: Instr, rnd: nat) returns (blocked: bool, fault: Option<Fault>)
      requires Valid()
      modifies this`pc, this`I, this`sp, this`delayTimer, this`soundTimer, this`drawFlag, memory, V, stack, gfx
      ensures Valid()
      ensures Performs(old(Abs()), ins, rnd, Reported(blocked, fault))
      ensures fault.Some? || blocked ==> Abs() == old(Abs())
    {
      blocked, fault := false, None;
      if SystemGroup(ins) {
        blocked, fault := RunSystem(ins);
      } else if JumpsGroup(ins) {
        blocked, fault := RunJumps(ins);
      } else if SkipsGroup(ins) {
        blocked, fault := RunSkips(ins);
      } else if LoadsGroup(ins) {
        blocked, fault := RunLoads(ins, rnd);
      } else if LogicGroup(ins) {
        blocked, fault := RunLogic(ins);
      } else if ArithmeticGroup(ins) {
        blocked, fault := RunArithmetic(ins);
      } else if ScreenAndKeysGroup(ins) {
        blocked, fault := RunScreenAndKeys(ins);
      } else if TimersGroup(ins) {
        blocked, fault := RunTimers(ins);
      } else if IndexGroup(ins) {
        blocked, fault := RunIndex(ins);
      }
    }

    /** The 0x0 family: 00E0 and 00EE. */
    method RunSystem(ins: Instr) returns (blocked: bool, fault: Option<Fault>)
      requires Valid() && SystemGroup(ins)
      modifies this`pc, this`I, this`sp, this`delayTimer, this`soundTimer, this`drawFlag, memory, V, stack, gfx
      ensures Valid()
      ensures SystemPerforms(old(Abs()), ins, Reported(blocked, fault))
      ensures fault.Some? || blocked ==> Abs() == old(Abs())
    {
      blocked, fault := false, None;
      match ins {
        case ClearScreen => RunClearScreen();
        case Return => fault := RunReturn();
        case _ => assert false;
      }
    }

    /** 1NNN, 2NNN and BNNN. */
    method RunJumps(ins: Instr) returns (blocked: bool, fault: Option<Fault>)
      requires Valid() && JumpsGroup(ins)
      modifies this`pc, this`I, this`sp, this`delayTimer, this`soundTimer, this`drawFlag, memory, V, stack, gfx
      ensures Valid()
      ensures JumpsPerforms(old(Abs()), ins, Reported(blocked, fault))
      ensures fault.Some? || blocked ==> Abs() == old(Abs())
    {
      blocked, fault := false, None;
      match ins {
        case Jump(nnn) => pc := nnn;
        case Call(nnn) => fault := RunCall(nnn);
        case JumpOffset(nnn) => pc := nnn as int + V[0];
        case _ => assert false;
      }
    }

    /** The register comparisons 3XNN, 4XNN, 5XY0 and 9XY0. */
    method RunSkips(ins: Instr) returns (blocked: bool, fault: Option<Fault>)
      requires Valid() && SkipsGroup(ins)
      modifies this`pc, this`I, this`sp, this`delayTimer, this`soundTimer, this`drawFlag, memory, V, stack, gfx
      ensures Valid()
      ensures SkipsPerforms(old(Abs()), ins, Reported(blocked, fault))
      ensures fault.Some? || blocked ==> Abs() == old(Abs())
    {
      blocked, fault := false, None;
      match ins {
        case SkipIfEqual(x, nn) => RunSkip(V[x] == nn);
        case SkipIfNotEqual(x, nn) => RunSkip(V[x] != nn);
        case SkipIfRegsEqual(x, y) => RunSkip(V[x] == V[y]);
        case SkipIfRegsNotEqual(x, y) => RunSkip(V[x] != V[y]);
        case _ => assert false;
      }
    }

    /** 6XNN, 7XNN, ANNN and CXNN. */
    method RunLoads(ins: Instr, rnd: nat) returns (blocked: bool, fault: Option<Fault>)
      requires Valid() && LoadsGroup(ins)
      modifies this`pc, this`I, this`sp, this`delayTimer, this`soundTimer, this`drawFlag, memory, V, stack, gfx
      ensures Valid()
      ensures LoadsPerforms(old(Abs()), ins, rnd, Reported(blocked, fault))
      ensures fault.Some? || blocked ==> Abs() == old(Abs())
    {
      blocked, fault := false, None;
      match ins {
        case SetImmediate(x, nn) => RunSetRegister(x, nn);
        case AddImmediate(x, nn) => RunSetRegister(x, Wrap8(V[x] as int + nn));
        case SetIndex(nnn) => I := nnn; pc := Wrap16(pc as int + 2);
        case Random(x, nn) => RunSetRegister(x, And8(rnd % 0xFF, nn));
        case _ => assert false;
      }
    }

    /** 8XY0 to 8XY3. */
    method RunLogic(ins: Instr) returns (blocked: bool, fault: Option<Fault>)
      requires Valid() && LogicGroup(ins)
      modifies this`pc, this`I, this`sp, this`delayTimer, this`soundTimer, this`drawFlag, memory, V, stack, gfx
      ensures Valid()
      ensures LogicPerforms(old(Abs()), ins, Reported(blocked, fault))
      ensures fault.Some? || blocked ==> Abs() == old(Abs())
    {
      blocked, fault := false, None;
      match ins {
        case Move(x, y) => RunSetRegister(x, V[y]);
        case Or(x, y) => RunSetRegister(x, Or8(V[y], V[x]));
        case And(x, y) => RunSetRegister(x, And8(V[y], V[x]));
        case Xor(x, y) => RunSetRegister(x, Xor8(V[y], V[x]));
        case _ => assert false;
      }
    }

    /** 8XY4 to 8XYE, which write VF first. */
    method RunArithmetic(ins: Instr) returns (blocked: bool, fault: Option<Fault>)
      requires Valid() && ArithmeticGroup(ins)
      modifies this`pc, this`I, this`sp, this`delayTimer, this`soundTimer, this`drawFlag, memory, V, stack, gfx
      ensures Valid()
      ensures ArithmeticPerforms(old(Abs()), ins, Reported(blocked, fault))
      ensures fault.Some? || blocked ==> Abs() == old(Abs())
    {
      blocked, fault := false, None;
      match ins {
        case AddRegs(x, y) => RunAddRegs(x, y);
        case SubRegs(x, y) => RunSubRegs(x, y);
        case ShiftRight(x, _) => RunShiftRight(x);
        case SubReversed(x, y) => RunSubReversed(x, y);
        case ShiftLeft(x, _) => RunShiftLeft(x);
        case _ => assert false;
      }
    }

    /** DXYN, EX9E and EXA1. */
    method RunScreenAndKeys(ins: Instr) returns (blocked: bool, fault: Option<Fault>)
      requires Valid() && ScreenAndKeysGroup(ins)
      modifies this`pc, this`I, this`sp, this`delayTimer, this`soundTimer, this`drawFlag, memory, V, stack, gfx
      ensures Valid()
      ensures ScreenAndKeysPerforms(old(Abs()), ins, Reported(blocked, fault))
      ensures fault.Some? || blocked ==> Abs() == old(Abs())
    {
      blocked, fault := false, None;
      match ins {
        case Draw(x, y, n) => fault := RunDraw(x, y, n);
        case SkipIfKey(x) => fault := RunSkipKey(x, true);
        case SkipIfNotKey(x) => fault := RunSkipKey(x, false);
        case _ => assert false;
      }
    }

    /** FX07, FX0A, FX15 and FX18. */
    method RunTimers(ins: Instr) returns (blocked: bool, fault: Option<Fault>)
      requires Valid() && TimersGroup(ins)
      modifies this`pc, this`I, this`sp, this`delayTimer, this`soundTimer, this`drawFlag, memory, V, stack, gfx
      ensures Valid()
      ensures TimersPerforms(old(Abs()), ins, Reported(blocked, fault))
      ensures fault.Some? || blocked ==> Abs() == old(Abs())
    {
      blocked, fault := false, None;
      match ins {
        case GetDelay(x) => RunSetRegister(x, delayTimer);
        case AwaitKey(x) => blocked := RunAwaitKey(x);
        case SetDelay(x) => delayTimer := V[x]; pc := Wrap16(pc as int + 2);
        case SetSound(x) => soundTimer := V[x]; pc := Wrap16(pc as int + 2);
        case _ => assert false;
      }
    }

    /** FX1E, FX29, FX33, FX55 and FX65. */
    method RunIndex(ins: Instr) returns (blocked: bool, fault: Option<Fault>)
      requires Valid() && IndexGroup(ins)
      modifies this`pc, this`I, this`sp, this`delayTimer, this`soundTimer, this`drawFlag, memory, V, stack, gfx
      ensures Valid()
      ensures IndexPerforms(old(Abs()), ins, Reported(blocked, fault))
      ensures fault.Some? || blocked ==> Abs() == old(Abs())
    {
      blocked, fault := false, None;
      match ins {
        case AddIndex(x) => RunAddIndex(x);
        case FontChar(x) => I := V[x] as int * 5; pc := Wrap16(pc as int + 2);
        case StoreBcd(x) => fault := RunStoreBcd(x);
        case StoreRegs(x) => fault := RunStoreRegs(x);
        case LoadRegs(x) => fault := RunLoadRegs(x);
        case _ => assert false;
      }
    }

    /** 00E0. */
    method RunClearScreen()
      requires Valid()
      modifies this`pc, this`drawFlag, gfx
      ensures Abs() == StepClearScreen(old(Abs()))
    {
      ClearScreen();
      drawFlag := true;
      pc := Wrap16(pc as int + 2);
    }

    /** 00EE: `--sp; pc = stack[sp]; pc += 2`. */
    method RunReturn() returns (fault: Option<Fault>)
      requires Valid()
      modifies this`sp, this`pc
      ensures Valid()
      ensures StepReturn(old(Abs())) == if fault.Some? then Failed(fault.value) else Done(Abs())
      ensures fault.Some? ==> Abs() == old(Abs())
    {
      if sp == 0 {
        return Some(StackUnderflow);
      }
      sp := sp - 1;
      pc := stack[sp];
      pc := Wrap16(pc as int + 2);
      return None;
    }

    /** 2NNN: `stack[sp] = pc; ++sp; pc = NNN`. */
    method RunCall(nnn: address) returns (fault: Option<Fault>)
      requires Valid()
      modifies this`sp, this`pc, stack
      ensures Valid()
      ensures StepCall(old(Abs()), nnn) == if fault.Some? then Failed(fault.value) else Done(Abs())
      ensures fault.Some? ==> Abs() == old(Abs())
    {
      if sp >= StackDepth as int {
        return Some(StackOverflow);
      }
      stack[sp] := pc;
      sp := sp + 1;
      pc := nnn;
      return None;
    }

    /** The conditional skips 3XNN, 4XNN, 5XY0 and 9XY0 once their comparison is made:
        `pc += 4` when it holds, `pc += 2` otherwise. */
    method RunSkip(taken: bool)
      requires Valid()
      modifies this`pc
      ensures Abs() == Skip(old(Abs()), taken)
    {
      if taken {
        pc := Wrap16(pc as int + 4);
      } else {
        pc := Wrap16(pc as int + 2);
      }
    }

    /** EX9E (`down`) and EXA1 (not `down`). */
    method RunSkipKey(x: nibble, down: bool) returns (fault: Option<Fault>)
      requires Valid()
      modifies this`pc
      ensures StepSkipKey(old(Abs()), x, down) == if fault.Some? then Failed(fault.value) else Done(Abs())
      ensures fault.Some? ==> Abs() == old(Abs())
    {
      if V[x] >= KeyCount as int {
        return Some(KeyOutOfRange);
      }
      var k := V[x];
      if (down && key[k] == 1) || (!down && key[k] == 0) {
        pc := Wrap16(pc as int + 4);
      } else {
        pc := Wrap16(pc as int + 2);
      }
      return None;
    }

    /** The instructions that only write VX and then `pc += 2`: 6XNN, 7XNN, 8XY0 to 8XY3,
        CXNN and FX07, with the value already computed. */
    method RunSetRegister(x: nibble, v: byte)
      requires Valid()
      modifies this`pc, V
      ensures Abs() == Next(SetV(old(Abs()), x, v))
    {
      V[x] := v;
      pc := Wrap16(pc as int + 2);
    }

    /** 8XY4. */
    method RunAddRegs(x: nibble, y: nibble)
      requires Valid()
      modifies this`pc, V
      ensures Abs() == StepAddRegs(old(Abs()), x, y)
    {
      V[VF] := if V[y] > 0xFF - V[x] then 1 else 0;
      V[x] := Wrap8(V[x] as int + V[y]);
      pc := Wrap16(pc as int + 2);
    }

    /** 8XY5. */
    method RunSubRegs(x: nibble, y: nibble)
      requires Valid()
      modifies this`pc, V
      ensures Abs() == StepSubRegs(old(Abs()), x, y)
    {
      V[VF] := if V[y] > V[x] then 0 else 1;
      V[x] := Wrap8(V[x] as int - V[y]);
      pc := Wrap16(pc as int + 2);
    }

    /** 8XY6. */
    method RunShiftRight(x: nibble)
      requires Valid()
      modifies this`pc, V
      ensures Abs() == StepShiftRight(old(Abs()), x)
    {
      V[VF] := And8(V[x], 0x1);
      V[x] := V[x] / 2;
      pc := Wrap16(pc as int + 2);
    }

    /** 8XY7. */
    method RunSubReversed(x: nibble, y: nibble)
      requires Valid()
      modifies this`pc, V
      ensures Abs() == StepSubReversed(old(Abs()), x, y)
    {
      V[VF] := if V[x] > V[y] then 0 else 1;
      V[x] := Wrap8(V[y] as int - V[x]);
      pc := Wrap16(pc as int + 2);
    }

    /** 8XYE. */
    method RunShiftLeft(x: nibble)
      requires Valid()
      modifies this`pc, V
      ensures Abs() == StepShiftLeft(old(Abs()), x)
    {
      V[VF] := V[x] / 0x80;
      V[x] := Wrap8(V[x] as int * 2);
      pc := Wrap16(pc as int + 2);
    }

    /** FX1E. */
    method RunAddIndex(x: nibble)
      requires Valid()
      modifies this`pc, this`I, V
      ensures Abs() == StepAddIndex(old(Abs()), x)
    {
      V[VF] := if I as int + V[x] > 0xFFF then 1 else 0;
      I := Wrap16(I as int + V[x]);
      pc := Wrap16(pc as int + 2);
    }

    /** DXYN. */
    method RunDraw(x: nibble, y: nibble, n: nibble) returns (fault: Option<Fault>)
      requires Valid()
      modifies this`pc, this`drawFlag, V, gfx
      ensures StepDraw(old(Abs()), x, y, n) == if fault.Some? then Failed(fault.value) else Done(Abs())
      ensures fault.Some? ==> Abs() == old(Abs())
    {
      var x0, y0 := V[x], V[y];
      if n > 0 && I as int + n > MemorySize {
        return Some(MemoryOutOfRange);
      }
      if !SpriteInBounds(memory[..], I, x0, y0, n) {
        return Some(PixelOutOfRange);
      }
      DrawSprite(x0, y0, n);
      drawFlag := true;
      pc := Wrap16(pc as int + 2);
      return None;
    }

    /** FX0A. */
    method RunAwaitKey(x: nibble) returns (blocked: bool)
      requires Valid()
      modifies this`pc, V
      ensures StepAwaitKey(old(Abs()), x) == if blocked then Blocked else Done(Abs())
      ensures blocked ==> Abs() == old(Abs())
    {
      var pressed := ScanKeys(x);
      if !pressed {
        return true;
      }
      pc := Wrap16(pc as int + 2);
      return false;
    }

    /** FX33. */
    method RunStoreBcd(x: nibble) returns (fault: Option<Fault>)
      requires Valid()
      modifies this`pc, memory
      ensures StepStoreBcd(old(Abs()), x) == if fault.Some? then Failed(fault.value) else Done(Abs())
      ensures fault.Some? ==> Abs() == old(Abs())
    {
      if I as int + 2 >= MemorySize {
        return Some(MemoryOutOfRange);
      }
      memory[I] := V[x] / 100;
      memory[I as int + 1] := (V[x] / 10) % 10;
      memory[I as int + 2] := (V[x] % 100) % 10;
      pc := Wrap16(pc as int + 2);
      return None;
    }

    /** FX55. */
    method RunStoreRegs(x: nibble) returns (fault: Option<Fault>)
      requires Valid()
      modifies this`pc, memory
      ensures StepStoreRegs(old(Abs()), x) == if fault.Some? then Failed(fault.value) else Done(Abs())
      ensures fault.Some? ==> Abs() == old(Abs())
    {
      if I as int + x >= MemorySize {
        return Some(MemoryOutOfRange);
      }
      StoreRegisters(x);
      pc := Wrap16(pc as int + 2);
      return None;
    }

    /** FX65. */
    method RunLoadRegs(x: nibble) returns (fault: Option<Fault>)
      requires Valid()
      modifies this`pc, V
      ensures StepLoadRegs(old(Abs()), x) == if fault.Some? then Failed(fault.value) else Done(Abs())
      ensures fault.Some? ==> Abs() == old(Abs())
    {
      if I as int + x >= MemorySize {
        return Some(MemoryOutOfRange);
      }
      LoadRegisters(x);
      pc := Wrap16(pc as int + 2);
      return None;
    }

    /** `chip8::loadApplication` given the buffer `fread` filled; it always reports success. */
    method LoadApplication(buffer: seq<byte>) returns (ok: bool)
      requires Valid() && |buffer| == BufferSize
      modifies memory
      ensures ok
      ensures memory[..] == LoadImage(old(memory[..]), buffer)
    {
      for i := 0 to BufferSize
        invariant forall a :: 0 <= a < MemorySize ==>
          memory[a] == if ProgramStart <= a < ProgramStart + i then buffer[a - ProgramStart] else old(memory[a])
      {
        memory[ProgramStart + i] := buffer[i];
      }
      return true;
    }

    /** The `gfx[i] = 0` loop of 00E0 and of `initialize()`. */
    method ClearScreen()
      requires Valid()
      modifies gfx
      ensures gfx[..] == Zeros(GfxSize)
    {
      for i := 0 to GfxSize
        invariant forall k :: 0 <= k < i ==> gfx[k] == 0
      {
        gfx[i] := 0;
      }
    }

    /** The row and bit loops of DXYN, with VX = x0 and VY = y0 already read. */
    method DrawSprite(x0: byte, y0: byte, n: nibble)
      requires Valid()
      requires (n == 0 || I as int + n <= MemorySize) && SpriteInBounds(memory[..], I, x0, y0, n)
      modifies V, gfx
      ensures gfx[..] == SpriteDrawn(old(gfx[..]), memory[..], I, x0, y0, n)
      ensures V[..] == old(V[..])[VF := if Collides(old(gfx[..]), memory[..], I, x0, y0, n) then 1 else 0]
    {
      ghost var g0 := gfx[..];
      DrawnStart(g0, memory[..], I, x0, y0, n);
      V[VF] := 0;
      for row := 0 to n
        invariant gfx[..] == DrawnBefore(g0, memory[..], I, x0, y0, n, row, 0)
        invariant V[..] == old(V[..])[VF := if HitBefore(g0, memory[..], I, x0, y0, n, row, 0) then 1 else 0]
      {
        DrawRow(x0, y0, n, row, g0);
      }
    }

    /** One pass of the DXYN bit loop: row `row` of the sprite, bits MSB first. */
    method DrawRow(x0: byte, y0: byte, n: nibble, row: nat, ghost g0: seq<byte>)
      requires Valid()
      requires (n == 0 || I as int + n <= MemorySize) && SpriteInBounds(memory[..], I, x0, y0, n) && row < n
      requires |g0| == GfxSize
      requires gfx[..] == DrawnBefore(g0, memory[..], I, x0, y0, n, row, 0)
      requires V[VF] == if HitBefore(g0, memory[..], I, x0, y0, n, row, 0) then 1 else 0
      modifies V, gfx
      ensures gfx[..] == DrawnBefore(g0, memory[..], I, x0, y0, n, row + 1, 0)
      ensures V[..] == old(V[..])[VF := if HitBefore(g0, memory[..], I, x0, y0, n, row + 1, 0) then 1 else 0]
    {
      var pixel := memory[I as int + row];
      for col := 0 to 8
        invariant gfx[..] == DrawnBefore(g0, memory[..], I, x0, y0, n, row, col)
        invariant V[..] == old(V[..])[VF := if HitBefore(g0, memory[..], I, x0, y0, n, row, col) then 1 else 0]
      {
        DrawBit(x0, y0, n, row, col, pixel, g0);
      }
      DrawnNextRow(g0, memory[..], I, x0, y0, n, row);
    }

    /** One bit of the DXYN loops: a set bit XORs its pixel and raises VF if it was lit. */
    method DrawBit(x0: byte, y0: byte, n: nibble, row: nat, col: nat, pixel: byte, ghost g0: seq<byte>)
      requires Valid()
      requires (n == 0 || I as int + n <= MemorySize) && SpriteInBounds(memory[..], I, x0, y0, n) && row < n && col < 8
      requires pixel == memory[I as int + row] && |g0| == GfxSize
      requires gfx[..] == DrawnBefore(g0, memory[..], I, x0, y0, n, row, col)
      requires V[VF] == if HitBefore(g0, memory[..], I, x0, y0, n, row, col) then 1 else 0
      modifies V, gfx
      ensures gfx[..] == DrawnBefore(g0, memory[..], I, x0, y0, n, row, col + 1)
      ensures V[..] == old(V[..])[VF := if HitBefore(g0, memory[..], I, x0, y0, n, row, col + 1) then 1 else 0]
    {
      ghost var mem := memory[..];
      HitStep(g0, mem, I, x0, y0, n, row, col);
      DrawnStep(g0, mem, I, x0, y0, n, row, col);
      if SpriteBit(pixel, col) {
        var idx := PixelIndex(x0, y0, row, col);
        if gfx[idx] == 1 {
          V[VF] := 1;
        }
        gfx[idx] := Xor8(gfx[idx], 1);
      }
    }

    /** The key scan of FX0A: VX receives every pressed key index in turn. */
    method ScanKeys(x: nibble) returns (pressed: bool)
      requires Valid()
      modifies V
      ensures pressed <==> LastPressed(key[..], KeyCount) >= 0
      ensures V[..] == if pressed then old(V[..])[x := LastPressed(key[..], KeyCount)] else old(V[..])
    {
      pressed := false;
      for i := 0 to KeyCount
        invariant pressed <==> LastPressed(key[..], i) >= 0
        invariant V[..] == if pressed then old(V[..])[x := LastPressed(key[..], i)] else old(V[..])
      {
        if key[i] != 0 {
          V[x] := i;
          pressed := true;
        }
      }
    }

    /** The copy loop of FX55. */
    method StoreRegisters(x: nibble)
      requires Valid() && I as int + x < MemorySize
      modifies memory
      ensures memory[..] == StoreBlock(old(memory[..]), V[..], I, x)
    {
      for o := 0 to x + 1
        invariant forall a :: 0 <= a < MemorySize ==>
          memory[a] == if I <= a < I as int + o then V[a - I] else old(memory[a])
      {
        memory[I as int + o] := V[o];
      }
    }

    /** The copy loop of FX65. */
    method LoadRegisters(x: nibble)
      requires Valid() && I as int + x < MemorySize
      modifies V
      ensures V[..] == LoadBlock(old(V[..]), memory[..], I, x)
    {
      for o := 0 to x + 1
        invariant forall r :: 0 <= r < RegisterCount ==>
          V[r] == if r < o then memory[I as int + r] else old(V[r])
      {
        V[o] := memory[I as int + o];
      }
    }

    /** The timer update at the end of `emulateCycle`. */
    method UpdateTimers()
      modifies this`delayTimer, this`soundTimer
      ensures Abs() == Tick(old(Abs()))
    {
      if delayTimer > 0 {
        delayTimer := delayTimer - 1;
      }
      if soundTimer > 0 {
        soundTimer := soundTimer - 1;
      }
    }
  }
}
