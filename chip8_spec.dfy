/** The CHIP-8 machine of SimpleChip8 as values: its state, the instruction decoder,
    the effect of every instruction, one fetch-decode-execute-tick cycle and the
    power-on reset. The class in module Chip8Machine is proved to do exactly this. */
module Chip8Spec {
  import opened Bits

  // ---------------------------------------------------------------- sizes

  /** `unsigned char memory[0xFFF]`: 4095 cells, so address 0xFFF does not exist. */
  const MemorySize: nat := 0xFFF
  /** V0..VF. The source declares `V[0xF]` but reads and writes `V[0xF]`. */
  const RegisterCount: nat := 16
  const StackDepth: nat := 16
  const KeyCount: nat := 16
  const ScreenWidth: nat := 64
  const ScreenHeight: nat := 32
  const GfxSize: nat := 64 * 32
  const ProgramStart: word := 0x200
  /** The register that instructions use as carry, borrow, shift-out or collision flag. */
  const VF: nat := 0xF

  type nibble = x: int | 0 <= x < 0x10
  type address = x: int | 0 <= x < 0x1000

  /** `chip8_fontset`: sixteen 4x5 glyphs, 0 to F, five bytes each. */
  const FontSet: seq<byte> := [
    0xF0, 0x90, 0x90, 0x90, 0xF0, // 0
    0x20, 0x60, 0x20, 0x20, 0x70, // 1
    0xF0, 0x10, 0xF0, 0x80, 0xF0, // 2
    0xF0, 0x10, 0xF0, 0x10, 0xF0, // 3
    0x90, 0x90, 0xF0, 0x10, 0x10, // 4
    0xF0, 0x80, 0xF0, 0x10, 0xF0, // 5
    0xF0, 0x80, 0xF0, 0x90, 0xF0, // 6
    0xF0, 0x10, 0x20, 0x40, 0x40, // 7
    0xF0, 0x90, 0xF0, 0x90, 0xF0, // 8
    0xF0, 0x90, 0xF0, 0x10, 0xF0, // 9
    0xF0, 0x90, 0xF0, 0x90, 0x90, // A
    0xE0, 0x90, 0xE0, 0x90, 0xE0, // B
    0xF0, 0x80, 0x80, 0x80, 0xF0, // C
    0xE0, 0x90, 0x90, 0x90, 0xE0, // D
    0xF0, 0x80, 0xF0, 0x80, 0xF0, // E
    0xF0, 0x80, 0xF0, 0x80, 0x80  // F
  ]

  // ---------------------------------------------------------------- state

  datatype State = State(
    memory: seq<byte>,
    V: seq<byte>,
    I: word,
    pc: word,
    sp: word,
    stack: seq<word>,
    gfx: seq<byte>,
    key: seq<byte>,
    delayTimer: byte,
    soundTimer: byte,
    drawFlag: bool)

  /** The declared array sizes, and a stack pointer that indexes the stack or sits just past it. */
  predicate WellFormed(s: State) {
    |s.memory| == MemorySize && |s.V| == RegisterCount && |s.stack| == StackDepth &&
    |s.gfx| == GfxSize && |s.key| == KeyCount && s.sp <= StackDepth
  }

  function Zeros(n: nat): (z: seq<byte>)
    ensures |z| == n && forall i :: 0 <= i < n ==> z[i] == 0
  {
    seq(n, _ => 0)
  }

  lemma ZerosSuffix(n: nat, k: nat)
    requires k <= n
    ensures Zeros(n)[k..] == Zeros(n - k)
  {
  }

  /** What `initialize()` does to a state: pc, I, sp, gfx, stack, V0..VE, memory (font set
      at the bottom, zeros above) and both timers. VF, the keys and drawFlag are not touched. */
  function Reset(s: State): State
    requires WellFormed(s)
  {
    s.(pc := ProgramStart, I := 0, sp := 0,
       gfx := Zeros(GfxSize),
       stack := seq(StackDepth, _ => 0),
       V := Zeros(0xF) + [s.V[VF]],
       memory := FontSet + Zeros(MemorySize - |FontSet|),
       delayTimer := 0, soundTimer := 0)
  }

  /** A machine whose storage is all zero (the program's single machine is a global, so its
      storage is zero before the constructor runs `initialize()`). */
  function Blank(): (s: State)
    ensures WellFormed(s)
  {
    State(Zeros(MemorySize), Zeros(RegisterCount), 0, 0, 0, seq(StackDepth, _ => 0),
          Zeros(GfxSize), Zeros(KeyCount), 0, 0, false)
  }

  /** The state after the constructor. */
  function PowerOn(): State {
    Reset(Blank())
  }

  /** `BUFFERSIZE` of `loadApplication`: the bytes from 0x200 to the end of memory. */
  const BufferSize: nat := MemorySize - ProgramStart

  /** `loadApplication` after `fread`: every one of the `BUFFERSIZE` buffer bytes is copied
      to 0x200 onwards, whether the file filled it or not. */
  function LoadImage(mem: seq<byte>, buffer: seq<byte>): (r: seq<byte>)
    requires |mem| == MemorySize && |buffer| == BufferSize
    ensures |r| == MemorySize
    ensures r[..ProgramStart] == mem[..ProgramStart] && r[ProgramStart..] == buffer
  {
    seq(|mem|, a requires 0 <= a < |mem| => if a < ProgramStart then mem[a] else buffer[a - ProgramStart])
  }

  // ---------------------------------------------------------------- decoding

  datatype Instr =
    | ClearScreen                             // 00E0 (any 0NN0)
    | Return                                  // 00EE (any 0NNE)
    | Jump(nnn: address)                      // 1NNN
    | Call(nnn: address)                      // 2NNN
    | SkipIfEqual(x: nibble, nn: byte)        // 3XNN
    | SkipIfNotEqual(x: nibble, nn: byte)     // 4XNN
    | SkipIfRegsEqual(x: nibble, y: nibble)   // 5XY0 (any 5XYN)
    | SetImmediate(x: nibble, nn: byte)       // 6XNN
    | AddImmediate(x: nibble, nn: byte)       // 7XNN
    | Move(x: nibble, y: nibble)              // 8XY0
    | Or(x: nibble, y: nibble)                // 8XY1
    | And(x: nibble, y: nibble)               // 8XY2
    | Xor(x: nibble, y: nibble)               // 8XY3
    | AddRegs(x: nibble, y: nibble)           // 8XY4
    | SubRegs(x: nibble, y: nibble)           // 8XY5
    | ShiftRight(x: nibble, y: nibble)        // 8XY6
    | SubReversed(x: nibble, y: nibble)       // 8XY7
    | ShiftLeft(x: nibble, y: nibble)         // 8XYE
    | SkipIfRegsNotEqual(x: nibble, y: nibble) // 9XY0 (any 9XYN)
    | SetIndex(nnn: address)                  // ANNN
    | JumpOffset(nnn: address)                // BNNN
    | Random(x: nibble, nn: byte)             // CXNN
    | Draw(x: nibble, y: nibble, n: nibble)   // DXYN
    | SkipIfKey(x: nibble)                    // EX9E
    | SkipIfNotKey(x: nibble)                 // EXA1
    | GetDelay(x: nibble)                     // FX07
    | AwaitKey(x: nibble)                     // FX0A
    | SetDelay(x: nibble)                     // FX15
    | SetSound(x: nibble)                     // FX18
    | AddIndex(x: nibble)                     // FX1E
    | FontChar(x: nibble)                     // FX29
    | StoreBcd(x: nibble)                     // FX33
    | StoreRegs(x: nibble)                    // FX55
    | LoadRegs(x: nibble)                     // FX65
    | Unknown                                 // every opcode no case of the switch matches

  /** The big-endian opcode at `pc`: `memory[pc] << 8 | memory[pc + 1]`. */
  function Fetch(mem: seq<byte>, pc: nat): (op: word)
    requires pc + 1 < |mem|
    ensures op / 0x100 == mem[pc] && op % 0x100 == mem[pc + 1]
  {
    mem[pc] as int * 0x100 + mem[pc + 1]
  }

  /** The nested `switch` of `emulateCycle`: the top nibble, then the low nibble for the
      0x0 and 0x8 families and the low byte for the 0xE and 0xF families. */
  function Decode(op: word): Instr {
    DecodeFields(op / 0x1000, (op / 0x100) % 0x10, (op / 0x10) % 0x10, op % 0x10)
  }

  /** Decode on the four hexadecimal digits `a x y n` of the opcode, with `NN = yn` and
      `NNN = xyn`. */
  function DecodeFields(a: nibble, x: nibble, y: nibble, n: nibble): Instr {
    var nn: byte := y * 0x10 + n;
    var nnn: address := x * 0x100 + nn;
    match a
    case 0x0 => DecodeSystem(n)
    case 0x1 => Jump(nnn)
    case 0x2 => Call(nnn)
    case 0x3 => SkipIfEqual(x, nn)
    case 0x4 => SkipIfNotEqual(x, nn)
    case 0x5 => SkipIfRegsEqual(x, y)
    case 0x6 => SetImmediate(x, nn)
    case 0x7 => AddImmediate(x, nn)
    case 0x8 => DecodeRegisterOp(x, y, n)
    case 0x9 => SkipIfRegsNotEqual(x, y)
    case 0xA => SetIndex(nnn)
    case 0xB => JumpOffset(nnn)
    case 0xC => Random(x, nn)
    case 0xD => Draw(x, y, n)
    case 0xE => DecodeKeyOp(x, nn)
    case _ => DecodeMiscOp(x, nn)
  }

  /** `switch (opcode & 0x000F)` inside family 0x0. */
  function DecodeSystem(n: nibble): Instr {
    if n == 0x0 then ClearScreen else if n == 0xE then Return else Unknown
  }

  /** `switch (opcode & 0x000F)` inside family 0x8. */
  function DecodeRegisterOp(x: nibble, y: nibble, n: nibble): Instr {
    if n == 0x0 then Move(x, y)
    else if n == 0x1 then Or(x, y)
    else if n == 0x2 then And(x, y)
    else if n == 0x3 then Xor(x, y)
    else if n == 0x4 then AddRegs(x, y)
    else if n == 0x5 then SubRegs(x, y)
    else if n == 0x6 then ShiftRight(x, y)
    else if n == 0x7 then SubReversed(x, y)
    else if n == 0xE then ShiftLeft(x, y)
    else Unknown
  }

  /** `switch (opcode & 0x00FF)` inside family 0xE. */
  function DecodeKeyOp(x: nibble, nn: byte): Instr {
    if nn == 0x9E then SkipIfKey(x)
    else if nn == 0xA1 then SkipIfNotKey(x)
    else Unknown
  }

  /** `switch (opcode & 0x00FF)` inside family 0xF. */
  function DecodeMiscOp(x: nibble, nn: byte): Instr {
    if nn == 0x07 then GetDelay(x)
    else if nn == 0x0A then AwaitKey(x)
    else if nn == 0x15 then SetDelay(x)
    else if nn == 0x18 then SetSound(x)
    else if nn == 0x1E then AddIndex(x)
    else if nn == 0x29 then FontChar(x)
    else if nn == 0x33 then StoreBcd(x)
    else if nn == 0x55 then StoreRegs(x)
    else if nn == 0x65 then LoadRegs(x)
    else Unknown
  }

  /** The opcode whose hexadecimal digits are `a x y n`. */
  function Opcode(a: nibble, x: nibble, y: nibble, n: nibble): word {
    a * 0x1000 + x * 0x100 + y * 0x10 + n
  }

  /** The canonical opcode of an instruction (the inverse of Decode). */
  function Encode(ins: Instr): word {
    var (a, x, y, n) := Digits(ins);
    Opcode(a, x, y, n)
  }

  /** The four hexadecimal digits of an instruction's canonical opcode. */
  function Digits(ins: Instr): (nibble, nibble, nibble, nibble) {
    match ins
    case ClearScreen => (0, 0, 0xE, 0)
    case Return => (0, 0, 0xE, 0xE)
    case Jump(nnn) => (1, nnn / 0x100, (nnn / 0x10) % 0x10, nnn % 0x10)
    case Call(nnn) => (2, nnn / 0x100, (nnn / 0x10) % 0x10, nnn % 0x10)
    case SkipIfEqual(x, nn) => (3, x, nn / 0x10, nn % 0x10)
    case SkipIfNotEqual(x, nn) => (4, x, nn / 0x10, nn % 0x10)
    case SkipIfRegsEqual(x, y) => (5, x, y, 0)
    case SetImmediate(x, nn) => (6, x, nn / 0x10, nn % 0x10)
    case AddImmediate(x, nn) => (7, x, nn / 0x10, nn % 0x10)
    case Move(x, y) => (8, x, y, 0)
    case Or(x, y) => (8, x, y, 1)
    case And(x, y) => (8, x, y, 2)
    case Xor(x, y) => (8, x, y, 3)
    case AddRegs(x, y) => (8, x, y, 4)
    case SubRegs(x, y) => (8, x, y, 5)
    case ShiftRight(x, y) => (8, x, y, 6)
    case SubReversed(x, y) => (8, x, y, 7)
    case ShiftLeft(x, y) => (8, x, y, 0xE)
    case SkipIfRegsNotEqual(x, y) => (9, x, y, 0)
    case SetIndex(nnn) => (0xA, nnn / 0x100, (nnn / 0x10) % 0x10, nnn % 0x10)
    case JumpOffset(nnn) => (0xB, nnn / 0x100, (nnn / 0x10) % 0x10, nnn % 0x10)
    case Random(x, nn) => (0xC, x, nn / 0x10, nn % 0x10)
    case Draw(x, y, n) => (0xD, x, y, n)
    case SkipIfKey(x) => (0xE, x, 9, 0xE)
    case SkipIfNotKey(x) => (0xE, x, 0xA, 1)
    case GetDelay(x) => (0xF, x, 0, 7)
    case AwaitKey(x) => (0xF, x, 0, 0xA)
    case SetDelay(x) => (0xF, x, 1, 5)
    case SetSound(x) => (0xF, x, 1, 8)
    case AddIndex(x) => (0xF, x, 1, 0xE)
    case FontChar(x) => (0xF, x, 2, 9)
    case StoreBcd(x) => (0xF, x, 3, 3)
    case StoreRegs(x) => (0xF, x, 5, 5)
    case LoadRegs(x) => (0xF, x, 6, 5)
    case Unknown => (0, 0, 0, 1)
  }

  // ---------------------------------------------------------------- helpers for execution

  /** `pc += n` on an `unsigned short`. */
  function Advance(s: State, n: nat): State {
    s.(pc := Wrap16(s.pc + n))
  }

  /** The common `pc += 2`. */
  function Next(s: State): State {
    Advance(s, 2)
  }

  /** The conditional skips: `pc += 4` when the condition holds, else `pc += 2`. */
  function Skip(s: State, taken: bool): State {
    Advance(s, if taken then 4 else 2)
  }

  function SetV(s: State, x: nat, v: byte): State
    requires WellFormed(s) && x < RegisterCount
  {
    s.(V := s.V[x := v])
  }

  /** `0x80 >> col`: the mask of sprite column `col`, most significant bit first. */
  function ColumnMask(col: nat): byte
    requires col < 8
  {
    [0x80, 0x40, 0x20, 0x10, 0x08, 0x04, 0x02, 0x01][col]
  }

  /** `(pixel & (0x80 >> col)) != 0` */
  predicate SpriteBit(pixel: byte, col: nat)
    requires col < 8
  {
    And8(pixel, ColumnMask(col)) != 0
  }

  /** The `gfx` index the source computes for sprite bit (row, col) at (x0, y0):
      `x + xline + ((y + yline) * 64)`. A column past the right edge spills into the next row. */
  function PixelIndex(x0: nat, y0: nat, row: nat, col: nat): nat {
    x0 + col + (y0 + row) * ScreenWidth
  }

  /** Every set bit of the `n`-row sprite at `mem[base..]` lands inside `gfx`. */
  predicate SpriteInBounds(mem: seq<byte>, base: nat, x0: nat, y0: nat, n: nat)
    requires (n == 0 || base + n <= |mem|)
  {
    forall row, col | 0 <= row < n && 0 <= col < 8 ::
      SpriteBit(mem[base + row], col) ==> PixelIndex(x0, y0, row, col) < GfxSize
  }

  /** Cell `i` is touched by one of the sprite bits that the row/column loops of DXYN visit
      before reaching (row, col); a cell belongs to at most one bit, since columns are < 8 < 64. */
  predicate CoveredBefore(mem: seq<byte>, base: nat, x0: nat, y0: nat, n: nat, i: int, row: nat, col: nat)
    requires (n == 0 || base + n <= |mem|)
  {
    var d := i - x0 - ScreenWidth * y0;
    0 <= d && d / ScreenWidth < n && d % ScreenWidth < 8 &&
    SpriteBit(mem[base + d / ScreenWidth], d % ScreenWidth) &&
    (d / ScreenWidth < row || (d / ScreenWidth == row && d % ScreenWidth < col))
  }

  /** Cell `i` is touched by some set bit of the sprite. */
  predicate Covers(mem: seq<byte>, base: nat, x0: nat, y0: nat, n: nat, i: int)
    requires (n == 0 || base + n <= |mem|)
  {
    CoveredBefore(mem, base, x0, y0, n, i, n, 0)
  }

  /** The framebuffer once the DXYN loops have reached (row, col): `gfx[...] ^= 1` at every
      cell visited so far. */
  function DrawnBefore(g: seq<byte>, mem: seq<byte>, base: nat, x0: nat, y0: nat, n: nat, row: nat, col: nat): (r: seq<byte>)
    requires (n == 0 || base + n <= |mem|)
    ensures |r| == |g|
  {
    seq(|g|, i requires 0 <= i < |g| =>
      if CoveredBefore(mem, base, x0, y0, n, i, row, col) then Xor8(g[i], 1) else g[i])
  }

  /** The framebuffer after XOR-ing the whole sprite in. */
  function SpriteDrawn(g: seq<byte>, mem: seq<byte>, base: nat, x0: nat, y0: nat, n: nat): (r: seq<byte>)
    requires (n == 0 || base + n <= |mem|)
    ensures |r| == |g|
  {
    DrawnBefore(g, mem, base, x0, y0, n, n, 0)
  }

  /** Some cell that the DXYN loops visit before (row, col) holds 1 in `g`. */
  predicate HitBefore(g: seq<byte>, mem: seq<byte>, base: nat, x0: nat, y0: nat, n: nat, row: nat, col: nat)
    requires (n == 0 || base + n <= |mem|)
  {
    exists i :: 0 <= i < |g| && CoveredBefore(mem, base, x0, y0, n, i, row, col) && g[i] == 1
  }

  /** Some covered cell holds 1 before the sprite is drawn (`if (gfx[...] == 1) V[0xF] = 1`). */
  predicate Collides(g: seq<byte>, mem: seq<byte>, base: nat, x0: nat, y0: nat, n: nat)
    requires (n == 0 || base + n <= |mem|)
  {
    HitBefore(g, mem, base, x0, y0, n, n, 0)
  }

  /** Visiting bit (row, col) adds exactly its own cell to the visited ones, and that cell
      was not visited before. */
  lemma CoveredStep(mem: seq<byte>, base: nat, x0: nat, y0: nat, n: nat, row: nat, col: nat, i: int)
    requires (n == 0 || base + n <= |mem|) && row < n && col < 8
    ensures !CoveredBefore(mem, base, x0, y0, n, PixelIndex(x0, y0, row, col), row, col)
    ensures CoveredBefore(mem, base, x0, y0, n, i, row, col + 1) ==
            (CoveredBefore(mem, base, x0, y0, n, i, row, col) ||
             (i == PixelIndex(x0, y0, row, col) && SpriteBit(mem[base + row], col)))
  {
    var p := PixelIndex(x0, y0, row, col);
    assert (p - x0 - ScreenWidth * y0) / ScreenWidth == row;
    assert (p - x0 - ScreenWidth * y0) % ScreenWidth == col;
    var d := i - x0 - ScreenWidth * y0;
    if 0 <= d && d / ScreenWidth == row && d % ScreenWidth == col {
      assert i == p;
    }
  }

  /** The collision flag after visiting bit (row, col). */
  lemma HitStep(g: seq<byte>, mem: seq<byte>, base: nat, x0: nat, y0: nat, n: nat, row: nat, col: nat)
    requires (n == 0 || base + n <= |mem|) && row < n && col < 8
    requires SpriteBit(mem[base + row], col) ==> PixelIndex(x0, y0, row, col) < |g|
    ensures HitBefore(g, mem, base, x0, y0, n, row, col + 1) ==
            (HitBefore(g, mem, base, x0, y0, n, row, col) ||
             (SpriteBit(mem[base + row], col) && g[PixelIndex(x0, y0, row, col)] == 1))
  {
    var p := PixelIndex(x0, y0, row, col);
    if HitBefore(g, mem, base, x0, y0, n, row, col + 1) {
      var i :| 0 <= i < |g| && CoveredBefore(mem, base, x0, y0, n, i, row, col + 1) && g[i] == 1;
      CoveredStep(mem, base, x0, y0, n, row, col, i);
    }
    if HitBefore(g, mem, base, x0, y0, n, row, col) {
      var i :| 0 <= i < |g| && CoveredBefore(mem, base, x0, y0, n, i, row, col) && g[i] == 1;
      CoveredStep(mem, base, x0, y0, n, row, col, i);
    }
    if SpriteBit(mem[base + row], col) && g[p] == 1 {
      CoveredStep(mem, base, x0, y0, n, row, col, p);
    }
  }

  /** Visiting bit (row, col) XORs its one cell, which still holds its value from `g`. */
  lemma DrawnStep(g: seq<byte>, mem: seq<byte>, base: nat, x0: nat, y0: nat, n: nat, row: nat, col: nat)
    requires (n == 0 || base + n <= |mem|) && row < n && col < 8
    requires SpriteBit(mem[base + row], col) ==> PixelIndex(x0, y0, row, col) < |g|
    ensures var before := DrawnBefore(g, mem, base, x0, y0, n, row, col);
            var p := PixelIndex(x0, y0, row, col);
            DrawnBefore(g, mem, base, x0, y0, n, row, col + 1) ==
              if SpriteBit(mem[base + row], col) then before[p := Xor8(before[p], 1)] else before
    ensures SpriteBit(mem[base + row], col) ==>
              DrawnBefore(g, mem, base, x0, y0, n, row, col)[PixelIndex(x0, y0, row, col)] == g[PixelIndex(x0, y0, row, col)]
  {
    forall i | 0 <= i < |g| {
      CoveredStep(mem, base, x0, y0, n, row, col, i);
    }
    if SpriteBit(mem[base + row], col) {
      CoveredStep(mem, base, x0, y0, n, row, col, PixelIndex(x0, y0, row, col));
    }
  }

  /** Finishing a row of eight bits is the same as starting the next row. */
  lemma CoveredNextRow(mem: seq<byte>, base: nat, x0: nat, y0: nat, n: nat, row: nat, i: int)
    requires (n == 0 || base + n <= |mem|)
    ensures CoveredBefore(mem, base, x0, y0, n, i, row, 8) == CoveredBefore(mem, base, x0, y0, n, i, row + 1, 0)
  {
  }

  lemma DrawnNextRow(g: seq<byte>, mem: seq<byte>, base: nat, x0: nat, y0: nat, n: nat, row: nat)
    requires (n == 0 || base + n <= |mem|)
    ensures DrawnBefore(g, mem, base, x0, y0, n, row, 8) == DrawnBefore(g, mem, base, x0, y0, n, row + 1, 0)
    ensures HitBefore(g, mem, base, x0, y0, n, row, 8) == HitBefore(g, mem, base, x0, y0, n, row + 1, 0)
  {
    forall i | 0 <= i < |g| {
      CoveredNextRow(mem, base, x0, y0, n, row, i);
    }
  }

  /** Before the first bit nothing is visited. */
  lemma DrawnStart(g: seq<byte>, mem: seq<byte>, base: nat, x0: nat, y0: nat, n: nat)
    requires (n == 0 || base + n <= |mem|)
    ensures DrawnBefore(g, mem, base, x0, y0, n, 0, 0) == g
    ensures !HitBefore(g, mem, base, x0, y0, n, 0, 0)
  {
  }

  /** The highest index below `n` whose key is down (`key[i] != 0`), or -1 if none is:
      the FX0A loop assigns VX on every pressed key, so the last one wins. */
  function LastPressed(key: seq<byte>, n: nat): (k: int)
    requires n <= |key|
    ensures -1 <= k < n
  {
    if n == 0 then -1
    else if key[n - 1] != 0 then n - 1
    else LastPressed(key, n - 1)
  }

  /** FX55: `memory[I + o] = V[o]` for o = 0..x. */
  function StoreBlock(mem: seq<byte>, regs: seq<byte>, base: nat, x: nat): (r: seq<byte>)
    requires x < |regs| && base + x < |mem|
    ensures |r| == |mem|
  {
    seq(|mem|, a requires 0 <= a < |mem| =>
      if base <= a <= base + x then regs[a - base] else mem[a])
  }

  /** FX65: `V[o] = memory[I + o]` for o = 0..x. */
  function LoadBlock(regs: seq<byte>, mem: seq<byte>, base: nat, x: nat): (r: seq<byte>)
    requires x < |regs| && base + x < |mem|
    ensures |r| == |regs|
  {
    seq(|regs|, o requires 0 <= o < |regs| => if o <= x then mem[base + o] else regs[o])
  }

  // ---------------------------------------------------------------- execution

  datatype Option<T> = None | Some(value: T)

  /** Conditions under which the source indexes past one of its arrays. The model stops the
      cycle with one of these instead, leaving the machine exactly as it was. */
  datatype Fault =
    | InvalidFetch      // memory[pc + 1] past the end of memory
    | StackOverflow     // 2NNN with all 16 stack slots in use
    | StackUnderflow    // 00EE with an empty stack
    | MemoryOutOfRange  // DXYN, FX33, FX55 or FX65 touching memory[I + k] past the end
    | PixelOutOfRange   // DXYN with a set sprite bit whose gfx index is past the end
    | KeyOutOfRange     // EX9E or EXA1 with VX > 15

  /** What executing one decoded instruction does before the timers tick. */
  datatype Effect =
    | Done(after: State)  // the instruction completed, the timers tick next
    | Blocked             // FX0A found no key down: the early `return` skips everything else
    | Failed(fault: Fault)

  // Each Step function below is one `case` of the switch in `emulateCycle`. Its contract
  // names the parts of the state the instruction may change; everything else stays.

  /** 00E0: clear `gfx`, raise drawFlag, `pc += 2`. */
  function StepClearScreen(s: State): (t: State)
    requires WellFormed(s)
    ensures WellFormed(t) && t == s.(gfx := t.gfx, drawFlag := true, pc := t.pc)
    ensures (forall i :: 0 <= i < GfxSize ==> t.gfx[i] == 0) && t.pc == Wrap16(s.pc as int + 2)
  {
    Next(s.(gfx := Zeros(GfxSize), drawFlag := true))
  }

  /** 00EE: pop the return address and continue after the call. */
  function StepReturn(s: State): (e: Effect)
    requires WellFormed(s)
    ensures e.Failed? <==> s.sp == 0
    ensures e.Failed? ==> e.fault == StackUnderflow
    ensures e.Done? ==> WellFormed(e.after) && e.after == s.(sp := s.sp - 1, pc := e.after.pc)
  {
    if s.sp == 0 then Failed(StackUnderflow)
    else Done(s.(sp := s.sp - 1, pc := Wrap16(s.stack[s.sp - 1] as int + 2)))
  }

  /** 1NNN. */
  function StepJump(s: State, nnn: address): (t: State)
    ensures t.pc == nnn && t == s.(pc := t.pc)
  {
    s.(pc := nnn)
  }

  /** 2NNN: push pc (the address of the call itself) and jump. */
  function StepCall(s: State, nnn: address): (e: Effect)
    requires WellFormed(s)
    ensures e.Failed? <==> s.sp == StackDepth
    ensures e.Failed? ==> e.fault == StackOverflow
    ensures e.Done? ==> WellFormed(e.after) && e.after == s.(stack := e.after.stack, sp := s.sp + 1, pc := nnn)
  {
    if s.sp >= StackDepth then Failed(StackOverflow)
    else Done(s.(stack := s.stack[s.sp := s.pc], sp := s.sp + 1, pc := nnn))
  }

  /** BNNN: `pc = (opcode & 0x0FFF) + V[0]`. The sum is not reduced to 12 bits, so it can
      point past the end of memory. */
  function StepJumpOffset(s: State, nnn: address): (t: State)
    requires WellFormed(s)
    ensures t.pc == nnn as int + s.V[0] as int && t == s.(pc := t.pc)
  {
    s.(pc := nnn as int + s.V[0])
  }

  /** EX9E and EXA1: skip when `key[VX]` is (for EX9E) or is not (for EXA1) down. */
  function StepSkipKey(s: State, x: nibble, down: bool): (e: Effect)
    requires WellFormed(s)
    ensures e.Failed? <==> s.V[x] >= KeyCount
    ensures e.Failed? ==> e.fault == KeyOutOfRange
    ensures e.Done? ==> e.after == s.(pc := e.after.pc)
    ensures e.Done? ==> (e.after.pc == Wrap16(s.pc as int + 4) || e.after.pc == Wrap16(s.pc as int + 2))
    ensures e.Done? ==> (e.after.pc == Wrap16(s.pc as int + 4) <==>
                         if down then s.key[s.V[x]] == 1 else s.key[s.V[x]] == 0)
  {
    if s.V[x] >= KeyCount then Failed(KeyOutOfRange)
    else Done(Skip(s, if down then s.key[s.V[x]] == 1 else s.key[s.V[x]] == 0))
  }

  /** 8XY4: VF = carry (`V[Y] > 0xFF - V[X]`), then `V[X] += V[Y]`. */
  function StepAddRegs(s: State, x: nibble, y: nibble): (t: State)
    requires WellFormed(s)
    ensures WellFormed(t) && t == s.(V := t.V, pc := t.pc)
  {
    var f := SetV(s, VF, if s.V[y] > 0xFF - s.V[x] then 1 else 0);
    Next(SetV(f, x, Wrap8(f.V[x] as int + f.V[y])))
  }

  /** 8XY5: VF = 0 on borrow (`V[Y] > V[X]`), else 1; then `V[X] -= V[Y]`. */
  function StepSubRegs(s: State, x: nibble, y: nibble): (t: State)
    requires WellFormed(s)
    ensures WellFormed(t) && t == s.(V := t.V, pc := t.pc)
  {
    var f := SetV(s, VF, if s.V[y] > s.V[x] then 0 else 1);
    Next(SetV(f, x, Wrap8(f.V[x] as int - f.V[y])))
  }

  /** 8XY6: VF = low bit of VX, then `V[X] >>= 1`. */
  function StepShiftRight(s: State, x: nibble): (t: State)
    requires WellFormed(s)
    ensures WellFormed(t) && t == s.(V := t.V, pc := t.pc)
  {
    var f := SetV(s, VF, And8(s.V[x], 0x1));
    Next(SetV(f, x, f.V[x] / 2))
  }

  /** 8XY7: VF = 0 on borrow (`V[X] > V[Y]`), else 1; then `V[X] = V[Y] - V[X]`. */
  function StepSubReversed(s: State, x: nibble, y: nibble): (t: State)
    requires WellFormed(s)
    ensures WellFormed(t) && t == s.(V := t.V, pc := t.pc)
  {
    var f := SetV(s, VF, if s.V[x] > s.V[y] then 0 else 1);
    Next(SetV(f, x, Wrap8(f.V[y] as int - f.V[x])))
  }

  /** 8XYE: VF = top bit of VX (`V[X] >> 7`), then `V[X] <<= 1`. */
  function StepShiftLeft(s: State, x: nibble): (t: State)
    requires WellFormed(s)
    ensures WellFormed(t) && t == s.(V := t.V, pc := t.pc)
  {
    var f := SetV(s, VF, s.V[x] / 0x80);
    Next(SetV(f, x, Wrap8(f.V[x] as int * 2)))
  }

  /** FX1E: VF = (I + VX > 0xFFF), then `I += VX` on the 16-bit index. */
  function StepAddIndex(s: State, x: nibble): (t: State)
    requires WellFormed(s)
    ensures WellFormed(t) && t == s.(V := t.V, I := t.I, pc := t.pc)
  {
    var f := SetV(s, VF, if s.I as int + s.V[x] > 0xFFF then 1 else 0);
    Next(f.(I := Wrap16(f.I as int + f.V[x])))
  }

  /** DXYN: XOR an N-row sprite from `memory[I..]` onto the screen at (VX, VY); VF reports
      whether a lit pixel was turned off. */
  function StepDraw(s: State, x: nibble, y: nibble, n: nibble): (e: Effect)
    requires WellFormed(s)
    ensures e.Failed? <==> (n > 0 && s.I + n > MemorySize) || !SpriteInBounds(s.memory, s.I, s.V[x], s.V[y], n)
    ensures e.Failed? ==> e.fault == if n > 0 && s.I + n > MemorySize then MemoryOutOfRange else PixelOutOfRange
    ensures e.Done? ==> WellFormed(e.after) && e.after == s.(V := e.after.V, gfx := e.after.gfx, drawFlag := true, pc := e.after.pc)
  {
    var x0, y0 := s.V[x], s.V[y];
    if n > 0 && s.I + n > MemorySize then Failed(MemoryOutOfRange)
    else if !SpriteInBounds(s.memory, s.I, x0, y0, n) then Failed(PixelOutOfRange)
    else
      var hit := Collides(s.gfx, s.memory, s.I, x0, y0, n);
      Done(Next(s.(V := s.V[VF := if hit then 1 else 0],
                   gfx := SpriteDrawn(s.gfx, s.memory, s.I, x0, y0, n),
                   drawFlag := true)))
  }

  /** FX0A: with some key down, VX = the highest pressed index and `pc += 2`; with none the
      cycle returns early. */
  function StepAwaitKey(s: State, x: nibble): (e: Effect)
    requires WellFormed(s)
    ensures e.Blocked? <==> LastPressed(s.key, KeyCount) < 0
    ensures !e.Failed?
    ensures e.Done? ==> WellFormed(e.after) && e.after == s.(V := e.after.V, pc := e.after.pc)
  {
    var k := LastPressed(s.key, KeyCount);
    if k < 0 then Blocked else Done(Next(SetV(s, x, k)))
  }

  /** FX33: the hundreds, tens and units digits of VX at I, I + 1 and I + 2. */
  function StepStoreBcd(s: State, x: nibble): (e: Effect)
    requires WellFormed(s)
    ensures e.Failed? <==> s.I + 2 >= MemorySize
    ensures e.Failed? ==> e.fault == MemoryOutOfRange
    ensures e.Done? ==> WellFormed(e.after) && e.after == s.(memory := e.after.memory, pc := e.after.pc)
  {
    if s.I + 2 >= MemorySize then Failed(MemoryOutOfRange)
    else
      var v := s.V[x];
      Done(Next(s.(memory := s.memory[s.I := v / 100][s.I + 1 := (v / 10) % 10][s.I + 2 := (v % 100) % 10])))
  }

  /** FX55: V0..VX to `memory[I..I + X]`. */
  function StepStoreRegs(s: State, x: nibble): (e: Effect)
    requires WellFormed(s)
    ensures e.Failed? <==> s.I + x >= MemorySize
    ensures e.Failed? ==> e.fault == MemoryOutOfRange
    ensures e.Done? ==> WellFormed(e.after) && e.after == s.(memory := e.after.memory, pc := e.after.pc)
  {
    if s.I + x >= MemorySize then Failed(MemoryOutOfRange)
    else Done(Next(s.(memory := StoreBlock(s.memory, s.V, s.I, x))))
  }

  /** FX65: `memory[I..I + X]` to V0..VX. */
  function StepLoadRegs(s: State, x: nibble): (e: Effect)
    requires WellFormed(s)
    ensures e.Failed? <==> s.I + x >= MemorySize
    ensures e.Failed? ==> e.fault == MemoryOutOfRange
    ensures e.Done? ==> WellFormed(e.after) && e.after == s.(V := e.after.V, pc := e.after.pc)
  {
    if s.I + x >= MemorySize then Failed(MemoryOutOfRange)
    else Done(Next(s.(V := LoadBlock(s.V, s.memory, s.I, x))))
  }

  // The switch is split into groups of related instructions, one function each.

  predicate SystemGroup(ins: Instr) {
    ins.ClearScreen? || ins.Return?
  }

  predicate JumpsGroup(ins: Instr) {
    ins.Jump? || ins.Call? || ins.JumpOffset?
  }

  predicate SkipsGroup(ins: Instr) {
    ins.SkipIfEqual? || ins.SkipIfNotEqual? || ins.SkipIfRegsEqual? || ins.SkipIfRegsNotEqual?
  }

  predicate LoadsGroup(ins: Instr) {
    ins.SetImmediate? || ins.AddImmediate? || ins.SetIndex? || ins.Random?
  }

  predicate LogicGroup(ins: Instr) {
    ins.Move? || ins.Or? || ins.And? || ins.Xor?
  }

  predicate ArithmeticGroup(ins: Instr) {
    ins.AddRegs? || ins.SubRegs? || ins.ShiftRight? || ins.SubReversed? || ins.ShiftLeft?
  }

  predicate ScreenAndKeysGroup(ins: Instr) {
    ins.Draw? || ins.SkipIfKey? || ins.SkipIfNotKey?
  }

  predicate TimersGroup(ins: Instr) {
    ins.GetDelay? || ins.AwaitKey? || ins.SetDelay? || ins.SetSound?
  }

  predicate IndexGroup(ins: Instr) {
    ins.AddIndex? || ins.FontChar? || ins.StoreBcd? || ins.StoreRegs? || ins.LoadRegs?
  }

  /** The 0x0 family: 00E0 and 00EE. */
  function ExecuteSystem(s: State, ins: Instr): Effect
    requires WellFormed(s) && SystemGroup(ins)
  {
    match ins
    case ClearScreen => Done(StepClearScreen(s))
    case Return => StepReturn(s)
    case _ => assert false; Done(s)
  }

  /** The jumps and the call: 1NNN, 2NNN and BNNN. */
  function ExecuteJumps(s: State, ins: Instr): Effect
    requires WellFormed(s) && JumpsGroup(ins)
  {
    match ins
    case Jump(nnn) => Done(StepJump(s, nnn))
    case Call(nnn) => StepCall(s, nnn)
    case JumpOffset(nnn) => Done(StepJumpOffset(s, nnn))
    case _ => assert false; Done(s)
  }

  /** The register comparisons 3XNN, 4XNN, 5XY0 and 9XY0. */
  function ExecuteSkips(s: State, ins: Instr): Effect
    requires WellFormed(s) && SkipsGroup(ins)
  {
    match ins
    case SkipIfEqual(x, nn) => Done(Skip(s, s.V[x] == nn))
    case SkipIfNotEqual(x, nn) => Done(Skip(s, s.V[x] != nn))
    case SkipIfRegsEqual(x, y) => Done(Skip(s, s.V[x] == s.V[y]))
    case SkipIfRegsNotEqual(x, y) => Done(Skip(s, s.V[x] != s.V[y]))
    case _ => assert false; Done(s)
  }

  /** The immediate loads 6XNN, 7XNN, ANNN and CXNN. */
  function ExecuteLoads(s: State, ins: Instr, rnd: nat): Effect
    requires WellFormed(s) && LoadsGroup(ins)
  {
    match ins
    case SetImmediate(x, nn) => Done(Next(SetV(s, x, nn)))
    case AddImmediate(x, nn) => Done(Next(SetV(s, x, Wrap8(s.V[x] as int + nn))))
    case SetIndex(nnn) => Done(Next(s.(I := nnn)))
    case Random(x, nn) => Done(Next(SetV(s, x, And8(rnd % 0xFF, nn))))
    case _ => assert false; Done(s)
  }

  /** The register moves and bitwise operators 8XY0 to 8XY3. */
  function ExecuteLogic(s: State, ins: Instr): Effect
    requires WellFormed(s) && LogicGroup(ins)
  {
    match ins
    case Move(x, y) => Done(Next(SetV(s, x, s.V[y])))
    case Or(x, y) => Done(Next(SetV(s, x, Or8(s.V[y], s.V[x]))))
    case And(x, y) => Done(Next(SetV(s, x, And8(s.V[y], s.V[x]))))
    case Xor(x, y) => Done(Next(SetV(s, x, Xor8(s.V[y], s.V[x]))))
    case _ => assert false; Done(s)
  }

  /** The arithmetic that writes VF first: 8XY4, 8XY5, 8XY6, 8XY7 and 8XYE. */
  function ExecuteArithmetic(s: State, ins: Instr): Effect
    requires WellFormed(s) && ArithmeticGroup(ins)
  {
    match ins
    case AddRegs(x, y) => Done(StepAddRegs(s, x, y))
    case SubRegs(x, y) => Done(StepSubRegs(s, x, y))
    case ShiftRight(x, _) => Done(StepShiftRight(s, x))
    case SubReversed(x, y) => Done(StepSubReversed(s, x, y))
    case ShiftLeft(x, _) => Done(StepShiftLeft(s, x))
    case _ => assert false; Done(s)
  }

  /** The sprite draw DXYN and the key skips EX9E and EXA1. */
  function ExecuteScreenAndKeys(s: State, ins: Instr): Effect
    requires WellFormed(s) && ScreenAndKeysGroup(ins)
  {
    match ins
    case Draw(x, y, n) => StepDraw(s, x, y, n)
    case SkipIfKey(x) => StepSkipKey(s, x, true)
    case SkipIfNotKey(x) => StepSkipKey(s, x, false)
    case _ => assert false; Done(s)
  }

  /** The timer and key-wait instructions FX07, FX0A, FX15 and FX18. */
  function ExecuteTimers(s: State, ins: Instr): Effect
    requires WellFormed(s) && TimersGroup(ins)
  {
    match ins
    case GetDelay(x) => Done(Next(SetV(s, x, s.delayTimer)))
    case AwaitKey(x) => StepAwaitKey(s, x)
    case SetDelay(x) => Done(Next(s.(delayTimer := s.V[x])))
    case SetSound(x) => Done(Next(s.(soundTimer := s.V[x])))
    case _ => assert false; Done(s)
  }

  /** The index and memory instructions FX1E, FX29, FX33, FX55 and FX65. */
  function ExecuteIndex(s: State, ins: Instr): Effect
    requires WellFormed(s) && IndexGroup(ins)
  {
    match ins
    case AddIndex(x) => Done(StepAddIndex(s, x))
    case FontChar(x) => Done(Next(s.(I := s.V[x] as int * 5)))
    case StoreBcd(x) => StepStoreBcd(s, x)
    case StoreRegs(x) => StepStoreRegs(s, x)
    case LoadRegs(x) => StepLoadRegs(s, x)
    case _ => assert false; Done(s)
  }

  /** One pass of the `switch` in `emulateCycle`; an unknown opcode does nothing. */
  function Execute(s: State, ins: Instr, rnd: nat): Effect
    requires WellFormed(s)
  {
    if SystemGroup(ins) then ExecuteSystem(s, ins)
    else if JumpsGroup(ins) then ExecuteJumps(s, ins)
    else if SkipsGroup(ins) then ExecuteSkips(s, ins)
    else if LoadsGroup(ins) then ExecuteLoads(s, ins, rnd)
    else if LogicGroup(ins) then ExecuteLogic(s, ins)
    else if ArithmeticGroup(ins) then ExecuteArithmetic(s, ins)
    else if ScreenAndKeysGroup(ins) then ExecuteScreenAndKeys(s, ins)
    else if TimersGroup(ins) then ExecuteTimers(s, ins)
    else if IndexGroup(ins) then ExecuteIndex(s, ins)
    else Done(s)
  }

  // ---------------------------------------------------------------- the switch, case by case

  // The same semantics as a list of cases: `e` is the effect of `ins` on `s` exactly when,
  // for the instruction `ins` is, `e` is what its case of the switch computes.
  // PerformsIsExecute proves the two readings equal.

  predicate SystemPerforms(s: State, ins: Instr, e: Effect)
    requires WellFormed(s)
  {
    (ins.ClearScreen? ==> e == Done(StepClearScreen(s))) &&
    (ins.Return? ==> e == StepReturn(s))
  }

  predicate JumpsPerforms(s: State, ins: Instr, e: Effect)
    requires WellFormed(s)
  {
    (ins.Jump? ==> e == Done(StepJump(s, ins.nnn))) &&
    (ins.Call? ==> e == StepCall(s, ins.nnn)) &&
    (ins.JumpOffset? ==> e == Done(StepJumpOffset(s, ins.nnn)))
  }

  predicate SkipsPerforms(s: State, ins: Instr, e: Effect)
    requires WellFormed(s)
  {
    (ins.SkipIfEqual? ==> e == Done(Skip(s, s.V[ins.x] == ins.nn))) &&
    (ins.SkipIfNotEqual? ==> e == Done(Skip(s, s.V[ins.x] != ins.nn))) &&
    (ins.SkipIfRegsEqual? ==> e == Done(Skip(s, s.V[ins.x] == s.V[ins.y]))) &&
    (ins.SkipIfRegsNotEqual? ==> e == Done(Skip(s, s.V[ins.x] != s.V[ins.y])))
  }

  predicate LoadsPerforms(s: State, ins: Instr, rnd: nat, e: Effect)
    requires WellFormed(s)
  {
    (ins.SetImmediate? ==> e == Done(Next(SetV(s, ins.x, ins.nn)))) &&
    (ins.AddImmediate? ==> e == Done(Next(SetV(s, ins.x, Wrap8(s.V[ins.x] as int + ins.nn))))) &&
    (ins.SetIndex? ==> e == Done(Next(s.(I := ins.nnn)))) &&
    (ins.Random? ==> e == Done(Next(SetV(s, ins.x, And8(rnd % 0xFF, ins.nn)))))
  }

  predicate LogicPerforms(s: State, ins: Instr, e: Effect)
    requires WellFormed(s)
  {
    (ins.Move? ==> e == Done(Next(SetV(s, ins.x, s.V[ins.y])))) &&
    (ins.Or? ==> e == Done(Next(SetV(s, ins.x, Or8(s.V[ins.y], s.V[ins.x]))))) &&
    (ins.And? ==> e == Done(Next(SetV(s, ins.x, And8(s.V[ins.y], s.V[ins.x]))))) &&
    (ins.Xor? ==> e == Done(Next(SetV(s, ins.x, Xor8(s.V[ins.y], s.V[ins.x])))))
  }

  predicate ArithmeticPerforms(s: State, ins: Instr, e: Effect)
    requires WellFormed(s)
  {
    (ins.AddRegs? ==> e == Done(StepAddRegs(s, ins.x, ins.y))) &&
    (ins.SubRegs? ==> e == Done(StepSubRegs(s, ins.x, ins.y))) &&
    (ins.ShiftRight? ==> e == Done(StepShiftRight(s, ins.x))) &&
    (ins.SubReversed? ==> e == Done(StepSubReversed(s, ins.x, ins.y))) &&
    (ins.ShiftLeft? ==> e == Done(StepShiftLeft(s, ins.x)))
  }

  predicate ScreenAndKeysPerforms(s: State, ins: Instr, e: Effect)
    requires WellFormed(s)
  {
    (ins.Draw? ==> e == StepDraw(s, ins.x, ins.y, ins.n)) &&
    (ins.SkipIfKey? ==> e == StepSkipKey(s, ins.x, true)) &&
    (ins.SkipIfNotKey? ==> e == StepSkipKey(s, ins.x, false))
  }

  predicate TimersPerforms(s: State, ins: Instr, e: Effect)
    requires WellFormed(s)
  {
    (ins.GetDelay? ==> e == Done(Next(SetV(s, ins.x, s.delayTimer)))) &&
    (ins.AwaitKey? ==> e == StepAwaitKey(s, ins.x)) &&
    (ins.SetDelay? ==> e == Done(Next(s.(delayTimer := s.V[ins.x])))) &&
    (ins.SetSound? ==> e == Done(Next(s.(soundTimer := s.V[ins.x]))))
  }

  predicate IndexPerforms(s: State, ins: Instr, e: Effect)
    requires WellFormed(s)
  {
    (ins.AddIndex? ==> e == Done(StepAddIndex(s, ins.x))) &&
    (ins.FontChar? ==> e == Done(Next(s.(I := s.V[ins.x] as int * 5)))) &&
    (ins.StoreBcd? ==> e == StepStoreBcd(s, ins.x)) &&
    (ins.StoreRegs? ==> e == StepStoreRegs(s, ins.x)) &&
    (ins.LoadRegs? ==> e == StepLoadRegs(s, ins.x))
  }

  predicate Performs(s: State, ins: Instr, rnd: nat, e: Effect)
    requires WellFormed(s)
  {
    if SystemGroup(ins) then SystemPerforms(s, ins, e)
    else if JumpsGroup(ins) then JumpsPerforms(s, ins, e)
    else if SkipsGroup(ins) then SkipsPerforms(s, ins, e)
    else if LoadsGroup(ins) then LoadsPerforms(s, ins, rnd, e)
    else if LogicGroup(ins) then LogicPerforms(s, ins, e)
    else if ArithmeticGroup(ins) then ArithmeticPerforms(s, ins, e)
    else if ScreenAndKeysGroup(ins) then ScreenAndKeysPerforms(s, ins, e)
    else if TimersGroup(ins) then TimersPerforms(s, ins, e)
    else if IndexGroup(ins) then IndexPerforms(s, ins, e)
    else e == Done(s)
  }

  lemma SystemPerformsIsExecute(s: State, ins: Instr, e: Effect)
    requires WellFormed(s) && SystemGroup(ins)
    ensures SystemPerforms(s, ins, e) <==> e == ExecuteSystem(s, ins)
  {
  }

  lemma JumpsPerformsIsExecute(s: State, ins: Instr, e: Effect)
    requires WellFormed(s) && JumpsGroup(ins)
    ensures JumpsPerforms(s, ins, e) <==> e == ExecuteJumps(s, ins)
  {
  }

  lemma SkipsPerformsIsExecute(s: State, ins: Instr, e: Effect)
    requires WellFormed(s) && SkipsGroup(ins)
    ensures SkipsPerforms(s, ins, e) <==> e == ExecuteSkips(s, ins)
  {
  }

  lemma LoadsPerformsIsExecute(s: State, ins: Instr, rnd: nat, e: Effect)
    requires WellFormed(s) && LoadsGroup(ins)
    ensures LoadsPerforms(s, ins, rnd, e) <==> e == ExecuteLoads(s, ins, rnd)
  {
  }

  lemma LogicPerformsIsExecute(s: State, ins: Instr, e: Effect)
    requires WellFormed(s) && LogicGroup(ins)
    ensures LogicPerforms(s, ins, e) <==> e == ExecuteLogic(s, ins)
  {
  }

  lemma ArithmeticPerformsIsExecute(s: State, ins: Instr, e: Effect)
    requires WellFormed(s) && ArithmeticGroup(ins)
    ensures ArithmeticPerforms(s, ins, e) <==> e == ExecuteArithmetic(s, ins)
  {
  }

  lemma ScreenAndKeysPerformsIsExecute(s: State, ins: Instr, e: Effect)
    requires WellFormed(s) && ScreenAndKeysGroup(ins)
    ensures ScreenAndKeysPerforms(s, ins, e) <==> e == ExecuteScreenAndKeys(s, ins)
  {
  }

  lemma TimersPerformsIsExecute(s: State, ins: Instr, e: Effect)
    requires WellFormed(s) && TimersGroup(ins)
    ensures TimersPerforms(s, ins, e) <==> e == ExecuteTimers(s, ins)
  {
  }

  lemma IndexPerformsIsExecute(s: State, ins: Instr, e: Effect)
    requires WellFormed(s) && IndexGroup(ins)
    ensures IndexPerforms(s, ins, e) <==> e == ExecuteIndex(s, ins)
  {
  }

  /** The case list and the switch agree on every state, instruction and effect. */
  lemma PerformsIsExecute(s: State, ins: Instr, rnd: nat, e: Effect)
    requires WellFormed(s)
    ensures Performs(s, ins, rnd, e) <==> e == Execute(s, ins, rnd)
  {
    if SystemGroup(ins) {
      SystemPerformsIsExecute(s, ins, e);
    } else if JumpsGroup(ins) {
      JumpsPerformsIsExecute(s, ins, e);
    } else if SkipsGroup(ins) {
      SkipsPerformsIsExecute(s, ins, e);
    } else if LoadsGroup(ins) {
      LoadsPerformsIsExecute(s, ins, rnd, e);
    } else if LogicGroup(ins) {
      LogicPerformsIsExecute(s, ins, e);
    } else if ArithmeticGroup(ins) {
      ArithmeticPerformsIsExecute(s, ins, e);
    } else if ScreenAndKeysGroup(ins) {
      ScreenAndKeysPerformsIsExecute(s, ins, e);
    } else if TimersGroup(ins) {
      TimersPerformsIsExecute(s, ins, e);
    } else if IndexGroup(ins) {
      IndexPerformsIsExecute(s, ins, e);
    }
  }

  /** The timer update at the end of `emulateCycle`. */
  function Tick(s: State): State {
    s.(delayTimer := if s.delayTimer > 0 then s.delayTimer - 1 else 0,
       soundTimer := if s.soundTimer > 0 then s.soundTimer - 1 else 0)
  }

  datatype Outcome = Stepped(next: State) | Trapped(fault: Fault)

  /** One call of `emulateCycle`: fetch, decode, execute, and tick the timers unless FX0A
      returned early. A fault leaves the machine unchanged. */
  function Cycle(s: State, rnd: nat): Outcome
    requires WellFormed(s)
  {
    if s.pc + 1 >= MemorySize then Trapped(InvalidFetch)
    else
      match Execute(s, Decode(Fetch(s.memory, s.pc)), rnd)
      case Done(t) => Stepped(Tick(t))
      case Blocked => Stepped(s)
      case Failed(f) => Trapped(f)
  }
}
