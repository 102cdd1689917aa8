/** Properties of the SimpleChip8 semantics in Chip8Spec: decoding, power-on, the effect of
    individual instructions and of whole cycles. */
module Chip8Properties {
  import opened Bits
  import opened Chip8Spec

  // ---------------------------------------------------------------- decoding

  lemma Div16(v: int, q: int, r: int)
    requires v == q * 0x10 + r && 0 <= r < 0x10
    ensures v / 0x10 == q && v % 0x10 == r
  {
  }

  lemma Div256(v: int, q: int, r: int)
    requires v == q * 0x100 + r && 0 <= r < 0x100
    ensures v / 0x100 == q
  {
  }

  lemma Div4096(v: int, q: int, r: int)
    requires v == q * 0x1000 + r && 0 <= r < 0x1000
    ensures v / 0x1000 == q
  {
  }

  /** A byte is its two hexadecimal digits. */
  lemma ByteDigits(nn: byte)
    ensures nn == (nn / 0x10) * 0x10 + nn % 0x10
  {
  }

  /** A 12-bit address is its three hexadecimal digits. */
  lemma AddressDigits(nnn: address)
    ensures nnn == (nnn / 0x100) * 0x100 + ((nnn / 0x10) % 0x10) * 0x10 + nnn % 0x10
  {
    assert nnn % 0x100 == ((nnn / 0x10) % 0x10) * 0x10 + nnn % 0x10;
  }

  /** Decode reads the opcode as four hexadecimal digits. */
  lemma DecodeDigits(a: nibble, x: nibble, y: nibble, n: nibble)
    ensures Decode(Opcode(a, x, y, n)) == DecodeFields(a, x, y, n)
  {
    var op := Opcode(a, x, y, n);
    Div4096(op, a, x * 0x100 + y * 0x10 + n);
    Div256(op, a * 0x10 + x, y * 0x10 + n);
    Div16(op / 0x100, a, x);
    Div16(op, a * 0x100 + x * 0x10 + y, n);
    Div16(op / 0x10, a * 0x10 + x, y);
  }

  /** The digits of an instruction's canonical opcode select that instruction again. */
  lemma DecodeFieldsDigits(ins: Instr)
    requires !ins.Unknown?
    ensures var (a, x, y, n) := Digits(ins); DecodeFields(a, x, y, n) == ins
  {
    if SystemGroup(ins) {
      DecodeFieldsSystem(ins);
    } else if JumpsGroup(ins) {
      DecodeFieldsJumps(ins);
    } else if SkipsGroup(ins) {
      DecodeFieldsSkips(ins);
    } else if LoadsGroup(ins) {
      DecodeFieldsLoads(ins);
    } else if LogicGroup(ins) {
      DecodeFieldsLogic(ins);
    } else if ArithmeticGroup(ins) {
      DecodeFieldsArithmetic(ins);
    } else if ScreenAndKeysGroup(ins) {
      DecodeFieldsScreenAndKeys(ins);
    } else if TimersGroup(ins) {
      DecodeFieldsTimers(ins);
    } else if IndexGroup(ins) {
      DecodeFieldsIndex(ins);
    }
  }

  lemma DecodeFieldsSystem(ins: Instr)
    requires SystemGroup(ins)
    ensures var (a, x, y, n) := Digits(ins); DecodeFields(a, x, y, n) == ins
  {
  }

  lemma DecodeFieldsJumps(ins: Instr)
    requires JumpsGroup(ins)
    ensures var (a, x, y, n) := Digits(ins); DecodeFields(a, x, y, n) == ins
  {
    match ins
    case Jump(nnn) => AddressDigits(nnn);
    case Call(nnn) => AddressDigits(nnn);
    case JumpOffset(nnn) => AddressDigits(nnn);
    case _ =>
  }

  lemma DecodeFieldsSkips(ins: Instr)
    requires SkipsGroup(ins)
    ensures var (a, x, y, n) := Digits(ins); DecodeFields(a, x, y, n) == ins
  {
    match ins
    case SkipIfEqual(x, nn) => ByteDigits(nn);
    case SkipIfNotEqual(x, nn) => ByteDigits(nn);
    case _ =>
  }

  lemma DecodeFieldsLoads(ins: Instr)
    requires LoadsGroup(ins)
    ensures var (a, x, y, n) := Digits(ins); DecodeFields(a, x, y, n) == ins
  {
    match ins
    case SetImmediate(x, nn) => ByteDigits(nn);
    case AddImmediate(x, nn) => ByteDigits(nn);
    case SetIndex(nnn) => AddressDigits(nnn);
    case Random(x, nn) => ByteDigits(nn);
    case _ =>
  }

  lemma DecodeFieldsLogic(ins: Instr)
    requires LogicGroup(ins)
    ensures var (a, x, y, n) := Digits(ins); DecodeFields(a, x, y, n) == ins
  {
  }

  lemma DecodeFieldsArithmetic(ins: Instr)
    requires ArithmeticGroup(ins)
    ensures var (a, x, y, n) := Digits(ins); DecodeFields(a, x, y, n) == ins
  {
  }

  lemma DecodeFieldsScreenAndKeys(ins: Instr)
    requires ScreenAndKeysGroup(ins)
    ensures var (a, x, y, n) := Digits(ins); DecodeFields(a, x, y, n) == ins
  {
  }

  lemma DecodeFieldsTimers(ins: Instr)
    requires TimersGroup(ins)
    ensures var (a, x, y, n) := Digits(ins); DecodeFields(a, x, y, n) == ins
  {
  }

  lemma DecodeFieldsIndex(ins: Instr)
    requires IndexGroup(ins)
    ensures var (a, x, y, n) := Digits(ins); DecodeFields(a, x, y, n) == ins
  {
  }

  /** Every instruction the switch recognises is decoded back from its canonical opcode. */
  lemma DecodeEncode(ins: Instr)
    requires !ins.Unknown?
    ensures Decode(Encode(ins)) == ins
  {
    var (a, x, y, n) := Digits(ins);
    DecodeDigits(a, x, y, n);
    DecodeFieldsDigits(ins);
  }

  /** Digits the switch never looks at: 0x0 opcodes only test their last digit, and 5XYN
      and 9XYN accept any N. So the zero word of erased memory clears the screen. */
  lemma DecodeIgnoredDigits(x: nibble, y: nibble, n: nibble)
    ensures Decode(Opcode(0, x, y, 0)) == ClearScreen && Decode(Opcode(0, x, y, 0xE)) == Return
    ensures Decode(Opcode(5, x, y, n)) == SkipIfRegsEqual(x, y)
    ensures Decode(Opcode(9, x, y, n)) == SkipIfRegsNotEqual(x, y)
    ensures Decode(0) == ClearScreen
  {
    assert Decode(Opcode(0, x, y, 0)) == ClearScreen by { DecodeDigits(0, x, y, 0); }
    assert Decode(Opcode(0, x, y, 0xE)) == Return by { DecodeDigits(0, x, y, 0xE); }
    assert Decode(Opcode(5, x, y, n)) == SkipIfRegsEqual(x, y) by { DecodeDigits(5, x, y, n); }
    assert Decode(Opcode(9, x, y, n)) == SkipIfRegsNotEqual(x, y) by { DecodeDigits(9, x, y, n); }
    assert Decode(0) == ClearScreen by { DecodeDigits(0, 0, 0, 0); }
  }

  // ---------------------------------------------------------------- power-on

  /** After the constructor: the program counter at 0x200, the font at 0x000..0x04F, every
      other memory cell, the registers, the stack, the screen and the timers zero. */
  lemma PowerOnState()
    ensures var s := PowerOn();
            WellFormed(s) && s.pc == ProgramStart && s.I == 0 && s.sp == 0 &&
            s.delayTimer == 0 && s.soundTimer == 0 && !s.drawFlag &&
            s.memory[..|FontSet|] == FontSet &&
            (forall a :: |FontSet| <= a < MemorySize ==> s.memory[a] == 0) &&
            (forall r :: 0 <= r < RegisterCount ==> s.V[r] == 0) &&
            (forall k :: 0 <= k < StackDepth ==> s.stack[k] == 0) &&
            (forall i :: 0 <= i < GfxSize ==> s.gfx[i] == 0) &&
            (forall k :: 0 <= k < KeyCount ==> s.key[k] == 0)
  {
    var s := PowerOn();
    assert s.memory == FontSet + Zeros(MemorySize - |FontSet|);
    forall a | |FontSet| <= a < MemorySize
      ensures s.memory[a] == 0
    {
      assert s.memory[a] == Zeros(MemorySize - |FontSet|)[a - |FontSet|];
    }
    forall r | 0 <= r < RegisterCount
      ensures s.V[r] == 0
    {
      if r < VF {
        assert s.V[r] == Zeros(0xF)[r];
      }
    }
  }

  /** `initialize()` clears V0..VE but keeps VF, and running it twice is running it once. */
  lemma ResetKeepsFlag(s: State)
    requires WellFormed(s)
    ensures WellFormed(Reset(s))
    ensures Reset(s).V[VF] == s.V[VF] && forall r :: 0 <= r < VF ==> Reset(s).V[r] == 0
    ensures Reset(Reset(s)) == Reset(s)
  {
    var t := Reset(s);
    assert t.V[VF] == s.V[VF];
    assert Reset(t).V == t.V;
  }

  // ---------------------------------------------------------------- FX0A

  /** LastPressed finds the highest pressed key, and -1 only when no key is down. */
  lemma {:induction false} LastPressedIsHighest(key: seq<byte>, n: nat)
    requires n <= |key|
    ensures var k := LastPressed(key, n);
            (k >= 0 ==> key[k] != 0) && (forall j :: k < j < n ==> key[j] == 0)
  {
    if n > 0 && key[n - 1] == 0 {
      LastPressedIsHighest(key, n - 1);
    }
  }

  // ---------------------------------------------------------------- arithmetic

  /** 8XY4 with neither operand VF: VX is the low byte of the sum and VF its carry, so
      VX + 256 * VF is the exact sum; no other register changes. */
  lemma AddRegsCarry(s: State, x: nibble, y: nibble)
    requires WellFormed(s) && x != VF && y != VF
    ensures var t := StepAddRegs(s, x, y);
            t.V[x] as int + 0x100 * t.V[VF] as int == s.V[x] as int + s.V[y] as int && t.V[VF] <= 1 &&
            (t.V[VF] == 1 <==> s.V[x] as int + s.V[y] as int > 0xFF) &&
            (forall r :: 0 <= r < RegisterCount && r != x && r != VF ==> t.V[r] == s.V[r]) &&
            t.pc == Wrap16(s.pc + 2)
  {
  }

  /** 8XY5 with neither operand VF: VF is 1 exactly when there is no borrow, and VX is the
      difference modulo 256. */
  lemma SubRegsBorrow(s: State, x: nibble, y: nibble)
    requires WellFormed(s) && x != VF && y != VF
    ensures var t := StepSubRegs(s, x, y);
            t.V[x] as int == s.V[x] as int - s.V[y] as int + 0x100 * (1 - t.V[VF] as int) && t.V[VF] <= 1 &&
            (t.V[VF] == 1 <==> s.V[x] >= s.V[y]) &&
            (forall r :: 0 <= r < RegisterCount && r != x && r != VF ==> t.V[r] == s.V[r])
  {
  }

  /** 8XY7 with neither operand VF: VX = VY - VX modulo 256, VF = no borrow. */
  lemma SubReversedBorrow(s: State, x: nibble, y: nibble)
    requires WellFormed(s) && x != VF && y != VF
    ensures var t := StepSubReversed(s, x, y);
            t.V[x] as int == s.V[y] as int - s.V[x] as int + 0x100 * (1 - t.V[VF] as int) && t.V[VF] <= 1 &&
            (t.V[VF] == 1 <==> s.V[y] >= s.V[x]) &&
            (forall r :: 0 <= r < RegisterCount && r != x && r != VF ==> t.V[r] == s.V[r])
  {
  }

  /** 8XY4 followed by 8XY5 on the same registers gives VX back. */
  lemma AddThenSubtract(s: State, x: nibble, y: nibble)
    requires WellFormed(s) && x != VF && y != VF && x != y
    ensures StepSubRegs(StepAddRegs(s, x, y), x, y).V[x] == s.V[x]
  {
    AddRegsCarry(s, x, y);
    SubRegsBorrow(StepAddRegs(s, x, y), x, y);
  }

  /** 8XY6 with X not F: the bit shifted out lands in VF, so nothing is lost. */
  lemma ShiftRightSplits(s: State, x: nibble)
    requires WellFormed(s) && x != VF
    ensures var t := StepShiftRight(s, x);
            s.V[x] as int == 2 * t.V[x] as int + t.V[VF] as int && t.V[VF] <= 1
  {
    AndOne(s.V[x]);
  }

  /** 8XYE with X not F: VX doubled is the new VX plus 256 times the bit shifted out. */
  lemma ShiftLeftSplits(s: State, x: nibble)
    requires WellFormed(s) && x != VF
    ensures var t := StepShiftLeft(s, x);
            2 * s.V[x] as int == t.V[x] as int + 0x100 * t.V[VF] as int && t.V[VF] <= 1
  {
  }

  /** With VF as the destination the result overwrites the flag, because the flag is
      written first and the result second: 8FY4 leaves the low byte of carry + VY, 8FY5 of
      no-borrow - VY and 8FY7 of VY - no-borrow. */
  lemma FlagAsDestination(s: State, y: nibble)
    requires WellFormed(s) && y != VF
    ensures StepAddRegs(s, VF, y).V[VF] == ((if s.V[VF] as int + s.V[y] as int > 0xFF then 1 else 0) + s.V[y] as int) % 0x100
    ensures StepSubRegs(s, VF, y).V[VF] == ((if s.V[y] > s.V[VF] then 0 else 1) - s.V[y] as int) % 0x100
    ensures StepSubReversed(s, VF, y).V[VF] == (s.V[y] as int - (if s.V[VF] > s.V[y] then 0 else 1)) % 0x100
  {
  }

  /** With VF as the source operand, 8XY4, 8XY5 and 8XY7 read the flag they have just
      written: 8XF4 adds the carry to VX, not the old VF. */
  lemma FlagAsOperand(s: State, x: nibble)
    requires WellFormed(s) && x != VF
    ensures StepAddRegs(s, x, VF).V[x] == (s.V[x] as int + (if s.V[VF] as int + s.V[x] as int > 0xFF then 1 else 0)) % 0x100
    ensures StepSubRegs(s, x, VF).V[x] == (s.V[x] as int - (if s.V[VF] > s.V[x] then 0 else 1)) % 0x100
    ensures StepSubReversed(s, x, VF).V[x] == ((if s.V[x] > s.V[VF] then 0 else 1) - s.V[x] as int) % 0x100
  {
  }

  /** The shifts with X = F: 8FY6 always leaves VF zero and 8FYE twice the old top bit. */
  lemma ShiftFlagAsDestination(s: State)
    requires WellFormed(s)
    ensures StepShiftRight(s, VF).V[VF] == 0
    ensures StepShiftLeft(s, VF).V[VF] == 2 * (s.V[VF] / 0x80)
  {
    AndOne(s.V[VF]);
  }

  /** FX1E with X not F: I wraps at 16 bits and VF reports a sum past 0xFFF. */
  lemma AddIndexFlag(s: State, x: nibble)
    requires WellFormed(s) && x != VF
    ensures var t := StepAddIndex(s, x);
            t.I == (s.I as int + s.V[x] as int) % 0x1_0000 && (t.V[VF] == 1 <==> s.I as int + s.V[x] as int > 0xFFF) && t.V[VF] <= 1 &&
            (forall r :: 0 <= r < RegisterCount && r != VF ==> t.V[r] == s.V[r])
  {
  }

  /** FX1E with X = F: the flag is written first, so `I` grows by the new flag, not by the
      old VF. */
  lemma AddIndexFlagAsOperand(s: State)
    requires WellFormed(s)
    ensures var flag := if s.I as int + s.V[VF] as int > 0xFFF then 1 else 0;
            var t := StepAddIndex(s, VF);
            t.V[VF] as int == flag && t.I as int == (s.I as int + flag) % 0x1_0000 &&
            (forall r :: 0 <= r < RegisterCount && r != VF ==> t.V[r] == s.V[r])
  {
  }

  /** 8FF4, 8FF5 and 8FF7, with VF as both registers: 8FF4 leaves twice the carry of
      VF + VF, and 8FF5 and 8FF7 always leave 0, because no borrow is ever seen and the
      result is 1 - 1. */
  lemma FlagAsBothOperands(s: State)
    requires WellFormed(s)
    ensures StepAddRegs(s, VF, VF).V[VF] == 2 * (if 2 * s.V[VF] as int > 0xFF then 1 else 0)
    ensures StepSubRegs(s, VF, VF).V[VF] == 0
    ensures StepSubReversed(s, VF, VF).V[VF] == 0
  {
  }

  /** FX33: three decimal digits that spell VX, and no other cell touched. */
  lemma StoreBcdDigits(s: State, x: nibble)
    requires WellFormed(s) && s.I as int + 2 < MemorySize
    ensures StepStoreBcd(s, x).Done?
    ensures var m := StepStoreBcd(s, x).after.memory;
            m[s.I] <= 9 && m[s.I + 1] <= 9 && m[s.I + 2] <= 9 &&
            100 * m[s.I] as int + 10 * m[s.I + 1] as int + m[s.I + 2] as int == s.V[x] as int &&
            forall a :: 0 <= a < MemorySize && !(s.I <= a <= s.I as int + 2) ==> m[a] == s.memory[a]
  {
    DecimalDigits(s.V[x]);
  }

  lemma DecimalDigits(v: byte)
    ensures v / 100 <= 9 && (v / 10) % 10 <= 9 && (v % 100) % 10 <= 9
    ensures 100 * (v / 100) + 10 * ((v / 10) % 10) + (v % 100) % 10 == v
  {
    var h, r := v / 100, v % 100;
    var t, u := r / 10, r % 10;
    Div10(v, 10 * h + t, u);
    Div10(10 * h + t, h, t);
  }

  lemma Div10(v: int, q: int, r: int)
    requires v == q * 10 + r && 0 <= r < 10
    ensures v / 10 == q && v % 10 == r
  {
  }

  /** FX55 then FX65 with the same X and I: the registers come back unchanged, V0..VX sit
      at I..I + X, memory elsewhere is untouched, and I itself is not advanced. */
  lemma StoreThenLoad(s: State, x: nibble)
    requires WellFormed(s) && s.I as int + x < MemorySize
    ensures StepStoreRegs(s, x).Done? && StepLoadRegs(StepStoreRegs(s, x).after, x).Done?
    ensures var u := StepLoadRegs(StepStoreRegs(s, x).after, x).after;
            u.V == s.V && u.I == s.I &&
            (forall o :: 0 <= o <= x ==> u.memory[s.I as int + o] == s.V[o]) &&
            (forall a :: 0 <= a < MemorySize && !(s.I <= a <= s.I as int + x) ==> u.memory[a] == s.memory[a])
  {
    var t := StepStoreRegs(s, x).after;
    var u := StepLoadRegs(t, x).after;
    forall o | 0 <= o < RegisterCount
      ensures u.V[o] == s.V[o]
    {
      if o <= x {
        assert t.memory[s.I as int + o] == s.V[o];
      }
    }
  }

  /** FX65 then FX55 with the same X and I writes back what was read: memory is unchanged. */
  lemma LoadThenStore(s: State, x: nibble)
    requires WellFormed(s) && s.I as int + x < MemorySize
    ensures StepLoadRegs(s, x).Done? && StepStoreRegs(StepLoadRegs(s, x).after, x).Done?
    ensures StepStoreRegs(StepLoadRegs(s, x).after, x).after.memory == s.memory
  {
    var t := StepLoadRegs(s, x).after;
    var u := StepStoreRegs(t, x).after;
    forall a | 0 <= a < MemorySize
      ensures u.memory[a] == s.memory[a]
    {
      if s.I <= a <= s.I as int + x {
        assert u.memory[a] == t.V[a - s.I];
      }
    }
  }

  /** CXNN: the result has no bit outside NN, and 255 never comes out, because
      `rand() % 0xFF` is at most 254. */
  lemma RandomMasked(s: State, x: nibble, nn: byte, rnd: nat)
    requires WellFormed(s)
    ensures Execute(s, Random(x, nn), rnd).Done?
    ensures var t := Execute(s, Random(x, nn), rnd).after;
            var v := t.V[x];
            And8(v, nn) == v && v <= nn && v <= 0xFE && t.pc == Wrap16(s.pc as int + 2)
  {
    var r: byte := rnd % 0xFF;
    AndBitsMasked(r, nn, 8);
    AndBitsAtMost(r, nn, 8);
    AndBitsCommutes(r, nn, 8);
    AndBitsAtMost(nn, r, 8);
  }

  /** FX29 once the font is in place: I points at the five bytes of glyph VX. */
  lemma FontCharPointsAtGlyph(s: State, x: nibble, rnd: nat)
    requires WellFormed(s) && s.memory[..|FontSet|] == FontSet && s.V[x] < 0x10
    ensures Execute(s, FontChar(x), rnd).Done?
    ensures var t := Execute(s, FontChar(x), rnd).after;
            t.I == 5 * s.V[x] as int && t.I as int + 5 <= |FontSet| &&
            t.memory[t.I .. t.I as int + 5] == FontSet[5 * s.V[x] as int .. 5 * s.V[x] as int + 5]
  {
    var t := Execute(s, FontChar(x), rnd).after;
    assert t.memory == s.memory && t.I == 5 * s.V[x] as int;
    assert s.memory[t.I .. t.I as int + 5] == s.memory[..|FontSet|][t.I .. t.I as int + 5];
  }

  // ---------------------------------------------------------------- DXYN

  /** Drawing XORs exactly the covered cells. */
  lemma DrawnCell(g: seq<byte>, mem: seq<byte>, base: nat, x0: nat, y0: nat, n: nat, i: nat)
    requires (n == 0 || base + n <= |mem|) && i < |g|
    ensures SpriteDrawn(g, mem, base, x0, y0, n)[i] ==
            if Covers(mem, base, x0, y0, n, i) then Xor8(g[i], 1) else g[i]
  {
  }

  /** VF = 1 after DXYN exactly when some lit pixel was turned off. */
  lemma CollisionIsPixelCleared(g: seq<byte>, mem: seq<byte>, base: nat, x0: nat, y0: nat, n: nat)
    requires n == 0 || base + n <= |mem|
    ensures Collides(g, mem, base, x0, y0, n) <==>
            exists i :: 0 <= i < |g| && g[i] == 1 && SpriteDrawn(g, mem, base, x0, y0, n)[i] == 0
  {
    var d := SpriteDrawn(g, mem, base, x0, y0, n);
    XorOne(1);
    if Collides(g, mem, base, x0, y0, n) {
      var i :| 0 <= i < |g| && Covers(mem, base, x0, y0, n, i) && g[i] == 1;
      DrawnCell(g, mem, base, x0, y0, n, i);
    }
    if exists i :: 0 <= i < |g| && g[i] == 1 && d[i] == 0 {
      var i :| 0 <= i < |g| && g[i] == 1 && d[i] == 0;
      DrawnCell(g, mem, base, x0, y0, n, i);
      assert Covers(mem, base, x0, y0, n, i);
    }
  }

  /** Drawing the same sprite twice restores the screen (how games erase a sprite). */
  lemma DrawTwiceRestores(g: seq<byte>, mem: seq<byte>, base: nat, x0: nat, y0: nat, n: nat)
    requires n == 0 || base + n <= |mem|
    ensures SpriteDrawn(SpriteDrawn(g, mem, base, x0, y0, n), mem, base, x0, y0, n) == g
  {
    var d := SpriteDrawn(g, mem, base, x0, y0, n);
    var dd := SpriteDrawn(d, mem, base, x0, y0, n);
    forall i | 0 <= i < |g|
      ensures dd[i] == g[i]
    {
      DrawnCell(g, mem, base, x0, y0, n, i);
      DrawnCell(d, mem, base, x0, y0, n, i);
      XorOneTwice(g[i]);
    }
  }

  /** A screen of 0/1 pixels stays a screen of 0/1 pixels. */
  lemma DrawKeepsBinary(g: seq<byte>, mem: seq<byte>, base: nat, x0: nat, y0: nat, n: nat)
    requires n == 0 || base + n <= |mem|
    requires forall i :: 0 <= i < |g| ==> g[i] <= 1
    ensures forall i :: 0 <= i < |g| ==> SpriteDrawn(g, mem, base, x0, y0, n)[i] <= 1
  {
    forall i | 0 <= i < |g|
      ensures SpriteDrawn(g, mem, base, x0, y0, n)[i] <= 1
    {
      DrawnCell(g, mem, base, x0, y0, n, i);
      XorOne(g[i]);
    }
  }

  /** Drawing a sprite over itself collides exactly when it covers a cell that was dark
      before the first draw; on a blank screen, exactly when it covers any cell. */
  lemma RedrawCollides(g: seq<byte>, mem: seq<byte>, base: nat, x0: nat, y0: nat, n: nat)
    requires n == 0 || base + n <= |mem|
    requires forall i :: 0 <= i < |g| ==> g[i] <= 1
    ensures Collides(SpriteDrawn(g, mem, base, x0, y0, n), mem, base, x0, y0, n) <==>
            exists i :: 0 <= i < |g| && Covers(mem, base, x0, y0, n, i) && g[i] == 0
  {
    var d := SpriteDrawn(g, mem, base, x0, y0, n);
    if Collides(d, mem, base, x0, y0, n) {
      var i :| 0 <= i < |d| && Covers(mem, base, x0, y0, n, i) && d[i] == 1;
      DrawnCell(g, mem, base, x0, y0, n, i);
      XorOneIsOne(g[i]);
    }
    if exists i :: 0 <= i < |g| && Covers(mem, base, x0, y0, n, i) && g[i] == 0 {
      var i :| 0 <= i < |g| && Covers(mem, base, x0, y0, n, i) && g[i] == 0;
      DrawnCell(g, mem, base, x0, y0, n, i);
      XorOneIsOne(g[i]);
      assert d[i] == 1;
    }
  }

  /** DXYN twice with the same registers (neither VX nor VY the flag): the screen is as
      before, and the second VF says whether the sprite covered a dark cell. */
  lemma DrawTwice(s: State, x: nibble, y: nibble, n: nibble)
    requires WellFormed(s) && x != VF && y != VF && StepDraw(s, x, y, n).Done?
    requires forall i :: 0 <= i < GfxSize ==> s.gfx[i] <= 1
    ensures var t := StepDraw(s, x, y, n).after;
            StepDraw(t, x, y, n).Done? &&
            var u := StepDraw(t, x, y, n).after;
            u.gfx == s.gfx &&
            (u.V[VF] == 1 <==> exists i :: 0 <= i < GfxSize && Covers(s.memory, s.I, s.V[x], s.V[y], n, i) && s.gfx[i] == 0)
  {
    var t := StepDraw(s, x, y, n).after;
    assert t.V[x] == s.V[x] && t.V[y] == s.V[y] && t.memory == s.memory && t.I == s.I;
    DrawTwiceRestores(s.gfx, s.memory, s.I, s.V[x], s.V[y], n);
    RedrawCollides(s.gfx, s.memory, s.I, s.V[x], s.V[y], n);
  }

  /** DXYN with N = 0 reads no sprite byte: the screen and memory stay as they are, VF is
      cleared and drawFlag is raised, whatever I, VX and VY are. */
  lemma DrawNothing(s: State, x: nibble, y: nibble)
    requires WellFormed(s)
    ensures StepDraw(s, x, y, 0).Done?
    ensures var t := StepDraw(s, x, y, 0).after;
            t.gfx == s.gfx && t.memory == s.memory && t.V[VF] == 0 && t.drawFlag &&
            t.pc == Wrap16(s.pc as int + 2)
  {
    var t := StepDraw(s, x, y, 0).after;
    forall i | 0 <= i < GfxSize
      ensures t.gfx[i] == s.gfx[i]
    {
      DrawnCell(s.gfx, s.memory, s.I, s.V[x], s.V[y], 0, i);
    }
    CollisionIsPixelCleared(s.gfx, s.memory, s.I, s.V[x], s.V[y], 0);
  }

  /** 8XY1, 8XY2 and 8XY3 are symmetric: 8YX1 stores in VY the value 8XY1 stores in VX,
      and likewise for AND and XOR. */
  lemma LogicCommutes(s: State, x: nibble, y: nibble)
    requires WellFormed(s)
    ensures ExecuteLogic(s, Or(x, y)).after.V[x] == ExecuteLogic(s, Or(y, x)).after.V[y]
    ensures ExecuteLogic(s, And(x, y)).after.V[x] == ExecuteLogic(s, And(y, x)).after.V[y]
    ensures ExecuteLogic(s, Xor(x, y)).after.V[x] == ExecuteLogic(s, Xor(y, x)).after.V[y]
  {
    OrBitsCommutes(s.V[x], s.V[y], 8);
    AndBitsCommutes(s.V[x], s.V[y], 8);
    XorBitsCommutes(s.V[x], s.V[y], 8);
  }

  // ---------------------------------------------------------------- whole instructions

  /** Every pixel is 0 or 1. */
  predicate Binary(g: seq<byte>) {
    forall i :: 0 <= i < |g| ==> g[i] <= 1
  }

  /** The conditional skips 3XNN, 4XNN, 5XY0, 9XY0, EX9E and EXA1. */
  predicate IsSkip(ins: Instr) {
    SkipsGroup(ins) || ins.SkipIfKey? || ins.SkipIfNotKey?
  }

  /** What holds of every instruction: it keeps the array sizes, never writes the keypad,
      never reports a fetch fault, blocks only as FX0A with no key down, keeps pixels 0 or
      1, and, unless it is a jump, a call or a return, moves pc to the next instruction or
      (a skip) the one after. An unknown opcode changes nothing. */
  predicate Sound(s: State, ins: Instr, e: Effect)
    requires WellFormed(s)
  {
    (e.Done? ==> WellFormed(e.after) && e.after.key == s.key && (Binary(s.gfx) ==> Binary(e.after.gfx))) &&
    (e.Failed? ==> e.fault != InvalidFetch) &&
    (e.Blocked? <==> ins.AwaitKey? && LastPressed(s.key, KeyCount) < 0) &&
    (e.Done? && !ins.Unknown? && !JumpsGroup(ins) && !ins.Return? ==>
       e.after.pc == Wrap16(s.pc as int + 2) || (IsSkip(ins) && e.after.pc == Wrap16(s.pc as int + 4))) &&
    (ins.Unknown? ==> e == Done(s))
  }

  lemma ExecuteSound(s: State, ins: Instr, rnd: nat)
    requires WellFormed(s)
    ensures Sound(s, ins, Execute(s, ins, rnd))
  {
    if SystemGroup(ins) {
      SystemSound(s, ins);
    } else if JumpsGroup(ins) {
      JumpsSound(s, ins);
    } else if SkipsGroup(ins) {
      SkipsSound(s, ins);
    } else if LoadsGroup(ins) {
      LoadsSound(s, ins, rnd);
    } else if LogicGroup(ins) {
      LogicSound(s, ins);
    } else if ArithmeticGroup(ins) {
      ArithmeticSound(s, ins);
    } else if ScreenAndKeysGroup(ins) {
      ScreenAndKeysSound(s, ins);
    } else if TimersGroup(ins) {
      TimersSound(s, ins);
    } else if IndexGroup(ins) {
      IndexSound(s, ins);
    }
  }

  lemma SystemSound(s: State, ins: Instr)
    requires WellFormed(s) && SystemGroup(ins)
    ensures Sound(s, ins, ExecuteSystem(s, ins))
  {
  }

  lemma JumpsSound(s: State, ins: Instr)
    requires WellFormed(s) && JumpsGroup(ins)
    ensures Sound(s, ins, ExecuteJumps(s, ins))
  {
  }

  lemma SkipsSound(s: State, ins: Instr)
    requires WellFormed(s) && SkipsGroup(ins)
    ensures Sound(s, ins, ExecuteSkips(s, ins))
  {
  }

  lemma LoadsSound(s: State, ins: Instr, rnd: nat)
    requires WellFormed(s) && LoadsGroup(ins)
    ensures Sound(s, ins, ExecuteLoads(s, ins, rnd))
  {
  }

  lemma LogicSound(s: State, ins: Instr)
    requires WellFormed(s) && LogicGroup(ins)
    ensures Sound(s, ins, ExecuteLogic(s, ins))
  {
  }

  lemma ArithmeticSound(s: State, ins: Instr)
    requires WellFormed(s) && ArithmeticGroup(ins)
    ensures Sound(s, ins, ExecuteArithmetic(s, ins))
  {
  }

  lemma ScreenAndKeysSound(s: State, ins: Instr)
    requires WellFormed(s) && ScreenAndKeysGroup(ins)
    ensures Sound(s, ins, ExecuteScreenAndKeys(s, ins))
  {
    if ins.Draw? && (ins.n == 0 || s.I as int + ins.n <= MemorySize) && Binary(s.gfx) {
      DrawKeepsBinary(s.gfx, s.memory, s.I, s.V[ins.x], s.V[ins.y], ins.n);
    }
  }

  lemma TimersSound(s: State, ins: Instr)
    requires WellFormed(s) && TimersGroup(ins)
    ensures Sound(s, ins, ExecuteTimers(s, ins))
  {
  }

  lemma IndexSound(s: State, ins: Instr)
    requires WellFormed(s) && IndexGroup(ins)
    ensures Sound(s, ins, ExecuteIndex(s, ins))
  {
  }

  // ---------------------------------------------------------------- whole cycles

  /** A cycle traps on the fetch exactly when pc + 1 is past the end of memory; a cycle that
      completes keeps the array sizes, the keypad and a 0/1 screen. */
  lemma CycleSound(s: State, rnd: nat)
    requires WellFormed(s)
    ensures Cycle(s, rnd) == Trapped(InvalidFetch) <==> s.pc as int + 1 >= MemorySize
    ensures Cycle(s, rnd).Stepped? ==>
              var t := Cycle(s, rnd).next;
              WellFormed(t) && t.key == s.key && (Binary(s.gfx) ==> Binary(t.gfx))
  {
    if s.pc as int + 1 < MemorySize {
      ExecuteSound(s, Decode(Fetch(s.memory, s.pc)), rnd);
    }
  }

  /** FX0A with no key down returns before the timers: the cycle changes nothing, so the
      machine waits on the same instruction. With a key down it stores the highest pressed
      key, moves on and ticks. */
  lemma AwaitKeyCycle(s: State, rnd: nat)
    requires WellFormed(s) && s.pc as int + 1 < MemorySize && Decode(Fetch(s.memory, s.pc)).AwaitKey?
    ensures Cycle(s, rnd) == Stepped(s) <==> LastPressed(s.key, KeyCount) < 0
    ensures LastPressed(s.key, KeyCount) >= 0 ==>
              Cycle(s, rnd).Stepped? &&
              var t := Cycle(s, rnd).next;
              var k := t.V[Decode(Fetch(s.memory, s.pc)).x];
              k < KeyCount && s.key[k] != 0 && (forall j :: k < j < KeyCount ==> s.key[j] == 0) &&
              t.pc == Wrap16(s.pc as int + 2) && t.delayTimer == Tick(s).delayTimer && t.soundTimer == Tick(s).soundTimer
  {
    LastPressedIsHighest(s.key, KeyCount);
  }

  /** An opcode that no case matches only ticks the timers: pc stays, so the next cycle
      fetches the same opcode again. */
  lemma UnknownOpcodeRepeats(s: State, rnd: nat)
    requires WellFormed(s) && s.pc as int + 1 < MemorySize && Decode(Fetch(s.memory, s.pc)).Unknown?
    ensures Cycle(s, rnd) == Stepped(Tick(s))
    ensures Fetch(Tick(s).memory, Tick(s).pc) == Fetch(s.memory, s.pc)
  {
  }

  /** FX15 sets the delay timer and the same cycle already counts it down once. */
  lemma SetDelayCycle(s: State, rnd: nat)
    requires WellFormed(s) && s.pc as int + 1 < MemorySize && Decode(Fetch(s.memory, s.pc)).SetDelay?
    ensures Cycle(s, rnd).Stepped?
    ensures var v := s.V[Decode(Fetch(s.memory, s.pc)).x];
            Cycle(s, rnd).next.delayTimer == if v > 0 then v - 1 else 0
  {
  }

  /** 2NNN at pc and 00EE at NNN: two cycles later the machine is at the instruction after
      the call, with the stack depth, registers, memory and screen as before. */
  lemma CallThenReturn(s: State, nnn: address, r1: nat, r2: nat)
    requires WellFormed(s) && s.pc as int + 1 < MemorySize && Decode(Fetch(s.memory, s.pc)) == Call(nnn)
    requires s.sp < StackDepth && nnn + 1 < MemorySize && Decode(Fetch(s.memory, nnn)) == Return
    ensures Cycle(s, r1).Stepped?
    ensures var t := Cycle(s, r1).next;
            Cycle(t, r2).Stepped? &&
            var u := Cycle(t, r2).next;
            u.pc == Wrap16(s.pc as int + 2) && u.sp == s.sp && u.V == s.V && u.I == s.I &&
            u.memory == s.memory && u.gfx == s.gfx && u.stack[..s.sp] == s.stack[..s.sp]
  {
    var t := Cycle(s, r1).next;
    assert t.pc == nnn && t.sp == s.sp + 1 && t.stack[s.sp] == s.pc;
    assert t.stack[..s.sp] == s.stack[..s.sp];
  }

  /** 00E0 in a cycle: every pixel is dark, drawFlag is raised, pc moves on and the
      timers tick. */
  lemma ClearScreenCycle(s: State, rnd: nat)
    requires WellFormed(s) && s.pc as int + 1 < MemorySize && Decode(Fetch(s.memory, s.pc)).ClearScreen?
    ensures Cycle(s, rnd).Stepped?
    ensures var t := Cycle(s, rnd).next;
            (forall i :: 0 <= i < GfxSize ==> t.gfx[i] == 0) && t.drawFlag &&
            t.pc == Wrap16(s.pc as int + 2) && t.delayTimer == Tick(s).delayTimer && t.soundTimer == Tick(s).soundTimer
  {
  }

  /** 1NNN with NNN its own address makes no progress: each cycle only ticks the timers. */
  lemma JumpToSelfSpins(s: State, rnd: nat)
    requires WellFormed(s) && s.pc as int + 1 < MemorySize && Decode(Fetch(s.memory, s.pc)) == Jump(s.pc)
    ensures Cycle(s, rnd) == Stepped(Tick(s))
  {
  }

  /** BNNN in a cycle: pc becomes NNN + V0 without any reduction, and when that is past the
      last fetchable address the next cycle traps. */
  lemma JumpOffsetCycle(s: State, nnn: address, r1: nat, r2: nat)
    requires WellFormed(s) && s.pc as int + 1 < MemorySize && Decode(Fetch(s.memory, s.pc)) == JumpOffset(nnn)
    ensures Cycle(s, r1).Stepped?
    ensures var t := Cycle(s, r1).next;
            t.pc == nnn as int + s.V[0] as int &&
            (t.pc as int + 1 >= MemorySize ==> Cycle(t, r2) == Trapped(InvalidFetch))
  {
  }

  /** B FFF with V0 = 0xFF: pc becomes 0x10FE, outside the 12-bit address space. */
  lemma JumpOffsetPastMemory(s: State, rnd: nat)
    requires WellFormed(s) && s.V[0] == 0xFF
    ensures StepJumpOffset(s, 0xFFF).pc == 0x10FE
    ensures WellFormed(StepJumpOffset(s, 0xFFF)) && Cycle(StepJumpOffset(s, 0xFFF), rnd) == Trapped(InvalidFetch)
  {
  }

  /** EX9E and EXA1 test `key[VX] == 1` and `key[VX] == 0`: for a key value 0 or 1 exactly
      one of them skips, and for a value 2 or more neither does. */
  lemma SkipKeyValues(s: State, x: nibble, rnd: nat)
    requires WellFormed(s) && s.V[x] < KeyCount
    ensures Execute(s, SkipIfKey(x), rnd).Done? && Execute(s, SkipIfNotKey(x), rnd).Done?
    ensures var skip := Execute(s, SkipIfKey(x), rnd).after.pc == Wrap16(s.pc as int + 4);
            var skipNot := Execute(s, SkipIfNotKey(x), rnd).after.pc == Wrap16(s.pc as int + 4);
            (s.key[s.V[x]] <= 1 ==> skip != skipNot) && (s.key[s.V[x]] >= 2 ==> !skip && !skipNot)
  {
  }

  // ---------------------------------------------------------------- the register file

  /** The V registers an instruction may write: VX for the loads, the moves, the bitwise
      operators, CXNN, FX07 and FX0A; VX and VF for 8XY4 to 8XYE; VF for DXYN and FX1E;
      V0..VX for FX65. */
  function RegistersWritten(ins: Instr): set<nat> {
    match ins
    case SetImmediate(x, _) => {x}
    case AddImmediate(x, _) => {x}
    case Move(x, _) => {x}
    case Or(x, _) => {x}
    case And(x, _) => {x}
    case Xor(x, _) => {x}
    case AddRegs(x, _) => {x, VF}
    case SubRegs(x, _) => {x, VF}
    case ShiftRight(x, _) => {x, VF}
    case SubReversed(x, _) => {x, VF}
    case ShiftLeft(x, _) => {x, VF}
    case Random(x, _) => {x}
    case Draw(_, _, _) => {VF}
    case GetDelay(x) => {x}
    case AwaitKey(x) => {x}
    case AddIndex(_) => {VF}
    case LoadRegs(x) => UpTo(x)
    case _ => {}
  }

  /** The register indices 0..x of FX65. */
  function UpTo(x: nat): set<nat> {
    if x == 0 then {0} else UpTo(x - 1) + {x}
  }

  lemma {:induction false} UpToIsRange(x: nat)
    ensures forall r: nat :: r in UpTo(x) <==> r <= x
  {
    if x > 0 {
      UpToIsRange(x - 1);
    }
  }

  /** The instructions that set the carry, borrow, shift-out or collision flag. */
  predicate SetsFlag(ins: Instr) {
    ArithmeticGroup(ins) || ins.Draw? || ins.AddIndex?
  }

  /** `e` changes no register outside RegistersWritten(ins). */
  predicate KeepsOtherRegisters(s: State, ins: Instr, e: Effect)
    requires WellFormed(s)
  {
    e.Done? ==> |e.after.V| == RegisterCount &&
                forall r :: 0 <= r < RegisterCount && r !in RegistersWritten(ins) ==> e.after.V[r] == s.V[r]
  }

  /** Every register an instruction may write is below sixteen, and each flag-setting
      instruction may write VF. */
  lemma RegistersWrittenInRange(ins: Instr)
    ensures forall r :: r in RegistersWritten(ins) ==> r < RegisterCount
    ensures SetsFlag(ins) ==> VF in RegistersWritten(ins)
  {
    if ins.LoadRegs? {
      UpToIsRange(ins.x);
    }
  }

  /** No instruction changes a register outside RegistersWritten. */
  lemma RegistersWrittenSound(s: State, ins: Instr, rnd: nat)
    requires WellFormed(s)
    ensures KeepsOtherRegisters(s, ins, Execute(s, ins, rnd))
  {
    if SystemGroup(ins) {
      SystemKeeps(s, ins);
    } else if JumpsGroup(ins) {
      JumpsKeeps(s, ins);
    } else if SkipsGroup(ins) {
      SkipsKeeps(s, ins);
    } else if LoadsGroup(ins) {
      LoadsKeeps(s, ins, rnd);
    } else if LogicGroup(ins) {
      LogicKeeps(s, ins);
    } else if ArithmeticGroup(ins) {
      ArithmeticKeeps(s, ins);
    } else if ScreenAndKeysGroup(ins) {
      ScreenAndKeysKeeps(s, ins);
    } else if TimersGroup(ins) {
      TimersKeeps(s, ins);
    } else if IndexGroup(ins) {
      IndexKeeps(s, ins);
    }
  }

  lemma SystemKeeps(s: State, ins: Instr)
    requires WellFormed(s) && SystemGroup(ins)
    ensures KeepsOtherRegisters(s, ins, ExecuteSystem(s, ins))
  {
  }

  lemma JumpsKeeps(s: State, ins: Instr)
    requires WellFormed(s) && JumpsGroup(ins)
    ensures KeepsOtherRegisters(s, ins, ExecuteJumps(s, ins))
  {
  }

  lemma SkipsKeeps(s: State, ins: Instr)
    requires WellFormed(s) && SkipsGroup(ins)
    ensures KeepsOtherRegisters(s, ins, ExecuteSkips(s, ins))
  {
  }

  lemma LoadsKeeps(s: State, ins: Instr, rnd: nat)
    requires WellFormed(s) && LoadsGroup(ins)
    ensures KeepsOtherRegisters(s, ins, ExecuteLoads(s, ins, rnd))
  {
  }

  lemma LogicKeeps(s: State, ins: Instr)
    requires WellFormed(s) && LogicGroup(ins)
    ensures KeepsOtherRegisters(s, ins, ExecuteLogic(s, ins))
  {
  }

  lemma ArithmeticKeeps(s: State, ins: Instr)
    requires WellFormed(s) && ArithmeticGroup(ins)
    ensures KeepsOtherRegisters(s, ins, ExecuteArithmetic(s, ins))
  {
  }

  lemma ScreenAndKeysKeeps(s: State, ins: Instr)
    requires WellFormed(s) && ScreenAndKeysGroup(ins)
    ensures KeepsOtherRegisters(s, ins, ExecuteScreenAndKeys(s, ins))
  {
  }

  lemma TimersKeeps(s: State, ins: Instr)
    requires WellFormed(s) && TimersGroup(ins)
    ensures KeepsOtherRegisters(s, ins, ExecuteTimers(s, ins))
  {
  }

  lemma IndexKeeps(s: State, ins: Instr)
    requires WellFormed(s) && IndexGroup(ins)
    ensures KeepsOtherRegisters(s, ins, ExecuteIndex(s, ins))
  {
    if ins.LoadRegs? && StepLoadRegs(s, ins.x).Done? {
      UpToIsRange(ins.x);
      var t := StepLoadRegs(s, ins.x).after;
      forall r | 0 <= r < RegisterCount && r !in UpTo(ins.x)
        ensures t.V[r] == s.V[r]
      {
        assert r > ins.x;
      }
    }
  }

  /** `unsigned char V[0xF]` in chip8.h declares fifteen registers, V0..VE, although every
      flag-setting instruction writes `V[0xF]`. The rest of the model has sixteen. */
  const DeclaredRegisterCount: nat := 0xF

  /** The opcode 0x8014 (V0 += V1) with V0 = 0xFF and V1 = 1: the carry goes to index 15,
      which a fifteen-register file does not have, and that carry is 1. */
  lemma CarryPastDeclaredRegisters(s: State)
    requires WellFormed(s) && s.V[0] == 0xFF && s.V[1] == 1
    ensures Decode(0x8014) == AddRegs(0, 1) && SetsFlag(AddRegs(0, 1))
    ensures StepAddRegs(s, 0, 1).V[VF] == 1 && !(VF < DeclaredRegisterCount)
  {
    DecodeDigits(8, 0, 1, 4);
  }
}
