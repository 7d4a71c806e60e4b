/**
 * `CPU` as the source keeps it: a record whose arrays and registers the
 * handlers update in place. Every handler is proved against the handler
 * of the same name in module Isa, the loop step against `Isa.Exec`, and
 * `Run` against `Driver.Run`.
 */
module Interpreter {
  import opened Bytes
  import Opcode
  import Display
  import Isa
  import Driver

  /** How a step, or a run, ended: still going (or the window closed), an unknown opcode, or a panic. */
  datatype Status = Continue | Halt | Fault

  /** The loop of `store_bcd`: push `num % 10` and divide by 10 while num is positive. */
  method DecimalDigits(num: U8) returns (digits: seq<U8>)
    ensures digits == Isa.Digits(num)
  {
    var n: nat := num;
    digits := [];
    while n > 0
      invariant digits + Isa.Digits(n) == Isa.Digits(num)
    {
      var digit: U8 := n % 10;
      ghost var rest := Isa.Digits(n / 10);
      assert Isa.Digits(n) == [digit] + rest;
      AppendAssociates(digits, [digit], rest);
      n := n / 10;
      digits := digits + [digit];
    }
    assert Isa.Digits(n) == [];
  }

  lemma AppendAssociates<T>(a: seq<T>, b: seq<T>, c: seq<T>)
    ensures a + (b + c) == (a + b) + c
  {
  }

  class Cpu {
    const memory: array<U8>
    const registers: array<U8>
    var iRegister: U16
    var delayRegister: U8
    var soundRegister: U8
    var programCounter: U16
    var stackPointer: U8
    const stack: array<U16>
    var pcAdvance: bool

    /** The arrays have the sizes of `CPU`, and memory and the registers are two arrays. */
    ghost predicate Valid()
    {
      memory.Length == Isa.MEMORY_SIZE && registers.Length == 16 &&
      stack.Length == Isa.STACK_SIZE && memory != registers
    }

    /** The state as a value. */
    ghost function Model(): (s: Isa.State)
      requires Valid()
      reads this, memory, registers, stack
      ensures Isa.Wf(s)
    {
      Isa.State(memory[..], registers[..], iRegister, delayRegister, soundRegister,
                programCounter, stackPointer, stack[..], pcAdvance)
    }

    /** `CPU::new` */
    constructor ()
      ensures Valid() && Model() == Driver.PowerOn()
      ensures fresh(memory) && fresh(registers) && fresh(stack)
    {
      memory := new U8[Isa.MEMORY_SIZE](_ => 0);
      registers := new U8[16](_ => 0);
      iRegister, delayRegister, soundRegister := 0, 0, 0;
      programCounter := Isa.PROGRAM_START;
      stackPointer := 0;
      stack := new U16[Isa.STACK_SIZE](_ => 0);
      pcAdvance := true;
    }

    /** `load_sprites` */
    method LoadSprites()
      requires Valid()
      modifies memory
      ensures Model() == Driver.LoadSprites(old(Model()))
    {
      forall k | 0 <= k < |Driver.FONT| {
        memory[k] := Driver.FONT[k];
      }
    }

    /** `clear` (00E0) */
    method Clear(display: array<U32>)
      requires display.Length == Display.CELLS
      modifies display
      ensures display[..] == Display.Blank()
    {
      for k := 0 to display.Length
        invariant forall j :: 0 <= j < k ==> display[j] == 0
      {
        display[k] := 0;
      }
    }

    /** `ret` (00EE); false where indexing the stack panics. */
    method Ret() returns (ok: bool)
      requires Valid()
      modifies this
      ensures Valid()
      ensures ok <==> Isa.Ret(old(Model())).Done?
      ensures ok ==> Model() == Isa.Ret(old(Model())).state
    {
      if stackPointer as int >= stack.Length {
        return false;
      }
      programCounter := stack[stackPointer];
      pcAdvance := false;
      stackPointer := Wrap8(stackPointer as int - 1);
      ok := true;
    }

    /** `jmp` (1nnn) */
    method Jmp(nnn: Opcode.Addr)
      requires Valid() && programCounter as int + 1 < Isa.MEMORY_SIZE
      modifies this, memory
      ensures Valid() && Model() == Isa.Jmp(old(Model()), nnn)
    {
      pcAdvance := false;
      if programCounter == nnn {
        memory[programCounter] := 0;
        memory[programCounter + 1] := 0;
      }
      programCounter := nnn;
    }

    /** `call` (2nnn); false where indexing the stack panics. */
    method Call(nnn: Opcode.Addr) returns (ok: bool)
      requires Valid()
      modifies this, stack
      ensures Valid()
      ensures ok <==> Isa.Call(old(Model()), nnn).Done?
      ensures ok ==> Model() == Isa.Call(old(Model()), nnn).state
    {
      stackPointer := Wrap8(stackPointer as int + 1);
      if stackPointer as int >= stack.Length {
        return false;
      }
      stack[stackPointer] := Wrap16(programCounter as int + 2);
      programCounter := nnn;
      pcAdvance := false;
      ok := true;
    }

    /** `skip` (3xkk) */
    method Skip(x: Isa.Reg, kk: U8)
      requires Valid()
      modifies this
      ensures Valid() && Model() == Isa.Skip(old(Model()), x, kk)
    {
      if registers[x] == kk {
        programCounter := Wrap16(programCounter as int + 2);
      }
    }

    /** `skip_if_not` (4xkk) */
    method SkipIfNot(x: Isa.Reg, kk: U8)
      requires Valid()
      modifies this
      ensures Valid() && Model() == Isa.SkipIfNot(old(Model()), x, kk)
    {
      if registers[x] != kk {
        programCounter := Wrap16(programCounter as int + 2);
      }
    }

    /** `skip_r` (5xy0) */
    method SkipR(x: Isa.Reg, y: Isa.Reg)
      requires Valid()
      modifies this
      ensures Valid() && Model() == Isa.SkipR(old(Model()), x, y)
    {
      if registers[x] == registers[y] {
        programCounter := Wrap16(programCounter as int + 2);
      }
    }

    /** `set_i` (6xkk) */
    method SetI(x: Isa.Reg, kk: U8)
      requires Valid()
      modifies registers
      ensures Model() == Isa.SetI(old(Model()), x, kk)
    {
      registers[x] := kk;
    }

    /** `add_i` (7xkk) */
    method AddI(x: Isa.Reg, kk: U8)
      requires Valid()
      modifies registers
      ensures Model() == Isa.AddI(old(Model()), x, kk)
    {
      registers[x] := Wrap8(registers[x] as int + kk as int);
    }

    /** `store` (8xy0) */
    method Store(x: Isa.Reg, y: Isa.Reg)
      requires Valid()
      modifies registers
      ensures Model() == Isa.Store(old(Model()), x, y)
    {
      registers[x] := registers[y];
    }

    /** `or` (8xy1) */
    method Or(x: Isa.Reg, y: Isa.Reg)
      requires Valid()
      modifies registers
      ensures Model() == Isa.Or(old(Model()), x, y)
    {
      registers[x] := Or8(registers[x], registers[y]);
    }

    /** `and` (8xy2) */
    method And(x: Isa.Reg, y: Isa.Reg)
      requires Valid()
      modifies registers
      ensures Model() == Isa.And(old(Model()), x, y)
    {
      registers[x] := And8(registers[x], registers[y]);
    }

    /** `xor` (8xy3) */
    method Xor(x: Isa.Reg, y: Isa.Reg)
      requires Valid()
      modifies registers
      ensures Model() == Isa.Xor(old(Model()), x, y)
    {
      registers[x] := Xor8(registers[x], registers[y]);
    }

    /** `add` (8xy4) */
    method Add(x: Isa.Reg, y: Isa.Reg)
      requires Valid()
      modifies registers
      ensures Model() == Isa.Add(old(Model()), x, y)
    {
      var sum := registers[x] as int + registers[y] as int;
      registers[x] := Wrap8(sum);
      registers[Isa.FLAG] := if sum > 0xFF then 1 else 0;
    }

    /** `sub` (8xy5) */
    method Sub(x: Isa.Reg, y: Isa.Reg)
      requires Valid()
      modifies registers
      ensures Model() == Isa.Sub(old(Model()), x, y)
    {
      registers[Isa.FLAG] := if registers[x] > registers[y] then 1 else 0;
      registers[x] := Wrap8(registers[x] as int - registers[y] as int);
    }

    /** `shr` (8xy6) */
    method Shr(x: Isa.Reg)
      requires Valid()
      modifies registers
      ensures Model() == Isa.Shr(old(Model()), x)
    {
      var lsb := And8(registers[x], 1) == 1;
      registers[Isa.FLAG] := if lsb then 1 else 0;
      registers[x] := registers[x] / 2;
    }

    /** `subn` (8xy7) */
    method Subn(x: Isa.Reg, y: Isa.Reg)
      requires Valid()
      modifies registers
      ensures Model() == Isa.Subn(old(Model()), x, y)
    {
      registers[Isa.FLAG] := if registers[y] > registers[x] then 1 else 0;
      registers[x] := Wrap8(registers[y] as int - registers[x] as int);
    }

    /** `shl` (8xyE) */
    method Shl(x: Isa.Reg)
      requires Valid()
      modifies registers
      ensures Model() == Isa.Shl(old(Model()), x)
    {
      var msb := And8(registers[x] / 0x80, 1) == 1;
      registers[Isa.FLAG] := if msb then 1 else 0;
      registers[x] := Wrap8(registers[x] as int * 2);
    }

    /** `skip_r_not` (9xy0) */
    method SkipRNot(x: Isa.Reg, y: Isa.Reg)
      requires Valid()
      modifies this
      ensures Valid() && Model() == Isa.SkipRNot(old(Model()), x, y)
    {
      if registers[x] != registers[y] {
        programCounter := Wrap16(programCounter as int + 2);
      }
    }

    /** `load_i` (Annn) */
    method LoadI(nnn: Opcode.Addr)
      requires Valid()
      modifies this
      ensures Valid() && Model() == Isa.LoadI(old(Model()), nnn)
    {
      iRegister := nnn;
    }

    /** `jmp_pc` (Bnnn) */
    method JmpPc(nnn: Opcode.Addr)
      requires Valid()
      modifies this
      ensures Valid() && Model() == Isa.JmpPc(old(Model()), nnn)
    {
      programCounter := Wrap16(nnn as int + registers[0] as int);
      pcAdvance := false;
    }

    /** `rnd` (Cxkk), with the random byte passed in. */
    method Rnd(x: Isa.Reg, kk: U8, random: U8)
      requires Valid()
      modifies registers
      ensures Model() == Isa.Rnd(old(Model()), x, kk, random)
    {
      registers[x] := And8(random, kk);
    }

    /** `draw` (Dxyn); false where reading a sprite byte panics. */
    method Draw(x: Isa.Reg, y: Isa.Reg, n: Opcode.Nibble, display: array<U32>) returns (ok: bool)
      requires Valid() && display.Length == Display.CELLS
      modifies registers, display
      ensures var o := Isa.Draw(old(Model()), old(display[..]), x, y, n);
        (ok <==> o.Running?) && (ok ==> Model() == o.state && display[..] == o.screen)
    {
      if !Isa.InBounds(iRegister, n) {
        return false;
      }
      var vx := registers[x];
      var vy := registers[y];
      registers[Isa.FLAG] := 0;
      ghost var s := old(Model());
      ghost var sprite := Isa.Sprite(s, n);
      ghost var screen := display[..];
      ghost var regs := s.registers;
      Display.DrawnStart(screen, sprite, vx, vy);
      DrawRows(vx, vy, n, display, screen, sprite, regs);
      ghost var flagged := regs[Isa.FLAG := if Display.Collides(screen, sprite, vx, vy, n, 0) then 1 else 0];
      assert Model() == s.(registers := flagged);
      assert vx == s.registers[x] && vy == s.registers[y];
      ghost var o := Isa.Draw(s, screen, x, y, n);
      assert o.Running? && o.state == s.(registers := flagged);
      assert o.screen == display[..];
      ok := true;
    }

    /** The `for off` loop of `draw`: blit the n rows of the sprite read from memory at I. */
    method DrawRows(vx: U8, vy: U8, n: Opcode.Nibble, display: array<U32>,
                    ghost screen: seq<U32>, ghost sprite: seq<U8>, ghost regs: seq<U8>)
      requires Valid() && display.Length == Display.CELLS && |screen| == Display.CELLS && |regs| == 16
      requires |sprite| == n && Isa.InBounds(iRegister, n)
      requires forall off :: 0 <= off < n ==> sprite[off] == memory[iRegister + off]
      requires display[..] == screen && registers[..] == regs[Isa.FLAG := 0]
      requires !Display.Collides(screen, sprite, vx, vy, 0, 0) && Display.Drawn(screen, sprite, vx, vy, 0, 0) == screen
      modifies registers, display
      ensures display[..] == Display.Drawn(screen, sprite, vx, vy, n, 0)
      ensures registers[..] ==
        regs[Isa.FLAG := if Display.Collides(screen, sprite, vx, vy, n, 0) then 1 else 0]
    {
      for off := 0 to n
        invariant display[..] == Display.Drawn(screen, sprite, vx, vy, off, 0)
        invariant registers[..] ==
          regs[Isa.FLAG := if Display.Collides(screen, sprite, vx, vy, off, 0) then 1 else 0]
      {
        var row := memory[iRegister as int + off];
        DrawRow(vx, vy, off, row, display, screen, sprite, regs);
      }
    }

    /** One pass of the `for off` loop of `draw`: blit the 8 pixels of sprite row `off`. */
    method DrawRow(vx: U8, vy: U8, off: nat, row: U8, display: array<U32>,
                   ghost screen: seq<U32>, ghost sprite: seq<U8>, ghost regs: seq<U8>)
      requires Valid() && display.Length == Display.CELLS && |screen| == Display.CELLS
      requires |sprite| < Display.HEIGHT && off < |sprite| && sprite[off] == row && |regs| == 16
      requires display[..] == Display.Drawn(screen, sprite, vx, vy, off, 0)
      requires registers[..] ==
        regs[Isa.FLAG := if Display.Collides(screen, sprite, vx, vy, off, 0) then 1 else 0]
      modifies registers, display
      ensures display[..] == Display.Drawn(screen, sprite, vx, vy, off + 1, 0)
      ensures registers[..] ==
        regs[Isa.FLAG := if Display.Collides(screen, sprite, vx, vy, off + 1, 0) then 1 else 0]
    {
      var bits := RowBits(row);
      for i := 0 to 8
        invariant display[..] == Display.Drawn(screen, sprite, vx, vy, off, i)
        invariant registers[..] == regs[Isa.FLAG := if Display.Collides(screen, sprite, vx, vy, off, i) then 1 else 0]
        invariant forall j :: 0 <= j < 8 ==> bits[j] == if Display.SpriteBit(row, j) then 1 else 0
      {
        DrawPixel(vx, vy, off, i, bits[i], display, screen, sprite, regs);
      }
      Display.DrawnRowEnd(screen, sprite, vx, vy, off);
    }

    /** Pixel (off, i) of the blit: the buffer and VF move one step along `Drawn` and `Collides`. */
    method DrawPixel(vx: U8, vy: U8, off: nat, i: nat, bit: U8, display: array<U32>,
                     ghost screen: seq<U32>, ghost sprite: seq<U8>, ghost regs: seq<U8>)
      requires Valid() && display.Length == Display.CELLS && |screen| == Display.CELLS && |regs| == 16
      requires |sprite| < Display.HEIGHT && off < |sprite| && i < 8
      requires bit == if Display.SpriteBit(sprite[off], i) then 1 else 0
      requires display[..] == Display.Drawn(screen, sprite, vx, vy, off, i)
      requires registers[..] == regs[Isa.FLAG := if Display.Collides(screen, sprite, vx, vy, off, i) then 1 else 0]
      modifies registers, display
      ensures display[..] == Display.Drawn(screen, sprite, vx, vy, off, i + 1)
      ensures registers[..] == regs[Isa.FLAG := if Display.Collides(screen, sprite, vx, vy, off, i + 1) then 1 else 0]
    {
      Display.DrawnStep(screen, sprite, vx, vy, off, i);
      Display.CollidesStep(screen, sprite, vx, vy, off, i);
      Plot(vx, vy, off, i, bit, display);
    }

    /** The `bits` array of `draw`: the 8 pixels of a sprite row, most significant bit first. */
    static method RowBits(row: U8) returns (bits: array<U8>)
      ensures fresh(bits) && bits.Length == 8
      ensures forall j :: 0 <= j < 8 ==> bits[j] == if Display.SpriteBit(row, j) then 1 else 0
    {
      bits := new U8[8](_ => 0);
      for shift := 0 to 8
        invariant forall j :: 0 <= j < shift ==> bits[j] == if Display.SpriteBit(row, j) then 1 else 0
      {
        bits[shift] := if Display.SpriteBit(row, shift) then 1 else 0;
      }
    }

    /** One pass of the `for i` loop of `draw`: XOR pixel (off, i) into its cell and raise VF on a collision. */
    method Plot(vx: U8, vy: U8, off: nat, i: nat, bit: U8, display: array<U32>)
      requires Valid() && display.Length == Display.CELLS && i < 8 && bit < 2
      modifies registers, display
      ensures var k := Display.Cell(vx, vy, off, i);
        display[..] == old(display[..])[k := Display.Xored(old(display[k]), bit == 1)]
      ensures var k := Display.Cell(vx, vy, off, i);
        registers[..] == if bit == 1 && Display.PixelOn(old(display[k]))
          then old(registers[..])[Isa.FLAG := 1] else old(registers[..])
    {
      var wrapX := (vx as int + i) % 64;
      var wrapY := (vy as int + off) % 32;
      var k := wrapX + wrapY * 64;
      assert k == Display.Cell(vx, vy, off, i);
      var prevPix := display[k] % 0x100;
      var prevToBit: U8 := if prevPix > 0 then 1 else 0;
      XorOfBits(bit, prevToBit);
      var newPix := Xor8(bit, prevToBit);
      if newPix < prevToBit {
        registers[Isa.FLAG] := 1;
      }
      display[k] := if newPix >= 1 then Display.ON else 0;
    }

    /** `skip_if_key` (Ex9E); false where `convert_reg_to_keys` panics. */
    method SkipIfKey(x: Isa.Reg, keys: seq<bool>) returns (ok: bool)
      requires Valid() && |keys| == 16
      modifies this
      ensures Valid()
      ensures ok <==> Isa.SkipIfKey(old(Model()), x, keys).Done?
      ensures ok ==> Model() == Isa.SkipIfKey(old(Model()), x, keys).state
    {
      if registers[x] > 0xF {
        return false;
      }
      if keys[registers[x]] {
        programCounter := Wrap16(programCounter as int + 2);
      }
      ok := true;
    }

    /** `skip_if_not_key` (ExA1); false where `convert_reg_to_keys` panics. */
    method SkipIfNotKey(x: Isa.Reg, keys: seq<bool>) returns (ok: bool)
      requires Valid() && |keys| == 16
      modifies this
      ensures Valid()
      ensures ok <==> Isa.SkipIfNotKey(old(Model()), x, keys).Done?
      ensures ok ==> Model() == Isa.SkipIfNotKey(old(Model()), x, keys).state
    {
      if registers[x] > 0xF {
        return false;
      }
      if !keys[registers[x]] {
        programCounter := Wrap16(programCounter as int + 2);
      }
      ok := true;
    }

    /** `load_delay` (Fx07) */
    method LoadDelay(x: Isa.Reg)
      requires Valid()
      modifies registers
      ensures Model() == Isa.LoadDelay(old(Model()), x)
    {
      registers[x] := delayRegister;
    }

    /** `wait_for_key` (Fx0A) */
    method WaitForKey(x: Isa.Reg, keys: seq<bool>)
      requires Valid() && |keys| == 16
      modifies this, registers
      ensures Valid() && Model() == Isa.WaitForKey(old(Model()), x, keys)
    {
      pcAdvance := false;
      for i := 0 to 16
        invariant var k := Isa.LastHeld(keys, i);
          Model() == if k >= 0
            then old(Model()).(registers := old(registers[..])[x := k], pcAdvance := true)
            else old(Model()).(pcAdvance := false)
      {
        if keys[i] {
          registers[x] := i;
          pcAdvance := true;
        }
      }
    }

    /** `set_delay` (Fx15) */
    method SetDelay(x: Isa.Reg)
      requires Valid()
      modifies this
      ensures Valid() && Model() == Isa.SetDelay(old(Model()), x)
    {
      delayRegister := registers[x];
    }

    /** `set_sound` (Fx18) */
    method SetSound(x: Isa.Reg)
      requires Valid()
      modifies this
      ensures Valid() && Model() == Isa.SetSound(old(Model()), x)
    {
      soundRegister := registers[x];
    }

    /** `add_to_i` (Fx1E) */
    method AddToI(x: Isa.Reg)
      requires Valid()
      modifies this
      ensures Valid() && Model() == Isa.AddToI(old(Model()), x)
    {
      iRegister := Wrap16(iRegister as int + registers[x] as int);
    }

    /** `set_i_to_sprite` (Fx29) */
    method SetIToSprite(x: Isa.Reg)
      requires Valid()
      modifies this
      ensures Valid() && Model() == Isa.SetIToSprite(old(Model()), x)
    {
      iRegister := Wrap8(registers[x] as int * 5);
    }

    /** `store_bcd` (Fx33); false where one of the three writes panics. */
    method StoreBcd(x: Isa.Reg) returns (ok: bool)
      requires Valid()
      modifies memory
      ensures ok <==> Isa.StoreBcd(old(Model()), x).Done?
      ensures ok ==> Model() == Isa.StoreBcd(old(Model()), x).state
    {
      if !Isa.InBounds(iRegister, 3) {
        return false;
      }
      var digits := DecimalDigits(registers[x]);
      memory[iRegister] := Isa.DigitAt(digits, 2);
      memory[iRegister + 1] := Isa.DigitAt(digits, 1);
      memory[iRegister + 2] := Isa.DigitAt(digits, 0);
      ok := true;
    }

    /** `reg_to_mem` (Fx55); false where one of the writes panics. */
    method RegToMem(x: Isa.Reg) returns (ok: bool)
      requires Valid()
      modifies memory
      ensures ok <==> Isa.RegToMem(old(Model()), x).Done?
      ensures ok ==> Model() == Isa.RegToMem(old(Model()), x).state
    {
      if !Isa.InBounds(iRegister, x + 1) {
        return false;
      }
      ghost var s := Model();
      for reg := 0 to x + 1
        invariant forall a :: 0 <= a < Isa.MEMORY_SIZE ==>
          memory[a] == if iRegister <= a < iRegister as int + reg then registers[a - iRegister] else old(memory[a])
      {
        memory[iRegister as int + reg] := registers[reg];
      }
      ghost var r := Isa.RegToMem(s, x).state;
      assert memory[..] == r.memory by {
        forall a | 0 <= a < Isa.MEMORY_SIZE
          ensures memory[a] == r.memory[a]
        {
        }
      }
      ok := true;
    }

    /** `mem_to_reg` (Fx65); false where one of the reads panics. */
    method MemToReg(x: Isa.Reg) returns (ok: bool)
      requires Valid()
      modifies registers
      ensures ok <==> Isa.MemToReg(old(Model()), x).Done?
      ensures ok ==> Model() == Isa.MemToReg(old(Model()), x).state
    {
      if !Isa.InBounds(iRegister, x + 1) {
        return false;
      }
      for reg := 0 to x + 1
        invariant forall k :: 0 <= k < 16 ==>
          registers[k] == if k < reg then memory[iRegister as int + k] else old(registers[k])
      {
        registers[reg] := memory[iRegister as int + reg];
      }
      ok := true;
    }

    /**
     * One iteration of the loop of `CPU::run` after the timer ticks: set the
     * advance flag, fetch, decode and dispatch, advance by 2 if still set.
     */
    method Step(display: array<U32>, keys: seq<bool>, random: U8) returns (status: Status)
      requires Valid() && display.Length == Display.CELLS && |keys| == 16
      modifies this, memory, registers, stack, display
      ensures Valid()
      ensures var o := Isa.Exec(old(Model()), old(display[..]), keys, random);
        && (status == Continue <==> o.Running?) && (status == Halt <==> o.Halted?)
        && (!o.Panicked? ==> Model() == o.state && display[..] == o.screen)
    {
      pcAdvance := true;
      if programCounter as int + 1 >= Isa.MEMORY_SIZE {
        return Fault;
      }
      var ins := Opcode.Fetch(memory[programCounter], memory[programCounter + 1]);
      status := Dispatch(ins, display, keys, random);
      if status == Continue && pcAdvance {
        programCounter := Wrap16(programCounter as int + 2);
      }
    }

    /** The status of a step and the machine agree with the outcome o of its meaning. */
    ghost predicate Agrees(o: Isa.Outcome, status: Status, display: array<U32>)
      requires Valid()
      reads this, memory, registers, stack, display
    {
      && (status == Continue <==> o.Running?) && (status == Halt <==> o.Halted?)
      && (!o.Panicked? ==> Model() == o.state && display[..] == o.screen)
    }

    /** The `match (a, b, c, d)` of `CPU::run`: run the handler of a decoded instruction. */
    method Dispatch(ins: Opcode.Instr, display: array<U32>, keys: seq<bool>, random: U8) returns (status: Status)
      requires Valid() && display.Length == Display.CELLS && |keys| == 16
      requires programCounter as int + 1 < Isa.MEMORY_SIZE
      modifies this, memory, registers, stack, display
      ensures Valid()
      ensures Agrees(Isa.Dispatch(old(Model()), old(display[..]), ins, keys, random), status, display)
    {
      if Isa.FamilyOf(ins) == Isa.Low {
        status := DispatchLow(ins, display, keys, random);
      } else if Isa.FamilyOf(ins) == Isa.Arith {
        status := DispatchAlu(ins, display, keys, random);
      } else if Isa.FamilyOf(ins) == Isa.High {
        status := DispatchHigh(ins, display, keys, random);
      } else if Isa.FamilyOf(ins) == Isa.Misc {
        status := DispatchF(ins, display, keys, random);
      } else {
        status := Halt;
      }
    }

    /** The arms of the match for opcodes 0nnn to 7xkk. */
    method DispatchLow(ins: Opcode.Instr, display: array<U32>, keys: seq<bool>, random: U8) returns (status: Status)
      requires Valid() && display.Length == Display.CELLS && |keys| == 16
      requires programCounter as int + 1 < Isa.MEMORY_SIZE
      requires Isa.FamilyOf(ins) == Isa.Low
      modifies this, memory, registers, stack, display
      ensures Valid()
      ensures Agrees(Isa.DispatchLow(old(Model()), old(display[..]), ins, keys, random), status, display)
    {
      var ok := true;
      match ins {
        case Clear => Clear(display);
        case Ret => ok := Ret();
        case Jmp(nnn) => Jmp(nnn);
        case Call(nnn) => ok := Call(nnn);
        case Skip(x, kk) => Skip(x, kk);
        case SkipIfNot(x, kk) => SkipIfNot(x, kk);
        case SkipR(x, y) => SkipR(x, y);
        case SetI(x, kk) => SetI(x, kk);
        case AddI(x, kk) => AddI(x, kk);
      }
      status := if ok then Continue else Fault;
    }

    /** The arms of the match for opcodes 8xy0 to 8xyE. */
    method DispatchAlu(ins: Opcode.Instr, display: array<U32>, keys: seq<bool>, random: U8) returns (status: Status)
      requires Valid() && display.Length == Display.CELLS && |keys| == 16
      requires programCounter as int + 1 < Isa.MEMORY_SIZE
      requires Isa.FamilyOf(ins) == Isa.Arith
      modifies this, memory, registers, stack, display
      ensures Valid()
      ensures Agrees(Isa.DispatchAlu(old(Model()), old(display[..]), ins, keys, random), status, display)
    {
      var ok := true;
      match ins {
        case Store(x, y) => Store(x, y);
        case Or(x, y) => Or(x, y);
        case And(x, y) => And(x, y);
        case Xor(x, y) => Xor(x, y);
        case Add(x, y) => Add(x, y);
        case Sub(x, y) => Sub(x, y);
        case Shr(x, _) => Shr(x);
        case Subn(x, y) => Subn(x, y);
        case Shl(x, _) => Shl(x);
      }
      status := if ok then Continue else Fault;
    }

    /** The arms of the match for opcodes 9xy0 to ExA1. */
    method DispatchHigh(ins: Opcode.Instr, display: array<U32>, keys: seq<bool>, random: U8) returns (status: Status)
      requires Valid() && display.Length == Display.CELLS && |keys| == 16
      requires programCounter as int + 1 < Isa.MEMORY_SIZE
      requires Isa.FamilyOf(ins) == Isa.High
      modifies this, memory, registers, stack, display
      ensures Valid()
      ensures Agrees(Isa.DispatchHigh(old(Model()), old(display[..]), ins, keys, random), status, display)
    {
      var ok := true;
      match ins {
        case SkipRNot(x, y) => SkipRNot(x, y);
        case LoadI(nnn) => LoadI(nnn);
        case JmpPc(nnn) => JmpPc(nnn);
        case Rnd(x, kk) => Rnd(x, kk, random);
        case Draw(x, y, n) => ok := Draw(x, y, n, display);
        case SkipIfKey(x) => ok := SkipIfKey(x, keys);
        case SkipIfNotKey(x) => ok := SkipIfNotKey(x, keys);
      }
      status := if ok then Continue else Fault;
    }

    /** The arms of the match for opcodes Fx07 to Fx65. */
    method DispatchF(ins: Opcode.Instr, display: array<U32>, keys: seq<bool>, random: U8) returns (status: Status)
      requires Valid() && display.Length == Display.CELLS && |keys| == 16
      requires programCounter as int + 1 < Isa.MEMORY_SIZE
      requires Isa.FamilyOf(ins) == Isa.Misc
      modifies this, memory, registers, stack, display
      ensures Valid()
      ensures Agrees(Isa.DispatchF(old(Model()), old(display[..]), ins, keys, random), status, display)
    {
      var ok := true;
      match ins {
        case LoadDelay(x) => LoadDelay(x);
        case WaitForKey(x) => WaitForKey(x, keys);
        case SetDelay(x) => SetDelay(x);
        case SetSound(x) => SetSound(x);
        case AddToI(x) => AddToI(x);
        case SetIToSprite(x) => SetIToSprite(x);
        case StoreBcd(x) => ok := StoreBcd(x);
        case RegToMem(x) => ok := RegToMem(x);
        case MemToReg(x) => ok := MemToReg(x);
      }
      status := if ok then Continue else Fault;
    }

    /** The font, then the program copied to address 512; a program too long for memory panics. */
    method Load(instructions: seq<U8>) returns (ok: bool)
      requires Valid()
      modifies memory
      ensures Valid()
      ensures var e := Driver.LoadProgram(Driver.LoadSprites(old(Model())), instructions);
        && (ok <==> e.Done?) && (ok ==> Model() == e.state)
    {
      LoadSprites();
      if Isa.PROGRAM_START + |instructions| > Isa.MEMORY_SIZE {
        return false;
      }
      forall k | 0 <= k < |instructions| {
        memory[Isa.PROGRAM_START + k] := instructions[k];
      }
      ok := true;
    }

    /** The two timer ticks at the top of an iteration, with their loop counters. */
    method TickTimers(dc: nat, sc: nat) returns (dc': nat, sc': nat)
      requires Valid()
      modifies this
      ensures Valid()
      ensures (Model(), dc', sc') == Driver.TickBoth(old(Model()), dc, sc)
    {
      dc', sc' := dc, sc;
      if delayRegister > 0 {
        if dc == 8 {
          delayRegister := delayRegister - 1;
          dc' := 0;
        } else {
          dc' := dc + 1;
        }
      }
      if soundRegister > 0 {
        if sc == 8 {
          soundRegister := soundRegister - 1;
          sc' := 0;
        } else {
          sc' := sc + 1;
        }
      }
    }

    /** The status of a run and the machine agree with the end e of its meaning. */
    ghost predicate Ends(e: Driver.End, status: Status, display: array<U32>)
      requires Valid()
      reads this, memory, registers, stack, display
    {
      && (status == Continue <==> e.Closed?) && (status == Halt <==> e.Stopped?)
      && (!e.Crashed? ==> Model() == e.cpu && display[..] == e.screen)
    }

    /**
     * `CPU::run`: load the font and the program, then one iteration per
     * input: tick both timers with their counters, then step.
     */
    method Run(instructions: seq<U8>, display: array<U32>, inputs: seq<Driver.Input>) returns (status: Status)
      requires Valid() && display.Length == Display.CELLS
      modifies this, memory, registers, stack, display
      ensures Valid()
      ensures Ends(Driver.Run(old(Model()), old(display[..]), instructions, inputs), status, display)
    {
      var ok := Load(instructions);
      if !ok {
        return Fault;
      }
      ghost var goal := Driver.Loop(Model(), display[..], 0, 0, inputs);
      var dc: nat, sc: nat := 0, 0;
      var j := 0;
      while j < |inputs|
        invariant Valid() && j <= |inputs|
        invariant Driver.Loop(Model(), display[..], dc, sc, inputs[j..]) == goal
      {
        ghost var rest := inputs[j..];
        assert rest[0] == inputs[j] && rest[1..] == inputs[j + 1..];
        dc, sc := TickTimers(dc, sc);
        ghost var ticked, screen := Model(), display[..];
        status := Step(display, inputs[j].keys, inputs[j].random);
        ghost var o := Isa.Exec(ticked, screen, inputs[j].keys, inputs[j].random);
        if status != Continue {
          assert Ends(goal, status, display);
          return;
        }
        assert o.Running? && goal == Driver.Loop(o.state, o.screen, dc, sc, inputs[j + 1..]);
        j := j + 1;
      }
      status := Continue;
    }
  }

  /** `bits[i] ^ prev_to_bit` on two values that are 0 or 1. */
  lemma XorOfBits(a: U8, b: U8)
    requires a < 2 && b < 2
    ensures Xor8(a, b) == Combine(XorOp, a, b)
  {
    assert a / 2 == 0 && b / 2 == 0 && a % 2 == a && b % 2 == b;
    BitwiseOfZero(XorOp, 0, 7);
    assert Xor8(a, b) == 2 * Bitwise(XorOp, 0, 0, 7) + Combine(XorOp, a, b);
  }
}
