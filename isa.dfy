/**
 * The machine state of `CPU` as a value, and the meaning of one interpreter
 * step: reset the advance flag, fetch and decode at the program counter,
 * run the handler, then advance by 2 unless the handler cleared the flag.
 *
 * Integer policy: plain u8 and u16 `+`, `-` and `*` wrap, as in a release
 * build. An out-of-bounds index (memory, return stack, key number) is a
 * Rust panic, which ends the run: it is the `Panicked` outcome, and the
 * machine after it is not described.
 */
module Isa {
  import opened Bytes
  import Opcode
  import Display

  const MEMORY_SIZE := 4096
  const PROGRAM_START := 512
  const STACK_SIZE := 16
  /** Register VF, written by add, sub, subn, shr, shl and draw. */
  const FLAG := 0xF

  type Reg = Opcode.Nibble

  /** The fields of `CPU` that the interpreter updates (the audio streams are left out). */
  datatype State = State(
    memory: seq<U8>,
    registers: seq<U8>,
    iRegister: U16,
    delayRegister: U8,
    soundRegister: U8,
    programCounter: U16,
    stackPointer: U8,
    stack: seq<U16>,
    pcAdvance: bool)

  /** The fixed sizes of the arrays of `CPU`. */
  predicate Wf(s: State)
  {
    |s.memory| == MEMORY_SIZE && |s.registers| == 16 && |s.stack| == STACK_SIZE
  }

  /** A handler either completes or panics. */
  datatype Effect = Done(state: State) | Panic

  /** The result of one step: go on, stop at an unknown opcode, or panic. */
  datatype Outcome =
    | Running(state: State, screen: seq<U32>)
    | Halted(state: State, screen: seq<U32>)
    | Panicked

  /** Only the registers differ. */
  predicate RegistersOnly(s: State, r: State)
  {
    r == s.(registers := r.registers)
  }

  /** Only the program counter differs. */
  predicate PcOnly(s: State, r: State)
  {
    r == s.(programCounter := r.programCounter)
  }

  /** Every register but those in `written` keeps its value. */
  predicate KeepsOtherRegisters(s: State, r: State, written: set<int>)
    requires Wf(s) && Wf(r)
  {
    forall k :: 0 <= k < 16 && k !in written ==> r.registers[k] == s.registers[k]
  }

  /**
   * `count` bytes from address i, each at `(i + off) as usize` with a
   * wrapping u16 sum, can be indexed without a panic.
   */
  function InBounds(i: U16, count: nat): (ok: bool)
    ensures ok <==> forall a :: i <= a < i + count ==> Wrap16(a) < MEMORY_SIZE
  {
    assert count > 0 && i + count > MEMORY_SIZE ==>
      var a := if i >= MEMORY_SIZE then i else MEMORY_SIZE;
      i <= a < i + count && Wrap16(a) >= MEMORY_SIZE;
    count == 0 || i + count <= MEMORY_SIZE
  }

  // ---------------------------------------------------------------------
  // Handlers, in the order of src/cpu.rs
  // ---------------------------------------------------------------------

  /** `ret`: read the slot at the stack pointer, then decrement it. */
  function Ret(s: State): (r: Effect)
    requires Wf(s)
    ensures r.Done? <==> s.stackPointer < STACK_SIZE
    ensures r.Done? ==> Wf(r.state) && !r.state.pcAdvance
    ensures r.Done? ==> r.state.memory == s.memory && r.state.registers == s.registers && r.state.stack == s.stack
    ensures r.Done? ==> r.state.programCounter == s.stack[s.stackPointer]
    ensures r.Done? ==> (r.state.stackPointer as int + 1) % 0x100 == s.stackPointer as int
    ensures r.Done? ==> r.state == s.(programCounter := r.state.programCounter,
                                      stackPointer := r.state.stackPointer, pcAdvance := false)
  {
    if s.stackPointer >= STACK_SIZE then Panic
    else Done(s.(programCounter := s.stack[s.stackPointer],
                 pcAdvance := false,
                 stackPointer := Wrap8(s.stackPointer as int - 1)))
  }

  /** `jmp`: go to nnn; a jump to itself first zeroes its own two bytes. */
  function Jmp(s: State, nnn: Opcode.Addr): (r: State)
    requires Wf(s) && s.programCounter + 1 < MEMORY_SIZE
    ensures Wf(r) && r.programCounter == nnn && !r.pcAdvance
    ensures r.registers == s.registers && r.stack == s.stack && r.stackPointer == s.stackPointer
    ensures forall a :: 0 <= a < MEMORY_SIZE && a != s.programCounter && a != s.programCounter + 1 ==>
      r.memory[a] == s.memory[a]
    ensures r.memory == s.memory <==>
      (s.programCounter != nnn || (s.memory[nnn] == 0 && s.memory[nnn + 1] == 0))
    ensures r == s.(memory := r.memory, programCounter := nnn, pcAdvance := false)
  {
    var memory := if s.programCounter == nnn
      then s.memory[s.programCounter := 0][s.programCounter + 1 := 0]
      else s.memory;
    s.(pcAdvance := false, memory := memory, programCounter := nnn)
  }

  /** `call`: pre-increment the stack pointer, push pc + 2 there, go to nnn. */
  function Call(s: State, nnn: Opcode.Addr): (r: Effect)
    requires Wf(s)
    ensures r.Done? <==> Wrap8(s.stackPointer as int + 1) < STACK_SIZE
    ensures r.Done? ==> Wf(r.state) && r.state.programCounter == nnn && !r.state.pcAdvance
    ensures r.Done? ==> r.state.memory == s.memory && r.state.registers == s.registers
    ensures r.Done? ==> forall k :: 0 <= k < STACK_SIZE && k != r.state.stackPointer ==>
      r.state.stack[k] == s.stack[k]
    ensures r.Done? ==> r.state.stackPointer as int == (s.stackPointer as int + 1) % 0x100
    ensures r.Done? ==> r.state.stack[r.state.stackPointer] == (s.programCounter as int + 2) % 0x1_0000
    ensures r.Done? ==> r.state == s.(stackPointer := r.state.stackPointer, stack := r.state.stack,
                                      programCounter := nnn, pcAdvance := false)
  {
    var sp := Wrap8(s.stackPointer as int + 1);
    if sp >= STACK_SIZE then Panic
    else Done(s.(stackPointer := sp,
                 stack := s.stack[sp := Wrap16(s.programCounter as int + 2)],
                 programCounter := nnn,
                 pcAdvance := false))
  }

  /** `skip` (3xkk): skip the next instruction when Vx == kk. */
  function Skip(s: State, x: Reg, kk: U8): (r: State)
    requires Wf(s)
    ensures PcOnly(s, r)
    ensures r.programCounter != s.programCounter <==> s.registers[x] == kk
  {
    if s.registers[x] == kk then s.(programCounter := Wrap16(s.programCounter as int + 2)) else s
  }

  /** `skip_if_not` (4xkk): skip the next instruction when Vx != kk. */
  function SkipIfNot(s: State, x: Reg, kk: U8): (r: State)
    requires Wf(s)
    ensures PcOnly(s, r)
    ensures r.programCounter != s.programCounter <==> s.registers[x] != kk
  {
    if s.registers[x] != kk then s.(programCounter := Wrap16(s.programCounter as int + 2)) else s
  }

  /** `skip_r` (5xy0): skip the next instruction when Vx == Vy. */
  function SkipR(s: State, x: Reg, y: Reg): (r: State)
    requires Wf(s)
    ensures PcOnly(s, r)
    ensures r.programCounter != s.programCounter <==> s.registers[x] == s.registers[y]
  {
    if s.registers[x] == s.registers[y] then s.(programCounter := Wrap16(s.programCounter as int + 2)) else s
  }

  /** `set_i` (6xkk): Vx = kk. */
  function SetI(s: State, x: Reg, kk: U8): (r: State)
    requires Wf(s)
    ensures Wf(r) && RegistersOnly(s, r) && KeepsOtherRegisters(s, r, {x})
    ensures r.registers[x] == kk
  {
    s.(registers := s.registers[x := kk])
  }

  /** `add_i` (7xkk): Vx += kk, wrapping, and VF is not a carry flag here. */
  function AddI(s: State, x: Reg, kk: U8): (r: State)
    requires Wf(s)
    ensures Wf(r) && RegistersOnly(s, r) && KeepsOtherRegisters(s, r, {x})
    ensures (r.registers[x] - s.registers[x] - kk) % 0x100 == 0
  {
    s.(registers := s.registers[x := Wrap8(s.registers[x] as int + kk)])
  }

  /** `store` (8xy0): Vx = Vy. */
  function Store(s: State, x: Reg, y: Reg): (r: State)
    requires Wf(s)
    ensures Wf(r) && RegistersOnly(s, r) && KeepsOtherRegisters(s, r, {x})
    ensures r.registers[x] == s.registers[y] && r.registers[y] == s.registers[y]
  {
    s.(registers := s.registers[x := s.registers[y]])
  }

  /** `or` (8xy1): Vx |= Vy. */
  function Or(s: State, x: Reg, y: Reg): (r: State)
    requires Wf(s)
    ensures Wf(r) && RegistersOnly(s, r) && KeepsOtherRegisters(s, r, {x})
    ensures forall k :: 0 <= k < 8 ==>
      (Bit(r.registers[x], k) == 1 <==> Bit(s.registers[x], k) == 1 || Bit(s.registers[y], k) == 1)
  {
    s.(registers := s.registers[x := Or8(s.registers[x], s.registers[y])])
  }

  /** `and` (8xy2): Vx &= Vy. */
  function And(s: State, x: Reg, y: Reg): (r: State)
    requires Wf(s)
    ensures Wf(r) && RegistersOnly(s, r) && KeepsOtherRegisters(s, r, {x})
    ensures r.registers[x] <= s.registers[y]
    ensures forall k :: 0 <= k < 8 ==>
      (Bit(r.registers[x], k) == 1 <==> Bit(s.registers[x], k) == 1 && Bit(s.registers[y], k) == 1)
  {
    var v := And8(s.registers[x], s.registers[y]);
    And8Within(s.registers[x], s.registers[y]);
    s.(registers := s.registers[x := v])
  }

  /** `xor` (8xy3): Vx ^= Vy. */
  function Xor(s: State, x: Reg, y: Reg): (r: State)
    requires Wf(s)
    ensures Wf(r) && RegistersOnly(s, r) && KeepsOtherRegisters(s, r, {x})
    ensures forall k :: 0 <= k < 8 ==> (Bit(r.registers[x], k) == 1 <==> Bit(s.registers[x], k) != Bit(s.registers[y], k))
  {
    s.(registers := s.registers[x := Xor8(s.registers[x], s.registers[y])])
  }

  /** `add` (8xy4): `overflowing_add`; Vx is written first, VF last. */
  function Add(s: State, x: Reg, y: Reg): (r: State)
    requires Wf(s)
    ensures Wf(r) && RegistersOnly(s, r) && KeepsOtherRegisters(s, r, {x, FLAG})
  {
    var sum := s.registers[x] as int + s.registers[y];
    s.(registers := s.registers[x := Wrap8(sum)][FLAG := if sum > 0xFF then 1 else 0])
  }

  /** `sub` (8xy5): VF = (Vx > Vy) is written first, then Vx -= Vy reads the registers again. */
  function Sub(s: State, x: Reg, y: Reg): (r: State)
    requires Wf(s)
    ensures Wf(r) && RegistersOnly(s, r) && KeepsOtherRegisters(s, r, {x, FLAG})
  {
    var v := s.registers[FLAG := if s.registers[x] > s.registers[y] then 1 else 0];
    s.(registers := v[x := Wrap8(v[x] as int - v[y])])
  }

  /** `shr` (8xy6): VF = `Vx & 1`, then Vx >>= 1. */
  function Shr(s: State, x: Reg): (r: State)
    requires Wf(s)
    ensures Wf(r) && RegistersOnly(s, r) && KeepsOtherRegisters(s, r, {x, FLAG})
  {
    var v := s.registers[FLAG := if And8(s.registers[x], 1) == 1 then 1 else 0];
    s.(registers := v[x := v[x] / 2])
  }

  /** `subn` (8xy7): VF = (Vy > Vx) is written first, then Vx = Vy - Vx reads the registers again. */
  function Subn(s: State, x: Reg, y: Reg): (r: State)
    requires Wf(s)
    ensures Wf(r) && RegistersOnly(s, r) && KeepsOtherRegisters(s, r, {x, FLAG})
  {
    var v := s.registers[FLAG := if s.registers[y] > s.registers[x] then 1 else 0];
    s.(registers := v[x := Wrap8(v[y] as int - v[x])])
  }

  /** `shl` (8xyE): VF = `(Vx >> 7) & 1`, then Vx <<= 1 (the shift drops the top bit). */
  function Shl(s: State, x: Reg): (r: State)
    requires Wf(s)
    ensures Wf(r) && RegistersOnly(s, r) && KeepsOtherRegisters(s, r, {x, FLAG})
  {
    var v := s.registers[FLAG := if And8(s.registers[x] / 0x80, 1) == 1 then 1 else 0];
    s.(registers := v[x := Wrap8(v[x] as int * 2)])
  }

  /** `skip_r_not` (9xy0): skip the next instruction when Vx != Vy. */
  function SkipRNot(s: State, x: Reg, y: Reg): (r: State)
    requires Wf(s)
    ensures PcOnly(s, r)
    ensures r.programCounter != s.programCounter <==> s.registers[x] != s.registers[y]
  {
    if s.registers[x] != s.registers[y] then s.(programCounter := Wrap16(s.programCounter as int + 2)) else s
  }

  /** `load_i` (Annn): I = nnn. */
  function LoadI(s: State, nnn: Opcode.Addr): (r: State)
    requires Wf(s)
    ensures r.iRegister == nnn
    ensures r == s.(iRegister := r.iRegister)
  {
    s.(iRegister := nnn)
  }

  /** `jmp_pc` (Bnnn): go to nnn + V0. */
  function JmpPc(s: State, nnn: Opcode.Addr): (r: State)
    requires Wf(s)
    ensures r == s.(programCounter := r.programCounter, pcAdvance := false)
    ensures r.programCounter == nnn + s.registers[0]
  {
    s.(programCounter := Wrap16(nnn as int + s.registers[0]), pcAdvance := false)
  }

  /** `rnd` (Cxkk): Vx = random & kk, the random byte being an input of the step. */
  function Rnd(s: State, x: Reg, kk: U8, random: U8): (r: State)
    requires Wf(s)
    ensures Wf(r) && RegistersOnly(s, r) && KeepsOtherRegisters(s, r, {x})
    ensures r.registers[x] <= kk && And8(r.registers[x], kk) == r.registers[x]
  {
    And8Within(random, kk);
    s.(registers := s.registers[x := And8(random, kk)])
  }

  /**
   * `draw` (Dxyn): blit the n sprite bytes at I to (Vx, Vy) with VF
   * cleared first and set on a collision; a sprite byte outside memory panics.
   */
  function Draw(s: State, screen: seq<U32>, x: Reg, y: Reg, n: Opcode.Nibble): (o: Outcome)
    requires Wf(s) && |screen| == Display.CELLS
    ensures o.Panicked? <==> !InBounds(s.iRegister, n)
    ensures !o.Halted?
    ensures o.Running? ==> Wf(o.state) && RegistersOnly(s, o.state) && KeepsOtherRegisters(s, o.state, {FLAG})
    ensures o.Running? ==> |o.screen| == Display.CELLS
  {
    if !InBounds(s.iRegister, n) then Panicked
    else
      var sprite := Sprite(s, n);
      var vx, vy := s.registers[x], s.registers[y];
      var collision := Display.Collides(screen, sprite, vx, vy, n, 0);
      Running(s.(registers := s.registers[FLAG := if collision then 1 else 0]),
              Display.Drawn(screen, sprite, vx, vy, n, 0))
  }

  /** The n sprite bytes that `draw` reads from memory at I. */
  function Sprite(s: State, n: Opcode.Nibble): (sprite: seq<U8>)
    requires Wf(s) && InBounds(s.iRegister, n)
    ensures |sprite| == n
    ensures forall off :: 0 <= off < n ==> sprite[off] == s.memory[s.iRegister + off]
  {
    if n == 0 then [] else s.memory[s.iRegister .. s.iRegister + n]
  }

  /** `convert_reg_to_keys` panics on a key number above 0xF. */
  predicate KeyPanics(s: State, x: Reg)
    requires Wf(s)
  {
    s.registers[x] > 0xF
  }

  /** `skip_if_key` (Ex9E): skip the next instruction when key Vx is held. */
  function SkipIfKey(s: State, x: Reg, keys: seq<bool>): (r: Effect)
    requires Wf(s) && |keys| == 16
    ensures r.Done? <==> !KeyPanics(s, x)
    ensures r.Done? ==> PcOnly(s, r.state)
    ensures r.Done? ==> (r.state.programCounter != s.programCounter <==> keys[s.registers[x]])
  {
    if KeyPanics(s, x) then Panic
    else if keys[s.registers[x]] then Done(s.(programCounter := Wrap16(s.programCounter as int + 2)))
    else Done(s)
  }

  /** `skip_if_not_key` (ExA1): skip the next instruction when key Vx is not held. */
  function SkipIfNotKey(s: State, x: Reg, keys: seq<bool>): (r: Effect)
    requires Wf(s) && |keys| == 16
    ensures r.Done? <==> !KeyPanics(s, x)
    ensures r.Done? ==> PcOnly(s, r.state)
    ensures r.Done? ==> (r.state.programCounter != s.programCounter <==> !keys[s.registers[x]])
  {
    if KeyPanics(s, x) then Panic
    else if !keys[s.registers[x]] then Done(s.(programCounter := Wrap16(s.programCounter as int + 2)))
    else Done(s)
  }

  /** `load_delay` (Fx07): Vx = delay timer. */
  function LoadDelay(s: State, x: Reg): (r: State)
    requires Wf(s)
    ensures Wf(r) && RegistersOnly(s, r) && KeepsOtherRegisters(s, r, {x})
    ensures r.registers[x] == s.delayRegister
  {
    s.(registers := s.registers[x := s.delayRegister])
  }

  /** The highest index below n whose key is held, or -1 when none is. */
  function LastHeld(keys: seq<bool>, n: nat): (k: int)
    requires n <= |keys|
    ensures -1 <= k < n
    ensures k >= 0 ==> keys[k]
    ensures forall j :: k < j < n ==> !keys[j]
  {
    if n == 0 then -1
    else if keys[n - 1] then n - 1
    else LastHeld(keys, n - 1)
  }

  /**
   * `wait_for_key` (Fx0A): clear the advance flag; every held key, in
   * increasing order, overwrites Vx and sets the flag again.
   */
  function WaitForKey(s: State, x: Reg, keys: seq<bool>): (r: State)
    requires Wf(s) && |keys| == 16
    ensures Wf(r) && r.(registers := s.registers, pcAdvance := s.pcAdvance) == s
    ensures KeepsOtherRegisters(s, r, {x})
  {
    var k := LastHeld(keys, 16);
    if k >= 0 then s.(registers := s.registers[x := k], pcAdvance := true)
    else s.(pcAdvance := false)
  }

  /** `set_delay` (Fx15): delay timer = Vx. */
  function SetDelay(s: State, x: Reg): (r: State)
    requires Wf(s)
    ensures r.delayRegister == s.registers[x]
    ensures r == s.(delayRegister := r.delayRegister)
  {
    s.(delayRegister := s.registers[x])
  }

  /** `set_sound` (Fx18): sound timer = Vx. */
  function SetSound(s: State, x: Reg): (r: State)
    requires Wf(s)
    ensures r.soundRegister == s.registers[x]
    ensures r == s.(soundRegister := r.soundRegister)
  {
    s.(soundRegister := s.registers[x])
  }

  /** `add_to_i` (Fx1E): I += Vx, a wrapping u16 sum. */
  function AddToI(s: State, x: Reg): (r: State)
    requires Wf(s)
    ensures r == s.(iRegister := r.iRegister)
    ensures (r.iRegister - s.iRegister - s.registers[x]) % 0x1_0000 == 0
  {
    s.(iRegister := Wrap16(s.iRegister as int + s.registers[x]))
  }

  /** `set_i_to_sprite` (Fx29): I = Vx * 5, the product being a wrapping u8. */
  function SetIToSprite(s: State, x: Reg): (r: State)
    requires Wf(s)
    ensures r == s.(iRegister := r.iRegister)
    ensures s.registers[x] <= 0xF ==> r.iRegister == 5 * s.registers[x]
    ensures r.iRegister == (5 * s.registers[x] as int) % 0x100
  {
    s.(iRegister := Wrap8(s.registers[x] as int * 5))
  }

  /** The digits pushed by the loop of `store_bcd`: least significant first, none for 0. */
  function Digits(n: nat): (ds: seq<U8>)
    ensures forall k :: 0 <= k < |ds| ==> ds[k] < 10
    ensures n == 0 <==> ds == []
    ensures ds != [] ==> ds[|ds| - 1] != 0
  {
    if n == 0 then [] else [n % 10] + Digits(n / 10)
  }

  /** `*digits.get(k).unwrap_or(&0)` */
  function DigitAt(ds: seq<U8>, k: nat): U8
  {
    if k < |ds| then ds[k] else 0
  }

  /** `store_bcd` (Fx33): hundreds, tens and units of Vx at I, I + 1 and I + 2. */
  function StoreBcd(s: State, x: Reg): (r: Effect)
    requires Wf(s)
    ensures r.Done? <==> InBounds(s.iRegister, 3)
    ensures r.Done? ==> Wf(r.state) && r.state == s.(memory := r.state.memory)
    ensures r.Done? ==> forall a :: 0 <= a < MEMORY_SIZE && !(s.iRegister <= a < s.iRegister + 3) ==>
      r.state.memory[a] == s.memory[a]
  {
    if !InBounds(s.iRegister, 3) then Panic
    else
      var ds := Digits(s.registers[x]);
      var i := s.iRegister;
      Done(s.(memory := s.memory[i := DigitAt(ds, 2)][i + 1 := DigitAt(ds, 1)][i + 2 := DigitAt(ds, 0)]))
  }

  /** `reg_to_mem` (Fx55): memory[I + k] = Vk for k = 0 ..= x. */
  function RegToMem(s: State, x: Reg): (r: Effect)
    requires Wf(s)
    ensures r.Done? <==> InBounds(s.iRegister, x + 1)
    ensures r.Done? ==> Wf(r.state) && r.state == s.(memory := r.state.memory)
    ensures r.Done? ==> forall k :: 0 <= k <= x ==> r.state.memory[s.iRegister + k] == s.registers[k]
    ensures r.Done? ==> forall a :: 0 <= a < MEMORY_SIZE && !(s.iRegister <= a <= s.iRegister + x) ==>
      r.state.memory[a] == s.memory[a]
  {
    if !InBounds(s.iRegister, x + 1) then Panic
    else
      var i := s.iRegister;
      Done(s.(memory := seq(MEMORY_SIZE, a requires 0 <= a < MEMORY_SIZE =>
        if i <= a <= i + x then s.registers[a - i] else s.memory[a])))
  }

  /** `mem_to_reg` (Fx65): Vk = memory[I + k] for k = 0 ..= x. */
  function MemToReg(s: State, x: Reg): (r: Effect)
    requires Wf(s)
    ensures r.Done? <==> InBounds(s.iRegister, x + 1)
    ensures r.Done? ==> Wf(r.state) && RegistersOnly(s, r.state)
    ensures r.Done? ==> forall k :: 0 <= k <= x ==> r.state.registers[k] == s.memory[s.iRegister + k]
    ensures r.Done? ==> forall k :: x < k < 16 ==> r.state.registers[k] == s.registers[k]
  {
    if !InBounds(s.iRegister, x + 1) then Panic
    else
      var i := s.iRegister;
      Done(s.(registers := seq(16, k requires 0 <= k < 16 =>
        if k <= x then s.memory[i + k] else s.registers[k])))
  }

  // ---------------------------------------------------------------------
  // One step
  // ---------------------------------------------------------------------

  function Resume(e: Effect, screen: seq<U32>): (o: Outcome)
    ensures !o.Halted?
  {
    match e
    case Done(s) => Running(s, screen)
    case Panic => Panicked
  }

  /** The four groups of instructions the dispatch is split into. */
  datatype Family = Low | Arith | High | Misc | Unlisted

  function FamilyOf(ins: Opcode.Instr): Family
  {
    match ins
    case Clear | Ret | Jmp(_) | Call(_) | Skip(_, _) | SkipIfNot(_, _) | SkipR(_, _) | SetI(_, _) | AddI(_, _) => Low
    case Store(_, _) | Or(_, _) | And(_, _) | Xor(_, _) | Add(_, _) | Sub(_, _) | Shr(_, _) | Subn(_, _) | Shl(_, _) => Arith
    case SkipRNot(_, _) | LoadI(_) | JmpPc(_) | Rnd(_, _) | Draw(_, _, _) | SkipIfKey(_) | SkipIfNotKey(_) => High
    case LoadDelay(_) | WaitForKey(_) | SetDelay(_) | SetSound(_) | AddToI(_) | SetIToSprite(_) | StoreBcd(_) | RegToMem(_) | MemToReg(_) => Misc
    case Unknown => Unlisted
  }

  /** The `match (a, b, c, d)` of `CPU::run`, by leading opcode nibble; an unknown opcode halts. */
  function Dispatch(s: State, screen: seq<U32>, ins: Opcode.Instr, keys: seq<bool>, random: U8): (o: Outcome)
    requires Wf(s) && |screen| == Display.CELLS && |keys| == 16
    requires s.programCounter + 1 < MEMORY_SIZE
    ensures o.Halted? <==> ins.Unknown?
    ensures o.Halted? ==> o.state == s && o.screen == screen
    ensures o.Running? ==> Wf(o.state) && |o.screen| == Display.CELLS
  {
    if FamilyOf(ins) == Low then
      DispatchLow(s, screen, ins, keys, random)
    else if FamilyOf(ins) == Arith then
      DispatchAlu(s, screen, ins, keys, random)
    else if FamilyOf(ins) == High then
      DispatchHigh(s, screen, ins, keys, random)
    else if FamilyOf(ins) == Misc then
      DispatchF(s, screen, ins, keys, random)
    else
      Halted(s, screen)
  }

  /** The arms of the match for opcodes 0nnn to 7xkk. */
  function DispatchLow(s: State, screen: seq<U32>, ins: Opcode.Instr, keys: seq<bool>, random: U8): (o: Outcome)
    requires Wf(s) && |screen| == Display.CELLS && |keys| == 16
    requires s.programCounter + 1 < MEMORY_SIZE
    requires FamilyOf(ins) == Low
    ensures !o.Halted?
    ensures o.Running? ==> Wf(o.state) && |o.screen| == Display.CELLS
  {
    match ins
    case Clear => Running(s, Display.Blank())
    case Ret => Resume(Ret(s), screen)
    case Jmp(nnn) => Running(Jmp(s, nnn), screen)
    case Call(nnn) => Resume(Call(s, nnn), screen)
    case Skip(x, kk) => Running(Skip(s, x, kk), screen)
    case SkipIfNot(x, kk) => Running(SkipIfNot(s, x, kk), screen)
    case SkipR(x, y) => Running(SkipR(s, x, y), screen)
    case SetI(x, kk) => Running(SetI(s, x, kk), screen)
    case AddI(x, kk) => Running(AddI(s, x, kk), screen)
  }

  /** The arms of the match for opcodes 8xy0 to 8xyE. */
  function DispatchAlu(s: State, screen: seq<U32>, ins: Opcode.Instr, keys: seq<bool>, random: U8): (o: Outcome)
    requires Wf(s) && |screen| == Display.CELLS && |keys| == 16
    requires s.programCounter + 1 < MEMORY_SIZE
    requires FamilyOf(ins) == Arith
    ensures !o.Halted?
    ensures o.Running? ==> Wf(o.state) && |o.screen| == Display.CELLS
  {
    match ins
    case Store(x, y) => Running(Store(s, x, y), screen)
    case Or(x, y) => Running(Or(s, x, y), screen)
    case And(x, y) => Running(And(s, x, y), screen)
    case Xor(x, y) => Running(Xor(s, x, y), screen)
    case Add(x, y) => Running(Add(s, x, y), screen)
    case Sub(x, y) => Running(Sub(s, x, y), screen)
    case Shr(x, _) => Running(Shr(s, x), screen)
    case Subn(x, y) => Running(Subn(s, x, y), screen)
    case Shl(x, _) => Running(Shl(s, x), screen)
  }

  /** The arms of the match for opcodes 9xy0 to ExA1. */
  function DispatchHigh(s: State, screen: seq<U32>, ins: Opcode.Instr, keys: seq<bool>, random: U8): (o: Outcome)
    requires Wf(s) && |screen| == Display.CELLS && |keys| == 16
    requires s.programCounter + 1 < MEMORY_SIZE
    requires FamilyOf(ins) == High
    ensures !o.Halted?
    ensures o.Running? ==> Wf(o.state) && |o.screen| == Display.CELLS
  {
    match ins
    case SkipRNot(x, y) => Running(SkipRNot(s, x, y), screen)
    case LoadI(nnn) => Running(LoadI(s, nnn), screen)
    case JmpPc(nnn) => Running(JmpPc(s, nnn), screen)
    case Rnd(x, kk) => Running(Rnd(s, x, kk, random), screen)
    case Draw(x, y, n) => Draw(s, screen, x, y, n)
    case SkipIfKey(x) => Resume(SkipIfKey(s, x, keys), screen)
    case SkipIfNotKey(x) => Resume(SkipIfNotKey(s, x, keys), screen)
  }

  /** The arms of the match for opcodes Fx07 to Fx65. */
  function DispatchF(s: State, screen: seq<U32>, ins: Opcode.Instr, keys: seq<bool>, random: U8): (o: Outcome)
    requires Wf(s) && |screen| == Display.CELLS && |keys| == 16
    requires s.programCounter + 1 < MEMORY_SIZE
    requires FamilyOf(ins) == Misc
    ensures !o.Halted?
    ensures o.Running? ==> Wf(o.state) && |o.screen| == Display.CELLS
  {
    match ins
    case LoadDelay(x) => Running(LoadDelay(s, x), screen)
    case WaitForKey(x) => Running(WaitForKey(s, x, keys), screen)
    case SetDelay(x) => Running(SetDelay(s, x), screen)
    case SetSound(x) => Running(SetSound(s, x), screen)
    case AddToI(x) => Running(AddToI(s, x), screen)
    case SetIToSprite(x) => Running(SetIToSprite(s, x), screen)
    case StoreBcd(x) => Resume(StoreBcd(s, x), screen)
    case RegToMem(x) => Resume(RegToMem(s, x), screen)
    case MemToReg(x) => Resume(MemToReg(s, x), screen)
  }

  /** The instruction at the program counter, whose two bytes are in memory. */
  function NextInstr(s: State): (ins: Opcode.Instr)
    requires Wf(s) && s.programCounter + 1 < MEMORY_SIZE
  {
    Opcode.Fetch(s.memory[s.programCounter], s.memory[s.programCounter + 1])
  }

  /**
   * The part of an iteration of the loop of `CPU::run` that follows the
   * fetch: set the advance flag, run the handler of ins, and advance by 2
   * if the flag is still set.
   */
  function Perform(s: State, screen: seq<U32>, ins: Opcode.Instr, keys: seq<bool>, random: U8): (o: Outcome)
    requires Wf(s) && |screen| == Display.CELLS && |keys| == 16 && s.programCounter + 1 < MEMORY_SIZE
    ensures o.Halted? <==> ins.Unknown?
    ensures o.Halted? ==> o.state == s.(pcAdvance := true) && o.screen == screen
    ensures o.Running? ==> Wf(o.state) && |o.screen| == Display.CELLS
  {
    match Dispatch(s.(pcAdvance := true), screen, ins, keys, random)
    case Running(s1, out) =>
      Running(if s1.pcAdvance then s1.(programCounter := Wrap16(s1.programCounter as int + 2)) else s1, out)
    case other => other
  }

  /**
   * One iteration of the loop of `CPU::run` after the timer tick: fetch
   * the instruction at the program counter and perform it.
   */
  function Exec(s: State, screen: seq<U32>, keys: seq<bool>, random: U8): (o: Outcome)
    requires Wf(s) && |screen| == Display.CELLS && |keys| == 16
    ensures s.programCounter + 1 >= MEMORY_SIZE ==> o.Panicked?
    ensures o.Halted? <==> s.programCounter + 1 < MEMORY_SIZE && NextInstr(s).Unknown?
    ensures o.Halted? ==> o.state == s.(pcAdvance := true) && o.screen == screen
    ensures o.Running? ==> Wf(o.state) && |o.screen| == Display.CELLS
  {
    if s.programCounter + 1 >= MEMORY_SIZE then Panicked
    else Perform(s, screen, NextInstr(s), keys, random)
  }
}
