/**
 * Control flow of one iteration of `CPU::run` (module Isa, `Perform`): the
 * advance flag, the skips, `jmp_pc`, the self-jump that stops a program,
 * `call` and `ret`, and `wait_for_key` holding the program counter.
 */
module Flow {
  import opened Bytes
  import Opcode
  import Display
  import Isa

  /** The state a step can start from without panicking at the fetch. */
  predicate Fetchable(s: Isa.State, screen: seq<U32>, keys: seq<bool>)
  {
    Isa.Wf(s) && |screen| == Display.CELLS && |keys| == 16 && s.programCounter + 1 < Isa.MEMORY_SIZE
  }

  /** Each step first sets the advance flag, so the flag it starts with makes no difference. */
  lemma StepIgnoresAdvanceFlag(s: Isa.State, screen: seq<U32>, ins: Opcode.Instr, keys: seq<bool>, random: U8, flag: bool)
    requires Fetchable(s, screen, keys)
    ensures Isa.Perform(s.(pcAdvance := flag), screen, ins, keys, random) == Isa.Perform(s, screen, ins, keys, random)
  {
    assert s.(pcAdvance := flag).(pcAdvance := true) == s.(pcAdvance := true);
  }

  /** The six conditional skips; the key skips only for a key number that does not panic. */
  predicate IsSkip(s: Isa.State, ins: Opcode.Instr)
    requires Isa.Wf(s)
  {
    || ins.Skip? || ins.SkipIfNot? || ins.SkipR? || ins.SkipRNot?
    || ((ins.SkipIfKey? || ins.SkipIfNotKey?) && s.registers[ins.x] <= 0xF)
  }

  /** The condition under which a skip instruction skips. */
  predicate Skips(s: Isa.State, ins: Opcode.Instr, keys: seq<bool>)
    requires Isa.Wf(s) && |keys| == 16 && IsSkip(s, ins)
  {
    match ins
    case Skip(x, kk) => s.registers[x] == kk
    case SkipIfNot(x, kk) => s.registers[x] != kk
    case SkipR(x, y) => s.registers[x] == s.registers[y]
    case SkipRNot(x, y) => s.registers[x] != s.registers[y]
    case SkipIfKey(x) => keys[s.registers[x]]
    case SkipIfNotKey(x) => !keys[s.registers[x]]
  }

  /** A taken skip leaves pc at the old pc + 4, an untaken one at the old pc + 2; nothing else changes. */
  lemma SkipMovesByTwoOrFour(s: Isa.State, screen: seq<U32>, ins: Opcode.Instr, keys: seq<bool>, random: U8)
    requires Fetchable(s, screen, keys) && IsSkip(s, ins)
    ensures Isa.Perform(s, screen, ins, keys, random) ==
      Isa.Running(s.(pcAdvance := true,
                     programCounter := s.programCounter + if Skips(s, ins, keys) then 4 else 2),
                  screen)
  {
    var s0 := s.(pcAdvance := true);
    var o := Isa.Dispatch(s0, screen, ins, keys, random);
    if ins.Skip? || ins.SkipIfNot? || ins.SkipR? {
      assert o == Isa.DispatchLow(s0, screen, ins, keys, random);
    } else {
      assert o == Isa.DispatchHigh(s0, screen, ins, keys, random);
    }
    assert o == Isa.Running(s0.(programCounter := s.programCounter + if Skips(s, ins, keys) then 2 else 0), screen);
  }

  /** A key skip on a key number above 0xF panics. */
  lemma KeySkipPanics(s: Isa.State, screen: seq<U32>, ins: Opcode.Instr, keys: seq<bool>, random: U8)
    requires Fetchable(s, screen, keys)
    requires (ins.SkipIfKey? || ins.SkipIfNotKey?) && s.registers[ins.x] > 0xF
    ensures Isa.Perform(s, screen, ins, keys, random).Panicked?
  {
  }

  /** Bnnn leaves pc at exactly nnn + V0 and changes nothing else. */
  lemma JmpPcTarget(s: Isa.State, screen: seq<U32>, nnn: Opcode.Addr, keys: seq<bool>, random: U8)
    requires Fetchable(s, screen, keys)
    ensures Isa.Perform(s, screen, Opcode.JmpPc(nnn), keys, random) ==
      Isa.Running(s.(programCounter := nnn + s.registers[0], pcAdvance := false), screen)
  {
  }

  /** The fetched Bnnn jumps to the low 12 bits of its word plus V0. */
  lemma FetchedJmpPcTarget(s: Isa.State, screen: seq<U32>, keys: seq<bool>, random: U8)
    requires Fetchable(s, screen, keys) && Isa.NextInstr(s).JmpPc?
    ensures var o := Isa.Exec(s, screen, keys, random);
      var w := Opcode.Word(s.memory[s.programCounter], s.memory[s.programCounter + 1]);
      o.Running? && o.state.programCounter == w % 0x1000 + s.registers[0]
  {
    var ins := Isa.NextInstr(s);
    Opcode.OperandsOfWord(s.memory[s.programCounter], s.memory[s.programCounter + 1]);
    JmpPcTarget(s, screen, ins.nnn, keys, random);
  }

  /**
   * A jump to itself zeroes its own two bytes and changes no other byte;
   * the next step fetches the word 0x0000, which no pattern matches, and
   * the run stops there.
   */
  lemma SelfJumpStops(s: Isa.State, screen: seq<U32>, keys: seq<bool>, random: U8, keys': seq<bool>, random': U8)
    requires Fetchable(s, screen, keys) && |keys'| == 16
    ensures var o := Isa.Perform(s, screen, Opcode.Jmp(s.programCounter), keys, random);
      && o.Running? && o.screen == screen
      && o.state.programCounter == s.programCounter && !o.state.pcAdvance
      && o.state.memory[s.programCounter] == 0 && o.state.memory[s.programCounter + 1] == 0
      && (forall a :: 0 <= a < Isa.MEMORY_SIZE && a != s.programCounter && a != s.programCounter + 1 ==>
            o.state.memory[a] == s.memory[a])
      && Isa.Exec(o.state, o.screen, keys', random') == Isa.Halted(o.state.(pcAdvance := true), screen)
  {
    var s0 := s.(pcAdvance := true);
    var o := Isa.Perform(s, screen, Opcode.Jmp(s.programCounter), keys, random);
    assert o == Isa.Running(Isa.Jmp(s0, s.programCounter), screen);
    Opcode.ZeroWordIsUnknown();
    assert Isa.NextInstr(o.state) == Opcode.Unknown;
  }

  /**
   * `call` then `ret`: the return lands on the caller's pc + 2 with the
   * stack pointer restored, no register or memory byte changed, and both
   * leave the advance flag cleared.
   */
  lemma CallThenReturn(s: Isa.State, nnn: Opcode.Addr)
    requires Isa.Wf(s) && Isa.Call(s, nnn).Done?
    ensures var called := Isa.Call(s, nnn).state;
      var back := Isa.Ret(called);
      && called.stack[called.stackPointer] == Wrap16(s.programCounter as int + 2)
      && back.Done?
      && back.state == s.(programCounter := Wrap16(s.programCounter as int + 2),
                          pcAdvance := false, stack := called.stack)
  {
  }

  /** n calls in a row to nnn, stopping at the first panic. */
  function Calls(s: Isa.State, nnn: Opcode.Addr, n: nat): (r: Isa.Effect)
    requires Isa.Wf(s)
    ensures r.Done? ==> Isa.Wf(r.state)
    decreases n
  {
    if n == 0 then Isa.Done(s)
    else match Calls(s, nnn, n - 1)
      case Done(t) => Isa.Call(t, nnn)
      case Panic => Isa.Panic
  }

  /**
   * From an empty stack, nesting is limited to 15: the 16th call panics.
   * Slot 0 of the stack is not written by these calls, since `call`
   * pre-increments; a `ret` on the empty stack changes that (see
   * `RetOnEmptyStackWraps`).
   */
  lemma {:induction false} CallsNestFifteenDeep(s: Isa.State, nnn: Opcode.Addr, n: nat)
    requires Isa.Wf(s) && s.stackPointer == 0
    ensures Calls(s, nnn, n).Done? <==> n <= 15
    ensures Calls(s, nnn, n).Done? ==>
      Calls(s, nnn, n).state.stackPointer == n && Calls(s, nnn, n).state.stack[0] == s.stack[0]
    decreases n
  {
    if n > 0 {
      CallsNestFifteenDeep(s, nnn, n - 1);
    }
  }

  /**
   * A `ret` on the empty stack does not panic: it jumps to whatever slot 0
   * holds and the stack pointer wraps to 255. The next `call` then wraps it
   * back to 0 and pushes its return address into slot 0.
   */
  lemma RetOnEmptyStackWraps(s: Isa.State, nnn: Opcode.Addr)
    requires Isa.Wf(s) && s.stackPointer == 0
    ensures var back := Isa.Ret(s);
      && back.Done? && back.state.programCounter == s.stack[0] && back.state.stackPointer == 0xFF
      && var called := Isa.Call(back.state, nnn);
      && called.Done? && called.state.stackPointer == 0
      && called.state.stack[0] == Wrap16(s.stack[0] as int + 2)
  {
  }

  /** After that wrap to 255, sixteen calls nest before the next one panics, the first of them into slot 0. */
  lemma {:induction false} CallsNestSixteenAfterUnderflow(s: Isa.State, nnn: Opcode.Addr, n: nat)
    requires Isa.Wf(s) && s.stackPointer == 0xFF
    ensures Calls(s, nnn, n).Done? <==> n <= 16
    ensures Calls(s, nnn, n).Done? && n > 0 ==> Calls(s, nnn, n).state.stackPointer == n - 1
    decreases n
  {
    if n > 0 {
      CallsNestSixteenAfterUnderflow(s, nnn, n - 1);
    }
  }

  /**
   * Fx0A with no key held clears the advance flag and changes nothing
   * else: pc and memory are as they were, so the next step fetches the
   * same instruction again.
   */
  lemma WaitWithoutKeyRepeats(s: Isa.State, screen: seq<U32>, x: Isa.Reg, keys: seq<bool>, random: U8)
    requires Fetchable(s, screen, keys)
    requires forall k :: 0 <= k < 16 ==> !keys[k]
    ensures Isa.Perform(s, screen, Opcode.WaitForKey(x), keys, random) == Isa.Running(s.(pcAdvance := false), screen)
  {
    assert Isa.LastHeld(keys, 16) == -1;
  }

  /** Fx0A with a key held stores the highest held key number in Vx and moves on to pc + 2. */
  lemma WaitWithKeyTakesHighest(s: Isa.State, screen: seq<U32>, x: Isa.Reg, keys: seq<bool>, random: U8, k: nat)
    requires Fetchable(s, screen, keys)
    requires k < 16 && keys[k] && forall j :: k < j < 16 ==> !keys[j]
    ensures Isa.Perform(s, screen, Opcode.WaitForKey(x), keys, random) ==
      Isa.Running(s.(registers := s.registers[x := k], programCounter := s.programCounter + 2, pcAdvance := true), screen)
  {
    assert Isa.LastHeld(keys, 16) == k;
  }
}
