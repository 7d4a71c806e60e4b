/**
 * A whole run of `CPU::run` on a two-instruction program: 00E0 clears the
 * screen, then 1202 jumps to itself, zeroes its own bytes, and the fetch
 * of 0x0000 that follows stops the run.
 */
module SampleRun {
  import opened Bytes
  import Opcode
  import Display
  import Isa
  import Driver

  const CLEAR_THEN_LOOP: seq<U8> := [0x00, 0xE0, 0x12, 0x02]

  lemma FetchesOfProgram()
    ensures Opcode.Fetch(0x00, 0xE0) == Opcode.Clear
    ensures Opcode.Fetch(0x12, 0x02) == Opcode.Jmp(0x202)
  {
    assert Opcode.Split(Opcode.Word(0x00, 0xE0)) == Opcode.Nibbles(0, 0, 0xE, 0);
    assert Opcode.Split(Opcode.Word(0x12, 0x02)) == Opcode.Nibbles(1, 2, 0, 2);
  }

  /** Iteration 1: 00E0 blanks the screen and the step moves on to 0x202. */
  lemma ClearStep(t: Isa.State, screen: seq<U32>, keys: seq<bool>, random: U8)
    requires Isa.Wf(t) && |screen| == Display.CELLS && |keys| == 16
    requires t.programCounter == 0x200 && t.memory[0x200] == 0x00 && t.memory[0x201] == 0xE0
    ensures Isa.Exec(t, screen, keys, random) ==
      Isa.Running(t.(pcAdvance := true, programCounter := 0x202), Display.Blank())
  {
    FetchesOfProgram();
    assert Isa.NextInstr(t) == Opcode.Clear;
  }

  /** Iteration 2: 1202 at 0x202 is a self-jump. */
  lemma SelfJumpStep(t: Isa.State, screen: seq<U32>, keys: seq<bool>, random: U8)
    requires Isa.Wf(t) && |screen| == Display.CELLS && |keys| == 16
    requires t.programCounter == 0x202 && t.memory[0x202] == 0x12 && t.memory[0x203] == 0x02
    ensures Isa.Exec(t, screen, keys, random) ==
      Isa.Running(Isa.Jmp(t.(pcAdvance := true), 0x202), screen)
  {
    FetchesOfProgram();
    assert Isa.NextInstr(t) == Opcode.Jmp(0x202);
  }

  /** Iteration 3: the zeroed word stops the run. */
  lemma ZeroStep(t: Isa.State, screen: seq<U32>, keys: seq<bool>, random: U8)
    requires Isa.Wf(t) && |screen| == Display.CELLS && |keys| == 16
    requires t.programCounter == 0x202 && t.memory[0x202] == 0 && t.memory[0x203] == 0
    ensures Isa.Exec(t, screen, keys, random) == Isa.Halted(t.(pcAdvance := true), screen)
  {
    Opcode.ZeroWordIsUnknown();
    assert Isa.NextInstr(t) == Opcode.Unknown;
  }

  /**
   * With at least three iterations before the window closes, the run stops
   * on the third with a blank screen. `Stopped` is the `break` of the
   * unknown-opcode arm; the statistics print just before it, which divides
   * by the whole seconds elapsed, is real-time behaviour outside the model.
   */
  lemma ClearThenSelfJumpStops(s: Isa.State, screen: seq<U32>, inputs: seq<Driver.Input>)
    requires Isa.Wf(s) && s.programCounter == Isa.PROGRAM_START && |screen| == Display.CELLS && |inputs| >= 3
    ensures var e := Driver.Run(s, screen, CLEAR_THEN_LOOP, inputs);
      e.Stopped? && e.screen == Display.Blank() && e.cpu.programCounter == 0x202
  {
    var loaded := Driver.LoadProgram(Driver.LoadSprites(s), CLEAR_THEN_LOOP).state;
    assert loaded.memory[0x200] == 0x00 && loaded.memory[0x201] == 0xE0;
    assert loaded.memory[0x202] == 0x12 && loaded.memory[0x203] == 0x02;
    var (t1, dc1, sc1) := Driver.TickBoth(loaded, 0, 0);
    ClearStep(t1, screen, inputs[0].keys, inputs[0].random);
    var o1 := Isa.Exec(t1, screen, inputs[0].keys, inputs[0].random);
    var (t2, dc2, sc2) := Driver.TickBoth(o1.state, dc1, sc1);
    SelfJumpStep(t2, o1.screen, inputs[1].keys, inputs[1].random);
    var o2 := Isa.Exec(t2, o1.screen, inputs[1].keys, inputs[1].random);
    var (t3, dc3, sc3) := Driver.TickBoth(o2.state, dc2, sc2);
    ZeroStep(t3, o2.screen, inputs[2].keys, inputs[2].random);
    assert Driver.Loop(o1.state, o1.screen, dc1, sc1, inputs[1..]) == Driver.Loop(o2.state, o2.screen, dc2, sc2, inputs[2..]);
  }
}
