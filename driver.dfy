/**
 * The loop of `CPU::run` as a value: machine initialisation (`CPU::new`,
 * `load_sprites`, the program copy to address 512), the two timers and
 * their loop counters `d_c` and `s_c`, and the run itself, one iteration
 * per input snapshot for as long as the window stays open.
 */
module Driver {
  import opened Bytes
  import Opcode
  import Display
  import Isa

  /** The 16 built-in hex-digit glyphs, 5 rows of 4 pixels each, loaded at address 0. */
  const FONT: seq<U8> := [
    0xF0, 0x90, 0x90, 0x90, 0xF0,
    0x20, 0x60, 0x20, 0x20, 0x70,
    0xF0, 0x10, 0xF0, 0x80, 0xF0,
    0xF0, 0x10, 0xF0, 0x10, 0xF0,
    0x90, 0x90, 0xF0, 0x10, 0x10,
    0xF0, 0x80, 0xF0, 0x10, 0xF0,
    0xF0, 0x80, 0xF0, 0x90, 0xF0,
    0xF0, 0x10, 0x20, 0x40, 0x40,
    0xF0, 0x90, 0xF0, 0x90, 0xF0,
    0xF0, 0x90, 0xF0, 0x10, 0xF0,
    0xF0, 0x90, 0xF0, 0x90, 0x90,
    0xE0, 0x90, 0xE0, 0x90, 0xE0,
    0xF0, 0x80, 0x80, 0x80, 0xF0,
    0xE0, 0x90, 0x90, 0x90, 0xE0,
    0xF0, 0x80, 0xF0, 0x80, 0xF0,
    0xF0, 0x80, 0xF0, 0x80, 0x80
  ]

  /** `CPU::new`: everything zero, pc at 512, the advance flag set. */
  function PowerOn(): (s: Isa.State)
    ensures Isa.Wf(s) && s.programCounter == Isa.PROGRAM_START && s.pcAdvance
    ensures forall a :: 0 <= a < Isa.MEMORY_SIZE ==> s.memory[a] == 0
    ensures forall k :: 0 <= k < 16 ==> s.registers[k] == 0
    ensures s.iRegister == 0 && s.delayRegister == 0 && s.soundRegister == 0
    ensures s.stackPointer == 0 && forall k :: 0 <= k < Isa.STACK_SIZE ==> s.stack[k] == 0
  {
    Isa.State(seq(Isa.MEMORY_SIZE, _ => 0), seq(16, _ => 0), 0, 0, 0,
              Isa.PROGRAM_START, 0, seq(Isa.STACK_SIZE, _ => 0), true)
  }

  /** `load_sprites`: the font over memory[0..80], the rest untouched. */
  function LoadSprites(s: Isa.State): (r: Isa.State)
    requires Isa.Wf(s)
    ensures Isa.Wf(r) && r == s.(memory := r.memory)
    ensures r.memory[..|FONT|] == FONT && r.memory[|FONT|..] == s.memory[|FONT|..]
  {
    s.(memory := FONT + s.memory[|FONT|..])
  }

  /** The copy of the program to memory[512..512 + len]; a longer program than fits panics. */
  function LoadProgram(s: Isa.State, program: seq<U8>): (r: Isa.Effect)
    requires Isa.Wf(s)
    ensures r.Done? <==> Isa.PROGRAM_START + |program| <= Isa.MEMORY_SIZE
    ensures r.Done? ==> Isa.Wf(r.state) && r.state == s.(memory := r.state.memory)
    ensures r.Done? ==> forall k :: 0 <= k < |program| ==> r.state.memory[Isa.PROGRAM_START + k] == program[k]
    ensures r.Done? ==> forall a :: 0 <= a < Isa.MEMORY_SIZE && !(Isa.PROGRAM_START <= a < Isa.PROGRAM_START + |program|) ==>
      r.state.memory[a] == s.memory[a]
  {
    var end := Isa.PROGRAM_START + |program|;
    if end > Isa.MEMORY_SIZE then Isa.Panic
    else Isa.Done(s.(memory := s.memory[..Isa.PROGRAM_START] + program + s.memory[end..]))
  }

  // ---------------------------------------------------------------------
  // Timers
  // ---------------------------------------------------------------------

  /** A timer register together with its loop counter (`d_c` or `s_c`). */
  datatype Timer = Timer(value: U8, count: nat)

  /** The tick at the top of the loop: while positive, drop by 1 when the counter reaches 8, else count. */
  function Tick(t: Timer): (r: Timer)
    ensures r.value <= t.value && t.value - r.value <= 1
    ensures r.value < t.value ==> t.count == 8 && r.count == 0
    ensures t.count <= 8 ==> r.count <= 8
  {
    if t.value > 0 then
      if t.count == 8 then Timer(t.value - 1, 0) else Timer(t.value, t.count + 1)
    else t
  }

  /** n consecutive ticks. */
  function Ticks(t: Timer, n: nat): Timer
    decreases n
  {
    if n == 0 then t else Ticks(Tick(t), n - 1)
  }

  /**
   * After n ticks a positive timer has dropped once per 9 iterations
   * counted from its counter, and stops at 0 with the counter reset.
   */
  lemma {:induction false} TicksClosedForm(t: Timer, n: nat)
    requires t.count <= 8
    ensures Ticks(t, n) ==
      if t.value == 0 then t
      else if t.count + n < 9 * t.value then Timer(t.value - (t.count + n) / 9, (t.count + n) % 9)
      else Timer(0, 0)
    decreases n
  {
    if n > 0 {
      TicksClosedForm(Tick(t), n - 1);
    }
  }

  /** A delay of 1 set with the counter at 0 reads 0 after the 9th iteration and not before. */
  lemma DelayOfOneLastsNineIterations(n: nat)
    ensures Ticks(Timer(1, 0), n).value == 0 <==> n >= 9
  {
    TicksClosedForm(Timer(1, 0), n);
  }

  /** Every 9 iterations a positive timer drops by exactly 1. */
  lemma DropsOncePerNine(v: U8, k: nat)
    requires k <= v
    ensures Ticks(Timer(v, 0), 9 * k).value == v - k
  {
    TicksClosedForm(Timer(v, 0), 9 * k);
  }

  // ---------------------------------------------------------------------
  // The run loop
  // ---------------------------------------------------------------------

  /** The 16 logical keys as `keypad::get_key_state` reports them. */
  type Keys = k: seq<bool> | |k| == 16 witness seq(16, _ => false)

  /** What one loop iteration takes from outside: the key snapshot and the byte `rand::random` returns. */
  datatype Input = Input(keys: Keys, random: U8)

  /**
   * How a run ends: the window closed (with the timer counters at that
   * point), an unknown opcode stopped it, or a panic.
   */
  datatype End =
    | Closed(cpu: Isa.State, screen: seq<U32>, dc: nat, sc: nat)
    | Stopped(cpu: Isa.State, screen: seq<U32>)
    | Crashed

  /** The state after the two timer ticks of one iteration, and the new counters. */
  function TickBoth(s: Isa.State, dc: nat, sc: nat): (r: (Isa.State, nat, nat))
    requires Isa.Wf(s)
    ensures Isa.Wf(r.0) && r.0 == s.(delayRegister := r.0.delayRegister, soundRegister := r.0.soundRegister)
  {
    var d := Tick(Timer(s.delayRegister, dc));
    var so := Tick(Timer(s.soundRegister, sc));
    (s.(delayRegister := d.value, soundRegister := so.value), d.count, so.count)
  }

  /**
   * The loop of `CPU::run` from a given state with counters dc and sc: one
   * iteration per input while the window is open (one input per iteration).
   */
  function Loop(s: Isa.State, screen: seq<U32>, dc: nat, sc: nat, inputs: seq<Input>): (e: End)
    requires Isa.Wf(s) && |screen| == Display.CELLS
    ensures !e.Crashed? ==> Isa.Wf(e.cpu) && |e.screen| == Display.CELLS
    decreases |inputs|
  {
    if inputs == [] then Closed(s, screen, dc, sc)
    else
      var (t, dc', sc') := TickBoth(s, dc, sc);
      match Isa.Exec(t, screen, inputs[0].keys, inputs[0].random)
      case Running(s', screen') => Loop(s', screen', dc', sc', inputs[1..])
      case Halted(s', screen') => Stopped(s', screen')
      case Panicked => Crashed
  }

  /**
   * Running the loop over the frames a and then b is running it over a
   * and, when the window was still open at the end of a, carrying on over b
   * from where it was; once the run stops or crashes, later frames change
   * nothing.
   */
  lemma {:induction false} LoopAppend(s: Isa.State, screen: seq<U32>, dc: nat, sc: nat, a: seq<Input>, b: seq<Input>)
    requires Isa.Wf(s) && |screen| == Display.CELLS
    ensures var e := Loop(s, screen, dc, sc, a);
      Loop(s, screen, dc, sc, a + b) ==
        if e.Closed? then Loop(e.cpu, e.screen, e.dc, e.sc, b) else e
    decreases |a|
  {
    if a == [] {
      assert a + b == b;
    } else {
      assert (a + b)[0] == a[0] && (a + b)[1..] == a[1..] + b;
      var (t, dc', sc') := TickBoth(s, dc, sc);
      match Isa.Exec(t, screen, a[0].keys, a[0].random)
      case Running(s', screen') => LoopAppend(s', screen', dc', sc', a[1..], b);
      case Halted(_, _) =>
      case Panicked =>
    }
  }

  /** `CPU::run`: load the font and the program, then loop with both counters at 0. */
  function Run(s: Isa.State, screen: seq<U32>, program: seq<U8>, inputs: seq<Input>): (e: End)
    requires Isa.Wf(s) && |screen| == Display.CELLS
    ensures Isa.PROGRAM_START + |program| > Isa.MEMORY_SIZE ==> e.Crashed?
  {
    match LoadProgram(LoadSprites(s), program)
    case Done(loaded) => Loop(loaded, screen, 0, 0, inputs)
    case Panic => Crashed
  }
}
