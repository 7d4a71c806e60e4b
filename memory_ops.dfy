/**
 * Properties of the handlers that move bytes between the registers and
 * memory at I: `store_bcd` (Fx33), `reg_to_mem` (Fx55), `mem_to_reg`
 * (Fx65), and `set_i_to_sprite` (Fx29) pointing I at a font glyph.
 */
module MemoryOps {
  import opened Bytes
  import Isa
  import Driver

  /** The digits the loop of `store_bcd` pushes for a byte, read back at positions 0, 1 and 2. */
  lemma {:induction false} DigitsOfByte(v: U8)
    ensures Isa.DigitAt(Isa.Digits(v), 0) == v % 10
    ensures Isa.DigitAt(Isa.Digits(v), 1) == (v / 10) % 10
    ensures Isa.DigitAt(Isa.Digits(v), 2) == v / 100
  {
    if v > 0 {
      var u := v / 10;
      assert Isa.Digits(v) == [v % 10] + Isa.Digits(u);
      if u > 0 {
        var w := u / 10;
        assert w == v / 100;
        assert Isa.Digits(u) == [u % 10] + Isa.Digits(w);
        if w > 0 {
          assert Isa.Digits(w) == [w % 10] + Isa.Digits(w / 10);
        }
      }
    }
  }

  /** Fx33 writes the hundreds, tens and units of Vx at I, I + 1 and I + 2, which spell Vx back. */
  lemma StoreBcdWritesDigits(s: Isa.State, x: Isa.Reg)
    requires Isa.Wf(s) && Isa.InBounds(s.iRegister, 3)
    ensures var r := Isa.StoreBcd(s, x);
      && r.Done?
      && var m, i, v := r.state.memory, s.iRegister, s.registers[x];
      && m[i] == v / 100 && m[i + 1] == (v / 10) % 10 && m[i + 2] == v % 10
      && 100 * m[i] + 10 * m[i + 1] + m[i + 2] == v
  {
    DigitsOfByte(s.registers[x]);
  }

  /** Fx33 with Vx = 7 writes 0, 0, 7. */
  lemma StoreBcdOfSeven(s: Isa.State, x: Isa.Reg)
    requires Isa.Wf(s) && Isa.InBounds(s.iRegister, 3) && s.registers[x] == 7
    ensures var m, i := Isa.StoreBcd(s, x).state.memory, s.iRegister;
      m[i] == 0 && m[i + 1] == 0 && m[i + 2] == 7
  {
    StoreBcdWritesDigits(s, x);
  }

  /** Fx55 then Fx65 with the same x and I reads back what was saved: the registers do not change. */
  lemma SaveThenLoad(s: Isa.State, x: Isa.Reg)
    requires Isa.Wf(s) && Isa.InBounds(s.iRegister, x + 1)
    ensures var saved := Isa.RegToMem(s, x);
      && saved.Done?
      && Isa.MemToReg(saved.state, x) == saved
      && saved.state.registers == s.registers
  {
    var saved := Isa.RegToMem(s, x).state;
    var loaded := Isa.MemToReg(saved, x).state;
    assert loaded.registers == saved.registers;
  }

  /** Fx65 then Fx55 with the same x and I writes back the bytes just read: memory does not change. */
  lemma LoadThenSave(s: Isa.State, x: Isa.Reg)
    requires Isa.Wf(s) && Isa.InBounds(s.iRegister, x + 1)
    ensures var loaded := Isa.MemToReg(s, x);
      && loaded.Done?
      && Isa.RegToMem(loaded.state, x) == loaded
      && loaded.state.memory == s.memory
  {
    var loaded := Isa.MemToReg(s, x).state;
    var saved := Isa.RegToMem(loaded, x).state;
    assert saved.memory == loaded.memory;
  }

  /** With the font loaded, Fx29 points I at the 5-byte glyph of the hex digit in Vx. */
  lemma SpriteOfDigit(s: Isa.State, x: Isa.Reg)
    requires Isa.Wf(s) && s.memory[..|Driver.FONT|] == Driver.FONT && s.registers[x] <= 0xF
    ensures var r := Isa.SetIToSprite(s, x);
      && r.iRegister == 5 * s.registers[x] && r.iRegister + 5 <= |Driver.FONT|
      && r.memory[r.iRegister .. r.iRegister + 5] == Driver.FONT[5 * s.registers[x] .. 5 * s.registers[x] + 5]
  {
    var i := 5 * s.registers[x];
    assert s.memory[i .. i + 5] == s.memory[..|Driver.FONT|][i .. i + 5];
  }
}
