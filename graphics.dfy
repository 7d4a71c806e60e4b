/**
 * Properties of `draw` (Dxyn) as the handler states them: the collision
 * flag, the cells it may write, and drawing the same sprite twice.
 */
module Graphics {
  import opened Bytes
  import Display
  import Isa
  import Opcode

  /** Some cell of `before` that is on is off in `after`. */
  predicate Erased(before: seq<U32>, after: seq<U32>)
    requires |before| == Display.CELLS && |after| == Display.CELLS
  {
    exists k :: 0 <= k < Display.CELLS && Display.PixelOn(before[k]) && !Display.PixelOn(after[k])
  }

  /** VF is cleared, then ends 1 exactly when some pixel went from on to off; memory and I are untouched. */
  lemma DrawFlagsErasure(s: Isa.State, screen: seq<U32>, x: Isa.Reg, y: Isa.Reg, n: Opcode.Nibble)
    requires Isa.Wf(s) && |screen| == Display.CELLS && Isa.InBounds(s.iRegister, n)
    ensures var o := Isa.Draw(s, screen, x, y, n);
      && o.Running? && o.state.registers[Isa.FLAG] <= 1
      && (o.state.registers[Isa.FLAG] == 1 <==> Erased(screen, o.screen))
  {
    var sprite := Isa.Sprite(s, n);
    Display.CollidesIffErased(screen, sprite, s.registers[x], s.registers[y]);
  }

  /** Every cell stays 0 or u32::MAX. */
  lemma DrawKeepsBinary(s: Isa.State, screen: seq<U32>, x: Isa.Reg, y: Isa.Reg, n: Opcode.Nibble)
    requires Isa.Wf(s) && |screen| == Display.CELLS && Display.Binary(screen)
    ensures var o := Isa.Draw(s, screen, x, y, n);
      o.Running? ==> Display.Binary(o.screen)
  {
    if Isa.InBounds(s.iRegister, n) {
      Display.DrawnBinary(screen, Isa.Sprite(s, n), s.registers[x], s.registers[y]);
    }
  }

  /** A cell that no pixel (row, col) of the sprite lands on, row < n and col < 8, keeps its value. */
  lemma DrawTouchesOnlySpriteCells(s: Isa.State, screen: seq<U32>, x: Isa.Reg, y: Isa.Reg, n: Opcode.Nibble, k: nat)
    requires Isa.Wf(s) && |screen| == Display.CELLS && k < Display.CELLS
    requires forall row, col :: 0 <= row < n && 0 <= col < 8 ==>
      Display.Cell(s.registers[x], s.registers[y], row, col) != k
    ensures var o := Isa.Draw(s, screen, x, y, n);
      o.Running? ==> o.screen[k] == screen[k]
  {
    if Isa.InBounds(s.iRegister, n) {
      Display.DrawnTouchesOnlySprite(screen, Isa.Sprite(s, n), s.registers[x], s.registers[y], k);
    }
  }

  /**
   * Drawing the same sprite twice with x, y != F restores a binary buffer,
   * and the second VF says that the first draw switched some cell on.
   */
  lemma DrawTwiceRestores(s: Isa.State, screen: seq<U32>, x: Isa.Reg, y: Isa.Reg, n: Opcode.Nibble)
    requires Isa.Wf(s) && |screen| == Display.CELLS && Display.Binary(screen)
    requires Isa.InBounds(s.iRegister, n) && x != Isa.FLAG && y != Isa.FLAG
    ensures var first := Isa.Draw(s, screen, x, y, n);
      && first.Running?
      && var second := Isa.Draw(first.state, first.screen, x, y, n);
      && second.Running? && second.screen == screen
      && (second.state.registers[Isa.FLAG] == 1 <==> Erased(first.screen, screen))
  {
    var first := Isa.Draw(s, screen, x, y, n);
    var sprite := Isa.Sprite(s, n);
    var vx, vy := s.registers[x], s.registers[y];
    assert first.state.registers[x] == vx && first.state.registers[y] == vy;
    assert Isa.Sprite(first.state, n) == sprite;
    Display.DrawnTwice(screen, sprite, vx, vy);
    DrawFlagsErasure(first.state, first.screen, x, y, n);
  }
}
