/**
 * The 64x32 display buffer of u32 cells and the XOR blit of `CPU::draw`:
 * sprite rows wrap around both edges, a cell is switched to u32::MAX or 0,
 * and a collision is an on pixel that the sprite switches off.
 */
module Display {
  import opened Bytes

  const WIDTH := 64
  const HEIGHT := 32
  const CELLS := 2048
  /** u32::MAX, the value written for an on pixel. */
  const ON: U32 := 0xFFFF_FFFF

  /** `buffer[k] as u8 > 0`: the cast keeps only the low byte of the cell. */
  predicate PixelOn(p: U32)
  {
    p % 0x100 != 0
  }

  /** Every cell holds 0 or u32::MAX. */
  predicate Binary(screen: seq<U32>)
  {
    forall k :: 0 <= k < |screen| ==> screen[k] == 0 || screen[k] == ON
  }

  /** The buffer after `clear`: every cell 0. */
  function Blank(): (screen: seq<U32>)
    ensures |screen| == CELLS && Binary(screen)
    ensures forall k :: 0 <= k < CELLS ==> !PixelOn(screen[k])
  {
    seq(CELLS, _ => 0)
  }

  /** The cell hit by column `col` of row `row` of a sprite drawn at (x, y). */
  function Cell(x: U8, y: U8, row: nat, col: nat): (k: nat)
    ensures k < CELLS
    ensures k % WIDTH == (x + col) % WIDTH && k / WIDTH == (y + row) % HEIGHT
  {
    DivMod64((y + row) % HEIGHT, (x + col) % WIDTH);
    (x + col) % WIDTH + WIDTH * ((y + row) % HEIGHT)
  }

  lemma DivMod64(q: int, rem: int)
    requires 0 <= rem < WIDTH
    ensures (q * WIDTH + rem) / WIDTH == q && (q * WIDTH + rem) % WIDTH == rem
  {
  }

  /** The sprite row that can land on cell k when drawing at vertical origin y. */
  function RowAt(k: nat, y: U8): (row: nat)
    ensures row < HEIGHT
  {
    (k / WIDTH - y) % HEIGHT
  }

  /** The sprite column that can land on cell k when drawing at horizontal origin x. */
  function ColAt(k: nat, x: U8): (col: nat)
    ensures col < WIDTH
  {
    (k % WIDTH - x) % WIDTH
  }

  /** RowAt and ColAt invert Cell on a row and a column that fit on the screen. */
  lemma RowColOfCell(x: U8, y: U8, row: nat, col: nat)
    requires row < HEIGHT && col < WIDTH
    ensures RowAt(Cell(x, y, row, col), y) == row && ColAt(Cell(x, y, row, col), x) == col
  {
  }

  /** Every cell is the Cell of its own RowAt and ColAt. */
  lemma CellOfRowCol(k: nat, x: U8, y: U8)
    requires k < CELLS
    ensures Cell(x, y, RowAt(k, y), ColAt(k, x)) == k
  {
    var row, col := RowAt(k, y), ColAt(k, x);
    assert (y + row) % HEIGHT == k / WIDTH;
    assert (x + col) % WIDTH == k % WIDTH;
    DivMod64(k / WIDTH, k % WIDTH);
  }

  /** `128 >> shift` for the 8 shifts of the loop of `draw`. */
  const MASKS: seq<U8> := [0x80, 0x40, 0x20, 0x10, 0x08, 0x04, 0x02, 0x01]

  /** `(n & (128 >> shift)) > 0`: bit `col` of a sprite byte, counted from the most significant. */
  function SpriteBit(b: U8, col: nat): bool
    requires col < 8
  {
    And8(b, MASKS[col]) > 0
  }

  /** The cell written for `new_pix = bit ^ prev_to_bit`: u32::MAX when 1, 0 when 0. */
  function Xored(p: U32, bit: bool): (q: U32)
    ensures q == ON || q == 0
    ensures PixelOn(q) <==> bit != PixelOn(p)
  {
    if bit != PixelOn(p) then ON else 0
  }

  /** (row, col) comes before (r, c) in the row-major order of the blit. */
  predicate Before(row: nat, col: nat, r: nat, c: nat)
  {
    row < r || (row == r && col < c)
  }

  /**
   * The buffer once every sprite pixel before (r, c) in row-major order has
   * been blitted; the finished blit is `Drawn(screen, sprite, x, y, |sprite|, 0)`.
   */
  function Drawn(screen: seq<U32>, sprite: seq<U8>, x: U8, y: U8, r: nat, c: nat): (out: seq<U32>)
    requires |screen| == CELLS && |sprite| < HEIGHT
    ensures |out| == CELLS
  {
    seq(CELLS, k requires 0 <= k < CELLS => DrawnCell(screen, sprite, x, y, r, c, k))
  }

  /** Cell k of `Drawn`: blitted when the sprite pixel that lands on it comes before (r, c). */
  function DrawnCell(screen: seq<U32>, sprite: seq<U8>, x: U8, y: U8, r: nat, c: nat, k: nat): U32
    requires |screen| == CELLS && |sprite| < HEIGHT && k < CELLS
  {
    var row := RowAt(k, y);
    var col := ColAt(k, x);
    if row < |sprite| && col < 8 && Before(row, col, r, c)
    then Xored(screen[k], SpriteBit(sprite[row], col))
    else screen[k]
  }

  /** Some sprite pixel before (r, c) is set and lands on a cell that is on. */
  predicate Collides(screen: seq<U32>, sprite: seq<U8>, x: U8, y: U8, r: nat, c: nat)
    requires |screen| == CELLS
  {
    exists row: nat, col: nat :: row < |sprite| && col < 8 && Before(row, col, r, c) &&
      SpriteBit(sprite[row], col) && PixelOn(screen[Cell(x, y, row, col)])
  }

  /** Blitting pixel (r, c) writes exactly its own cell, which still holds its original value. */
  lemma DrawnStep(screen: seq<U32>, sprite: seq<U8>, x: U8, y: U8, r: nat, c: nat)
    requires |screen| == CELLS && |sprite| < HEIGHT && r < |sprite| && c < 8
    ensures var k := Cell(x, y, r, c);
      && Drawn(screen, sprite, x, y, r, c)[k] == screen[k]
      && Drawn(screen, sprite, x, y, r, c + 1)
         == Drawn(screen, sprite, x, y, r, c)[k := Xored(screen[k], SpriteBit(sprite[r], c))]
  {
    var k := Cell(x, y, r, c);
    RowColOfCell(x, y, r, c);
    var before := Drawn(screen, sprite, x, y, r, c);
    var after := Drawn(screen, sprite, x, y, r, c + 1);
    assert before[k] == screen[k];
    assert after[k] == Xored(screen[k], SpriteBit(sprite[r], c));
    forall j | 0 <= j < CELLS && j != k
      ensures after[j] == before[j]
    {
      CellOfRowCol(j, x, y);
      var row, col := RowAt(j, y), ColAt(j, x);
      assert !(row == r && col == c);
    }
  }

  /** Finishing a row is starting the next one. */
  lemma DrawnRowEnd(screen: seq<U32>, sprite: seq<U8>, x: U8, y: U8, r: nat)
    requires |screen| == CELLS && |sprite| < HEIGHT
    ensures Drawn(screen, sprite, x, y, r, 8) == Drawn(screen, sprite, x, y, r + 1, 0)
    ensures Collides(screen, sprite, x, y, r, 8) == Collides(screen, sprite, x, y, r + 1, 0)
  {
  }

  /** The collision flag grows by exactly the pixel just blitted. */
  lemma CollidesStep(screen: seq<U32>, sprite: seq<U8>, x: U8, y: U8, r: nat, c: nat)
    requires |screen| == CELLS && r < |sprite| && c < 8
    ensures Collides(screen, sprite, x, y, r, c + 1) <==>
      Collides(screen, sprite, x, y, r, c) ||
      (SpriteBit(sprite[r], c) && PixelOn(screen[Cell(x, y, r, c)]))
  {
    if Collides(screen, sprite, x, y, r, c + 1) && !Collides(screen, sprite, x, y, r, c) {
      var row: nat, col: nat :| row < |sprite| && col < 8 && Before(row, col, r, c + 1) &&
        SpriteBit(sprite[row], col) && PixelOn(screen[Cell(x, y, row, col)]);
      assert row == r && col == c;
    }
    if SpriteBit(sprite[r], c) && PixelOn(screen[Cell(x, y, r, c)]) {
      assert Before(r, c, r, c + 1);
    }
  }

  lemma DrawnStart(screen: seq<U32>, sprite: seq<U8>, x: U8, y: U8)
    requires |screen| == CELLS && |sprite| < HEIGHT
    ensures Drawn(screen, sprite, x, y, 0, 0) == screen
    ensures !Collides(screen, sprite, x, y, 0, 0)
  {
  }

  /** A blit leaves every cell 0 or u32::MAX if they all were. */
  lemma DrawnBinary(screen: seq<U32>, sprite: seq<U8>, x: U8, y: U8)
    requires |screen| == CELLS && |sprite| < HEIGHT && Binary(screen)
    ensures Binary(Drawn(screen, sprite, x, y, |sprite|, 0))
  {
  }

  /** Only cells that some sprite pixel lands on are written. */
  lemma DrawnTouchesOnlySprite(screen: seq<U32>, sprite: seq<U8>, x: U8, y: U8, k: nat)
    requires |screen| == CELLS && |sprite| < HEIGHT && k < CELLS
    requires forall row, col :: 0 <= row < |sprite| && 0 <= col < 8 ==> Cell(x, y, row, col) != k
    ensures Drawn(screen, sprite, x, y, |sprite|, 0)[k] == screen[k]
  {
    CellOfRowCol(k, x, y);
  }

  /** Blitting the same sprite at the same place twice gives back a binary buffer. */
  lemma {:induction false} DrawnTwice(screen: seq<U32>, sprite: seq<U8>, x: U8, y: U8)
    requires |screen| == CELLS && |sprite| < HEIGHT && Binary(screen)
    ensures Drawn(Drawn(screen, sprite, x, y, |sprite|, 0), sprite, x, y, |sprite|, 0) == screen
  {
    var once := Drawn(screen, sprite, x, y, |sprite|, 0);
    var twice := Drawn(once, sprite, x, y, |sprite|, 0);
    forall k | 0 <= k < CELLS
      ensures twice[k] == screen[k]
    {
      var row, col := RowAt(k, y), ColAt(k, x);
      assert twice[k] == DrawnCell(once, sprite, x, y, |sprite|, 0, k);
      assert once[k] == DrawnCell(screen, sprite, x, y, |sprite|, 0, k);
      if row < |sprite| && col < 8 {
        XoredTwice(screen[k], SpriteBit(sprite[row], col));
      }
    }
  }

  /** XORing the same bit twice into a 0 or u32::MAX cell gives the cell back. */
  lemma XoredTwice(p: U32, bit: bool)
    requires p == 0 || p == ON
    ensures Xored(Xored(p, bit), bit) == p
  {
  }

  /** A collision of the blit names a cell that went from on to off. */
  lemma CollisionErases(screen: seq<U32>, sprite: seq<U8>, x: U8, y: U8)
    requires |screen| == CELLS && |sprite| < HEIGHT && Collides(screen, sprite, x, y, |sprite|, 0)
    ensures exists k :: 0 <= k < CELLS && PixelOn(screen[k]) && !PixelOn(Drawn(screen, sprite, x, y, |sprite|, 0)[k])
  {
    var out := Drawn(screen, sprite, x, y, |sprite|, 0);
    var row: nat, col: nat :| row < |sprite| && col < 8 && Before(row, col, |sprite|, 0) &&
      SpriteBit(sprite[row], col) && PixelOn(screen[Cell(x, y, row, col)]);
    var k := Cell(x, y, row, col);
    DrawnAtPixel(screen, sprite, x, y, row, col);
    assert PixelOn(screen[k]) && !PixelOn(out[k]);
  }

  /** The finished blit XORs each sprite pixel into the cell it lands on. */
  lemma DrawnAtPixel(screen: seq<U32>, sprite: seq<U8>, x: U8, y: U8, row: nat, col: nat)
    requires |screen| == CELLS && |sprite| < HEIGHT && row < |sprite| && col < 8
    ensures var k := Cell(x, y, row, col);
      Drawn(screen, sprite, x, y, |sprite|, 0)[k] == Xored(screen[k], SpriteBit(sprite[row], col))
  {
    var k := Cell(x, y, row, col);
    RowColOfCell(x, y, row, col);
    assert Drawn(screen, sprite, x, y, |sprite|, 0)[k] == DrawnCell(screen, sprite, x, y, |sprite|, 0, k);
  }

  /** A cell that went from on to off under the blit is a collision. */
  lemma ErasureCollides(screen: seq<U32>, sprite: seq<U8>, x: U8, y: U8, k: nat)
    requires |screen| == CELLS && |sprite| < HEIGHT && k < CELLS
    requires PixelOn(screen[k]) && !PixelOn(Drawn(screen, sprite, x, y, |sprite|, 0)[k])
    ensures Collides(screen, sprite, x, y, |sprite|, 0)
  {
    var out := Drawn(screen, sprite, x, y, |sprite|, 0);
    var row, col := RowAt(k, y), ColAt(k, x);
    CellOfRowCol(k, x, y);
    assert out[k] == DrawnCell(screen, sprite, x, y, |sprite|, 0, k);
    assert row < |sprite| && col < 8 && Before(row, col, |sprite|, 0) && SpriteBit(sprite[row], col);
  }

  /** The collision flag of a finished blit says exactly that some cell went from on to off. */
  lemma CollidesIffErased(screen: seq<U32>, sprite: seq<U8>, x: U8, y: U8)
    requires |screen| == CELLS && |sprite| < HEIGHT
    ensures Collides(screen, sprite, x, y, |sprite|, 0) <==>
      exists k :: 0 <= k < CELLS && PixelOn(screen[k]) && !PixelOn(Drawn(screen, sprite, x, y, |sprite|, 0)[k])
  {
    if Collides(screen, sprite, x, y, |sprite|, 0) {
      CollisionErases(screen, sprite, x, y);
    }
    if exists k :: 0 <= k < CELLS && PixelOn(screen[k]) && !PixelOn(Drawn(screen, sprite, x, y, |sprite|, 0)[k]) {
      var k :| 0 <= k < CELLS && PixelOn(screen[k]) && !PixelOn(Drawn(screen, sprite, x, y, |sprite|, 0)[k]);
      ErasureCollides(screen, sprite, x, y, k);
    }
  }
}
