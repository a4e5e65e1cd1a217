// The Dxyn sprite draw of emulator/chip8.go on its own: a 64x32 grid of 0/1
// cells, sprite rows of eight bits each, XOR drawing and collision detection.
// The draw is defined as the loop draws it (DrawRows over DrawBits, one set
// bit at a time); the lemmas then say which cells it toggles and when it
// reports a collision, without reference to the visiting order.
module Sprite {
  import opened Bytes

  const Width: nat := 64
  const Height: nat := 32

  /** A display: `Height` rows of `Width` cells, indexed `d[row][col]`. */
  predicate IsGrid(d: seq<seq<Pixel>>)
  {
    |d| == Height && forall r :: 0 <= r < |d| ==> |d[r]| == Width
  }

  /** The display while a draw is under way, with the collision seen so far (VF). */
  datatype Canvas = Canvas(pixels: seq<seq<Pixel>>, collided: bool)

  /** Go `y + uint8(i)`: the screen row of sprite row `i`, wrapping as a `uint8`. */
  function Row(y: Byte, i: nat): Byte
    requires i < 0x100
  {
    Add8(y, i)
  }

  /** Go `x + uint8(j)`: the screen column of sprite bit `j`, wrapping as a `uint8`. */
  function Col(x: Byte, j: nat): Byte
    requires j < 0x100
  {
    Add8(x, j)
  }

  /** Every set bit of the sprite lands on the screen (the Go code has no wrap and panics otherwise). */
  predicate OnScreen(rows: seq<Byte>, x: Byte, y: Byte)
  {
    |rows| < 0x100 &&
    forall i, j :: 0 <= i < |rows| && 0 <= j < 8 && BitSet(rows[i], j) ==>
      Row(y, i) < Height && Col(x, j) < Width
  }

  /** A sprite whose 8-pixel-wide box lies inside the screen is on screen, whatever its bits. */
  lemma SpriteInsideScreen(rows: seq<Byte>, x: Byte, y: Byte)
    requires x + 8 <= Width && y + |rows| <= Height
    ensures OnScreen(rows, x, y)
  {
    forall i, j | 0 <= i < |rows| && 0 <= j < 8
      ensures Row(y, i) < Height && Col(x, j) < Width
    {
      assert Add8(y, i) == y + i;
      assert Add8(x, j) == x + j;
    }
  }

  /** The grid with cell (r, c) toggled. */
  function Flip(d: seq<seq<Pixel>>, r: nat, c: nat): (res: seq<seq<Pixel>>)
    requires IsGrid(d) && r < Height && c < Width
    ensures IsGrid(res)
    ensures res[r][c] == 1 - d[r][c]
    ensures forall r', c' :: 0 <= r' < Height && 0 <= c' < Width && (r', c') != (r, c) ==>
      res[r'][c'] == d[r'][c']
  {
    var row: seq<Pixel> := d[r][c := Toggle(d[r][c])];
    d[r := row]
  }

  /** One set sprite bit at (r, c): a lit cell there is a collision; then the cell is toggled. */
  function Plot(cv: Canvas, r: nat, c: nat): Canvas
    requires IsGrid(cv.pixels) && r < Height && c < Width
  {
    Canvas(Flip(cv.pixels, r, c), cv.collided || cv.pixels[r][c] == 1)
  }

  /** The first `j` bits of sprite row `bits` drawn on screen row `r`, most significant bit first. */
  function DrawBits(cv: Canvas, bits: Byte, x: Byte, r: nat, j: nat): (res: Canvas)
    requires IsGrid(cv.pixels) && j <= 8
    requires forall k :: 0 <= k < j && BitSet(bits, k) ==> r < Height && Col(x, k) < Width
    ensures IsGrid(res.pixels)
    decreases j
  {
    if j == 0 then cv
    else
      var before := DrawBits(cv, bits, x, r, j - 1);
      if BitSet(bits, j - 1) then Plot(before, r, Col(x, j - 1)) else before
  }

  /** The first `i` sprite rows drawn at (x, y). */
  function DrawRows(cv: Canvas, rows: seq<Byte>, x: Byte, y: Byte, i: nat): (res: Canvas)
    requires IsGrid(cv.pixels) && OnScreen(rows, x, y) && i <= |rows|
    ensures IsGrid(res.pixels)
    decreases i
  {
    if i == 0 then cv
    else
      OnScreenRow(rows, x, y, i - 1);
      DrawBits(DrawRows(cv, rows, x, y, i - 1), rows[i - 1], x, Row(y, i - 1), 8)
  }

  /** A whole Dxyn draw of `rows` at (x, y) onto `d`, starting with no collision. */
  function Draw(d: seq<seq<Pixel>>, rows: seq<Byte>, x: Byte, y: Byte): Canvas
    requires IsGrid(d) && OnScreen(rows, x, y)
  {
    DrawRows(Canvas(d, false), rows, x, y, |rows|)
  }

  /** The bits of row `i` of a sprite that is on screen land on the screen. */
  lemma OnScreenRow(rows: seq<Byte>, x: Byte, y: Byte, i: nat)
    requires OnScreen(rows, x, y) && i < |rows|
    ensures forall k :: 0 <= k < 8 && BitSet(rows[i], k) ==> Row(y, i) < Height && Col(x, k) < Width
  {
    forall k | 0 <= k < 8 && BitSet(rows[i], k)
      ensures Row(y, i) < Height && Col(x, k) < Width
    {
      assert OnScreen(rows, x, y);
      assert 0 <= i < |rows| && 0 <= k < 8 && BitSet(rows[i], k);
      assert Row(y, i) == Add8(y, i) && Col(x, k) == Add8(x, k);
    }
  }

  /** Drawing one more row is drawing its eight bits onto the canvas so far. */
  lemma DrawRowsNext(cv: Canvas, rows: seq<Byte>, x: Byte, y: Byte, i: nat)
    requires IsGrid(cv.pixels) && OnScreen(rows, x, y) && i < |rows|
    ensures DrawRows(cv, rows, x, y, i + 1) == DrawBits(DrawRows(cv, rows, x, y, i), rows[i], x, Row(y, i), 8)
  {
  }

  /** Whether bit `k` of row `bits`, for some `k < j`, lands on column `c`. */
  predicate BitCovers(bits: Byte, x: Byte, j: nat, c: Byte)
  {
    var k := Sub8(c, x);
    k < j && k < 8 && BitSet(bits, k)
  }

  /** Whether some set bit of the first `n` sprite rows lands on (r, c). */
  predicate CoversFirst(rows: seq<Byte>, x: Byte, y: Byte, n: nat, r: Byte, c: Byte)
  {
    var i := Sub8(r, y);
    i < n && i < |rows| && BitCovers(rows[i], x, 8, c)
  }

  /** Whether some set bit of the sprite lands on (r, c). */
  predicate Covers(rows: seq<Byte>, x: Byte, y: Byte, r: Byte, c: Byte)
  {
    CoversFirst(rows, x, y, |rows|, r, c)
  }

  /** Screen coordinates and sprite offsets determine each other. */
  lemma OffsetInverse(base: Byte, k: nat, p: Byte)
    requires k < 0x100
    ensures Add8(base, k) == p <==> Sub8(p, base) == k
  {
  }

  /** Drawing one row toggles exactly the cells of that row under its set bits. */
  lemma {:induction false} DrawBitsPixels(cv: Canvas, bits: Byte, x: Byte, r: nat, j: nat, r': nat, c': nat)
    requires IsGrid(cv.pixels) && j <= 8
    requires forall k :: 0 <= k < j && BitSet(bits, k) ==> r < Height && Col(x, k) < Width
    requires r' < Height && c' < Width
    ensures DrawBits(cv, bits, x, r, j).pixels[r'][c'] ==
      if r' == r && BitCovers(bits, x, j, c') then 1 - cv.pixels[r'][c'] else cv.pixels[r'][c']
    decreases j
  {
    if j > 0 {
      DrawBitsPixels(cv, bits, x, r, j - 1, r', c');
      OffsetInverse(x, j - 1, c');
    }
  }

  /** Drawing one row reports a collision exactly when one of the cells under its set bits was lit. */
  lemma {:induction false} DrawBitsCollision(cv: Canvas, bits: Byte, x: Byte, r: nat, j: nat)
    requires IsGrid(cv.pixels) && j <= 8
    requires forall k :: 0 <= k < j && BitSet(bits, k) ==> r < Height && Col(x, k) < Width
    ensures DrawBits(cv, bits, x, r, j).collided <==>
      cv.collided || exists c: Byte :: c < Width && BitCovers(bits, x, j, c) && cv.pixels[r][c] == 1
    decreases j
  {
    if j > 0 {
      var before := DrawBits(cv, bits, x, r, j - 1);
      DrawBitsCollision(cv, bits, x, r, j - 1);
      if BitSet(bits, j - 1) {
        var c0 := Col(x, j - 1);
        OffsetInverse(x, j - 1, c0);
        DrawBitsPixels(cv, bits, x, r, j - 1, r, c0);
        if cv.pixels[r][c0] == 1 {
          assert BitCovers(bits, x, j, c0);
        }
        forall c: Byte | c < Width && BitCovers(bits, x, j, c) && !BitCovers(bits, x, j - 1, c)
          ensures c == c0
        {
          OffsetInverse(x, j - 1, c);
        }
      } else {
        forall c: Byte | c < Width && BitCovers(bits, x, j, c)
          ensures BitCovers(bits, x, j - 1, c)
        {
        }
      }
    }
  }

  /** Drawing the first `i` rows toggles exactly the cells under their set bits. */
  lemma {:induction false} DrawRowsPixels(cv: Canvas, rows: seq<Byte>, x: Byte, y: Byte, i: nat, r: nat, c: nat)
    requires IsGrid(cv.pixels) && OnScreen(rows, x, y) && i <= |rows|
    requires r < Height && c < Width
    ensures DrawRows(cv, rows, x, y, i).pixels[r][c] ==
      if CoversFirst(rows, x, y, i, r, c) then 1 - cv.pixels[r][c] else cv.pixels[r][c]
    decreases i
  {
    if i > 0 {
      DrawRowsPixels(cv, rows, x, y, i - 1, r, c);
      OnScreenRow(rows, x, y, i - 1);
      DrawBitsPixels(DrawRows(cv, rows, x, y, i - 1), rows[i - 1], x, Row(y, i - 1), 8, r, c);
      OffsetInverse(y, i - 1, r);
    }
  }

  /** Drawing the first `i` rows reports a collision exactly when a cell under one of their set bits was lit. */
  lemma {:induction false} DrawRowsCollision(cv: Canvas, rows: seq<Byte>, x: Byte, y: Byte, i: nat)
    requires IsGrid(cv.pixels) && OnScreen(rows, x, y) && i <= |rows|
    ensures DrawRows(cv, rows, x, y, i).collided <==>
      cv.collided ||
      exists r: Byte, c: Byte :: r < Height && c < Width && CoversFirst(rows, x, y, i, r, c) && cv.pixels[r][c] == 1
    decreases i
  {
    if i > 0 {
      var before := DrawRows(cv, rows, x, y, i - 1);
      var row := Row(y, i - 1);
      DrawRowsCollision(cv, rows, x, y, i - 1);
      OnScreenRow(rows, x, y, i - 1);
      DrawBitsCollision(before, rows[i - 1], x, row, 8);
      DrawRowsNext(cv, rows, x, y, i - 1);
      CoveredByMoreRows(cv, rows, x, y, i - 1, before, row);
    }
  }

  /** One more row: a cell lit before the draw is covered by the first k+1 rows exactly when it is
      covered by the first k, or lies under row k and is still lit when row k is drawn. */
  lemma CoveredByMoreRows(cv: Canvas, rows: seq<Byte>, x: Byte, y: Byte, k: nat, before: Canvas, row: Byte)
    requires IsGrid(cv.pixels) && OnScreen(rows, x, y) && k < |rows|
    requires before == DrawRows(cv, rows, x, y, k) && row == Row(y, k)
    requires forall j :: 0 <= j < 8 && BitSet(rows[k], j) ==> row < Height
    ensures (exists r: Byte, c: Byte :: r < Height && c < Width && CoversFirst(rows, x, y, k, r, c) && cv.pixels[r][c] == 1) || (exists c: Byte :: c < Width && BitCovers(rows[k], x, 8, c) && before.pixels[row][c] == 1)
        <==> (exists r: Byte, c: Byte :: r < Height && c < Width && CoversFirst(rows, x, y, k + 1, r, c) && cv.pixels[r][c] == 1)
  {
    CoveredByMoreRowsIf(cv, rows, x, y, k, before, row);
    CoveredByMoreRowsOnlyIf(cv, rows, x, y, k, before, row);
  }

  /** The first direction of CoveredByMoreRows. */
  lemma CoveredByMoreRowsIf(cv: Canvas, rows: seq<Byte>, x: Byte, y: Byte, k: nat, before: Canvas, row: Byte)
    requires IsGrid(cv.pixels) && OnScreen(rows, x, y) && k < |rows|
    requires before == DrawRows(cv, rows, x, y, k) && row == Row(y, k)
    requires forall j :: 0 <= j < 8 && BitSet(rows[k], j) ==> row < Height
    ensures (exists r: Byte, c: Byte :: r < Height && c < Width && CoversFirst(rows, x, y, k, r, c) && cv.pixels[r][c] == 1) || (exists c: Byte :: c < Width && BitCovers(rows[k], x, 8, c) && before.pixels[row][c] == 1)
        ==> (exists r: Byte, c: Byte :: r < Height && c < Width && CoversFirst(rows, x, y, k + 1, r, c) && cv.pixels[r][c] == 1)
  {
    if (exists r: Byte, c: Byte :: r < Height && c < Width && CoversFirst(rows, x, y, k, r, c) && cv.pixels[r][c] == 1) {
      var r: Byte, c: Byte :| r < Height && c < Width && CoversFirst(rows, x, y, k, r, c) && cv.pixels[r][c] == 1;
      assert CoversFirst(rows, x, y, k + 1, r, c);
    } else if (exists c: Byte :: c < Width && BitCovers(rows[k], x, 8, c) && before.pixels[row][c] == 1) {
      var c: Byte :| c < Width && BitCovers(rows[k], x, 8, c) && before.pixels[row][c] == 1;
      LastRowCell(cv, rows, x, y, k, before, row, c);
      assert CoversFirst(rows, x, y, k + 1, row, c) && cv.pixels[row][c] == 1;
    }
  }

  /** The second direction of CoveredByMoreRows. */
  lemma CoveredByMoreRowsOnlyIf(cv: Canvas, rows: seq<Byte>, x: Byte, y: Byte, k: nat, before: Canvas, row: Byte)
    requires IsGrid(cv.pixels) && OnScreen(rows, x, y) && k < |rows|
    requires before == DrawRows(cv, rows, x, y, k) && row == Row(y, k)
    requires forall j :: 0 <= j < 8 && BitSet(rows[k], j) ==> row < Height
    ensures (exists r: Byte, c: Byte :: r < Height && c < Width && CoversFirst(rows, x, y, k + 1, r, c) && cv.pixels[r][c] == 1)
        ==> (exists r: Byte, c: Byte :: r < Height && c < Width && CoversFirst(rows, x, y, k, r, c) && cv.pixels[r][c] == 1) || (exists c: Byte :: c < Width && BitCovers(rows[k], x, 8, c) && before.pixels[row][c] == 1)
  {
    if (exists r: Byte, c: Byte :: r < Height && c < Width && CoversFirst(rows, x, y, k + 1, r, c) && cv.pixels[r][c] == 1) {
      var r: Byte, c: Byte :| r < Height && c < Width && CoversFirst(rows, x, y, k + 1, r, c) && cv.pixels[r][c] == 1;
      CoversFirstSplit(rows, x, y, k + 1);
      if !CoversFirst(rows, x, y, k, r, c) {
        LastRowCell(cv, rows, x, y, k, before, row, c);
        assert r == row && BitCovers(rows[k], x, 8, c) && before.pixels[row][c] == 1;
      }
    }
  }

  /** A cell under row k's set bits is not touched by the first k rows, and the first k+1 rows cover it. */
  lemma LastRowCell(cv: Canvas, rows: seq<Byte>, x: Byte, y: Byte, k: nat, before: Canvas, row: Byte, c: Byte)
    requires IsGrid(cv.pixels) && OnScreen(rows, x, y) && k < |rows|
    requires before == DrawRows(cv, rows, x, y, k) && row == Row(y, k)
    requires c < Width && BitCovers(rows[k], x, 8, c)
    ensures row < Height && before.pixels[row][c] == cv.pixels[row][c] && CoversFirst(rows, x, y, k + 1, row, c)
  {
    OnScreenRow(rows, x, y, k);
    OffsetInverse(y, k, row);
    DrawRowsPixels(cv, rows, x, y, k, row, c);
  }

  /** A cell covered by the first i rows is covered by the first i-1 rows or lies under row i-1. */
  lemma CoversFirstSplit(rows: seq<Byte>, x: Byte, y: Byte, i: nat)
    requires 0 < i <= |rows| && |rows| < 0x100
    ensures forall r: Byte, c: Byte :: r < Height && c < Width && CoversFirst(rows, x, y, i, r, c) ==>
      CoversFirst(rows, x, y, i - 1, r, c) || (r == Row(y, i - 1) && BitCovers(rows[i - 1], x, 8, c))
  {
    forall r: Byte, c: Byte | r < Height && c < Width && CoversFirst(rows, x, y, i, r, c)
      ensures CoversFirst(rows, x, y, i - 1, r, c) || (r == Row(y, i - 1) && BitCovers(rows[i - 1], x, 8, c))
    {
      OffsetInverse(y, i - 1, r);
    }
  }

  /** Dxyn toggles exactly the cells under the sprite's set bits and leaves the others alone. */
  lemma DrawPixels(d: seq<seq<Pixel>>, rows: seq<Byte>, x: Byte, y: Byte)
    requires IsGrid(d) && OnScreen(rows, x, y)
    ensures forall r, c :: 0 <= r < Height && 0 <= c < Width ==>
      Draw(d, rows, x, y).pixels[r][c] == if Covers(rows, x, y, r, c) then 1 - d[r][c] else d[r][c]
  {
    forall r, c | 0 <= r < Height && 0 <= c < Width
      ensures Draw(d, rows, x, y).pixels[r][c] == if Covers(rows, x, y, r, c) then 1 - d[r][c] else d[r][c]
    {
      DrawRowsPixels(Canvas(d, false), rows, x, y, |rows|, r, c);
    }
  }

  /** Dxyn reports a collision (VF = 1) exactly when one of the cells under the sprite was lit. */
  lemma DrawCollision(d: seq<seq<Pixel>>, rows: seq<Byte>, x: Byte, y: Byte)
    requires IsGrid(d) && OnScreen(rows, x, y)
    ensures Draw(d, rows, x, y).collided <==>
      exists r: Byte, c: Byte :: r < Height && c < Width && Covers(rows, x, y, r, c) && d[r][c] == 1
  {
    DrawRowsCollision(Canvas(d, false), rows, x, y, |rows|);
  }

  /** Drawing the same sprite at the same place twice gives back the original display. */
  lemma DrawTwiceRestores(d: seq<seq<Pixel>>, rows: seq<Byte>, x: Byte, y: Byte)
    requires IsGrid(d) && OnScreen(rows, x, y)
    ensures Draw(Draw(d, rows, x, y).pixels, rows, x, y).pixels == d
  {
    var once := Draw(d, rows, x, y).pixels;
    var twice := Draw(once, rows, x, y).pixels;
    DrawPixels(d, rows, x, y);
    DrawPixels(once, rows, x, y);
    forall r | 0 <= r < Height
      ensures twice[r] == d[r]
    {
      assert |twice[r]| == |d[r]| == Width;
    }
  }

  /** The second of two identical draws reports a collision whenever the first drew on an unlit cell. */
  lemma DrawTwiceCollides(d: seq<seq<Pixel>>, rows: seq<Byte>, x: Byte, y: Byte, r: Byte, c: Byte)
    requires IsGrid(d) && OnScreen(rows, x, y)
    requires r < Height && c < Width && Covers(rows, x, y, r, c) && d[r][c] == 0
    ensures Draw(Draw(d, rows, x, y).pixels, rows, x, y).collided
  {
    var once := Draw(d, rows, x, y).pixels;
    DrawPixels(d, rows, x, y);
    DrawCollision(once, rows, x, y);
    assert once[r][c] == 1;
  }
}
