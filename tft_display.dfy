/**
 * The second ST7735 driver (the `display_*` functions): every byte goes
 * out as its own SPI transaction, pixels are drawn one at a time through
 * an 11-transfer address window, and text is drawn from the same font
 * scaled by an integer `size`, 7 rows per glyph.
 */
module TftDisplay {
  import opened PixelBus
  import opened LineWalk
  import opened Font

  const Width: int := 128
  const Height: int := 160
  const Caset: bv8 := 0x2A
  const Raset: bv8 := 0x2B
  const Ramwr: bv8 := 0x2C
  /** Rows of each glyph this driver draws; the font's eighth row is never used. */
  const GlyphRows: int := 7
  /** The `uint8_t` scale factor of the text routines. */
  newtype Scale = s: int | 0 <= s < 256

  /** The unscaled character cell: 5 glyph columns plus one of spacing, 8 rows. */
  const CellWidth: int := 6
  const CellHeight: int := 8

  /** One coordinate range of an address window: its command, then each 8-bit end after a zero byte. */
  function Range(cmd: bv8, lo: bv8, hi: bv8): seq<Transfer> {
    [Command(cmd), Data([0]), Data([lo]), Data([0]), Data([hi])]
  }

  /** `tft_set_addr_window`: column range, row range, then the memory write command. */
  function AddrWindow(x0: bv8, y0: bv8, x1: bv8, y1: bv8): seq<Transfer> {
    Range(Caset, x0, x1) + Range(Raset, y0, y1) + [Command(Ramwr)]
  }

  /** A coordinate passed as a `uint8_t`: on screen it fits unchanged. */
  function Byte(v: int): bv8
    requires 0 <= v < 256
  {
    v as bv8
  }

  predicate OnScreen(x: int, y: int) {
    0 <= x < Width && 0 <= y < Height
  }

  /** One `display_draw_pixel` call: its coordinates and colour. */
  datatype Dot = Dot(x: int, y: int, color: bv16)

  /** What one `display_draw_pixel` call sends: nothing off screen, else a 1x1 window and one pixel. */
  function PixelWrite(d: Dot): seq<Transfer> {
    if OnScreen(d.x, d.y)
    then AddrWindow(Byte(d.x), Byte(d.y), Byte(d.x), Byte(d.y)) + [Data(PixelBytes(d.color))]
    else []
  }

  /** The transfers of a run of `display_draw_pixel` calls. */
  function Wire(ds: seq<Dot>): seq<Transfer>
  {
    if ds == [] then [] else Wire(ds[..|ds| - 1]) + PixelWrite(ds[|ds| - 1])
  }

  lemma WireSnoc(a: seq<Dot>, d: Dot)
    ensures Wire(a + [d]) == Wire(a) + PixelWrite(d)
  {
    assert (a + [d])[..|a|] == a;
  }

  lemma {:induction false} WireAppend(a: seq<Dot>, b: seq<Dot>)
    ensures Wire(a + b) == Wire(a) + Wire(b)
  {
    if b == [] {
      assert a + b == a;
    } else {
      var front := b[..|b| - 1];
      var d := b[|b| - 1];
      assert a + b == (a + front) + [d];
      assert front + [d] == b;
      WireAppend(a, front);
      WireSnoc(a + front, d);
      WireSnoc(front, d);
      Extend(Wire(a), Wire(front), PixelWrite(d), Wire(b));
    }
  }

  /** The dots of `ds` that lie on the screen. */
  function VisibleDots(ds: seq<Dot>): seq<Dot>
  {
    if ds == [] then [] else VisibleDots(ds[..|ds| - 1]) + (if OnScreen(ds[|ds| - 1].x, ds[|ds| - 1].y) then [ds[|ds| - 1]] else [])
  }

  /**
   * Off-screen pixels send nothing at all, and each on-screen pixel costs
   * exactly twelve transactions: eleven for its window, one for its colour.
   */
  lemma {:induction false} WireCost(ds: seq<Dot>)
    ensures Wire(ds) == Wire(VisibleDots(ds))
    ensures |Wire(ds)| == 12 * |VisibleDots(ds)|
    ensures forall k :: 0 <= k < |VisibleDots(ds)| ==> OnScreen(VisibleDots(ds)[k].x, VisibleDots(ds)[k].y)
  {
    if ds != [] {
      var front := ds[..|ds| - 1];
      var d := ds[|ds| - 1];
      if OnScreen(d.x, d.y) {
        assert VisibleDots(ds) == VisibleDots(front) + [d];
        WireCost(front);
        WireSnoc(VisibleDots(front), d);
      } else {
        assert VisibleDots(ds) == VisibleDots(front);
        WireCost(front);
      }
      PixelWriteSize(d);
    }
  }

  /** An on-screen pixel is eleven window transfers and one data transfer. */
  lemma PixelWriteSize(d: Dot)
    ensures |PixelWrite(d)| == if OnScreen(d.x, d.y) then 12 else 0
  {
  }

  /** `n` calls of `tft_write_data_16` with colour `c`. */
  function Words(c: bv16, n: nat): seq<Transfer>
  {
    if n == 0 then [] else Words(c, n - 1) + [Data(PixelBytes(c))]
  }

  /** `n` word writes are `n` two-byte transactions carrying `n` pixels of `c`. */
  lemma {:induction false} WordsCarry(c: bv16, n: nat)
    ensures |Words(c, n)| == n
    ensures forall k :: 0 <= k < n ==> Words(c, n)[k] == Data(PixelBytes(c))
    ensures Payload(Words(c, n)) == Repeat(c, n)
  {
    if n > 0 {
      WordsCarry(c, n - 1);
      PayloadSnoc(Words(c, n - 1), Data(PixelBytes(c)));
    }
  }

  lemma {:induction false} PayloadSnoc(ts: seq<Transfer>, t: Transfer)
    ensures Payload(ts + [t]) == Payload(ts) + (if t.Data? then t.bytes else [])
  {
    if ts != [] {
      PayloadSnoc(ts[1..], t);
      assert (ts + [t])[1..] == ts[1..] + [t];
    }
  }

  /** `display_fill_screen`: the whole screen as one window, then one word per pixel. */
  function FillWrites(color: bv16): seq<Transfer> {
    AddrWindow(0, 0, (Width - 1) as bv8, (Height - 1) as bv8) + Words(color, Width * Height)
  }

  /** Filling the screen sends exactly 128 x 160 pixels of the colour after the window. */
  lemma FillCount(color: bv16)
    ensures |FillWrites(color)| == 11 + Width * Height
    ensures Payload(FillWrites(color)[11..]) == Repeat(color, Width * Height)
  {
    WordsCarry(color, Width * Height);
    assert FillWrites(color)[11..] == Words(color, Width * Height);
  }

  // Scaled glyphs

  /** The top `n` dots of the block column at x = `px`, starting at row `py`, top to bottom. */
  function BlockColumn(px: int, py: int, n: nat, c: bv16): seq<Dot>
  {
    if n == 0 then [] else BlockColumn(px, py, n - 1, c) + [Dot(px, py + n - 1, c)]
  }

  /** Columns 0 .. n-1 of a `size` x `size` block at (px, py), each top to bottom. */
  function Block(px: int, py: int, size: nat, n: nat, c: bv16): seq<Dot>
  {
    if n == 0 then [] else Block(px, py, size, n - 1, c) + BlockColumn(px + n - 1, py, size, c)
  }

  function Square(px: int, py: int, size: nat, c: bv16): seq<Dot> {
    Block(px, py, size, size, c)
  }

  /**
   * Glyph cell (i, j) at scale `size`: a block in the foreground where the
   * bit is set, else in the background unless that equals the foreground.
   */
  function CellDots(g: Glyph, x: int, y: int, i: int, j: int, size: nat, color: bv16, bg: bv16): seq<Dot>
    requires 0 <= i < GlyphWidth && 0 <= j < GlyphRows
  {
    if Bit(g, i, j) then Square(x + i * size, y + j * size, size, color)
    else if bg != color then Square(x + i * size, y + j * size, size, bg)
    else []
  }

  /** Rows 0 .. n-1 of glyph column `i`. */
  function RowsUpTo(g: Glyph, x: int, y: int, i: int, n: int, size: nat, color: bv16, bg: bv16): seq<Dot>
    requires 0 <= i < GlyphWidth && 0 <= n <= GlyphRows
  {
    if n == 0 then [] else RowsUpTo(g, x, y, i, n - 1, size, color, bg) + CellDots(g, x, y, i, n - 1, size, color, bg)
  }

  /** Columns 0 .. n-1 of a glyph, each top to bottom. */
  function ColumnsUpTo(g: Glyph, x: int, y: int, n: int, size: nat, color: bv16, bg: bv16): seq<Dot>
    requires 0 <= n <= GlyphWidth
  {
    if n == 0 then [] else ColumnsUpTo(g, x, y, n - 1, size, color, bg) + RowsUpTo(g, x, y, n - 1, GlyphRows, size, color, bg)
  }

  /** The pixels `display_draw_char` draws for `c` at (x, y), a space for characters outside 32..126. */
  function CharDots(c: char, x: int, y: int, color: bv16, bg: bv16, size: nat): seq<Dot> {
    ColumnsUpTo(Table(GlyphIndex(c)), x, y, GlyphWidth, size, color, bg)
  }

  /** Dot `d` is what scaled glyph `g` at (x, y) paints at its position. */
  ghost predicate Paints(g: Glyph, x: int, y: int, size: nat, color: bv16, bg: bv16, d: Dot) {
    size > 0 && x <= d.x < x + GlyphWidth * size && y <= d.y < y + GlyphRows * size &&
    var i := (d.x - x) / size;
    var j := (d.y - y) / size;
    0 <= i < GlyphWidth && 0 <= j < GlyphRows &&
    if Bit(g, i, j) then d.color == color else bg != color && d.color == bg
  }

  ghost predicate AllPaint(g: Glyph, x: int, y: int, size: nat, color: bv16, bg: bv16, ds: seq<Dot>) {
    forall k :: 0 <= k < |ds| ==> Paints(g, x, y, size, color, bg, ds[k])
  }

  lemma AllPaintAppend(g: Glyph, x: int, y: int, size: nat, color: bv16, bg: bv16, a: seq<Dot>, b: seq<Dot>)
    requires AllPaint(g, x, y, size, color, bg, a) && AllPaint(g, x, y, size, color, bg, b)
    ensures AllPaint(g, x, y, size, color, bg, a + b)
  {
    forall k | 0 <= k < |a + b|
      ensures Paints(g, x, y, size, color, bg, (a + b)[k])
    {
      if k >= |a| {
        assert (a + b)[k] == b[k - |a|];
      }
    }
  }

  lemma MulAtLeast(k: int, s: int)
    requires k >= 1 && s > 0
    ensures k * s >= s
  {
    assert k * s == (k - 1) * s + s;
  }

  /** Offset `i size + a`, with `a` below `size`, divides back to `i`. */
  lemma DivBlock(i: int, size: int, a: int)
    requires size > 0 && 0 <= a < size
    ensures (i * size + a) / size == i
  {
    var n := i * size + a;
    var q := n / size;
    var r := n % size;
    assert q * size + r == n;
    if q > i {
      MulAtLeast(q - i, size);
    } else if q < i {
      MulAtLeast(i - q, size);
    }
  }

  lemma MulBelow(i: int, size: int, a: int, n: int)
    requires size > 0 && 0 <= i < n && 0 <= a < size
    ensures 0 <= i * size + a < n * size
  {
    MulMono(size, 0, i);
    MulMono(size, i + 1, n);
    assert (i + 1) * size == i * size + size;
  }

  /** Every dot of a block lies in the block and has its colour. */
  lemma {:induction false} BlockColumnIn(px: int, py: int, n: nat, c: bv16)
    ensures forall k :: 0 <= k < |BlockColumn(px, py, n, c)| ==>
      BlockColumn(px, py, n, c)[k].x == px && py <= BlockColumn(px, py, n, c)[k].y < py + n &&
      BlockColumn(px, py, n, c)[k].color == c
  {
    if n > 0 {
      BlockColumnIn(px, py, n - 1, c);
    }
  }

  lemma {:induction false} BlockIn(px: int, py: int, size: nat, n: nat, c: bv16)
    ensures forall k :: 0 <= k < |Block(px, py, size, n, c)| ==>
      px <= Block(px, py, size, n, c)[k].x < px + n && py <= Block(px, py, size, n, c)[k].y < py + size &&
      Block(px, py, size, n, c)[k].color == c
  {
    if n > 0 {
      BlockIn(px, py, size, n - 1, c);
      BlockColumnIn(px + n - 1, py, size, c);
      var a := Block(px, py, size, n - 1, c);
      var b := BlockColumn(px + n - 1, py, size, c);
      assert forall k :: |a| <= k < |a + b| ==> (a + b)[k] == b[k - |a|];
    }
  }

  /** A cell's dots lie in its block, in the colour the bit selects. */
  lemma CellPaints(g: Glyph, x: int, y: int, i: int, j: int, size: nat, color: bv16, bg: bv16)
    requires 0 <= i < GlyphWidth && 0 <= j < GlyphRows
    ensures AllPaint(g, x, y, size, color, bg, CellDots(g, x, y, i, j, size, color, bg))
  {
    var ds := CellDots(g, x, y, i, j, size, color, bg);
    if ds != [] {
      var c := if Bit(g, i, j) then color else bg;
      assert ds == Square(x + i * size, y + j * size, size, c);
      BlockIn(x + i * size, y + j * size, size, size, c);
      forall k | 0 <= k < |ds|
        ensures Paints(g, x, y, size, color, bg, ds[k])
      {
        var d := ds[k];
        var a := d.x - (x + i * size);
        var b := d.y - (y + j * size);
        DivBlock(i, size, a);
        DivBlock(j, size, b);
        MulBelow(i, size, a, GlyphWidth);
        MulBelow(j, size, b, GlyphRows);
        assert d.x - x == i * size + a && d.y - y == j * size + b;
      }
    }
  }

  lemma {:induction false} RowsPaint(g: Glyph, x: int, y: int, i: int, n: int, size: nat, color: bv16, bg: bv16)
    requires 0 <= i < GlyphWidth && 0 <= n <= GlyphRows
    ensures AllPaint(g, x, y, size, color, bg, RowsUpTo(g, x, y, i, n, size, color, bg))
  {
    if n > 0 {
      RowsPaint(g, x, y, i, n - 1, size, color, bg);
      CellPaints(g, x, y, i, n - 1, size, color, bg);
      AllPaintAppend(g, x, y, size, color, bg, RowsUpTo(g, x, y, i, n - 1, size, color, bg), CellDots(g, x, y, i, n - 1, size, color, bg));
    }
  }

  lemma {:induction false} ColumnsPaint(g: Glyph, x: int, y: int, n: int, size: nat, color: bv16, bg: bv16)
    requires 0 <= n <= GlyphWidth
    ensures AllPaint(g, x, y, size, color, bg, ColumnsUpTo(g, x, y, n, size, color, bg))
  {
    if n > 0 {
      ColumnsPaint(g, x, y, n - 1, size, color, bg);
      RowsPaint(g, x, y, n - 1, GlyphRows, size, color, bg);
      AllPaintAppend(g, x, y, size, color, bg, ColumnsUpTo(g, x, y, n - 1, size, color, bg), RowsUpTo(g, x, y, n - 1, GlyphRows, size, color, bg));
    }
  }

  /**
   * Every pixel `display_draw_char` draws lies in the 5 size x 7 size cell
   * at (x, y), and has the foreground colour exactly where the glyph bit of
   * its block is set, the background elsewhere, and only when the
   * background differs from the foreground. At size 0 it draws nothing.
   */
  lemma CharDotsSound(c: char, x: int, y: int, color: bv16, bg: bv16, size: nat)
    ensures AllPaint(Table(GlyphIndex(c)), x, y, size, color, bg, CharDots(c, x, y, color, bg, size))
  {
    ColumnsPaint(Table(GlyphIndex(c)), x, y, GlyphWidth, size, color, bg);
  }

  lemma {:induction false} InBlockColumn(px: int, py: int, n: nat, c: bv16, b: int)
    requires 0 <= b < n
    ensures Dot(px, py + b, c) in BlockColumn(px, py, n, c)
  {
    if b < n - 1 {
      InBlockColumn(px, py, n - 1, c, b);
    }
  }

  lemma {:induction false} InBlock(px: int, py: int, size: nat, n: nat, c: bv16, a: int, b: int)
    requires 0 <= a < n && 0 <= b < size
    ensures Dot(px + a, py + b, c) in Block(px, py, size, n, c)
  {
    var front := Block(px, py, size, n - 1, c);
    assert Block(px, py, size, n, c) == front + BlockColumn(px + (n - 1), py, size, c);
    if a < n - 1 {
      InBlock(px, py, size, n - 1, c, a, b);
      assert Dot(px + a, py + b, c) in front;
    } else {
      InBlockColumn(px + a, py, size, c, b);
    }
  }

  lemma {:induction false} InRows(g: Glyph, x: int, y: int, i: int, n: int, size: nat, color: bv16, bg: bv16, j: int, d: Dot)
    requires 0 <= i < GlyphWidth && 0 <= j < n <= GlyphRows
    requires d in CellDots(g, x, y, i, j, size, color, bg)
    ensures d in RowsUpTo(g, x, y, i, n, size, color, bg)
  {
    if j < n - 1 {
      InRows(g, x, y, i, n - 1, size, color, bg, j, d);
    }
  }

  lemma {:induction false} InColumns(g: Glyph, x: int, y: int, n: int, size: nat, color: bv16, bg: bv16, i: int, d: Dot)
    requires 0 <= i < n <= GlyphWidth
    requires d in RowsUpTo(g, x, y, i, GlyphRows, size, color, bg)
    ensures d in ColumnsUpTo(g, x, y, n, size, color, bg)
  {
    if i < n - 1 {
      InColumns(g, x, y, n - 1, size, color, bg, i, d);
    }
  }

  /**
   * For glyph column `i` and row `j`, `display_draw_char` paints every pixel
   * of the size x size block at (x + i size, y + j size): in the foreground
   * when the bit is set, in the background when it is clear and the two
   * colours differ.
   */
  lemma CharDotsComplete(c: char, x: int, y: int, color: bv16, bg: bv16, size: nat, i: int, j: int, a: int, b: int)
    requires 0 <= i < GlyphWidth && 0 <= j < GlyphRows && 0 <= a < size && 0 <= b < size
    requires GlyphBit(c, i, j) || bg != color
    ensures Dot(x + i * size + a, y + j * size + b, if GlyphBit(c, i, j) then color else bg)
         in CharDots(c, x, y, color, bg, size)
  {
    GlyphDotsComplete(Table(GlyphIndex(c)), x, y, color, bg, size, i, j, a, b);
  }

  /** Pixel (a, b) of glyph cell (i, j) is one of the cell's dots when the cell is drawn. */
  lemma InCell(g: Glyph, x: int, y: int, color: bv16, bg: bv16, size: nat, i: int, j: int, a: int, b: int)
    requires 0 <= i < GlyphWidth && 0 <= j < GlyphRows && 0 <= a < size && 0 <= b < size
    requires Bit(g, i, j) || bg != color
    ensures Dot(x + i * size + a, y + j * size + b, if Bit(g, i, j) then color else bg)
         in CellDots(g, x, y, i, j, size, color, bg)
  {
    var px, py := x + i * size, y + j * size;
    var c := if Bit(g, i, j) then color else bg;
    InBlock(px, py, size, size, c, a, b);
    assert Dot(px + a, py + b, c) in Square(px, py, size, c);
    assert CellDots(g, x, y, i, j, size, color, bg) == Square(px, py, size, c);
  }

  lemma GlyphDotsComplete(g: Glyph, x: int, y: int, color: bv16, bg: bv16, size: nat, i: int, j: int, a: int, b: int)
    requires 0 <= i < GlyphWidth && 0 <= j < GlyphRows && 0 <= a < size && 0 <= b < size
    requires Bit(g, i, j) || bg != color
    ensures Dot(x + i * size + a, y + j * size + b, if Bit(g, i, j) then color else bg)
         in ColumnsUpTo(g, x, y, GlyphWidth, size, color, bg)
  {
    var d := Dot(x + i * size + a, y + j * size + b, if Bit(g, i, j) then color else bg);
    InCell(g, x, y, color, bg, size, i, j, a, b);
    InRows(g, x, y, i, GlyphRows, size, color, bg, j, d);
    InColumns(g, x, y, GlyphWidth, size, color, bg, i, d);
  }

  /**
   * Drawing only 7 rows loses no set bit: every pixel a glyph sets,
   * in any of the font's 8 rows, is drawn in the foreground.
   */
  lemma SetBitsAllDrawn(c: char, x: int, y: int, color: bv16, bg: bv16, size: nat, i: int, j: int, a: int, b: int)
    requires 0 <= i < GlyphWidth && 0 <= j < 8 && 0 <= a < size && 0 <= b < size
    requires GlyphBit(c, i, j)
    ensures Dot(x + i * size + a, y + j * size + b, color) in CharDots(c, x, y, color, bg, size)
  {
    RowSevenUnused(c, i);
    SetBitDrawn(Table(GlyphIndex(c)), x, y, color, bg, size, i, j, a, b);
  }

  lemma SetBitDrawn(g: Glyph, x: int, y: int, color: bv16, bg: bv16, size: nat, i: int, j: int, a: int, b: int)
    requires 0 <= i < GlyphWidth && 0 <= j < 8 && 0 <= a < size && 0 <= b < size
    requires Bit(g, i, j) && !Bit(g, i, 7)
    ensures Dot(x + i * size + a, y + j * size + b, color) in ColumnsUpTo(g, x, y, GlyphWidth, size, color, bg)
  {
    GlyphDotsComplete(g, x, y, color, bg, size, i, j, a, b);
  }

  /** A character outside 32..126 is drawn exactly as a space. */
  lemma UnprintableDrawnAsSpace(c: char, x: int, y: int, color: bv16, bg: bv16, size: nat)
    requires c as int < FirstPrintable || c as int > LastPrintable
    ensures CharDots(c, x, y, color, bg, size) == CharDots(' ', x, y, color, bg, size)
  {
  }

  // String layout

  /**
   * Where `display_print_string` puts the glyphs of `text`, starting with
   * the cursor at (cx, cy) for a text that began at column `x`.
   */
  function StringFrom(x: int, size: nat, cx: int, cy: int, text: string): seq<Placed>
    decreases |text|
  {
    if text == [] then []
    else if text[0] == '\n' then StringFrom(x, size, x, cy + size * CellHeight, text[1..])
    else if text[0] == '\r' then StringFrom(x, size, x, cy, text[1..])
    else
      var next := cx + size * CellWidth;
      [Placed(text[0], cx, cy)] +
      (if next > Width - size * CellWidth then StringFrom(x, size, x, cy + size * CellHeight, text[1..])
       else StringFrom(x, size, next, cy, text[1..]))
  }

  function StringLayout(x: int, y: int, size: nat, text: string): seq<Placed> {
    StringFrom(x, size, x, y, text)
  }

  /** The characters of `text` other than line feeds and carriage returns, in order. */
  function Drawn(text: string): string
  {
    if text == [] then [] else (if text[0] == '\n' || text[0] == '\r' then [] else [text[0]]) + Drawn(text[1..])
  }

  /** `d` is a whole number of text rows of height `step` (none when the scale is 0). */
  predicate WholeRows(d: int, step: nat) {
    if step == 0 then d == 0 else d % step == 0
  }

  /** One more row keeps an offset a whole number of rows. */
  lemma WholeRowsNext(d: int, step: nat)
    requires WholeRows(d, step)
    ensures WholeRows(d + step, step)
  {
    if step > 0 {
      var q := d / step;
      assert d + step == (q + 1) * step + 0;
      DivBlock(q + 1, step, 0);
    }
  }

  /**
   * Every glyph of a string starting at (x, y) sits at or right of `x`,
   * on a row a whole number of scaled cell heights below `y`; any glyph
   * not at the start of a line leaves room for a whole character cell
   * before the right edge.
   */
  ghost predicate StringLaidOut(x: int, y: int, size: nat, ps: seq<Placed>) {
    forall k :: 0 <= k < |ps| ==>
      x <= ps[k].x && (ps[k].x == x || ps[k].x + size * CellWidth <= Width) && y <= ps[k].y
      && WholeRows(ps[k].y - y, size * CellHeight)
  }

  lemma {:induction false} StringFromChars(x: int, size: nat, cx: int, cy: int, text: string)
    ensures Chars(StringFrom(x, size, cx, cy, text)) == Drawn(text)
    decreases |text|
  {
    if text != [] && text[0] == '\n' {
      StringFromChars(x, size, x, cy + size * CellHeight, text[1..]);
    } else if text != [] && text[0] == '\r' {
      StringFromChars(x, size, x, cy, text[1..]);
    } else if text != [] {
      var wrap := cx + size * CellWidth > Width - size * CellWidth;
      var ncx := if wrap then x else cx + size * CellWidth;
      var ncy := if wrap then cy + size * CellHeight else cy;
      StringFromChars(x, size, ncx, ncy, text[1..]);
      var rest := StringFrom(x, size, ncx, ncy, text[1..]);
      assert StringFrom(x, size, cx, cy, text) == [Placed(text[0], cx, cy)] + rest;
      assert ([Placed(text[0], cx, cy)] + rest)[1..] == rest;
    }
  }

  lemma {:induction false} StringFromLaidOut(x: int, y: int, size: nat, cx: int, cy: int, text: string)
    requires cx == x || (x <= cx && cx + size * CellWidth <= Width)
    requires y <= cy && WholeRows(cy - y, size * CellHeight)
    ensures StringLaidOut(x, y, size, StringFrom(x, size, cx, cy, text))
    decreases |text|
  {
    if text != [] && text[0] == '\n' {
      WholeRowsNext(cy - y, size * CellHeight);
      StringFromLaidOut(x, y, size, x, cy + size * CellHeight, text[1..]);
    } else if text != [] && text[0] == '\r' {
      StringFromLaidOut(x, y, size, x, cy, text[1..]);
    } else if text != [] {
      var wrap := cx + size * CellWidth > Width - size * CellWidth;
      var ncx := if wrap then x else cx + size * CellWidth;
      var ncy := if wrap then cy + size * CellHeight else cy;
      if wrap {
        WholeRowsNext(cy - y, size * CellHeight);
      }
      StringFromLaidOut(x, y, size, ncx, ncy, text[1..]);
      var rest := StringFrom(x, size, ncx, ncy, text[1..]);
      assert StringFrom(x, size, cx, cy, text) == [Placed(text[0], cx, cy)] + rest;
    }
  }

  /**
   * `display_print_string` draws one glyph per character other than '\n'
   * and '\r', in order, and wraps so that a glyph after the first of its
   * line never starts within one cell of the right edge.
   */
  lemma StringLayoutRules(x: int, y: int, size: nat, text: string)
    ensures Chars(StringLayout(x, y, size, text)) == Drawn(text)
    ensures StringLaidOut(x, y, size, StringLayout(x, y, size, text))
  {
    StringFromChars(x, size, x, y, text);
    StringFromLaidOut(x, y, size, x, y, text);
  }

  /** A line feed only moves the cursor: back to column `x`, one scaled row down. */
  lemma StringLineFeed(x: int, size: nat, cx: int, cy: int, text: string, placed: seq<Placed>, all: seq<Placed>)
    requires text != [] && text[0] == '\n'
    requires placed + StringFrom(x, size, cx, cy, text) == all
    ensures placed + StringFrom(x, size, x, cy + size * CellHeight, text[1..]) == all
  {
  }

  /** A carriage return only moves the cursor back to column `x`. */
  lemma StringReturn(x: int, size: nat, cx: int, cy: int, text: string, placed: seq<Placed>, all: seq<Placed>)
    requires text != [] && text[0] == '\r'
    requires placed + StringFrom(x, size, cx, cy, text) == all
    ensures placed + StringFrom(x, size, x, cy, text[1..]) == all
  {
  }

  /** Any other character is placed at the cursor, which then advances or wraps to (nx, ny). */
  lemma StringGlyph(x: int, size: nat, cx: int, cy: int, nx: int, ny: int, text: string, placed: seq<Placed>, all: seq<Placed>)
    requires text != [] && text[0] != '\n' && text[0] != '\r'
    requires placed + StringFrom(x, size, cx, cy, text) == all
    requires var next := cx + size * CellWidth;
      var wrap := next > Width - size * CellWidth;
      nx == (if wrap then x else next) && ny == (if wrap then cy + size * CellHeight else cy)
    ensures (placed + [Placed(text[0], cx, cy)]) + StringFrom(x, size, nx, ny, text[1..]) == all
  {
    var rest := StringFrom(x, size, nx, ny, text[1..]);
    assert StringFrom(x, size, cx, cy, text) == [Placed(text[0], cx, cy)] + rest;
  }

  /** The pixels of a whole string, glyph after glyph. */
  function StringDots(ps: seq<Placed>, color: bv16, bg: bv16, size: nat): seq<Dot>
  {
    if ps == [] then []
    else StringDots(ps[..|ps| - 1], color, bg, size) + CharDots(ps[|ps| - 1].c, ps[|ps| - 1].x, ps[|ps| - 1].y, color, bg, size)
  }

  lemma StringDotsSnoc(ps: seq<Placed>, p: Placed, color: bv16, bg: bv16, size: nat)
    ensures StringDots(ps + [p], color, bg, size) == StringDots(ps, color, bg, size) + CharDots(p.c, p.x, p.y, color, bg, size)
  {
    assert (ps + [p])[..|ps|] == ps;
  }

  /**
   * The driver's state as seen from the panel: the transfers sent so
   * far, in order. The SPI handle and the data/command pin are not
   * modelled beyond the kind of each transfer.
   */
  class Tft {
    ghost var log: seq<Transfer>

    constructor ()
      ensures log == []
    {
      log := [];
    }

    /** `tft_write_command`: one command byte. */
    method WriteCommand(cmd: bv8)
      modifies this`log
      ensures log == old(log) + [Command(cmd)]
    {
      log := log + [Command(cmd)];
    }

    /** `tft_write_data`: one data byte. */
    method WriteData(b: bv8)
      modifies this`log
      ensures log == old(log) + [Data([b])]
    {
      log := log + [Data([b])];
    }

    /** `tft_write_data_16`: one transaction of two bytes, high byte first. */
    method WriteData16(data: bv16)
      modifies this`log
      ensures log == old(log) + [Data(PixelBytes(data))]
    {
      var buffer := [(data >> 8) as bv8, (data & 0xFF) as bv8];
      log := log + [Data(buffer)];
    }

    /** `tft_set_addr_window`. */
    method SetAddrWindow(x0: bv8, y0: bv8, x1: bv8, y1: bv8)
      modifies this`log
      ensures log == old(log) + AddrWindow(x0, y0, x1, y1)
    {
      WriteRange(Caset, x0, x1);
      WriteRange(Raset, y0, y1);
      WriteCommand(Ramwr);
    }

    /** The five writes that set one coordinate range. */
    method WriteRange(cmd: bv8, lo: bv8, hi: bv8)
      modifies this`log
      ensures log == old(log) + Range(cmd, lo, hi)
    {
      WriteCommand(cmd);
      WriteData(0x00);
      WriteData(lo);
      WriteData(0x00);
      WriteData(hi);
    }

    /** `display_fill_screen`: a full-screen window, then 128 x 160 word writes. */
    method FillScreen(color: bv16)
      modifies this`log
      ensures log == old(log) + FillWrites(color)
    {
      SetAddrWindow(0, 0, (Width - 1) as bv8, (Height - 1) as bv8);
      ghost var start := log;
      var i := 0;
      while i < Width * Height
        invariant 0 <= i <= Width * Height
        invariant log == start + Words(color, i)
      {
        WriteData16(color);
        Extend(start, Words(color, i), [Data(PixelBytes(color))], Words(color, i + 1));
        i := i + 1;
      }
    }

    /** `display_draw_pixel`: nothing off screen; otherwise a 1x1 window and one word. */
    method DrawPixel(x: int, y: int, color: bv16)
      modifies this`log
      ensures log == old(log) + PixelWrite(Dot(x, y, color))
    {
      if x < 0 || x >= Width || y < 0 || y >= Height {
        return;
      }
      ghost var window := AddrWindow(Byte(x), Byte(y), Byte(x), Byte(y));
      SetAddrWindow(Byte(x), Byte(y), Byte(x), Byte(y));
      WriteData16(color);
      Extend(old(log), window, [Data(PixelBytes(color))], PixelWrite(Dot(x, y, color)));
    }

    /**
     * `display_draw_char`: column by column, reading each column's rows
     * from its low bit up by shifting the column byte right.
     */
    method DrawChar(x: int, y: int, c: char, color: bv16, bg: bv16, size: Scale)
      modifies this`log
      ensures log == old(log) + Wire(CharDots(c, x, y, color, bg, size as nat))
    {
      var ch := c;
      if ch as int < FirstPrintable || ch as int > LastPrintable {
        ch := ' ';
      }
      var charIndex := ch as int - FirstPrintable;
      assert charIndex == GlyphIndex(c);
      DrawGlyph(Table(charIndex), x, y, color, bg, size as nat);
    }

    /** The column loop of `display_draw_char` for glyph `g`. */
    method DrawGlyph(g: Glyph, x: int, y: int, color: bv16, bg: bv16, size: nat)
      modifies this`log
      ensures log == old(log) + Wire(ColumnsUpTo(g, x, y, GlyphWidth, size, color, bg))
    {
      var i := 0;
      while i < GlyphWidth
        invariant 0 <= i <= GlyphWidth
        invariant log == old(log) + Wire(ColumnsUpTo(g, x, y, i, size, color, bg))
      {
        DrawNextColumn(g, x, y, i, color, bg, size, old(log));
        i := i + 1;
      }
    }

    /** Column `i` of a glyph, after the columns left of it. */
    method DrawNextColumn(g: Glyph, x: int, y: int, i: int, color: bv16, bg: bv16, size: nat, ghost start: seq<Transfer>)
      requires 0 <= i < GlyphWidth
      requires log == start + Wire(ColumnsUpTo(g, x, y, i, size, color, bg))
      modifies this`log
      ensures log == start + Wire(ColumnsUpTo(g, x, y, i + 1, size, color, bg))
    {
      DrawCharColumn(g, x, y, i, color, bg, size);
      WireAppend(ColumnsUpTo(g, x, y, i, size, color, bg), RowsUpTo(g, x, y, i, GlyphRows, size, color, bg));
      Extend(start, Wire(ColumnsUpTo(g, x, y, i, size, color, bg)),
             Wire(RowsUpTo(g, x, y, i, GlyphRows, size, color, bg)),
             Wire(ColumnsUpTo(g, x, y, i + 1, size, color, bg)));
    }

    /** One glyph column of `display_draw_char`: rows 0 to 6, shifting the column byte. */
    method DrawCharColumn(g: Glyph, x: int, y: int, i: int, color: bv16, bg: bv16, size: nat)
      requires 0 <= i < GlyphWidth
      modifies this`log
      ensures log == old(log) + Wire(RowsUpTo(g, x, y, i, GlyphRows, size, color, bg))
    {
      var line := Column(g, i);
      var j := 0;
      while j < GlyphRows
        invariant 0 <= j <= GlyphRows
        invariant line == Shifted(g, i, j)
        invariant log == old(log) + Wire(RowsUpTo(g, x, y, i, j, size, color, bg))
      {
        DrawNextCell(g, x, y, i, j, line, color, bg, size, old(log));
        line := line >> 1;
        j := j + 1;
      }
    }

    /** Cell `j` of a glyph column, after the cells above it. */
    method DrawNextCell(g: Glyph, x: int, y: int, i: int, j: int, line: bv8, color: bv16, bg: bv16, size: nat,
                        ghost start: seq<Transfer>)
      requires 0 <= i < GlyphWidth && 0 <= j < GlyphRows
      requires line == Shifted(g, i, j)
      requires log == start + Wire(RowsUpTo(g, x, y, i, j, size, color, bg))
      modifies this`log
      ensures log == start + Wire(RowsUpTo(g, x, y, i, j + 1, size, color, bg))
    {
      DrawCell(g, x, y, i, j, line, color, bg, size);
      WireAppend(RowsUpTo(g, x, y, i, j, size, color, bg), CellDots(g, x, y, i, j, size, color, bg));
      Extend(start, Wire(RowsUpTo(g, x, y, i, j, size, color, bg)),
             Wire(CellDots(g, x, y, i, j, size, color, bg)),
             Wire(RowsUpTo(g, x, y, i, j + 1, size, color, bg)));
    }

    /** One glyph cell: a single pixel at size 1, a size x size block otherwise. */
    method DrawCell(g: Glyph, x: int, y: int, i: int, j: int, line: bv8, color: bv16, bg: bv16, size: nat)
      requires 0 <= i < GlyphWidth && 0 <= j < GlyphRows
      requires line == Shifted(g, i, j)
      modifies this`log
      ensures log == old(log) + Wire(CellDots(g, x, y, i, j, size, color, bg))
    {
      ShiftedBit(g, i, j);
      assert (line & 0x01 == 1) == Bit(g, i, j);
      if line & 0x01 == 1 {
        assert CellDots(g, x, y, i, j, size, color, bg) == Square(x + i * size, y + j * size, size, color);
        DrawScaled(x, y, i, j, size, color);
      } else if bg != color {
        assert CellDots(g, x, y, i, j, size, color, bg) == Square(x + i * size, y + j * size, size, bg);
        DrawScaled(x, y, i, j, size, bg);
      } else {
        assert CellDots(g, x, y, i, j, size, color, bg) == [];
      }
    }

    /** One glyph cell in one colour: a single pixel at size 1, a size x size block otherwise. */
    method DrawScaled(x: int, y: int, i: int, j: int, size: nat, c: bv16)
      modifies this`log
      ensures log == old(log) + Wire(Square(x + i * size, y + j * size, size, c))
    {
      if size == 1 {
        DrawPixel(x + i, y + j, c);
        SinglePixelBlock(x, y, i, j, size, c);
      } else {
        DrawBlock(x + i * size, y + j * size, size, c);
      }
    }

    /** The `a` loop of `display_draw_char`: the columns of a size x size block. */
    method DrawBlock(px: int, py: int, size: nat, c: bv16)
      modifies this`log
      ensures log == old(log) + Wire(Square(px, py, size, c))
    {
      var a := 0;
      while a < size
        invariant 0 <= a <= size
        invariant log == old(log) + Wire(Block(px, py, size, a, c))
      {
        DrawNextBlockColumn(px, py, size, a, c, old(log));
        a := a + 1;
      }
    }

    /** Column `a` of a block, after the columns before it. */
    method DrawNextBlockColumn(px: int, py: int, size: nat, a: nat, c: bv16, ghost start: seq<Transfer>)
      requires log == start + Wire(Block(px, py, size, a, c))
      modifies this`log
      ensures log == start + Wire(Block(px, py, size, a + 1, c))
    {
      ghost var before := log;
      DrawBlockColumn(px + a, py, size, c);
      BlockStep(start, before, log, px, py, size, a, c);
    }

    /** The `b` loop of `display_draw_char`: one column of a block, top to bottom. */
    method DrawBlockColumn(px: int, py: int, size: nat, c: bv16)
      modifies this`log
      ensures log == old(log) + Wire(BlockColumn(px, py, size, c))
    {
      var b := 0;
      while b < size
        invariant 0 <= b <= size
        invariant log == old(log) + Wire(BlockColumn(px, py, b, c))
      {
        DrawPixel(px, py + b, c);
        WireSnoc(BlockColumn(px, py, b, c), Dot(px, py + b, c));
        Extend(old(log), Wire(BlockColumn(px, py, b, c)), PixelWrite(Dot(px, py + b, c)),
               Wire(BlockColumn(px, py, b + 1, c)));
        b := b + 1;
      }
    }

    /**
     * `display_print_string`: '\n' moves down 8 size pixels to column `x`,
     * '\r' returns to column `x`, anything else is drawn and advances the
     * cursor 6 size pixels, wrapping once it passes 128 - 6 size.
     */
    method PrintString(x: int, y: int, text: string, color: bv16, bg: bv16, size: Scale)
      modifies this`log
      ensures log == old(log) + Wire(StringDots(StringLayout(x, y, size as nat, text), color, bg, size as nat))
    {
      var s := size as nat;
      var cursorX := x;
      var cursorY := y;
      ghost var placed: seq<Placed> := [];
      var i := 0;
      while i < |text|
        invariant 0 <= i <= |text|
        invariant placed + StringFrom(x, s, cursorX, cursorY, text[i..]) == StringLayout(x, y, s, text)
        invariant log == old(log) + Wire(StringDots(placed, color, bg, s))
      {
        var c := text[i];
        assert text[i..][1..] == text[i + 1..];
        cursorX, cursorY, placed := PrintStep(c, x, cursorX, cursorY, color, bg, size, old(log), placed,
                                              text[i..], StringLayout(x, y, s, text));
        i := i + 1;
      }
      assert text[i..] == [];
      assert placed + [] == placed;
    }

    /**
     * One character of `display_print_string`: a line feed moves the
     * cursor to column `x` one line down, a carriage return to column `x`
     * of the same line, and any other character is drawn.
     */
    method PrintStep(c: char, x: int, cursorX: int, cursorY: int, color: bv16, bg: bv16, size: Scale,
                     ghost start: seq<Transfer>, ghost placed: seq<Placed>, ghost text: string, ghost all: seq<Placed>)
      returns (nx: int, ny: int, ghost newPlaced: seq<Placed>)
      requires text != [] && text[0] == c
      requires placed + StringFrom(x, size as nat, cursorX, cursorY, text) == all
      requires log == start + Wire(StringDots(placed, color, bg, size as nat))
      modifies this`log
      ensures newPlaced + StringFrom(x, size as nat, nx, ny, text[1..]) == all
      ensures log == start + Wire(StringDots(newPlaced, color, bg, size as nat))
    {
      var s := size as nat;
      if c == '\n' {
        StringLineFeed(x, s, cursorX, cursorY, text, placed, all);
        nx, ny, newPlaced := x, cursorY + s * CellHeight, placed;
      } else if c == '\r' {
        StringReturn(x, s, cursorX, cursorY, text, placed, all);
        nx, ny, newPlaced := x, cursorY, placed;
      } else {
        nx, ny := PrintAtCursor(c, x, cursorX, cursorY, color, bg, size, start, placed, text, all);
        newPlaced := placed + [Placed(c, cursorX, cursorY)];
      }
    }

    /**
     * A character other than a line feed or carriage return: its glyph at
     * the cursor, then the cursor one cell right, or back to column `x`
     * one line down when the next cell would not fit.
     */
    method PrintAtCursor(c: char, x: int, cursorX: int, cursorY: int, color: bv16, bg: bv16, size: Scale,
                         ghost start: seq<Transfer>, ghost placed: seq<Placed>, ghost text: string, ghost all: seq<Placed>)
      returns (nx: int, ny: int)
      requires text != [] && text[0] == c && c != '\n' && c != '\r'
      requires placed + StringFrom(x, size as nat, cursorX, cursorY, text) == all
      requires log == start + Wire(StringDots(placed, color, bg, size as nat))
      modifies this`log
      ensures (placed + [Placed(c, cursorX, cursorY)]) + StringFrom(x, size as nat, nx, ny, text[1..]) == all
      ensures log == start + Wire(StringDots(placed + [Placed(c, cursorX, cursorY)], color, bg, size as nat))
    {
      var s := size as nat;
      PrintGlyph(c, cursorX, cursorY, color, bg, size, start, placed);
      nx, ny := cursorX + s * CellWidth, cursorY;
      if nx > Width - s * CellWidth {
        nx := x;
        ny := cursorY + s * CellHeight;
      }
      StringGlyph(x, s, cursorX, cursorY, nx, ny, text, placed, all);
    }

    /** One character of `display_print_string`, drawn after the ones already placed. */
    method PrintGlyph(c: char, cursorX: int, cursorY: int, color: bv16, bg: bv16, size: Scale,
                      ghost start: seq<Transfer>, ghost placed: seq<Placed>)
      requires log == start + Wire(StringDots(placed, color, bg, size as nat))
      modifies this`log
      ensures log == start + Wire(StringDots(placed + [Placed(c, cursorX, cursorY)], color, bg, size as nat))
    {
      DrawChar(cursorX, cursorY, c, color, bg, size);
      StringDotsSnoc(placed, Placed(c, cursorX, cursorY), color, bg, size as nat);
      WireAppend(StringDots(placed, color, bg, size as nat), CharDots(c, cursorX, cursorY, color, bg, size as nat));
      Extend(start, Wire(StringDots(placed, color, bg, size as nat)),
             Wire(CharDots(c, cursorX, cursorY, color, bg, size as nat)),
             Wire(StringDots(placed + [Placed(c, cursorX, cursorY)], color, bg, size as nat)));
    }
  }

  /** A log holding the first `a` block columns, extended by column `a`, holds the first `a + 1`. */
  lemma BlockStep(start: seq<Transfer>, before: seq<Transfer>, after: seq<Transfer>,
                  px: int, py: int, size: nat, a: nat, c: bv16)
    requires before == start + Wire(Block(px, py, size, a, c))
    requires after == before + Wire(BlockColumn(px + a, py, size, c))
    ensures after == start + Wire(Block(px, py, size, a + 1, c))
  {
    WireAppend(Block(px, py, size, a, c), BlockColumn(px + a, py, size, c));
    Extend(start, Wire(Block(px, py, size, a, c)), Wire(BlockColumn(px + a, py, size, c)),
           Wire(Block(px, py, size, a + 1, c)));
  }

  /** Column `i` of `g` after `j` single-bit right shifts, as `display_draw_char` keeps it. */
  function Shifted(g: Glyph, i: int, j: nat): bv8
    requires 0 <= i < GlyphWidth
  {
    if j == 0 then Column(g, i) else Shifted(g, i, j - 1) >> 1
  }

  /** `j` single-bit shifts shift the column by `j`, so the low bit is then bit `j` of the column. */
  lemma {:induction false} ShiftedBit(g: Glyph, i: int, j: nat)
    requires 0 <= i < GlyphWidth && j < 8
    ensures Shifted(g, i, j) == Column(g, i) >> j
  {
    if j > 0 {
      ShiftedBit(g, i, j - 1);
      ShiftStep(Column(g, i), j - 1);
    }
  }

  /** Shifting right by `j` and then by one is shifting right by `j + 1`. */
  lemma ShiftStep(v: bv8, j: int)
    requires 0 <= j < 7
    ensures (v >> j) >> 1 == v >> (j + 1)
  {
  }

  /** At size 1 a cell's block is the single pixel the driver draws directly. */
  lemma SinglePixelBlock(x: int, y: int, i: int, j: int, size: nat, c: bv16)
    requires size == 1
    ensures Wire(Square(x + i * size, y + j * size, size, c)) == PixelWrite(Dot(x + i, y + j, c))
  {
    assert x + i * size == x + i && y + j * size == y + j;
    UnitSquare(x + i, y + j, c);
    assert [] + [Dot(x + i, y + j, c)] == [Dot(x + i, y + j, c)];
    WireSnoc([], Dot(x + i, y + j, c));
  }

  lemma UnitSquare(px: int, py: int, c: bv16)
    ensures Square(px, py, 1, c) == [Dot(px, py, c)]
  {
    assert BlockColumn(px, py, 1, c) == [Dot(px, py, c)];
    assert Block(px, py, 1, 1, c) == Block(px, py, 1, 0, c) + BlockColumn(px, py, 1, c);
  }
}
