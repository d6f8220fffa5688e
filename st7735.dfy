/**
 * The geometry of the ST7735 LCD driver (the `st7735_*` functions): what
 * each drawing call sends to the panel, as a log of transfers. Pixels
 * reach the panel only through the single-pixel write, which clips to the
 * 128 x 160 screen, or through bulk writes split into transactions of at
 * most 2048 pixels.
 */
module St7735 {
  import opened CArith
  import opened PixelBus
  import opened LineWalk
  import opened Font

  const Width: int := 128
  const Height: int := 160
  const MadctlCommand: bv8 := 0x36
  /** `SPI_BUFFER_SIZE / 2`: the 4096-byte transmit buffer holds 2048 pixels. */
  const BufferPixels: int := 2048
  /** Lines with dx + dy below this are drawn without buffering. */
  const ShortLine: int := 50
  /** Character cell of the text routines: 5 glyph columns plus one of spacing, 8 rows. */
  const CharWidth: int := 6
  const CharHeight: int := 8

  /**
   * RGB565 packing: the top 5 bits of red, the top 6 of green and the
   * top 5 of blue, in bits 15-11, 10-5 and 4-0.
   */
  function Color565(r: bv8, g: bv8, b: bv8): (c: bv16)
    ensures c >> 11 == (r >> 3) as bv16
    ensures (c >> 5) & 0x3F == (g >> 2) as bv16
    ensures c & 0x1F == (b >> 3) as bv16
  {
    ((r as bv16 & 0xF8) << 8) | ((g as bv16 & 0xFC) << 3) | (b as bv16 >> 3)
  }

  /** The memory-access-control byte sent for each rotation. */
  function MadctlFor(rotation: int): bv8
    requires 0 <= rotation < 4
  {
    match rotation
    case 0 => 0xC8
    case 1 => 0xC8
    case 2 => 0x08
    case _ => 0x68
  }

  predicate OnScreen(x: int, y: int) {
    0 <= x < Width && 0 <= y < Height
  }

  /** The transfers of one `st7735_draw_pixel` call: none off screen, else a 1x1 window and the pixel. */
  function DrawnAt(x: int, y: int, c: bv16): seq<Transfer> {
    if OnScreen(x, y) then [WindowOf(x, y, x, y), Data(PixelBytes(c))] else []
  }

  /** Drawing each point of `ps` in turn with colour `c`. */
  function Plot(ps: seq<Point>, c: bv16): seq<Transfer>
  {
    if ps == [] then [] else Plot(ps[..|ps| - 1], c) + DrawnAt(ps[|ps| - 1].x, ps[|ps| - 1].y, c)
  }

  /** The points of `ps` that lie on the screen. */
  function Visible(ps: seq<Point>): seq<Point>
  {
    if ps == [] then [] else Visible(ps[..|ps| - 1]) + (if OnScreen(ps[|ps| - 1].x, ps[|ps| - 1].y) then [ps[|ps| - 1]] else [])
  }

  /** Every window a pixel write opens is a single on-screen pixel. */
  ghost predicate PixelWindows(ts: seq<Transfer>) {
    forall k :: 0 <= k < |ts| && ts[k].Window? ==>
      OnScreen(ts[k].x0, ts[k].y0) && ts[k].x1 == ts[k].x0 && ts[k].y1 == ts[k].y0
  }

  lemma {:induction false} Payload2(a: seq<Transfer>, b: seq<Transfer>)
    ensures Payload(a + b) == Payload(a) + Payload(b)
  {
    if a != [] {
      var head := if a[0].Data? then a[0].bytes else [];
      assert (a + b)[0] == a[0];
      assert (a + b)[1..] == a[1..] + b;
      Payload2(a[1..], b);
      calc {
        Payload(a + b);
        head + Payload(a[1..] + b);
        head + (Payload(a[1..]) + Payload(b));
        (head + Payload(a[1..])) + Payload(b);
        Payload(a) + Payload(b);
      }
    } else {
      assert a + b == b;
    }
  }

  /** The transfers of a single pixel write carry that pixel's two bytes, if it is on screen. */
  lemma DrawnAtPayload(x: int, y: int, c: bv16)
    ensures Payload(DrawnAt(x, y, c)) == if OnScreen(x, y) then PixelBytes(c) else []
  {
    if OnScreen(x, y) {
      var ts := DrawnAt(x, y, c);
      assert ts[1..][1..] == [];
      assert Payload(ts[1..]) == PixelBytes(c) + Payload(ts[1..][1..]);
    }
  }

  /** Plotting points draws nothing off screen: every window it opens is one on-screen pixel. */
  lemma {:induction false} PlotClipsToScreen(ps: seq<Point>, c: bv16)
    ensures PixelWindows(Plot(ps, c))
  {
    if ps != [] {
      PlotClipsToScreen(ps[..|ps| - 1], c);
    }
  }

  /** Plotting points carries one pixel of `c` for each on-screen point, and nothing else. */
  lemma {:induction false} PlotPayload(ps: seq<Point>, c: bv16)
    ensures Payload(Plot(ps, c)) == Repeat(c, |Visible(ps)|)
  {
    if ps != [] {
      var p := ps[|ps| - 1];
      PlotPayload(ps[..|ps| - 1], c);
      Payload2(Plot(ps[..|ps| - 1], c), DrawnAt(p.x, p.y, c));
      DrawnAtPayload(p.x, p.y, c);
    }
  }

  lemma PlotSnoc(ps: seq<Point>, p: Point, c: bv16)
    ensures Plot(ps + [p], c) == Plot(ps, c) + DrawnAt(p.x, p.y, c)
  {
    assert (ps + [p])[..|ps|] == ps;
  }

  lemma SnocAssoc(a: seq<Point>, b: seq<Point>, p: Point)
    ensures (a + b) + [p] == a + (b + [p])
  {
  }

  lemma PlotAppend(a: seq<Point>, b: seq<Point>, c: bv16)
    ensures Plot(a + b, c) == Plot(a, c) + Plot(b, c)
    decreases |b|
  {
    if b != [] {
      assert (a + b)[..|a + b| - 1] == a + b[..|b| - 1];
      var p := b[|b| - 1];
      assert (a + b)[|a + b| - 1] == p;
      PlotAppend(a, b[..|b| - 1], c);
      calc {
        Plot(a + b, c);
        Plot(a + b[..|b| - 1], c) + DrawnAt(p.x, p.y, c);
        Plot(a, c) + Plot(b[..|b| - 1], c) + DrawnAt(p.x, p.y, c);
        Plot(a, c) + Plot(b, c);
      }
    } else {
      assert a + b == a;
    }
  }

  /** A window extent clipped at the screen edge: `x + w` is cut back to `limit`. */
  function ClipExtent(x: int, w: int, limit: int): (r: int)
    ensures x + r <= limit
    ensures r <= w
    ensures x + w <= limit ==> r == w
    ensures x + w > limit ==> r == limit - x
  {
    if x + w > limit then limit - x else w
  }

  /** `w * h` converted to the ESP32's 32-bit `size_t`. */
  function SizeT(v: int): (n: nat)
    ensures n < TwoTo32
    ensures 0 <= v < TwoTo32 ==> n == v
    ensures (v - n) % TwoTo32 == 0
    ensures -TwoTo32 <= v < 0 ==> n == v + TwoTo32
  {
    v % TwoTo32
  }

  /** `st7735_print_line`'s clip: a text wider than the screen is cut to 21 characters. */
  function ClippedLength(n: nat): (len: nat)
    ensures len * CharWidth <= Width
    ensures len == if n <= Width / CharWidth then n else Width / CharWidth
  {
    if n * CharWidth > Width then Width / CharWidth else n
  }

  // Text layout

  /**
   * Where `st7735_print_text` puts the glyphs of `text`, starting with
   * the cursor at (cx, cy) for a text that began at column `x`.
   */
  function TextFrom(x: int, cx: int, cy: int, text: string): seq<Placed>
    decreases |text|
  {
    if text == [] then []
    else if text[0] == '\n' then TextFrom(x, x, cy + CharHeight, text[1..])
    else
      [Placed(text[0], cx, cy)] +
      (if cx + CharWidth >= Width - 5 then TextFrom(x, x, cy + CharHeight, text[1..])
       else TextFrom(x, cx + CharWidth, cy, text[1..]))
  }

  function TextLayout(x: int, y: int, text: string): seq<Placed> {
    TextFrom(x, x, y, text)
  }

  /** A line feed only moves the cursor: back to column `x`, one row down. */
  lemma LayoutLineFeed(x: int, cx: int, cy: int, text: string, placed: seq<Placed>, all: seq<Placed>)
    requires text != [] && text[0] == '\n'
    requires placed + TextFrom(x, cx, cy, text) == all
    ensures placed + TextFrom(x, x, cy + CharHeight, text[1..]) == all
  {
  }

  /** Any other character is placed at the cursor, which then advances or wraps. */
  lemma LayoutGlyph(x: int, cx: int, cy: int, text: string, placed: seq<Placed>, all: seq<Placed>)
    requires text != [] && text[0] != '\n'
    requires placed + TextFrom(x, cx, cy, text) == all
    ensures var wrap := cx + CharWidth >= Width - 5;
      (placed + [Placed(text[0], cx, cy)]) +
      TextFrom(x, if wrap then x else cx + CharWidth, if wrap then cy + CharHeight else cy, text[1..]) == all
  {
    var wrap := cx + CharWidth >= Width - 5;
    var rest := TextFrom(x, if wrap then x else cx + CharWidth, if wrap then cy + CharHeight else cy, text[1..]);
    assert TextFrom(x, cx, cy, text) == [Placed(text[0], cx, cy)] + rest;
  }

  /** The characters of `text` other than line feeds, in order. */
  function Printed(text: string): string
  {
    if text == [] then [] else (if text[0] == '\n' then [] else [text[0]]) + Printed(text[1..])
  }

  /**
   * Every glyph of a text starting at column `x` sits at `x` or further
   * right, on a row 8k below the start, and any glyph not at the start of
   * a line begins left of column 123 and so lies wholly on the screen.
   */
  ghost predicate LaidOut(x: int, y: int, ps: seq<Placed>) {
    forall k :: 0 <= k < |ps| ==>
      x <= ps[k].x && (ps[k].x == x || ps[k].x < Width - 5) &&
      y <= ps[k].y && (ps[k].y - y) % CharHeight == 0
  }

  lemma {:induction false} TextFromChars(x: int, cx: int, cy: int, text: string)
    ensures Chars(TextFrom(x, cx, cy, text)) == Printed(text)
    decreases |text|
  {
    if text != [] && text[0] == '\n' {
      TextFromChars(x, x, cy + CharHeight, text[1..]);
    } else if text != [] {
      var ncx := if cx + CharWidth >= Width - 5 then x else cx + CharWidth;
      var ncy := if cx + CharWidth >= Width - 5 then cy + CharHeight else cy;
      TextFromChars(x, ncx, ncy, text[1..]);
      var rest := TextFrom(x, ncx, ncy, text[1..]);
      assert TextFrom(x, cx, cy, text) == [Placed(text[0], cx, cy)] + rest;
      assert ([Placed(text[0], cx, cy)] + rest)[1..] == rest;
    }
  }

  lemma {:induction false} TextFromLaidOut(x: int, y: int, cx: int, cy: int, text: string)
    requires cx == x || x <= cx < Width - 5
    requires y <= cy && (cy - y) % CharHeight == 0
    ensures LaidOut(x, y, TextFrom(x, cx, cy, text))
    decreases |text|
  {
    if text != [] && text[0] == '\n' {
      NextRow(y, cy);
      TextFromLaidOut(x, y, x, cy + CharHeight, text[1..]);
    } else if text != [] {
      var wrap := cx + CharWidth >= Width - 5;
      var ncx := if wrap then x else cx + CharWidth;
      var ncy := if wrap then cy + CharHeight else cy;
      if wrap {
        NextRow(y, cy);
      }
      TextFromLaidOut(x, y, ncx, ncy, text[1..]);
      var rest := TextFrom(x, ncx, ncy, text[1..]);
      assert TextFrom(x, cx, cy, text) == [Placed(text[0], cx, cy)] + rest;
      LaidOutCons(x, y, Placed(text[0], cx, cy), rest);
    }
  }

  /** The row below a text row is a text row too. */
  lemma NextRow(y: int, cy: int)
    requires y <= cy && (cy - y) % CharHeight == 0
    ensures y <= cy + CharHeight && (cy + CharHeight - y) % CharHeight == 0
  {
    assert cy + CharHeight - y == (cy - y) + CharHeight;
  }

  /** A well-placed glyph in front of well-placed glyphs. */
  lemma LaidOutCons(x: int, y: int, p: Placed, rest: seq<Placed>)
    requires x <= p.x && (p.x == x || p.x < Width - 5) && y <= p.y && (p.y - y) % CharHeight == 0
    requires LaidOut(x, y, rest)
    ensures LaidOut(x, y, [p] + rest)
  {
    var ps := [p] + rest;
    assert forall k :: 1 <= k < |ps| ==> ps[k] == rest[k - 1];
  }

  /**
   * `st7735_print_text` places one glyph per character other than a line
   * feed, in order, on 8-pixel rows, wrapping before column 123.
   */
  lemma TextLayoutRules(x: int, y: int, text: string)
    ensures Chars(TextLayout(x, y, text)) == Printed(text)
    ensures LaidOut(x, y, TextLayout(x, y, text))
  {
    TextFromChars(x, x, y, text);
    TextFromLaidOut(x, y, x, y, text);
  }

  /**
   * One cell of glyph `g` drawn at (x, y): the foreground where its bit is
   * set, else the background unless it equals the foreground.
   */
  function CellWrites(g: Glyph, x: int, y: int, col: int, row: int, color: bv16, bg: bv16): seq<Transfer>
    requires 0 <= col < GlyphWidth && 0 <= row < CharHeight
  {
    if Bit(g, col, row) then DrawnAt(x + col, y + row, color)
    else if bg != color then DrawnAt(x + col, y + row, bg)
    else []
  }

  /** Rows 0 .. n-1 of glyph column `col`. */
  function RowsUpTo(g: Glyph, x: int, y: int, col: int, n: int, color: bv16, bg: bv16): seq<Transfer>
    requires 0 <= col < GlyphWidth && 0 <= n <= CharHeight
  {
    if n == 0 then [] else RowsUpTo(g, x, y, col, n - 1, color, bg) + CellWrites(g, x, y, col, n - 1, color, bg)
  }

  /** Columns 0 .. n-1 of a glyph, each top to bottom. */
  function ColumnsUpTo(g: Glyph, x: int, y: int, n: int, color: bv16, bg: bv16): seq<Transfer>
    requires 0 <= n <= GlyphWidth
  {
    if n == 0 then [] else ColumnsUpTo(g, x, y, n - 1, color, bg) + RowsUpTo(g, x, y, n - 1, CharHeight, color, bg)
  }

  /** The pixel writes for one placed character: its glyph, a space for characters outside 32..126. */
  function GlyphWrites(p: Placed, color: bv16, bg: bv16): seq<Transfer> {
    ColumnsUpTo(Table(GlyphIndex(p.c)), p.x, p.y, GlyphWidth, color, bg)
  }

  /** The glyph writes of a whole text, in order. */
  function TextWrites(ps: seq<Placed>, color: bv16, bg: bv16): seq<Transfer>
  {
    if ps == [] then [] else TextWrites(ps[..|ps| - 1], color, bg) + GlyphWrites(ps[|ps| - 1], color, bg)
  }

  lemma TextWritesSnoc(ps: seq<Placed>, p: Placed, color: bv16, bg: bv16)
    ensures TextWrites(ps + [p], color, bg) == TextWrites(ps, color, bg) + GlyphWrites(p, color, bg)
  {
    assert (ps + [p])[..|ps|] == ps;
  }

  /** A character outside 32..126 is drawn exactly as a space. */
  lemma UnprintableDrawnAsSpace(p: Placed, color: bv16, bg: bv16)
    requires p.c as int < FirstPrintable || p.c as int > LastPrintable
    ensures GlyphWrites(p, color, bg) == GlyphWrites(p.(c := ' '), color, bg)
  {
  }

  /**
   * Every window in `ts` is a single on-screen pixel inside the w x h
   * rectangle at (x, y).
   */
  ghost predicate WindowsIn(ts: seq<Transfer>, x: int, y: int, w: int, h: int) {
    forall k :: 0 <= k < |ts| && ts[k].Window? ==>
      OnScreen(ts[k].x0, ts[k].y0) && ts[k].x1 == ts[k].x0 && ts[k].y1 == ts[k].y0 &&
      x <= ts[k].x0 < x + w && y <= ts[k].y0 < y + h
  }

  lemma WindowsInAppend(a: seq<Transfer>, b: seq<Transfer>, x: int, y: int, w: int, h: int)
    requires WindowsIn(a, x, y, w, h) && WindowsIn(b, x, y, w, h)
    ensures WindowsIn(a + b, x, y, w, h)
  {
    forall k | 0 <= k < |a + b| && (a + b)[k].Window?
      ensures OnScreen((a + b)[k].x0, (a + b)[k].y0)
      ensures x <= (a + b)[k].x0 < x + w && y <= (a + b)[k].y0 < y + h
      ensures (a + b)[k].x1 == (a + b)[k].x0 && (a + b)[k].y1 == (a + b)[k].y0
    {
      if k < |a| {
        assert (a + b)[k] == a[k];
      } else {
        assert (a + b)[k] == b[k - |a|];
      }
    }
  }

  lemma {:induction false} RowsInCell(g: Glyph, x: int, y: int, col: int, n: int, color: bv16, bg: bv16)
    requires 0 <= col < GlyphWidth && 0 <= n <= CharHeight
    ensures WindowsIn(RowsUpTo(g, x, y, col, n, color, bg), x, y, GlyphWidth, CharHeight)
  {
    if n > 0 {
      RowsInCell(g, x, y, col, n - 1, color, bg);
      WindowsInAppend(RowsUpTo(g, x, y, col, n - 1, color, bg), CellWrites(g, x, y, col, n - 1, color, bg),
                      x, y, GlyphWidth, CharHeight);
    }
  }

  lemma {:induction false} ColumnsInCell(g: Glyph, x: int, y: int, n: int, color: bv16, bg: bv16)
    requires 0 <= n <= GlyphWidth
    ensures WindowsIn(ColumnsUpTo(g, x, y, n, color, bg), x, y, GlyphWidth, CharHeight)
  {
    if n > 0 {
      ColumnsInCell(g, x, y, n - 1, color, bg);
      RowsInCell(g, x, y, n - 1, CharHeight, color, bg);
      WindowsInAppend(ColumnsUpTo(g, x, y, n - 1, color, bg), RowsUpTo(g, x, y, n - 1, CharHeight, color, bg),
                      x, y, GlyphWidth, CharHeight);
    }
  }

  /**
   * A character writes only single on-screen pixels inside its 5 x 8
   * cell: off-screen parts of a glyph are clipped pixel by pixel.
   */
  lemma GlyphInCell(p: Placed, color: bv16, bg: bv16)
    ensures WindowsIn(GlyphWrites(p, color, bg), p.x, p.y, GlyphWidth, CharHeight)
  {
    ColumnsInCell(Table(GlyphIndex(p.c)), p.x, p.y, GlyphWidth, color, bg);
  }

  /** The glyphs of a text, one per character, unprintable characters as spaces. */
  function Glyphs(t: string): (gs: seq<Glyph>)
    ensures |gs| == |t|
  {
    if t == [] then [] else Glyphs(t[..|t| - 1]) + [Table(GlyphIndex(t[|t| - 1]))]
  }

  lemma {:induction false} GlyphsAt(t: string, i: int)
    requires 0 <= i < |t|
    ensures Glyphs(t)[i] == Table(GlyphIndex(t[i]))
  {
    if i < |t| - 1 {
      GlyphsAt(t[..|t| - 1], i);
    }
  }

  /** One call of `st7735_print_line`: the glyphs of its text and its two colours. */
  datatype TextLine = TextLine(glyphs: seq<Glyph>, color: bv16, bg: bv16)

  /**
   * `st7735_print_line`'s pixel in column `xo` of row `row`: character
   * `xo / 6`, glyph column `xo % 6`, where column 5 is spacing; the
   * background outside the line.
   */
  function LinePixel(l: TextLine, row: int, xo: int): bv16
  {
    var i := xo / CharWidth;
    var col := xo % CharWidth;
    if 0 <= row < CharHeight && 0 <= xo < CharWidth * |l.glyphs| && col < GlyphWidth && Bit(l.glyphs[i], col, row)
    then l.color else l.bg
  }

  /** The bytes of the buffer's rows, each `w` pixels wide, high byte first. */
  function RowBytes(l: TextLine, row: int, n: nat): seq<bv8>
  {
    if n == 0 then [] else RowBytes(l, row, n - 1) + PixelBytes(LinePixel(l, row, n - 1))
  }

  function ImageRows(l: TextLine, w: nat, n: nat): seq<bv8>
  {
    if n == 0 then [] else ImageRows(l, w, n - 1) + RowBytes(l, n - 1, w)
  }

  lemma {:induction false} RowBytesLength(l: TextLine, row: int, n: nat)
    ensures |RowBytes(l, row, n)| == 2 * n
  {
    if n > 0 {
      RowBytesLength(l, row, n - 1);
    }
  }

  lemma {:induction false} ImageRowsLength(l: TextLine, w: nat, n: nat)
    ensures |ImageRows(l, w, n)| == Times(2 * w, n)
  {
    if n > 0 {
      ImageRowsLength(l, w, n - 1);
      RowBytesLength(l, n - 1, w);
    }
  }

  /** Pixel `xo` of a row sits in bytes `2 xo` and `2 xo + 1`, high byte first. */
  lemma {:induction false} RowBytesAt(l: TextLine, row: int, n: nat, xo: int)
    requires 0 <= xo < n
    ensures 2 * xo + 1 < |RowBytes(l, row, n)|
    ensures RowBytes(l, row, n)[2 * xo] == High(LinePixel(l, row, xo))
    ensures RowBytes(l, row, n)[2 * xo + 1] == Low(LinePixel(l, row, xo))
  {
    RowBytesLength(l, row, n - 1);
    if xo < n - 1 {
      RowBytesAt(l, row, n - 1, xo);
    }
  }

  lemma {:induction false} TimesMono(a: int, m: nat, n: nat)
    requires 0 <= a && m <= n
    ensures Times(a, m) <= Times(a, n)
  {
    if m < n {
      TimesMono(a, m, n - 1);
    }
  }

  /** Byte `j` of row `r` sits after `r` rows of `2 w` bytes. */
  lemma {:induction false} ImageRowsAt(l: TextLine, w: nat, n: nat, r: nat, j: int)
    requires r < n && 0 <= j < 2 * w
    ensures 0 <= Times(2 * w, r) && Times(2 * w, r) + j < |ImageRows(l, w, n)|
    ensures |RowBytes(l, r, w)| == 2 * w
    ensures ImageRows(l, w, n)[Times(2 * w, r) + j] == RowBytes(l, r, w)[j]
  {
    var front := ImageRows(l, w, n - 1);
    var last := RowBytes(l, n - 1, w);
    var all := ImageRows(l, w, n);
    assert all == front + last;
    TimesMono(2 * w, 0, r);
    ImageRowsLength(l, w, n - 1);
    RowBytesLength(l, n - 1, w);
    RowBytesLength(l, r, w);
    var at := Times(2 * w, r) + j;
    if r < n - 1 {
      ImageRowsAt(l, w, n - 1, r, j);
      TimesMono(2 * w, r + 1, n - 1);
      assert Times(2 * w, r + 1) == Times(2 * w, r) + 2 * w;
      assert at < |front|;
      assert all[at] == front[at];
    } else {
      assert Times(2 * w, r) == |front|;
      assert all[at] == last[j];
    }
  }

  /** The buffer `st7735_print_line` sends: 8 rows of `6 |t|` pixels. */
  function LineImage(t: string, color: bv16, bg: bv16): seq<bv8> {
    ImageRows(TextLine(Glyphs(t), color, bg), CharWidth * |t|, CharHeight)
  }

  /** The line buffer holds 6 x 8 pixels of two bytes per character: 96 bytes each. */
  lemma LineImageSize(t: string, color: bv16, bg: bv16)
    ensures |LineImage(t, color, bg)| == 96 * |t|
  {
    ImageRowsLength(TextLine(Glyphs(t), color, bg), CharWidth * |t|, CharHeight);
    TimesIsProduct(2 * CharWidth * |t|, CharHeight);
  }

  /** Pixel `6 i + col` of a buffer row is column `col` of character `i`; column 5 is spacing. */
  lemma LinePixelAt(t: string, row: int, i: int, col: int, color: bv16, bg: bv16)
    requires 0 <= row < CharHeight && 0 <= i < |t| && 0 <= col < CharWidth
    ensures i * CharWidth + col < CharWidth * |t|
    ensures LinePixel(TextLine(Glyphs(t), color, bg), row, i * CharWidth + col)
         == if col < GlyphWidth && GlyphBit(t[i], col, row) then color else bg
  {
    MulMono(CharWidth, i + 1, |t|);
    GlyphsAt(t, i);
    assert (i * CharWidth + col) / CharWidth == i && (i * CharWidth + col) % CharWidth == col;
  }

  /** Pixel `xo` of row `row` of a buffer `w` pixels wide sits at pixel index `row * w + xo`. */
  lemma ImageLayout(l: TextLine, w: nat, h: nat, row: nat, xo: int)
    requires row < h && 0 <= xo < w
    ensures (row * w + xo) * 2 + 1 < |ImageRows(l, w, h)|
    ensures ImageRows(l, w, h)[(row * w + xo) * 2] == High(LinePixel(l, row, xo))
    ensures ImageRows(l, w, h)[(row * w + xo) * 2 + 1] == Low(LinePixel(l, row, xo))
  {
    RowBytesAt(l, row, w, xo);
    ImageRowsAt(l, w, h, row, 2 * xo);
    ImageRowsAt(l, w, h, row, 2 * xo + 1);
    ByteIndex(w, row, xo);
  }

  lemma ByteIndex(w: nat, row: nat, xo: int)
    ensures (row * w + xo) * 2 == Times(2 * w, row) + 2 * xo
  {
    TimesIsProduct(2 * w, row);
    assert (row * w + xo) * 2 == row * (2 * w) + 2 * xo;
  }

  /**
   * The buffer of `st7735_print_line` is laid out as its loops index it:
   * pixel `xo` of row `row` is at pixel index `row * 6 |t| + xo`, high
   * byte first.
   */
  lemma LineImageLayout(t: string, row: int, xo: int, color: bv16, bg: bv16)
    requires 0 <= row < CharHeight && 0 <= xo < CharWidth * |t|
    ensures (row * (CharWidth * |t|) + xo) * 2 + 1 < |LineImage(t, color, bg)|
    ensures LineImage(t, color, bg)[(row * (CharWidth * |t|) + xo) * 2] == High(LinePixel(TextLine(Glyphs(t), color, bg), row, xo))
    ensures LineImage(t, color, bg)[(row * (CharWidth * |t|) + xo) * 2 + 1] == Low(LinePixel(TextLine(Glyphs(t), color, bg), row, xo))
  {
    var l, w := TextLine(Glyphs(t), color, bg), CharWidth * |t|;
    assert LineImage(t, color, bg) == ImageRows(l, w, CharHeight);
    ImageLayout(l, w, CharHeight, row, xo);
  }

  /**
   * The driver's state: the rotation it last set, its static 4096-byte
   * transmit buffer (2048 pixels), and the transfers it has sent so far.
   */
  class Lcd {
    var rotation: int
    const spiBuffer: array<bv16>
    ghost var log: seq<Transfer>

    ghost predicate Valid()
      reads this
    {
      spiBuffer.Length == BufferPixels && 0 <= rotation < 4
    }

    constructor ()
      ensures Valid() && rotation == 0 && log == []
    {
      rotation := 0;
      spiBuffer := new bv16[BufferPixels];
      log := [];
    }

    /** `st7735_set_rotation`: keeps the rotation modulo 4 and sends its MADCTL byte. */
    method SetRotation(r: bv8)
      modifies this`rotation, this`log
      ensures rotation == r as int % 4
      ensures log == old(log) + [Command(MadctlCommand), Data([MadctlFor(rotation)])]
    {
      rotation := r as int % 4;
      log := log + [Command(MadctlCommand)];
      if rotation == 0 {
        log := log + [Data([0xC8])];
      } else if rotation == 1 {
        log := log + [Data([0xC8])];
      } else if rotation == 2 {
        log := log + [Data([0x08])];
      } else {
        log := log + [Data([0x68])];
      }
    }

    /**
     * `st7735_draw_pixel`: nothing off screen; otherwise a 1x1 window and
     * the byte-swapped colour, which the little-endian buffer sends high
     * byte first.
     */
    method DrawPixel(x: int, y: int, color: bv16)
      modifies this`log
      ensures log == old(log) + DrawnAt(x, y, color)
    {
      if x < 0 || x >= Width || y < 0 || y >= Height {
        return;
      }
      var pixelData := Swap16(color);
      SwappedWordArrivesInPanelOrder(color);
      log := log + [WindowOf(x, y, x, y), Data(MemoryBytes(pixelData))];
    }

    /** `st7735_fill_screen`: the whole screen as one window, then 128 x 160 pixels in bulk. */
    method FillScreen(color: bv16)
      modifies this`log
      ensures log == old(log) + [WindowOf(0, 0, Width - 1, Height - 1)] + BulkWrite(color, Width * Height)
    {
      log := log + [WindowOf(0, 0, Width - 1, Height - 1)];
      var pixelData := new bv8[2 * BufferPixels];
      var i := 0;
      while i < BufferPixels
        invariant 0 <= i <= BufferPixels
        modifies pixelData
        invariant forall k :: 0 <= k < i ==> pixelData[2 * k] == High(color) && pixelData[2 * k + 1] == Low(color)
      {
        pixelData[2 * i] := High(color);
        pixelData[2 * i + 1] := Low(color);
        i := i + 1;
      }
      SendPixelData(pixelData, color, Width * Height);
    }

    /** The transmit loop of `st7735_fill_screen`, sending from a buffer of high-byte-first pixels. */
    method SendPixelData(pixelData: array<bv8>, color: bv16, total: nat)
      requires pixelData.Length == 2 * BufferPixels
      requires forall k :: 0 <= k < BufferPixels ==> pixelData[2 * k] == High(color) && pixelData[2 * k + 1] == Low(color)
      modifies this`log
      ensures log == old(log) + BulkWrite(color, total)
    {
      var sent := 0;
      while sent < total
        invariant 0 <= sent <= total
        invariant log + BulkWrite(color, total - sent) == old(log) + BulkWrite(color, total)
        decreases total - sent
      {
        var n := if total - sent > BufferPixels then BufferPixels else total - sent;
        FilledPrefix(pixelData[..], color, n);
        BulkWriteStep(color, total - sent);
        log := log + [Data(pixelData[..2 * n])];
        sent := sent + n;
      }
      assert log + [] == log;
    }

    /**
     * `st7735_fill_rect`: nothing when the corner is right of or below
     * the screen; otherwise the width and height cut back to the screen
     * edge, and `w * h` pixels (as a 32-bit `size_t`) sent in bulk from
     * the transmit buffer.
     */
    method FillRect(x: int, y: int, w: int, h: int, color: bv16)
      requires Valid()
      modifies this`log, spiBuffer
      ensures x >= Width || y >= Height ==> log == old(log)
      ensures x < Width && y < Height ==>
        log == old(log) + [WindowOf(x, y, x + ClipExtent(x, w, Width) - 1, y + ClipExtent(y, h, Height) - 1)]
               + BulkWrite(color, SizeT(ClipExtent(x, w, Width) * ClipExtent(y, h, Height)))
    {
      if x >= Width || y >= Height {
        return;
      }
      var cw, ch := w, h;
      if x + cw > Width {
        cw := Width - x;
      }
      if y + ch > Height {
        ch := Height - y;
      }
      log := log + [WindowOf(x, y, x + cw - 1, y + ch - 1)];
      var total := SizeT(cw * ch);
      FillBuffer(Swap16(color), total);
      SendBuffer(color, total);
    }

    /** The buffer loop of `st7735_fill_rect`: the first `min(2048, total)` words get the swapped colour. */
    method FillBuffer(pixelData: bv16, total: nat)
      requires Valid()
      modifies spiBuffer
      ensures forall k :: 0 <= k < BufferPixels && k < total ==> spiBuffer[k] == pixelData
    {
      var i := 0;
      while i < BufferPixels && i < total
        invariant 0 <= i <= BufferPixels && i <= total
        invariant forall k :: 0 <= k < i ==> spiBuffer[k] == pixelData
      {
        spiBuffer[i] := pixelData;
        i := i + 1;
      }
    }

    /** The transmit loop of `st7735_fill_rect`, sending from the filled transmit buffer. */
    method SendBuffer(color: bv16, total: nat)
      requires Valid()
      requires forall k :: 0 <= k < BufferPixels && k < total ==> spiBuffer[k] == Swap16(color)
      modifies this`log
      ensures log == old(log) + BulkWrite(color, total)
    {
      var sent := 0;
      while sent < total
        invariant 0 <= sent <= total
        invariant log + BulkWrite(color, total - sent) == old(log) + BulkWrite(color, total)
        decreases total - sent
      {
        var n := if total - sent > BufferPixels then BufferPixels else total - sent;
        SwappedPrefix(spiBuffer[..], color, n);
        BulkWriteStep(color, total - sent);
        log := log + [Data(Sent(spiBuffer[..n]))];
        sent := sent + n;
      }
      assert log + [] == log;
    }

    /**
     * `st7735_draw_line`: the Bresenham points from (x0, y0) to (x1, y1),
     * each drawn as a pixel, whichever of the two paths the length selects.
     */
    method DrawLine(x0: int, y0: int, x1: int, y1: int, color: bv16)
      modifies this`log
      ensures log == old(log) + Plot(LinePoints(x0, y0, x1, y1), color)
    {
      var dx := AbsInt(x1 - x0);
      var dy := AbsInt(y1 - y0);
      if dx + dy < ShortLine {
        DrawLineDirect(x0, y0, x1, y1, color);
      } else {
        DrawLineBuffered(x0, y0, x1, y1, color);
      }
    }

    /** The error-term update at the end of each pass of the line loop. */
    method LineStep(l: Line, x: int, y: int, err: int) returns (nx: int, ny: int, nerr: int)
      ensures Walk(nx, ny, nerr) == Step(l, Walk(x, y, err))
    {
      nx, ny, nerr := x, y, err;
      var e2 := 2 * err;
      if e2 > -l.dy {
        nerr := nerr - l.dy;
        nx := nx + l.sx;
      }
      if e2 < l.dx {
        nerr := nerr + l.dx;
        ny := ny + l.sy;
      }
    }

    /** The short-line path: each point is drawn as soon as the walk reaches it. */
    method DrawLineDirect(x0: int, y0: int, x1: int, y1: int, color: bv16)
      modifies this`log
      ensures log == old(log) + Plot(LinePoints(x0, y0, x1, y1), color)
    {
      var l := LineOf(x0, y0, x1, y1);
      var err := l.dx - l.dy;
      var x, y := x0, y0;
      ghost var visited: seq<Point> := [];
      StartOnLine(x0, y0, x1, y1);
      while true
        invariant OnLine(l, Walk(x, y, err))
        invariant visited + PointsFrom(l, Walk(x, y, err)) == LinePoints(x0, y0, x1, y1)
        invariant log == old(log) + Plot(visited, color)
        decreases Remaining(l, Walk(x, y, err))
      {
        DrawVisited(x, y, color, old(log), visited);
        ghost var w := Walk(x, y, err);
        if x == x1 && y == y1 {
          VisitLast(l, w, visited, LinePoints(x0, y0, x1, y1));
          visited := visited + [Point(x, y)];
          break;
        }
        VisitNext(l, w, visited, LinePoints(x0, y0, x1, y1));
        visited := visited + [Point(x, y)];
        x, y, err := LineStep(l, x, y, err);
      }
    }

    /**
     * The long-line path: points are collected in buffers of 2048 and
     * drawn whenever 2047 are pending, then the rest at the end. It sends
     * exactly what the direct path sends, and the pending count stays
     * below 2047 at every store, within the buffers' capacity.
     */
    method DrawLineBuffered(x0: int, y0: int, x1: int, y1: int, color: bv16)
      modifies this`log
      ensures log == old(log) + Plot(LinePoints(x0, y0, x1, y1), color)
    {
      var l := LineOf(x0, y0, x1, y1);
      var err := l.dx - l.dy;
      var x, y := x0, y0;
      var linePixels := new bv16[BufferPixels];
      var lineX := new int[BufferPixels];
      var lineY := new int[BufferPixels];
      var pixelCount := 0;
      ghost var visited: seq<Point> := [];
      ghost var drawn: seq<Point> := [];
      ghost var pending: seq<Point> := [];
      StartOnLine(x0, y0, x1, y1);
      while true
        invariant 0 <= pixelCount < BufferPixels - 1 && |pending| == pixelCount
        invariant lineX != lineY && lineX as object != linePixels && lineY as object != linePixels
        invariant Buffered(lineX, lineY, linePixels, pending, color)
        invariant OnLine(l, Walk(x, y, err))
        invariant visited + PointsFrom(l, Walk(x, y, err)) == LinePoints(x0, y0, x1, y1)
        invariant visited == drawn + pending
        invariant log == old(log) + Plot(drawn, color)
        decreases Remaining(l, Walk(x, y, err))
      {
        ghost var w := Walk(x, y, err);
        Store(lineX, lineY, linePixels, pixelCount, x, y, color, pending);
        pixelCount := pixelCount + 1;
        SnocAssoc(drawn, pending, Point(x, y));
        if x == x1 && y == y1 {
          VisitLast(l, w, visited, LinePoints(x0, y0, x1, y1));
          pending := pending + [Point(x, y)];
          visited := visited + [Point(x, y)];
          break;
        }
        VisitNext(l, w, visited, LinePoints(x0, y0, x1, y1));
        pending := pending + [Point(x, y)];
        visited := visited + [Point(x, y)];
        pixelCount, drawn, pending := FlushIfFull(lineX, lineY, linePixels, pixelCount, color, old(log), drawn, pending);
        x, y, err := LineStep(l, x, y, err);
      }
      Flush(lineX, lineY, linePixels, pixelCount, color, old(log), drawn, pending);
    }

    /** Draws the buffered points once 2047 are pending, and empties the buffers. */
    method FlushIfFull(lineX: array<int>, lineY: array<int>, linePixels: array<bv16>, count: int, color: bv16,
                       ghost start: seq<Transfer>, ghost drawn: seq<Point>, ghost pending: seq<Point>)
      returns (newCount: int, ghost newDrawn: seq<Point>, ghost newPending: seq<Point>)
      requires 0 <= count <= BufferPixels - 1 && |pending| == count
      requires Buffered(lineX, lineY, linePixels, pending, color)
      requires log == start + Plot(drawn, color)
      modifies this`log
      ensures newDrawn + newPending == drawn + pending
      ensures 0 <= newCount < BufferPixels - 1 && |newPending| == newCount
      ensures Buffered(lineX, lineY, linePixels, newPending, color)
      ensures log == start + Plot(newDrawn, color)
    {
      newCount, newDrawn, newPending := count, drawn, pending;
      if count >= BufferPixels - 1 {
        Flush(lineX, lineY, linePixels, count, color, start, drawn, pending);
        newCount, newDrawn, newPending := 0, drawn + pending, [];
      }
    }

    /** Draws the next point of a walk whose earlier points are drawn already. */
    method DrawVisited(x: int, y: int, color: bv16, ghost start: seq<Transfer>, ghost visited: seq<Point>)
      requires log == start + Plot(visited, color)
      modifies this`log
      ensures log == start + Plot(visited + [Point(x, y)], color)
    {
      DrawPixel(x, y, color);
      PlotSnoc(visited, Point(x, y), color);
    }

    /** The line buffers hold the points of `pending`, each with colour `color`. */
    ghost predicate Buffered(lineX: array<int>, lineY: array<int>, linePixels: array<bv16>, pending: seq<Point>, color: bv16)
      reads lineX, lineY, linePixels
    {
      |pending| <= lineX.Length && |pending| <= lineY.Length && |pending| <= linePixels.Length &&
      forall k :: 0 <= k < |pending| ==>
        lineX[k] == pending[k].x && lineY[k] == pending[k].y && linePixels[k] == color
    }

    /** One store of the long-line loop: the point and its colour at index `count`. */
    method Store(lineX: array<int>, lineY: array<int>, linePixels: array<bv16>, count: int,
                 x: int, y: int, color: bv16, ghost pending: seq<Point>)
      requires |pending| == count < lineX.Length && count < lineY.Length && count < linePixels.Length
      requires Buffered(lineX, lineY, linePixels, pending, color)
      requires lineX != lineY && lineX as object != linePixels && lineY as object != linePixels
      modifies lineX, lineY, linePixels
      ensures Buffered(lineX, lineY, linePixels, pending + [Point(x, y)], color)
    {
      ghost var xs, ys, cs := lineX[..], lineY[..], linePixels[..];
      linePixels[count] := color;
      lineX[count] := x;
      lineY[count] := y;
      var stored := pending + [Point(x, y)];
      forall k | 0 <= k < |stored|
        ensures lineX[k] == stored[k].x && lineY[k] == stored[k].y && linePixels[k] == color
      {
        if k < count {
          assert stored[k] == pending[k];
          assert lineX[k] == xs[k] && lineY[k] == ys[k] && linePixels[k] == cs[k];
        } else {
          assert stored[k] == Point(x, y);
        }
      }
    }

    /** Draws the first `count` buffered points, after the points drawn before them. */
    method Flush(lineX: array<int>, lineY: array<int>, linePixels: array<bv16>, count: int, color: bv16,
                 ghost start: seq<Transfer>, ghost drawn: seq<Point>, ghost pending: seq<Point>)
      requires 0 <= count <= lineX.Length && count <= lineY.Length && count <= linePixels.Length
      requires |pending| == count
      requires Buffered(lineX, lineY, linePixels, pending, color)
      requires log == start + Plot(drawn, color)
      modifies this`log
      ensures log == start + Plot(drawn + pending, color)
    {
      var i := 0;
      while i < count
        invariant 0 <= i <= count
        invariant log == old(log) + Plot(pending[..i], color)
      {
        DrawBuffered(lineX, lineY, linePixels, i, color, old(log), pending);
        i := i + 1;
      }
      assert pending[..count] == pending;
      PlotAppend(drawn, pending, color);
      Extend(start, Plot(drawn, color), Plot(pending, color), Plot(drawn + pending, color));
    }

    /** Draws buffered point `i`, after the buffered points before it. */
    method DrawBuffered(lineX: array<int>, lineY: array<int>, linePixels: array<bv16>, i: int, color: bv16,
                        ghost start: seq<Transfer>, ghost pending: seq<Point>)
      requires 0 <= i < |pending|
      requires Buffered(lineX, lineY, linePixels, pending, color)
      requires log == start + Plot(pending[..i], color)
      modifies this`log
      ensures log == start + Plot(pending[..i + 1], color)
    {
      var px, py, pc := lineX[i], lineY[i], linePixels[i];
      assert Point(px, py) == pending[i] && pc == color;
      DrawVisited(px, py, pc, start, pending[..i]);
      assert pending[..i + 1] == pending[..i] + [pending[i]];
    }
  
    /**
     * The glyph loops of `st7735_print_text` for one character: column by
     * column, top to bottom, the foreground where the glyph's bit is set,
     * elsewhere the background unless it equals the foreground.
     */
    method DrawGlyph(c: char, cursorX: int, cursorY: int, color: bv16, bg: bv16)
      requires FirstPrintable <= c as int <= LastPrintable
      modifies this`log
      ensures log == old(log) + GlyphWrites(Placed(c, cursorX, cursorY), color, bg)
    {
      var charData := Table(c as int - FirstPrintable);
      DrawColumns(charData, cursorX, cursorY, color, bg);
    }

    /** The column loop of the glyph drawing, for the glyph's five column bytes. */
    method DrawColumns(charData: Glyph, cursorX: int, cursorY: int, color: bv16, bg: bv16)
      modifies this`log
      ensures log == old(log) + ColumnsUpTo(charData, cursorX, cursorY, GlyphWidth, color, bg)
    {
      var col := 0;
      while col < GlyphWidth
        invariant 0 <= col <= GlyphWidth
        invariant log == old(log) + ColumnsUpTo(charData, cursorX, cursorY, col, color, bg)
      {
        DrawColumn(charData, cursorX, cursorY, col, color, bg);
        Extend(old(log), ColumnsUpTo(charData, cursorX, cursorY, col, color, bg),
               RowsUpTo(charData, cursorX, cursorY, col, CharHeight, color, bg),
               ColumnsUpTo(charData, cursorX, cursorY, col + 1, color, bg));
        col := col + 1;
      }
    }

    /**
     * `st7735_print_text`: each character other than a line feed is drawn
     * as a glyph at the cursor, which then moves 6 pixels right and wraps
     * to the next 8-pixel row at column 123; a line feed only moves the
     * cursor back to column `x` one row down.
     */
    method PrintText(x: int, y: int, text: string, color: bv16, bg: bv16)
      modifies this`log
      ensures log == old(log) + TextWrites(TextLayout(x, y, text), color, bg)
    {
      var cursorX, cursorY := x, y;
      var i := 0;
      ghost var placed: seq<Placed> := [];
      while i < |text|
        invariant 0 <= i <= |text|
        invariant placed + TextFrom(x, cursorX, cursorY, text[i..]) == TextLayout(x, y, text)
        invariant log == old(log) + TextWrites(placed, color, bg)
      {
        var c := text[i];
        assert text[i..][1..] == text[i + 1..];
        cursorX, cursorY, placed := TextStep(c, x, cursorX, cursorY, color, bg, old(log), placed,
                                             text[i..], TextLayout(x, y, text));
        i := i + 1;
      }
      assert text[i..] == [];
      assert TextFrom(x, cursorX, cursorY, text[i..]) == [];
      assert placed + [] == placed;
    }

    /**
     * One character of `st7735_print_text`: a line feed moves the cursor
     * to column `x` one row down; any other character is drawn and the
     * cursor moves one cell right, wrapping at column 123.
     */
    method TextStep(c: char, x: int, cursorX: int, cursorY: int, color: bv16, bg: bv16,
                    ghost start: seq<Transfer>, ghost placed: seq<Placed>, ghost text: string, ghost all: seq<Placed>)
      returns (nx: int, ny: int, ghost newPlaced: seq<Placed>)
      requires text != [] && text[0] == c
      requires placed + TextFrom(x, cursorX, cursorY, text) == all
      requires log == start + TextWrites(placed, color, bg)
      modifies this`log
      ensures newPlaced + TextFrom(x, nx, ny, text[1..]) == all
      ensures log == start + TextWrites(newPlaced, color, bg)
    {
      if c == '\n' {
        LayoutLineFeed(x, cursorX, cursorY, text, placed, all);
        nx, ny, newPlaced := x, cursorY + CharHeight, placed;
        return;
      }
      LayoutGlyph(x, cursorX, cursorY, text, placed, all);
      PrintChar(c, cursorX, cursorY, color, bg, start, placed);
      newPlaced := placed + [Placed(c, cursorX, cursorY)];
      nx, ny := cursorX + CharWidth, cursorY;
      if nx >= Width - 5 {
        nx := x;
        ny := cursorY + CharHeight;
      }
    }

    /**
     * `st7735_print_line`: the text, cut to 21 characters when it is wider
     * than the screen, rendered into one buffer of 8 rows of `6 len`
     * pixels and sent as a single window and transaction.
     */
    method PrintLine(x: int, y: int, text: string, color: bv16, bg: bv16)
      modifies this`log
      ensures var len := ClippedLength(|text|);
        log == old(log) + [WindowOf(x, y, x + CharWidth * len - 1, y + CharHeight - 1),
                           Data(LineImage(text[..len], color, bg))]
    {
      var len := |text|;
      if len * CharWidth > Width {
        len := Width / CharWidth;
      }
      assert len == ClippedLength(|text|);
      var lineWidth := len * CharWidth;
      var lineBuffer := LineImage(text[..len], color, bg);
      log := log + [WindowOf(x, y, x + lineWidth - 1, y + CharHeight - 1), Data(lineBuffer)];
    }

    /** The body of `st7735_print_text` for one character other than a line feed. */
    method PrintChar(c: char, cursorX: int, cursorY: int, color: bv16, bg: bv16,
                     ghost start: seq<Transfer>, ghost placed: seq<Placed>)
      requires log == start + TextWrites(placed, color, bg)
      modifies this`log
      ensures log == start + TextWrites(placed + [Placed(c, cursorX, cursorY)], color, bg)
    {
      TextWritesSnoc(placed, Placed(c, cursorX, cursorY), color, bg);
      var ch := c;
      if ch as int < FirstPrintable || ch as int > LastPrintable {
        UnprintableDrawnAsSpace(Placed(c, cursorX, cursorY), color, bg);
        ch := ' ';
      }
      DrawGlyph(ch, cursorX, cursorY, color, bg);
      Extend(start, TextWrites(placed, color, bg), GlyphWrites(Placed(c, cursorX, cursorY), color, bg),
             TextWrites(placed + [Placed(c, cursorX, cursorY)], color, bg));
    }

    /** The row loop for one glyph column, top to bottom. */
    method DrawColumn(g: Glyph, x: int, y: int, col: int, color: bv16, bg: bv16)
      requires 0 <= col < GlyphWidth
      modifies this`log
      ensures log == old(log) + RowsUpTo(g, x, y, col, CharHeight, color, bg)
    {
      var row := 0;
      while row < CharHeight
        invariant 0 <= row <= CharHeight
        invariant log == old(log) + RowsUpTo(g, x, y, col, row, color, bg)
      {
        DrawCell(g, x, y, col, row, color, bg);
        Extend(old(log), RowsUpTo(g, x, y, col, row, color, bg), CellWrites(g, x, y, col, row, color, bg),
               RowsUpTo(g, x, y, col, row + 1, color, bg));
        row := row + 1;
      }
    }

    /** One pass of the row loop: the pixel for bit `row` of glyph column `col`. */
    method DrawCell(g: Glyph, x: int, y: int, col: int, row: int, color: bv16, bg: bv16)
      requires 0 <= col < GlyphWidth && 0 <= row < CharHeight
      modifies this`log
      ensures log == old(log) + CellWrites(g, x, y, col, row, color, bg)
    {
      var line := Column(g, col);
      MaskTest(line, row);
      if line & (1 << row) != 0 {
        DrawPixel(x + col, y + row, color);
      } else if bg != color {
        DrawPixel(x + col, y + row, bg);
      }
    }
  }
}
