/**
 * The 5-column bitmap font both display drivers use: one glyph per
 * printable ASCII character from ' ' (32) to '~' (126); each column is a
 * byte whose bit j is the pixel in row j, row 0 at the top.
 */
module Font {

  const FirstPrintable: int := 32
  const LastPrintable: int := 126
  const GlyphWidth: int := 5

  /** The five column bytes of one glyph, left to right. */
  datatype Glyph = Glyph(c0: bv8, c1: bv8, c2: bv8, c3: bv8, c4: bv8)

  function Column(g: Glyph, col: int): bv8
    requires 0 <= col < GlyphWidth
  {
    if col == 0 then g.c0 else if col == 1 then g.c1 else if col == 2 then g.c2
    else if col == 3 then g.c3 else g.c4
  }

  /** Every column byte leaves its top bit clear: row 7 of every glyph is blank. */
  predicate SevenRows(g: Glyph) {
    g.c0 < 0x80 && g.c1 < 0x80 && g.c2 < 0x80 && g.c3 < 0x80 && g.c4 < 0x80
  }

  /** Glyphs for the codes 32 to 43, ' ' to '+'. */
  const Block0: seq<Glyph> := [
    Glyph(0x00, 0x00, 0x00, 0x00, 0x00),
    Glyph(0x00, 0x00, 0x5F, 0x00, 0x00),
    Glyph(0x00, 0x07, 0x00, 0x07, 0x00),
    Glyph(0x14, 0x7F, 0x14, 0x7F, 0x14),
    Glyph(0x24, 0x2A, 0x7F, 0x2A, 0x12),
    Glyph(0x23, 0x13, 0x08, 0x64, 0x62),
    Glyph(0x36, 0x49, 0x55, 0x22, 0x50),
    Glyph(0x00, 0x05, 0x03, 0x00, 0x00),
    Glyph(0x00, 0x1C, 0x22, 0x41, 0x00),
    Glyph(0x00, 0x41, 0x22, 0x1C, 0x00),
    Glyph(0x14, 0x08, 0x3E, 0x08, 0x14),
    Glyph(0x08, 0x08, 0x3E, 0x08, 0x08)
  ]

  /** Glyphs for the codes 44 to 55, ',' to '7'. */
  const Block1: seq<Glyph> := [
    Glyph(0x00, 0x50, 0x30, 0x00, 0x00),
    Glyph(0x08, 0x08, 0x08, 0x08, 0x08),
    Glyph(0x00, 0x60, 0x60, 0x00, 0x00),
    Glyph(0x20, 0x10, 0x08, 0x04, 0x02),
    Glyph(0x3E, 0x51, 0x49, 0x45, 0x3E),
    Glyph(0x00, 0x42, 0x7F, 0x40, 0x00),
    Glyph(0x42, 0x61, 0x51, 0x49, 0x46),
    Glyph(0x21, 0x41, 0x45, 0x4B, 0x31),
    Glyph(0x18, 0x14, 0x12, 0x7F, 0x10),
    Glyph(0x27, 0x45, 0x45, 0x45, 0x39),
    Glyph(0x3C, 0x4A, 0x49, 0x49, 0x30),
    Glyph(0x01, 0x71, 0x09, 0x05, 0x03)
  ]

  /** Glyphs for the codes 56 to 67, '8' to 'C'. */
  const Block2: seq<Glyph> := [
    Glyph(0x36, 0x49, 0x49, 0x49, 0x36),
    Glyph(0x06, 0x49, 0x49, 0x29, 0x1E),
    Glyph(0x00, 0x36, 0x36, 0x00, 0x00),
    Glyph(0x00, 0x56, 0x36, 0x00, 0x00),
    Glyph(0x08, 0x14, 0x22, 0x41, 0x00),
    Glyph(0x14, 0x14, 0x14, 0x14, 0x14),
    Glyph(0x00, 0x41, 0x22, 0x14, 0x08),
    Glyph(0x02, 0x01, 0x51, 0x09, 0x06),
    Glyph(0x32, 0x49, 0x79, 0x41, 0x3E),
    Glyph(0x7E, 0x11, 0x11, 0x11, 0x7E),
    Glyph(0x7F, 0x49, 0x49, 0x49, 0x36),
    Glyph(0x3E, 0x41, 0x41, 0x41, 0x22)
  ]

  /** Glyphs for the codes 68 to 79, 'D' to 'O'. */
  const Block3: seq<Glyph> := [
    Glyph(0x7F, 0x41, 0x41, 0x22, 0x1C),
    Glyph(0x7F, 0x49, 0x49, 0x49, 0x41),
    Glyph(0x7F, 0x09, 0x09, 0x09, 0x01),
    Glyph(0x3E, 0x41, 0x49, 0x49, 0x7A),
    Glyph(0x7F, 0x08, 0x08, 0x08, 0x7F),
    Glyph(0x00, 0x41, 0x7F, 0x41, 0x00),
    Glyph(0x20, 0x40, 0x41, 0x3F, 0x01),
    Glyph(0x7F, 0x08, 0x14, 0x22, 0x41),
    Glyph(0x7F, 0x40, 0x40, 0x40, 0x40),
    Glyph(0x7F, 0x02, 0x0C, 0x02, 0x7F),
    Glyph(0x7F, 0x04, 0x08, 0x10, 0x7F),
    Glyph(0x3E, 0x41, 0x41, 0x41, 0x3E)
  ]

  /** Glyphs for the codes 80 to 91, 'P' to '['. */
  const Block4: seq<Glyph> := [
    Glyph(0x7F, 0x09, 0x09, 0x09, 0x06),
    Glyph(0x3E, 0x41, 0x51, 0x21, 0x5E),
    Glyph(0x7F, 0x09, 0x19, 0x29, 0x46),
    Glyph(0x46, 0x49, 0x49, 0x49, 0x31),
    Glyph(0x01, 0x01, 0x7F, 0x01, 0x01),
    Glyph(0x3F, 0x40, 0x40, 0x40, 0x3F),
    Glyph(0x1F, 0x20, 0x40, 0x20, 0x1F),
    Glyph(0x7F, 0x20, 0x18, 0x20, 0x7F),
    Glyph(0x63, 0x14, 0x08, 0x14, 0x63),
    Glyph(0x07, 0x08, 0x70, 0x08, 0x07),
    Glyph(0x61, 0x51, 0x49, 0x45, 0x43),
    Glyph(0x00, 0x7F, 0x41, 0x41, 0x00)
  ]

  /** Glyphs for the codes 92 to 103, '\\' to 'g'. */
  const Block5: seq<Glyph> := [
    Glyph(0x02, 0x04, 0x08, 0x10, 0x20),
    Glyph(0x00, 0x41, 0x41, 0x7F, 0x00),
    Glyph(0x04, 0x02, 0x01, 0x02, 0x04),
    Glyph(0x40, 0x40, 0x40, 0x40, 0x40),
    Glyph(0x00, 0x01, 0x02, 0x04, 0x00),
    Glyph(0x20, 0x54, 0x54, 0x54, 0x78),
    Glyph(0x7F, 0x48, 0x44, 0x44, 0x38),
    Glyph(0x38, 0x44, 0x44, 0x44, 0x20),
    Glyph(0x38, 0x44, 0x44, 0x48, 0x7F),
    Glyph(0x38, 0x54, 0x54, 0x54, 0x18),
    Glyph(0x08, 0x7E, 0x09, 0x01, 0x02),
    Glyph(0x0C, 0x52, 0x52, 0x52, 0x3E)
  ]

  /** Glyphs for the codes 104 to 115, 'h' to 's'. */
  const Block6: seq<Glyph> := [
    Glyph(0x7F, 0x08, 0x04, 0x04, 0x78),
    Glyph(0x00, 0x44, 0x7D, 0x40, 0x00),
    Glyph(0x20, 0x40, 0x44, 0x3D, 0x00),
    Glyph(0x7F, 0x10, 0x28, 0x44, 0x00),
    Glyph(0x00, 0x41, 0x7F, 0x40, 0x00),
    Glyph(0x7C, 0x04, 0x18, 0x04, 0x78),
    Glyph(0x7C, 0x08, 0x04, 0x04, 0x78),
    Glyph(0x38, 0x44, 0x44, 0x44, 0x38),
    Glyph(0x7C, 0x14, 0x14, 0x14, 0x08),
    Glyph(0x08, 0x14, 0x14, 0x18, 0x7C),
    Glyph(0x7C, 0x08, 0x04, 0x04, 0x08),
    Glyph(0x48, 0x54, 0x54, 0x54, 0x20)
  ]

  /** Glyphs for the codes 116 to 126, 't' to '~'. */
  const Block7: seq<Glyph> := [
    Glyph(0x04, 0x3F, 0x44, 0x40, 0x20),
    Glyph(0x3C, 0x40, 0x40, 0x20, 0x7C),
    Glyph(0x1C, 0x20, 0x40, 0x20, 0x1C),
    Glyph(0x3C, 0x40, 0x30, 0x40, 0x3C),
    Glyph(0x44, 0x28, 0x10, 0x28, 0x44),
    Glyph(0x0C, 0x50, 0x50, 0x50, 0x3C),
    Glyph(0x44, 0x64, 0x54, 0x4C, 0x44),
    Glyph(0x00, 0x08, 0x36, 0x41, 0x00),
    Glyph(0x00, 0x00, 0x7F, 0x00, 0x00),
    Glyph(0x00, 0x41, 0x36, 0x08, 0x00),
    Glyph(0x08, 0x08, 0x2A, 0x1C, 0x08)
  ]

  /**
   * The glyph table, indexed by character code minus 32, in blocks of
   * twelve glyphs so that each block's property is checked on its own.
   */
  const Font5x8: seq<Glyph> := Block0 + Block1 + Block2 + Block3 + Block4 + Block5 + Block6 + Block7

  predicate AllSevenRows(gs: seq<Glyph>) {
    forall k :: 0 <= k < |gs| ==> SevenRows(gs[k])
  }

  lemma Block0SevenRows()
    ensures AllSevenRows(Block0)
  {
  }

  lemma Block1SevenRows()
    ensures AllSevenRows(Block1)
  {
  }

  lemma Block2SevenRows()
    ensures AllSevenRows(Block2)
  {
  }

  lemma Block3SevenRows()
    ensures AllSevenRows(Block3)
  {
  }

  lemma Block4SevenRows()
    ensures AllSevenRows(Block4)
  {
  }

  lemma Block5SevenRows()
    ensures AllSevenRows(Block5)
  {
  }

  lemma Block6SevenRows()
    ensures AllSevenRows(Block6)
  {
  }

  lemma Block7SevenRows()
    ensures AllSevenRows(Block7)
  {
  }

  lemma AllSevenRowsAppend(a: seq<Glyph>, b: seq<Glyph>)
    requires AllSevenRows(a) && AllSevenRows(b)
    ensures AllSevenRows(a + b)
  {
    forall k | 0 <= k < |a + b|
      ensures SevenRows((a + b)[k])
    {
      if k < |a| {
        assert (a + b)[k] == a[k];
      } else {
        assert (a + b)[k] == b[k - |a|];
      }
    }
  }

  /** No glyph of the font uses its bottom row. */
  lemma FontSevenRows()
    ensures |Font5x8| == LastPrintable - FirstPrintable + 1
    ensures AllSevenRows(Font5x8)
  {
    Block0SevenRows(); Block1SevenRows(); Block2SevenRows(); Block3SevenRows();
    Block4SevenRows(); Block5SevenRows(); Block6SevenRows(); Block7SevenRows();
    AllSevenRowsAppend(Block0, Block1);
    AllSevenRowsAppend(Block0 + Block1, Block2);
    AllSevenRowsAppend(Block0 + Block1 + Block2, Block3);
    AllSevenRowsAppend(Block0 + Block1 + Block2 + Block3, Block4);
    AllSevenRowsAppend(Block0 + Block1 + Block2 + Block3 + Block4, Block5);
    AllSevenRowsAppend(Block0 + Block1 + Block2 + Block3 + Block4 + Block5, Block6);
    AllSevenRowsAppend(Block0 + Block1 + Block2 + Block3 + Block4 + Block5 + Block6, Block7);
  }

  /** The glyph for character code `k + 32`. */
  function Table(k: int): Glyph
    requires 0 <= k < LastPrintable - FirstPrintable + 1
  {
    Font5x8[k]
  }

  /** The table position of the glyph drawn for `c`: characters outside 32..126 are drawn as a space. */
  function GlyphIndex(c: char): (k: int)
    ensures 0 <= k < LastPrintable - FirstPrintable + 1
    ensures FirstPrintable <= c as int <= LastPrintable ==> k == c as int - FirstPrintable
    ensures !(FirstPrintable <= c as int <= LastPrintable) ==> k == 0
  {
    if c as int < FirstPrintable || c as int > LastPrintable then 0 else c as int - FirstPrintable
  }

  /** Whether column `col` of glyph `g` has its pixel in row `row` set. */
  predicate Bit(g: Glyph, col: int, row: int)
    requires 0 <= col < GlyphWidth && 0 <= row < 8
  {
    (Column(g, col) >> row) & 1 == 1
  }

  /** Whether column `col` of the glyph drawn for `c` has its pixel in row `row` set. */
  predicate GlyphBit(c: char, col: int, row: int)
    requires 0 <= col < GlyphWidth && 0 <= row < 8
  {
    Bit(Table(GlyphIndex(c)), col, row)
  }

  /** An unprintable character is drawn exactly as a space, which sets no pixel. */
  lemma UnprintableIsSpace(c: char, col: int, row: int)
    requires 0 <= col < GlyphWidth && 0 <= row < 8
    requires c as int < FirstPrintable || c as int > LastPrintable
    ensures GlyphBit(c, col, row) == GlyphBit(' ', col, row) == false
  {
  }

  /**
   * No glyph uses row 7, so the 8-row and 7-row renderings of a glyph set
   * the same pixels.
   */
  lemma RowSevenUnused(c: char, col: int)
    requires 0 <= col < GlyphWidth
    ensures !GlyphBit(c, col, 7)
  {
    FontSevenRows();
    assert SevenRows(Table(GlyphIndex(c)));
  }

  /** Testing bit `row` with a one-bit mask, as the drivers do, reads the same bit as `GlyphBit`. */
  lemma MaskTest(b: bv8, row: int)
    requires 0 <= row < 8
    ensures (b & (1 << row) != 0) == ((b >> row) & 1 == 1)
  {
  }

  /** A character placed with its top-left corner at (x, y). */
  datatype Placed = Placed(c: char, x: int, y: int)

  /** The characters of a run of placed glyphs, in order. */
  function Chars(ps: seq<Placed>): string
  {
    if ps == [] then [] else [ps[0].c] + Chars(ps[1..])
  }
}
