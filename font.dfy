/**
  The built-in hexadecimal font `_fontset`: sixteen 4x5-pixel glyphs for the digits 0 to F,
  stored back to back as 80 bytes. Each glyph is five bytes, one per row, with the pixels in
  the high nibble.
 */
module Font {
  import opened Words

  /** Rows per glyph. */
  const GlyphRows := 5
  /** Number of glyphs, one per hexadecimal digit. */
  const GlyphCount := 16
  /** Size of the font in bytes. */
  const FontBytes := GlyphCount * GlyphRows

  /** The five rows of the glyph for hexadecimal digit d, in the order `_fontset` lists them. */
  function Glyph(d: nat): (g: seq<Byte>)
    requires d < GlyphCount
    ensures |g| == GlyphRows
  {
    match d
    case 0x0 => [0xF0, 0x90, 0x90, 0x90, 0xF0]
    case 0x1 => [0x20, 0x60, 0x20, 0x20, 0x70]
    case 0x2 => [0xF0, 0x10, 0xF0, 0x80, 0xF0]
    case 0x3 => [0xF0, 0x10, 0xF0, 0x10, 0xF0]
    case 0x4 => [0x90, 0x90, 0xF0, 0x10, 0x10]
    case 0x5 => [0xF0, 0x80, 0xF0, 0x10, 0xF0]
    case 0x6 => [0xF0, 0x80, 0xF0, 0x90, 0xF0]
    case 0x7 => [0xF0, 0x10, 0x20, 0x40, 0x40]
    case 0x8 => [0xF0, 0x90, 0xF0, 0x90, 0xF0]
    case 0x9 => [0xF0, 0x90, 0xF0, 0x10, 0xF0]
    case 0xA => [0xF0, 0x90, 0xF0, 0x90, 0x90]
    case 0xB => [0xE0, 0x90, 0xE0, 0x90, 0xE0]
    case 0xC => [0xF0, 0x80, 0x80, 0x80, 0xF0]
    case 0xD => [0xE0, 0x90, 0x90, 0x90, 0xE0]
    case 0xE => [0xF0, 0x80, 0xF0, 0x80, 0xF0]
    case _ => [0xF0, 0x80, 0xF0, 0x80, 0x80]
  }

  /** `_fontset`: the glyphs back to back, glyph d at bytes 5 * d to 5 * d + 4. */
  function FontSet(): (f: seq<Byte>)
    ensures |f| == FontBytes == 80
  {
    seq(FontBytes, i requires 0 <= i < FontBytes => Glyph(i / GlyphRows)[i % GlyphRows])
  }

  /** Row r of the glyph for digit d is font byte 5 * d + r. */
  lemma FontLayout(d: nat, r: nat)
    requires d < GlyphCount && r < GlyphRows
    ensures GlyphRows * d + r < FontBytes
    ensures FontSet()[GlyphRows * d + r] == Glyph(d)[r]
  {
    assert (GlyphRows * d + r) / GlyphRows == d && (GlyphRows * d + r) % GlyphRows == r;
  }

  /** Every row of every glyph has a clear low nibble: a glyph is at most 4 pixels wide. */
  lemma GlyphFourPixelsWide(d: nat, r: nat)
    requires d < GlyphCount && r < GlyphRows
    ensures Glyph(d)[r] % 0x10 == 0
  {
  }

  /** Every font byte has a clear low nibble. */
  lemma {:induction false} FontFourPixelsWide()
    ensures forall i :: 0 <= i < FontBytes ==> FontSet()[i] % 0x10 == 0
  {
    forall i | 0 <= i < FontBytes
      ensures FontSet()[i] % 0x10 == 0
    {
      GlyphFourPixelsWide(i / GlyphRows, i % GlyphRows);
    }
  }
}
