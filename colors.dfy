/** Colours as values: 8-bit red, green and blue channels plus alpha, the
    opacity constants of the highlighter rule, the palette, and the
    darken/lighten helpers that the tool buttons use for their gradients. */
module Colors {

  type Channel = c: int | 0 <= c <= 255

  datatype Rgb = Rgb(red: Channel, green: Channel, blue: Channel)

  datatype Color = Color(rgb: Rgb, alpha: Channel)

  /** The alpha that highlighter mode forces on the current colour. */
  const HighlighterAlpha: Channel := 100

  /** The alpha every other mode restores. */
  const OpaqueAlpha: Channel := 255

  /** Builds the colour of a "#rrggbb" literal (QColor of a hex string). */
  function Hex(red: Channel, green: Channel, blue: Channel): Color
  {
    Color(Rgb(red, green, blue), OpaqueAlpha)
  }

  /** The initial current colour, "#e74c3c". */
  const InitialColor: Color := Hex(0xe7, 0x4c, 0x3c)

  /** The ten palette buttons, in their order on the panel. */
  const Palette: seq<Color> := [
    Hex(0xe7, 0x4c, 0x3c), Hex(0x34, 0x98, 0xdb),
    Hex(0x2e, 0xcc, 0x71), Hex(0xf3, 0x9c, 0x12),
    Hex(0x9b, 0x59, 0xb6), Hex(0x1a, 0xbc, 0x9c),
    Hex(0x34, 0x49, 0x5e), Hex(0xff, 0xff, 0xff),
    Hex(0xf1, 0xc4, 0x0f), Hex(0xe9, 0x1e, 0x63)
  ]

  /** Every palette colour is fully opaque, and the initial colour is the
      first palette entry. */
  lemma PaletteOpaque()
    ensures |Palette| == 10 && Palette[0] == InitialColor
    ensures forall i :: 0 <= i < |Palette| ==> Palette[i].alpha == OpaqueAlpha
  {
  }

  /** One channel 30 steps darker, clamped at 0. */
  function DarkenChannel(c: Channel): (r: Channel)
    ensures r <= c <= r + 30
    ensures r == c - 30 || r == 0
  {
    if c >= 30 then c - 30 else 0
  }

  /** One channel 30 steps lighter, clamped at 255. */
  function LightenChannel(c: Channel): (r: Channel)
    ensures r - 30 <= c <= r
    ensures r == c + 30 || r == 255
  {
    if c <= 225 then c + 30 else 255
  }

  /** darken_color: each channel 30 darker, clamped into 0..255. */
  function Darken(c: Rgb): (r: Rgb)
    ensures r.red <= c.red && r.green <= c.green && r.blue <= c.blue
  {
    Rgb(DarkenChannel(c.red), DarkenChannel(c.green), DarkenChannel(c.blue))
  }

  /** lighten_color: each channel 30 lighter, clamped into 0..255. */
  function Lighten(c: Rgb): (r: Rgb)
    ensures c.red <= r.red && c.green <= r.green && c.blue <= r.blue
  {
    Rgb(LightenChannel(c.red), LightenChannel(c.green), LightenChannel(c.blue))
  }

  /** Away from the clamps the two helpers undo each other; at the clamps
      the round trip ends at the clamp plus or minus 30. */
  lemma LightenDarken(c: Rgb)
    ensures Lighten(Darken(c)) == Rgb(Max30(c.red), Max30(c.green), Max30(c.blue))
    ensures Darken(Lighten(c)) == Rgb(Min225(c.red), Min225(c.green), Min225(c.blue))
  {
  }

  function Max30(c: Channel): Channel { if c < 30 then 30 else c }
  function Min225(c: Channel): Channel { if c > 225 then 225 else c }
}
