/** The drawing modes and the highlighter alpha rule. */
module Tools {
  import opened Colors
  import opened Annotations

  /** The six modes: "free", "highlighter", "line", "rect", "circle", "eraser". */
  datatype Tool = Free | Highlighter | StraightLine | Rect | Circle | Eraser
  {
    /** Modes in which a press starts a stroke and a move extends it. */
    predicate DrawsStroke() { this == Free || this == Highlighter }

    /** Modes in which a release adds a shape. */
    predicate DrawsShape() { this == StraightLine || this == Rect || this == Circle }
  }

  /** The shape kind a release records: the mode itself. */
  function ShapeKindOf(m: Tool): (k: ShapeKind)
    requires m.DrawsShape()
    ensures (k == LineShape <==> m == StraightLine) && (k == RectShape <==> m == Rect)
  {
    match m
    case StraightLine => LineShape
    case Rect => RectShape
    case Circle => CircleShape
  }

  /** The alpha set_mode gives the current colour for a mode. */
  function ModeAlpha(m: Tool): (a: Channel)
    ensures a == HighlighterAlpha <==> m == Highlighter
    ensures a == OpaqueAlpha <==> m != Highlighter
  {
    if m == Highlighter then HighlighterAlpha else OpaqueAlpha
  }

  /** The colour change_color installs when chosen colour c is picked in mode m. */
  function Chosen(m: Tool, c: Color): (r: Color)
    ensures r.rgb == c.rgb
    ensures r.alpha == (if m == Highlighter then HighlighterAlpha else c.alpha)
  {
    if m == Highlighter then c.(alpha := HighlighterAlpha) else c
  }

  /** A palette button always yields a colour whose alpha is the one the
      current mode calls for, keeping the button's channels. */
  lemma PalettePickMatchesMode(m: Tool, i: nat)
    requires i < |Palette|
    ensures Chosen(m, Palette[i]).alpha == ModeAlpha(m)
    ensures Chosen(m, Palette[i]).rgb == Palette[i].rgb
  {
    PaletteOpaque();
  }
}
