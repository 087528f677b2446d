/** Clients of the handlers: a completed stroke or shape followed by undo
    leaves the document exactly as it was, on any document. */
module Sessions {
  import opened Geometry
  import opened Annotations
  import opened History
  import opened Pencil
  import opened Colors
  import opened Tools
  import opened Shortcuts

  /** Press at p, two moves, release at r, undo, in free or highlighter mode. */
  method StrokeThenUndo(app: ScreenDrawApp, p: Point, q1: Point, q2: Point, r: Point)
    requires app.Valid() && app.drawMode && app.mode.DrawsStroke()
    modifies app
    ensures app.Valid() && !app.drawing
    ensures app.Document() == old(app.Document())
  {
    ghost var d0 := app.Document();
    app.MousePress(p, true);
    ghost var s := Stroke([p], app.currentColor, app.penSize);
    assert app.Document() == PushStroke(d0, s);
    app.MouseMove(q1, true);
    ExtendPushedStroke(d0, s, q1);
    ghost var s1 := s.(points := s.points + [q1]);
    assert app.Document() == PushStroke(d0, s1);
    app.MouseMove(q2, true);
    ExtendPushedStroke(d0, s1, q2);
    ghost var s2 := s1.(points := s1.points + [q2]);
    assert app.Document() == PushStroke(d0, s2);
    app.MouseRelease(r, true);
    app.Undo();
    UndoPushStroke(d0, s2);
  }

  /** Press at p, a move, release at r, undo, in a shape mode. */
  method ShapeThenUndo(app: ScreenDrawApp, p: Point, q: Point, r: Point)
    requires app.Valid() && app.drawMode && app.mode.DrawsShape()
    modifies app
    ensures app.Valid() && !app.drawing
    ensures app.Document() == old(app.Document())
  {
    ghost var d0 := app.Document();
    app.MousePress(p, true);
    app.MouseMove(q, true);
    app.MouseRelease(r, true);
    app.Undo();
    UndoPushShape(d0, Shape(Tools.ShapeKindOf(app.mode), p, r, app.currentColor, app.penSize));
  }

  /** Key L, then a press at p: the new stroke keeps the pen size and the
      colour's channels and carries the highlighter alpha. */
  method HighlightThenPress(app: ScreenDrawApp, p: Point)
    requires app.Valid() && app.drawMode
    modifies app
    ensures app.Valid() && app.drawing && app.mode == Highlighter && app.AlphaMatchesMode()
    ensures app.Document() ==
              PushStroke(old(app.Document()), Stroke([p], old(app.currentColor).(alpha := HighlighterAlpha), old(app.penSize)))
  {
    app.KeyPress(KeyL, false);
    app.MousePress(p, true);
  }

  /** A palette button pressed in any mode leaves the alpha rule holding,
      with the button's channels. */
  method PickPaletteColor(app: ScreenDrawApp, i: nat)
    requires i < |Palette|
    modifies app
    ensures app.AlphaMatchesMode() && app.currentColor.rgb == Palette[i].rgb
    ensures app.mode == old(app.mode) && app.Document() == old(app.Document())
  {
    app.ChangeColor(Palette[i]);
    PalettePickMatchesMode(app.mode, i);
  }
}
