/** The ScreenDrawApp state machine: document state (strokes, shapes,
    history) and tool state (mode, drawing flag, anchor point, pen size,
    current colour), changed in place by the pointer and keyboard handlers.
    Each method is proved against the value-level operation of module
    Annotations on Document(). */
module Pencil {
  import opened Options
  import opened Sequences
  import opened Geometry
  import opened Colors
  import opened Annotations
  import opened History
  import opened Tools
  import opened Shortcuts

  /** The list comprehension of erase_at: the strokes none of whose points
      is strictly within radius of point. */
  method CollectSurvivingStrokes(lines: seq<Stroke>, point: Point, radius: int)
    returns (kept: seq<Stroke>)
    ensures kept == SurvivingStrokes(lines, point, radius)
  {
    kept := [];
    var i := 0;
    while i < |lines|
      invariant 0 <= i <= |lines|
      invariant kept == SurvivingStrokes(lines[..i], point, radius)
    {
      assert lines[..i + 1][..i] == lines[..i];
      if !StrokeHit(lines[i], point, radius) {
        kept := kept + [lines[i]];
      }
      i := i + 1;
    }
    assert lines[..|lines|] == lines;
  }

  /** The accumulating loop of erase_at over the shapes. */
  method CollectSurvivingShapes(shapes: seq<Shape>, point: Point, radius: int)
    returns (newShapes: seq<Shape>)
    ensures newShapes == SurvivingShapes(shapes, point, radius)
  {
    newShapes := [];
    var i := 0;
    while i < |shapes|
      invariant 0 <= i <= |shapes|
      invariant newShapes == SurvivingShapes(shapes[..i], point, radius)
    {
      assert shapes[..i + 1][..i] == shapes[..i];
      var sh := shapes[i];
      var keep := true;
      if sh.kind == LineShape {
        if Near(sh.start, point, radius) || Near(sh.end, point, radius) {
          keep := false;
        }
      } else if InBox(sh.start, sh.end, point) {
        keep := false;
      }
      if keep {
        newShapes := newShapes + [sh];
      }
      i := i + 1;
    }
    assert shapes[..|shapes|] == shapes;
  }

  class ScreenDrawApp {
    var drawing: bool
    var drawMode: bool
    var lastPoint: Option<Point>
    var currentColor: Color
    var penSize: int
    var mode: Tool
    var lines: seq<Stroke>
    var shapes: seq<Shape>
    var history: seq<Entry>
    /** Whether a screenshot is held as background (its pixels are not modelled). */
    var hasBackground: bool
    var startPoint: Option<Point>
    /** The zoom factor in tenths: the zoom slider's value. */
    var zoomTenths: int
    var panelVisible: bool

    /** The document state as a value. */
    function Document(): Canvas
      reads this
    {
      Canvas(lines, shapes, history)
    }

    /** A press sets the drawing flag and the anchor together; a release
        clears both together. */
    predicate Valid()
      reads this
    {
      drawing <==> startPoint.Some?
    }

    /** The current colour's alpha is the one the mode calls for. */
    predicate AlphaMatchesMode()
      reads this
    {
      currentColor.alpha == ModeAlpha(mode)
    }

    /** initialize_drawing_state. */
    constructor ()
      ensures Valid() && AlphaMatchesMode() && Consistent(Document())
      ensures Document() == Blank
      ensures !drawing && !drawMode && lastPoint == None && startPoint == None
      ensures currentColor == InitialColor && penSize == 5 && mode == Free
      ensures !hasBackground && zoomTenths == 10 && panelVisible
    {
      drawing := false;
      drawMode := false;
      lastPoint := None;
      currentColor := InitialColor;
      penSize := 5;
      mode := Free;
      lines := [];
      shapes := [];
      history := [];
      hasBackground := false;
      startPoint := None;
      zoomTenths := 10;
      panelVisible := true;
    }

    /** toggle_draw_mode: entering drawing mode captures the screen;
        leaving it resets the drawing state. */
    method ToggleDrawMode()
      modifies this`drawMode, this`hasBackground, this`lines, this`shapes, this`history, this`zoomTenths
      ensures drawMode == !old(drawMode)
      ensures drawMode ==> hasBackground && Document() == old(Document()) && zoomTenths == old(zoomTenths)
      ensures !drawMode ==> !hasBackground && Document() == Blank && zoomTenths == 10
      ensures Consistent(old(Document())) ==> Consistent(Document())
    {
      drawMode := !drawMode;
      if drawMode {
        hasBackground := true;
      } else {
        ResetDrawingState();
      }
    }

    /** toggle_panel. */
    method TogglePanel()
      modifies this`panelVisible
      ensures panelVisible == !old(panelVisible)
    {
      panelVisible := !panelVisible;
    }

    /** set_mode: highlighter forces alpha 100, every other mode 255. */
    method SetMode(m: Tool)
      modifies this`mode, this`currentColor
      ensures mode == m
      ensures currentColor == old(currentColor).(alpha := ModeAlpha(m))
      ensures AlphaMatchesMode()
    {
      mode := m;
      if m == Highlighter {
        currentColor := currentColor.(alpha := HighlighterAlpha);
      } else {
        currentColor := currentColor.(alpha := OpaqueAlpha);
      }
    }

    /** change_color: the chosen colour keeps its alpha except in
        highlighter mode, where it becomes 100. */
    method ChangeColor(c: Color)
      modifies this`currentColor
      ensures currentColor == Chosen(mode, c)
      ensures AlphaMatchesMode() <==> (mode == Highlighter || c.alpha == OpaqueAlpha)
    {
      currentColor := c;
      if mode == Highlighter {
        currentColor := currentColor.(alpha := HighlighterAlpha);
      }
    }

    /** update_pen_size. */
    method UpdatePenSize(size: int)
      modifies this`penSize
      ensures penSize == size
    {
      penSize := size;
    }

    /** update_zoom: the slider value in tenths is the zoom factor. */
    method UpdateZoom(value: int)
      modifies this`zoomTenths
      ensures zoomTenths == value
    {
      zoomTenths := value;
    }

    /** clear_canvas. */
    method ClearCanvas()
      modifies this`lines, this`shapes, this`history
      ensures Document() == Blank && Consistent(Document())
    {
      lines := [];
      shapes := [];
      history := [];
    }

    /** reset_drawing_state. */
    method ResetDrawingState()
      modifies this`hasBackground, this`lines, this`shapes, this`history, this`zoomTenths
      ensures !hasBackground && zoomTenths == 10
      ensures Document() == Blank && Consistent(Document())
    {
      hasBackground := false;
      lines := [];
      shapes := [];
      history := [];
      zoomTenths := 10;
    }

    /** undo: pop the history and remove the recorded element when its index
        is still in bounds. */
    method Undo()
      modifies this`lines, this`shapes, this`history
      ensures Document() == Annotations.Undo(old(Document()))
      ensures Consistent(old(Document())) ==> Consistent(Document())
    {
      ghost var before := Document();
      if history != [] {
        var e := history[|history| - 1];
        history := history[..|history| - 1];
        if e.tag == LineTag && e.index < |lines| {
          lines := lines[..e.index] + lines[e.index + 1..];
        } else if e.tag == ShapeTag && e.index < |shapes| {
          shapes := shapes[..e.index] + shapes[e.index + 1..];
        }
      }
      if Consistent(before) {
        UndoConsistent(before);
      }
    }

    /** erase_at: drop the hit strokes and shapes; the history is not
        renumbered, so the invariant survives only an erase that removes
        nothing. */
    method EraseAt(point: Point)
      modifies this`lines, this`shapes
      ensures Document() == Erase(old(Document()), point, EraseRadius(penSize))
      ensures Consistent(old(Document())) ==>
                (Consistent(Document()) <==> Document() == old(Document()))
    {
      ghost var before := Document();
      var eraseRadius := penSize * 2;
      lines := CollectSurvivingStrokes(lines, point, eraseRadius);
      shapes := CollectSurvivingShapes(shapes, point, eraseRadius);
      if Consistent(before) {
        EraseConsistent(before, point, eraseRadius);
      }
    }

    /** mousePressEvent on an already zoom-adjusted point. */
    method MousePress(p: Point, leftButton: bool)
      requires Valid()
      modifies this`drawing, this`lastPoint, this`startPoint, this`lines, this`shapes, this`history
      ensures Valid()
      ensures !(drawMode && leftButton) ==> unchanged(this)
      ensures drawMode && leftButton ==>
                drawing && lastPoint == Some(p) && startPoint == Some(p) &&
                Document() == (if mode.DrawsStroke() then PushStroke(old(Document()), Stroke([p], currentColor, penSize))
                               else if mode == Eraser then Erase(old(Document()), p, EraseRadius(penSize))
                               else old(Document()))
      ensures mode != Eraser && Consistent(old(Document())) ==> Consistent(Document())
    {
      ghost var before := Document();
      if drawMode && leftButton {
        drawing := true;
        lastPoint := Some(p);
        startPoint := Some(p);
        if mode.DrawsStroke() {
          lines := lines + [Stroke([p], currentColor, penSize)];
          history := history + [Entry(LineTag, |lines| - 1)];
          if Consistent(before) {
            PushStrokeConsistent(before, Stroke([p], currentColor, penSize));
          }
        } else if mode == Eraser {
          EraseAt(p);
        }
      }
    }

    /** mouseMoveEvent on an already zoom-adjusted point; leftHeld says
        whether the left button is among the held buttons. */
    method MouseMove(p: Point, leftHeld: bool)
      requires drawMode && drawing && leftHeld && mode.DrawsStroke() ==> |lines| > 0
      modifies this`lastPoint, this`lines, this`shapes
      ensures !(drawMode && drawing && leftHeld) || !(mode.DrawsStroke() || mode == Eraser) ==> unchanged(this)
      ensures drawMode && drawing && leftHeld && mode.DrawsStroke() ==>
                |old(lines)| > 0 && Document() == ExtendLast(old(Document()), p) && lastPoint == Some(p)
      ensures drawMode && drawing && leftHeld && mode == Eraser ==>
                Document() == Erase(old(Document()), p, EraseRadius(penSize)) && lastPoint == old(lastPoint)
      ensures mode != Eraser && Consistent(old(Document())) ==> Consistent(Document())
    {
      if drawMode && drawing && leftHeld {
        if mode.DrawsStroke() {
          var n := |lines| - 1;
          var last := lines[n];
          lines := lines[..n] + [last.(points := last.points + [p])];
          lastPoint := Some(p);
        } else if mode == Eraser {
          EraseAt(p);
        }
      }
    }

    /** mouseReleaseEvent on an already zoom-adjusted point. */
    method MouseRelease(p: Point, leftButton: bool)
      requires Valid()
      requires drawMode && leftButton && mode.DrawsShape() ==> drawing
      modifies this`drawing, this`startPoint, this`shapes, this`history
      ensures Valid()
      ensures !(drawMode && leftButton) ==> unchanged(this)
      ensures drawMode && leftButton ==>
                !drawing && startPoint == None &&
                Document() == (if mode.DrawsShape()
                               then PushShape(old(Document()), Shape(ShapeKindOf(mode), old(startPoint).value, p, currentColor, penSize))
                               else old(Document()))
      ensures Consistent(old(Document())) ==> Consistent(Document())
    {
      ghost var before := Document();
      if drawMode && leftButton {
        if mode.DrawsShape() {
          var sh := Shape(ShapeKindOf(mode), startPoint.value, p, currentColor, penSize);
          shapes := shapes + [sh];
          history := history + [Entry(ShapeTag, |shapes| - 1)];
          if Consistent(before) {
            PushShapeConsistent(before, sh);
          }
        }
        drawing := false;
        startPoint := None;
      }
    }

    /** keyPressEvent; ctrl says whether the Control modifier is held.
        No command touches the pointer state (drawing, anchor, last point)
        or the pen size, so Valid() carries over; each command states the
        fields it keeps. */
    method KeyPress(key: Key, ctrl: bool)
      modifies this`panelVisible, this`mode, this`currentColor, this`drawMode, this`hasBackground,
               this`lines, this`shapes, this`history, this`zoomTenths
      ensures Valid() <==> old(Valid())
      ensures Dispatch(key, ctrl) == PanelToggle ==>
                panelVisible == !old(panelVisible) && Document() == old(Document()) &&
                mode == old(mode) && currentColor == old(currentColor) && drawMode == old(drawMode) &&
                hasBackground == old(hasBackground) && zoomTenths == old(zoomTenths)
      ensures Dispatch(key, ctrl).ModeSelect? ==>
                mode == Dispatch(key, ctrl).tool && AlphaMatchesMode() &&
                currentColor == old(currentColor).(alpha := ModeAlpha(mode)) && Document() == old(Document()) &&
                panelVisible == old(panelVisible) && drawMode == old(drawMode) &&
                hasBackground == old(hasBackground) && zoomTenths == old(zoomTenths)
      ensures Dispatch(key, ctrl) == DrawModeToggle ==>
                drawMode == !old(drawMode) &&
                (drawMode ==> hasBackground && Document() == old(Document()) && zoomTenths == old(zoomTenths)) &&
                (!drawMode ==> !hasBackground && Document() == Blank && zoomTenths == 10) &&
                mode == old(mode) && currentColor == old(currentColor) && panelVisible == old(panelVisible)
      ensures Dispatch(key, ctrl) == UndoAction ==>
                Document() == Annotations.Undo(old(Document())) &&
                mode == old(mode) && currentColor == old(currentColor) && panelVisible == old(panelVisible) &&
                drawMode == old(drawMode) && hasBackground == old(hasBackground) && zoomTenths == old(zoomTenths)
      ensures Dispatch(key, ctrl) in {Quit, Export, NoCommand} ==> unchanged(this)
      ensures Consistent(old(Document())) ==> Consistent(Document())
    {
      match Dispatch(key, ctrl)
      case PanelToggle => TogglePanel();
      case ModeSelect(m) => SetMode(m);
      case Quit =>
      case DrawModeToggle => ToggleDrawMode();
      case CanvasClear =>
        // the Ctrl+C entry is shadowed by plain C (Shortcuts.DispatchOrder)
        assert false;
      case UndoAction => Undo();
      case Export =>
      case NoCommand =>
    }
  }
}
