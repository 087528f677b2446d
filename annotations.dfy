/** The annotation document: the strokes, the shapes and the undo history,
    and the value-level meaning of every operation that changes them. The
    methods of ScreenDrawApp (module Pencil) are proved against these
    functions; the properties of the functions are proved in module History. */
module Annotations {
  import opened Sequences
  import opened Geometry
  import opened Colors

  /** A freehand or highlighter path: its points, colour and pen width. */
  datatype Stroke = Stroke(points: seq<Point>, color: Color, size: int)

  /** The three shape modes; a shape stores the mode it was drawn in. */
  datatype ShapeKind = LineShape | RectShape | CircleShape

  /** A straight line, rectangle or circle given by two corners. */
  datatype Shape = Shape(kind: ShapeKind, start: Point, end: Point, color: Color, size: int)

  /** Which list a history entry refers to: "line" or "shape". */
  datatype Tag = LineTag | ShapeTag

  /** A history entry: the list it was added to and the index it got there. */
  datatype Entry = Entry(tag: Tag, index: nat)

  datatype Canvas = Canvas(lines: seq<Stroke>, shapes: seq<Shape>, history: seq<Entry>)

  /** What clear_canvas and reset_drawing_state leave, and what the
      application starts with. */
  const Blank: Canvas := Canvas([], [], [])

  /** A press in free or highlighter mode: append the stroke and record
      ("line", index of the new stroke). */
  function PushStroke(c: Canvas, s: Stroke): Canvas
  {
    Canvas(c.lines + [s], c.shapes, c.history + [Entry(LineTag, |c.lines|)])
  }

  /** A move in free or highlighter mode: append p to the last stroke. */
  function ExtendLast(c: Canvas, p: Point): Canvas
    requires |c.lines| > 0
  {
    var n := |c.lines| - 1;
    var last := c.lines[n];
    Canvas(c.lines[..n] + [last.(points := last.points + [p])], c.shapes, c.history)
  }

  /** A release in a shape mode: append the shape and record
      ("shape", index of the new shape). */
  function PushShape(c: Canvas, sh: Shape): Canvas
  {
    Canvas(c.lines, c.shapes + [sh], c.history + [Entry(ShapeTag, |c.shapes|)])
  }

  /** undo: pop the newest history entry and remove the element it names,
      when that index is still inside its list. */
  function Undo(c: Canvas): Canvas
  {
    if c.history == [] then c
    else
      var e := c.history[|c.history| - 1];
      var rest := c.history[..|c.history| - 1];
      if e.tag == LineTag && e.index < |c.lines| then
        Canvas(RemoveAt(c.lines, e.index), c.shapes, rest)
      else if e.tag == ShapeTag && e.index < |c.shapes| then
        Canvas(c.lines, RemoveAt(c.shapes, e.index), rest)
      else
        Canvas(c.lines, c.shapes, rest)
  }

  /** The eraser radius for a pen size. */
  function EraseRadius(penSize: int): int { penSize * 2 }

  /** A stroke is hit when any of its points is strictly within the radius. */
  predicate StrokeHit(s: Stroke, p: Point, radius: int)
  {
    exists i :: 0 <= i < |s.points| && Near(s.points[i], p, radius)
  }

  /** A line shape is hit through either endpoint; a rectangle or circle
      when its normalized bounding box contains p. */
  predicate ShapeHit(sh: Shape, p: Point, radius: int)
  {
    match sh.kind
    case LineShape => Near(sh.start, p, radius) || Near(sh.end, p, radius)
    case RectShape => InBox(sh.start, sh.end, p)
    case CircleShape => InBox(sh.start, sh.end, p)
  }

  function SurvivingStrokes(lines: seq<Stroke>, p: Point, radius: int): seq<Stroke>
  {
    Filter(lines, (s: Stroke) => !StrokeHit(s, p, radius))
  }

  function SurvivingShapes(shapes: seq<Shape>, p: Point, radius: int): seq<Shape>
  {
    Filter(shapes, (sh: Shape) => !ShapeHit(sh, p, radius))
  }

  /** erase_at: drop every hit stroke and shape; the history is left as it is. */
  function Erase(c: Canvas, p: Point, radius: int): Canvas
  {
    Canvas(SurvivingStrokes(c.lines, p, radius), SurvivingShapes(c.shapes, p, radius), c.history)
  }
}
