/** The undo history and when undo is a true inverse.

    The source keeps, beside the two lists, a stack of (tag, index) entries.
    Drawing pushes the index an item gets; undo pops the newest entry and
    removes that index if it is still in bounds. Consistent(c) is the
    invariant that makes this work: the "line" entries, oldest first, carry
    exactly the indices 0..|lines|-1, and likewise for "shape". Every
    drawing operation, undo and clearing keep it; erasing breaks it as soon
    as it removes anything, because erase_at does not renumber the history. */
module History {
  import opened Sequences
  import opened Geometry
  import opened Colors
  import opened Annotations

  /** The indices recorded under tag t, oldest entry first. */
  function TaggedIndices(h: seq<Entry>, t: Tag): seq<nat>
  {
    if h == [] then []
    else
      var e := h[|h| - 1];
      TaggedIndices(h[..|h| - 1], t) + (if e.tag == t then [e.index] else [])
  }

  predicate Consistent(c: Canvas)
  {
    TaggedIndices(c.history, LineTag) == Range(|c.lines|) &&
    TaggedIndices(c.history, ShapeTag) == Range(|c.shapes|)
  }

  lemma TaggedSnoc(h: seq<Entry>, e: Entry, t: Tag)
    ensures TaggedIndices(h + [e], t) == TaggedIndices(h, t) + (if e.tag == t then [e.index] else [])
  {
    assert (h + [e])[..|h|] == h;
  }

  lemma BlankConsistent()
    ensures Consistent(Blank)
  {
  }

  lemma {:induction false} PushStrokeConsistent(c: Canvas, s: Stroke)
    requires Consistent(c)
    ensures Consistent(PushStroke(c, s))
  {
    TaggedSnoc(c.history, Entry(LineTag, |c.lines|), LineTag);
    TaggedSnoc(c.history, Entry(LineTag, |c.lines|), ShapeTag);
  }

  lemma {:induction false} PushShapeConsistent(c: Canvas, sh: Shape)
    requires Consistent(c)
    ensures Consistent(PushShape(c, sh))
  {
    TaggedSnoc(c.history, Entry(ShapeTag, |c.shapes|), LineTag);
    TaggedSnoc(c.history, Entry(ShapeTag, |c.shapes|), ShapeTag);
  }

  /** Extending the last stroke changes no list length and no entry. */
  lemma ExtendLastConsistent(c: Canvas, p: Point)
    requires |c.lines| > 0
    ensures Consistent(ExtendLast(c, p)) <==> Consistent(c)
  {
  }

  /** Under the invariant undo never skips: the popped entry always names
      the last element of its list, and exactly that element goes. */
  lemma {:induction false} UndoRemovesNewest(c: Canvas)
    requires Consistent(c) && c.history != []
    ensures var e := c.history[|c.history| - 1];
      var u := Undo(c);
      u.history == c.history[..|c.history| - 1] &&
      (e.tag == LineTag ==> |c.lines| > 0 && e.index == |c.lines| - 1 &&
                            u.lines == c.lines[..|c.lines| - 1] && u.shapes == c.shapes) &&
      (e.tag == ShapeTag ==> |c.shapes| > 0 && e.index == |c.shapes| - 1 &&
                             u.shapes == c.shapes[..|c.shapes| - 1] && u.lines == c.lines)
  {
    var rest := c.history[..|c.history| - 1];
    var e := c.history[|c.history| - 1];
    assert c.history == rest + [e];
    TaggedSnoc(rest, e, e.tag);
    var n := if e.tag == LineTag then |c.lines| else |c.shapes|;
    var t := TaggedIndices(rest, e.tag);
    assert t + [e.index] == Range(n);
    assert |t| == n - 1;
    assert (t + [e.index])[n - 1] == e.index;
    if e.tag == LineTag {
      assert RemoveAt(c.lines, e.index) == c.lines[..|c.lines| - 1];
    } else {
      assert RemoveAt(c.shapes, e.index) == c.shapes[..|c.shapes| - 1];
    }
  }

  /** Undo on an empty history changes nothing; otherwise it drops exactly
      the newest entry and either leaves both lists alone or removes one
      element at the recorded index from the tagged list, which must then
      have been in bounds. The other list is never touched. */
  lemma UndoAtMostOne(c: Canvas)
    ensures c.history == [] ==> Undo(c) == c
    ensures c.history != [] ==>
      var e := c.history[|c.history| - 1];
      var u := Undo(c);
      u.history == c.history[..|c.history| - 1] &&
      (u.shapes == c.shapes || (e.tag == ShapeTag && e.index < |c.shapes| && u.shapes == RemoveAt(c.shapes, e.index))) &&
      (u.lines == c.lines || (e.tag == LineTag && e.index < |c.lines| && u.lines == RemoveAt(c.lines, e.index))) &&
      (u.lines == c.lines || u.shapes == c.shapes) &&
      ((e.tag == LineTag && e.index < |c.lines|) || (e.tag == ShapeTag && e.index < |c.shapes|) ||
       (u.lines == c.lines && u.shapes == c.shapes))
  {
  }

  lemma {:induction false} UndoConsistent(c: Canvas)
    requires Consistent(c)
    ensures Consistent(Undo(c))
  {
    if c.history != [] {
      UndoRemovesNewest(c);
      var rest := c.history[..|c.history| - 1];
      var e := c.history[|c.history| - 1];
      assert c.history == rest + [e];
      TaggedSnoc(rest, e, LineTag);
      TaggedSnoc(rest, e, ShapeTag);
      var n := if e.tag == LineTag then |c.lines| else |c.shapes|;
      var t := TaggedIndices(rest, e.tag);
      assert t + [e.index] == Range(n - 1) + [n - 1];
      assert (t + [e.index])[..n - 1] == t;
    }
  }

  /** Undo right after a stroke was added restores the canvas before it,
      whatever the history held. */
  lemma UndoPushStroke(c: Canvas, s: Stroke)
    ensures Undo(PushStroke(c, s)) == c
  {
    assert (c.history + [Entry(LineTag, |c.lines|)])[..|c.history|] == c.history;
    assert RemoveAt(c.lines + [s], |c.lines|) == c.lines;
  }

  /** Undo right after a shape was added restores the canvas before it. */
  lemma UndoPushShape(c: Canvas, sh: Shape)
    ensures Undo(PushShape(c, sh)) == c
  {
    assert (c.history + [Entry(ShapeTag, |c.shapes|)])[..|c.history|] == c.history;
    assert RemoveAt(c.shapes + [sh], |c.shapes|) == c.shapes;
  }

  /** Moves after the press only grow the newest stroke: the canvas is still
      "c plus one stroke", so undo after the release still restores c. */
  lemma ExtendPushedStroke(c: Canvas, s: Stroke, p: Point)
    ensures ExtendLast(PushStroke(c, s), p) == PushStroke(c, s.(points := s.points + [p]))
  {
    assert (c.lines + [s])[..|c.lines|] == c.lines;
  }

  /** A completed drawing action: a whole stroke or a shape. */
  datatype Draw = StrokeDraw(stroke: Stroke) | ShapeDraw(shape: Shape)

  function Apply(c: Canvas, d: Draw): Canvas
  {
    match d
    case StrokeDraw(s) => PushStroke(c, s)
    case ShapeDraw(sh) => PushShape(c, sh)
  }

  /** The canvas after the drawing actions ds, oldest first. */
  function Replay(c: Canvas, ds: seq<Draw>): Canvas
  {
    if ds == [] then c else Apply(Replay(c, ds[..|ds| - 1]), ds[|ds| - 1])
  }

  /** k consecutive undos. */
  function UndoTimes(c: Canvas, k: nat): Canvas
    decreases k
  {
    if k == 0 then c else UndoTimes(Undo(c), k - 1)
  }

  /** After N drawing actions, k <= N undos give the canvas after the first
      N - k actions. */
  lemma {:induction false} UndoReplay(c: Canvas, ds: seq<Draw>, k: nat)
    requires k <= |ds|
    ensures UndoTimes(Replay(c, ds), k) == Replay(c, ds[..|ds| - k])
  {
    if k > 0 {
      var init := ds[..|ds| - 1];
      var prev := Replay(c, init);
      match ds[|ds| - 1] {
        case StrokeDraw(s) => UndoPushStroke(prev, s);
        case ShapeDraw(sh) => UndoPushShape(prev, sh);
      }
      UndoReplay(c, init, k - 1);
      assert init[..|init| - (k - 1)] == ds[..|ds| - k];
    } else {
      assert ds[..|ds|] == ds;
    }
  }

  /** Drawing from a consistent canvas keeps it consistent. */
  lemma {:induction false} ReplayConsistent(c: Canvas, ds: seq<Draw>)
    requires Consistent(c)
    ensures Consistent(Replay(c, ds))
  {
    if ds != [] {
      var prev := Replay(c, ds[..|ds| - 1]);
      ReplayConsistent(c, ds[..|ds| - 1]);
      match ds[|ds| - 1] {
        case StrokeDraw(s) => PushStrokeConsistent(prev, s);
        case ShapeDraw(sh) => PushShapeConsistent(prev, sh);
      }
    }
  }

  /** On a consistent canvas, erasing keeps the invariant exactly when it
      removes nothing. */
  lemma EraseConsistent(c: Canvas, p: Point, radius: int)
    requires Consistent(c)
    ensures Consistent(Erase(c, p, radius)) <==> Erase(c, p, radius) == c
  {
    FilterUnchanged(c.lines, (s: Stroke) => !StrokeHit(s, p, radius));
    FilterUnchanged(c.shapes, (sh: Shape) => !ShapeHit(sh, p, radius));
  }

  /** What goes wrong after erasing. Strokes a (at the origin) and b (far
      away) are drawn; the eraser at the origin removes a; the first undo
      pops b's entry, whose index is now out of bounds, and does nothing;
      the second undo pops a's entry and removes b. */
  lemma EraseThenUndo(col: Color)
    ensures var a := Stroke([Point(0, 0)], col, 5);
      var b := Stroke([Point(100, 100)], col, 5);
      var drawn := PushStroke(PushStroke(Blank, a), b);
      var erased := Erase(drawn, Point(0, 0), EraseRadius(5));
      drawn.lines == [a, b] && erased.lines == [b] &&
      Undo(erased).lines == [b] && Undo(erased).history == [Entry(LineTag, 0)] &&
      Undo(Undo(erased)).lines == []
  {
    var a := Stroke([Point(0, 0)], col, 5);
    var b := Stroke([Point(100, 100)], col, 5);
    var h := [Entry(LineTag, 0), Entry(LineTag, 1)];
    assert PushStroke(PushStroke(Blank, a), b) == Canvas([a, b], [], h);
    EraseFirstOfTwo(a, b, h);
    var erased := Canvas([b], [], h);
    assert Undo(erased) == Canvas([b], [], [Entry(LineTag, 0)]) by {
      assert h[..1] == [Entry(LineTag, 0)];
    }
    assert Undo(Canvas([b], [], [Entry(LineTag, 0)])) == Blank by {
      assert RemoveAt([b], 0) == [];
    }
  }

  lemma EraseFirstOfTwo(a: Stroke, b: Stroke, h: seq<Entry>)
    requires a == Stroke([Point(0, 0)], a.color, 5) && b == Stroke([Point(100, 100)], b.color, 5)
    ensures Erase(Canvas([a, b], [], h), Point(0, 0), EraseRadius(5)) == Canvas([b], [], h)
  {
    OriginStrokes(a.color);
    OriginStrokes(b.color);
    FilterDropsFirstOfTwo(a, b, (s: Stroke) => !StrokeHit(s, Point(0, 0), 10));
  }

  /** The eraser at the origin with radius 10 hits a point at the origin and
      misses (100, 100). */
  lemma OriginStrokes(col: Color)
    ensures StrokeHit(Stroke([Point(0, 0)], col, 5), Point(0, 0), 10)
    ensures !StrokeHit(Stroke([Point(100, 100)], col, 5), Point(0, 0), 10)
  {
    var a := Stroke([Point(0, 0)], col, 5);
    assert Near(a.points[0], Point(0, 0), 10);
    assert SqDist(Point(100, 100), Point(0, 0)) == 20000;
  }
}
