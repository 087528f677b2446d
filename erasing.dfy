/** What erase_at removes: exactly the hit strokes and shapes, the survivors
    in their original order, the history untouched. */
module Erasing {
  import opened Sequences
  import opened Geometry
  import opened Annotations

  /** The strokes that survive are, by position and in order, exactly those
      none of whose points is strictly within the radius. */
  lemma ErasedStrokes(c: Canvas, p: Point, radius: int) returns (idx: seq<nat>)
    ensures var kept := Erase(c, p, radius).lines;
      |idx| == |kept| &&
      (forall k :: 0 <= k < |idx| ==> idx[k] < |c.lines| && kept[k] == c.lines[idx[k]]) &&
      (forall k :: 0 < k < |idx| ==> idx[k - 1] < idx[k]) &&
      (forall j :: 0 <= j < |c.lines| ==>
         (j in idx <==> forall i :: 0 <= i < |c.lines[j].points| ==> !Near(c.lines[j].points[i], p, radius)))
  {
    idx := FilterSelects(c.lines, (s: Stroke) => !StrokeHit(s, p, radius));
  }

  /** The shapes that survive are, by position and in order, exactly the
      lines with neither endpoint strictly within the radius and the
      rectangles and circles whose normalized box does not contain p. */
  lemma ErasedShapes(c: Canvas, p: Point, radius: int) returns (idx: seq<nat>)
    ensures var kept := Erase(c, p, radius).shapes;
      |idx| == |kept| &&
      (forall k :: 0 <= k < |idx| ==> idx[k] < |c.shapes| && kept[k] == c.shapes[idx[k]]) &&
      (forall k :: 0 < k < |idx| ==> idx[k - 1] < idx[k]) &&
      (forall j :: 0 <= j < |c.shapes| ==>
         (j in idx <==>
            if c.shapes[j].kind == LineShape
            then !Near(c.shapes[j].start, p, radius) && !Near(c.shapes[j].end, p, radius)
            else !InBox(c.shapes[j].start, c.shapes[j].end, p)))
  {
    idx := FilterSelects(c.shapes, (sh: Shape) => !ShapeHit(sh, p, radius));
  }

  /** Erasing never touches the history, and never adds anything. */
  lemma EraseShrinks(c: Canvas, p: Point, radius: int)
    ensures var e := Erase(c, p, radius);
      e.history == c.history && |e.lines| <= |c.lines| && |e.shapes| <= |c.shapes|
  {
  }

  /** Erasing twice at the same point removes nothing more. */
  lemma EraseIdempotent(c: Canvas, p: Point, radius: int)
    ensures Erase(Erase(c, p, radius), p, radius) == Erase(c, p, radius)
  {
    var keepS := (s: Stroke) => !StrokeHit(s, p, radius);
    var keepH := (sh: Shape) => !ShapeHit(sh, p, radius);
    FilterUnchanged(Filter(c.lines, keepS), keepS);
    FilterUnchanged(Filter(c.shapes, keepH), keepH);
  }

  /** An eraser with a nonzero radius removes every stroke passing through
      its own position and every shape with an endpoint or corner there. */
  lemma EraseRemovesTouched(c: Canvas, p: Point, radius: int)
    requires radius != 0
    ensures forall s :: s in Erase(c, p, radius).lines ==> p !in s.points
    ensures forall sh :: sh in Erase(c, p, radius).shapes ==> sh.start != p && sh.end != p
  {
    NearSelf(p, radius);
    var e := Erase(c, p, radius);
    forall s | s in e.lines
      ensures p !in s.points
    {
      var k :| 0 <= k < |e.lines| && e.lines[k] == s;
      assert !StrokeHit(s, p, radius);
    }
    forall sh | sh in e.shapes
      ensures sh.start != p && sh.end != p
    {
      var k :| 0 <= k < |e.shapes| && e.shapes[k] == sh;
      assert !ShapeHit(sh, p, radius);
      BoxNormalized(sh.start, sh.end, p);
    }
  }
}
