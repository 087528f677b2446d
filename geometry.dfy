/** Integer points and the two hit tests of the eraser: "strictly within the
    erase radius" and "inside the box spanned by two corners". A point here
    is already the zoom-adjusted canvas position that the event handlers
    compute. */
module Geometry {

  datatype Point = Point(x: int, y: int)

  function Min(a: int, b: int): int { if a <= b then a else b }
  function Max(a: int, b: int): int { if a <= b then b else a }

  /** Squared Euclidean distance, computed exactly as the Python integer
      expression (dx ** 2 + dy ** 2). */
  function SqDist(a: Point, b: Point): int
  {
    (a.x - b.x) * (a.x - b.x) + (a.y - b.y) * (a.y - b.y)
  }

  /** The eraser's proximity test: the squared distance is strictly below
      the squared radius. */
  predicate Near(a: Point, p: Point, radius: int)
  {
    SqDist(a, p) < radius * radius
  }

  /** Containment in the normalized box with corners c1 and c2, inclusive on
      all four edges. */
  predicate InBox(c1: Point, c2: Point, p: Point)
  {
    Min(c1.x, c2.x) <= p.x <= Max(c1.x, c2.x) &&
    Min(c1.y, c2.y) <= p.y <= Max(c1.y, c2.y)
  }

  /** Normalization makes the box independent of which corner came first,
      and both corners lie in it. */
  lemma BoxNormalized(c1: Point, c2: Point, p: Point)
    ensures InBox(c1, c2, p) <==> InBox(c2, c1, p)
    ensures InBox(c1, c2, c1) && InBox(c1, c2, c2)
  {
  }

  /** Any nonzero radius catches the eraser's own position; a zero radius
      catches nothing. */
  lemma NearSelf(p: Point, radius: int)
    ensures Near(p, p, radius) <==> radius != 0
  {
    assert SqDist(p, p) == 0;
    if radius != 0 {
      assert radius * radius > 0;
    }
  }
}
