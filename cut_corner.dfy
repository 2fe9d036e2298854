/** The cut-corner outline: a rectangle whose four corners are each replaced
    by a 45-degree chamfer of its own length. */
module CutCorner {
  import opened Geometry
  import opened Paths

  /** A negative cut length is treated as no cut. */
  function Clamp(c: real): (r: real)
    ensures r >= 0.0
    ensures c >= 0.0 ==> r == c
    ensures c < 0.0 ==> r == 0.0
  {
    if c < 0.0 then 0.0 else c
  }

  /** The clip path for `rect` with the given top-left, top-right,
      bottom-right and bottom-left cut lengths: the lengths are clamped at 0,
      then one `moveTo`, eight `lineTo`s and a `close` are appended, in this
      order. */
  function GeneratePath(rect: RectF, topLeft: real, topRight: real, bottomRight: real, bottomLeft: real)
    : (path: seq<PathOp>)
    ensures |path| == 10 && IsClosedContour(path)
    ensures path[0] == MoveTo(Point(rect.left + Clamp(topLeft), rect.top))
    ensures path[8] == LineTo(path[0].to)
  {
    var tl := Clamp(topLeft);
    var tr := Clamp(topRight);
    var bl := Clamp(bottomLeft);
    var br := Clamp(bottomRight);
    [ MoveTo(Point(rect.left + tl, rect.top)),
      LineTo(Point(rect.right - tr, rect.top)),
      LineTo(Point(rect.right, rect.top + tr)),
      LineTo(Point(rect.right, rect.bottom - br)),
      LineTo(Point(rect.right - br, rect.bottom)),
      LineTo(Point(rect.left + bl, rect.bottom)),
      LineTo(Point(rect.left, rect.bottom - bl)),
      LineTo(Point(rect.left, rect.top + tl)),
      LineTo(Point(rect.left + tl, rect.top)),
      Close ]
  }

  /** The points the clip path visits, in drawing order. */
  function Outline(rect: RectF, topLeft: real, topRight: real, bottomRight: real, bottomLeft: real)
    : (pts: seq<Point>)
    ensures |pts| == 9
    ensures pts[0] == Point(rect.left + Clamp(topLeft), rect.top)
    ensures pts[8] == pts[0]
  {
    var path := GeneratePath(rect, topLeft, topRight, bottomRight, bottomLeft);
    VerticesOfClosedContour(path);
    Vertices(path)
  }

  /** The vertices in order: from the end of the top-left cut clockwise round
      the rectangle and back to the start. */
  lemma OutlineOrder(rect: RectF, topLeft: real, topRight: real, bottomRight: real, bottomLeft: real)
    ensures
      var tl, tr, br, bl := Clamp(topLeft), Clamp(topRight), Clamp(bottomRight), Clamp(bottomLeft);
      Outline(rect, topLeft, topRight, bottomRight, bottomLeft) ==
        [ Point(rect.left + tl, rect.top),
          Point(rect.right - tr, rect.top),
          Point(rect.right, rect.top + tr),
          Point(rect.right, rect.bottom - br),
          Point(rect.right - br, rect.bottom),
          Point(rect.left + bl, rect.bottom),
          Point(rect.left, rect.bottom - bl),
          Point(rect.left, rect.top + tl),
          Point(rect.left + tl, rect.top) ]
  {
    VerticesOfClosedContour(GeneratePath(rect, topLeft, topRight, bottomRight, bottomLeft));
  }

  /** Clamp law: a cut length and its clamped value give the same path. */
  lemma ClampLaw(rect: RectF, topLeft: real, topRight: real, bottomRight: real, bottomLeft: real)
    ensures GeneratePath(rect, topLeft, topRight, bottomRight, bottomLeft)
         == GeneratePath(rect, Clamp(topLeft), Clamp(topRight), Clamp(bottomRight), Clamp(bottomLeft))
  {
  }

  /** The two vertices bounding each side of the rectangle lie on that side's line. */
  lemma SidesAxisAligned(rect: RectF, topLeft: real, topRight: real, bottomRight: real, bottomLeft: real)
    ensures
      var p := Outline(rect, topLeft, topRight, bottomRight, bottomLeft);
      && p[0].y == p[1].y == rect.top
      && p[2].x == p[3].x == rect.right
      && p[4].y == p[5].y == rect.bottom
      && p[6].x == p[7].x == rect.left
  {
    OutlineOrder(rect, topLeft, topRight, bottomRight, bottomLeft);
  }

  /** Each corner edge is a 45-degree chamfer: it removes the clamped cut
      length from both sides meeting at that corner. */
  lemma CornersAreChamfers(rect: RectF, topLeft: real, topRight: real, bottomRight: real, bottomLeft: real)
    ensures
      var tl, tr, br, bl := Clamp(topLeft), Clamp(topRight), Clamp(bottomRight), Clamp(bottomLeft);
      var p := Outline(rect, topLeft, topRight, bottomRight, bottomLeft);
      && p[2].x - p[1].x == p[2].y - p[1].y == tr
      && p[3].x - p[4].x == p[4].y - p[3].y == br
      && p[5].x - p[6].x == p[5].y - p[6].y == bl
      && p[8].x - p[7].x == p[7].y - p[8].y == tl
  {
    OutlineOrder(rect, topLeft, topRight, bottomRight, bottomLeft);
  }

  /** A corner is left square exactly when its cut is 0 or negative: then, and
      only then, the two vertices flanking it coincide at the corner itself. */
  lemma ZeroCutSquareCorner(rect: RectF, topLeft: real, topRight: real, bottomRight: real, bottomLeft: real)
    ensures
      var p := Outline(rect, topLeft, topRight, bottomRight, bottomLeft);
      && (topLeft <= 0.0 <==> p[7] == p[8])
      && (topRight <= 0.0 <==> p[1] == p[2])
      && (bottomRight <= 0.0 <==> p[3] == p[4])
      && (bottomLeft <= 0.0 <==> p[5] == p[6])
      && (topLeft <= 0.0 ==> p[8] == Point(rect.left, rect.top))
      && (topRight <= 0.0 ==> p[1] == Point(rect.right, rect.top))
      && (bottomRight <= 0.0 ==> p[3] == Point(rect.right, rect.bottom))
      && (bottomLeft <= 0.0 ==> p[5] == Point(rect.left, rect.bottom))
  {
    OutlineOrder(rect, topLeft, topRight, bottomRight, bottomLeft);
  }

  /** With no cuts at all the outline is the rectangle itself: its four
      corners, each visited twice in a row. */
  lemma NoCutsGiveRectangle(rect: RectF, topLeft: real, topRight: real, bottomRight: real, bottomLeft: real)
    requires topLeft <= 0.0 && topRight <= 0.0 && bottomRight <= 0.0 && bottomLeft <= 0.0
    ensures
      var tl, tr := Point(rect.left, rect.top), Point(rect.right, rect.top);
      var br, bl := Point(rect.right, rect.bottom), Point(rect.left, rect.bottom);
      Outline(rect, topLeft, topRight, bottomRight, bottomLeft) == [tl, tr, tr, br, br, bl, bl, tl, tl]
  {
    OutlineOrder(rect, topLeft, topRight, bottomRight, bottomLeft);
  }

  /** The clamped cuts fit: the two cuts on each side together are no longer
      than that side. */
  predicate CutsFit(rect: RectF, topLeft: real, topRight: real, bottomRight: real, bottomLeft: real) {
    var tl, tr, br, bl := Clamp(topLeft), Clamp(topRight), Clamp(bottomRight), Clamp(bottomLeft);
    && tl + tr <= rect.Width()
    && tr + br <= rect.Height()
    && br + bl <= rect.Width()
    && bl + tl <= rect.Height()
  }

  /** The cuts fit exactly when no side of the outline runs backwards: the top
      edge goes right, the right edge down, the bottom edge left and the left
      edge up. A cut too long for its side makes that edge retrace itself. */
  lemma FitIffSidesRunClockwise(rect: RectF, topLeft: real, topRight: real, bottomRight: real, bottomLeft: real)
    ensures
      var p := Outline(rect, topLeft, topRight, bottomRight, bottomLeft);
      CutsFit(rect, topLeft, topRight, bottomRight, bottomLeft) <==>
        (p[0].x <= p[1].x && p[2].y <= p[3].y && p[5].x <= p[4].x && p[7].y <= p[6].y)
  {
    OutlineOrder(rect, topLeft, topRight, bottomRight, bottomLeft);
  }

  /** How far along the boundary, clockwise from the top-left corner, each of
      the first eight vertices sits. */
  function ArcPositions(rect: RectF, topLeft: real, topRight: real, bottomRight: real, bottomLeft: real)
    : (pos: seq<real>)
    ensures |pos| == 8
  {
    var tl, tr, br, bl := Clamp(topLeft), Clamp(topRight), Clamp(bottomRight), Clamp(bottomLeft);
    var w, h := rect.Width(), rect.Height();
    [tl, w - tr, w + tr, w + h - br, w + h + br, 2.0 * w + h - bl, 2.0 * w + h + bl, 2.0 * w + 2.0 * h - tl]
  }

  /** When the cuts fit, the outline walks once round the rectangle's
      boundary, clockwise: each vertex is the boundary point at its arc
      position, and the positions never decrease; the ninth vertex closes the
      walk at the first. */
  lemma OutlineWalksBoundary(rect: RectF, topLeft: real, topRight: real, bottomRight: real, bottomLeft: real)
    requires CutsFit(rect, topLeft, topRight, bottomRight, bottomLeft)
    ensures rect.WellFormed()
    ensures
      var p := Outline(rect, topLeft, topRight, bottomRight, bottomLeft);
      var pos := ArcPositions(rect, topLeft, topRight, bottomRight, bottomLeft);
      && (forall i :: 0 <= i < 8 ==> 0.0 <= pos[i] <= rect.Perimeter() && p[i] == rect.BoundaryPoint(pos[i]))
      && (forall i :: 0 <= i < 7 ==> pos[i] <= pos[i + 1])
      && p[8] == p[0]
  {
    OutlineOrder(rect, topLeft, topRight, bottomRight, bottomLeft);
    var p := Outline(rect, topLeft, topRight, bottomRight, bottomLeft);
    var pos := ArcPositions(rect, topLeft, topRight, bottomRight, bottomLeft);
    forall i | 0 <= i < 8
      ensures 0.0 <= pos[i] <= rect.Perimeter() && p[i] == rect.BoundaryPoint(pos[i])
    {
    }
  }

  /** When the cuts fit, every vertex lies inside the rectangle and on its
      boundary. */
  lemma OutlineOnBoundary(rect: RectF, topLeft: real, topRight: real, bottomRight: real, bottomLeft: real)
    requires CutsFit(rect, topLeft, topRight, bottomRight, bottomLeft)
    ensures
      var p := Outline(rect, topLeft, topRight, bottomRight, bottomLeft);
      forall i :: 0 <= i < 9 ==> rect.OnBoundary(p[i])
  {
    OutlineWalksBoundary(rect, topLeft, topRight, bottomRight, bottomLeft);
    var p := Outline(rect, topLeft, topRight, bottomRight, bottomLeft);
    var pos := ArcPositions(rect, topLeft, topRight, bottomRight, bottomLeft);
    forall i | 0 <= i < 9
      ensures rect.OnBoundary(p[i])
    {
      var j := if i == 8 then 0 else i;
      assert p[i] == rect.BoundaryPoint(pos[j]);
    }
  }

  /** A worked case: a 100 x 200 rectangle with a top-left cut of 10 and a
      bottom-right cut of 20 gives exactly these drawing commands. */
  lemma ExampleTwoCuts()
    ensures GeneratePath(RectF(0.0, 0.0, 100.0, 200.0), 10.0, 0.0, 20.0, 0.0)
         == [ MoveTo(Point(10.0, 0.0)), LineTo(Point(100.0, 0.0)), LineTo(Point(100.0, 0.0)),
              LineTo(Point(100.0, 180.0)), LineTo(Point(80.0, 200.0)), LineTo(Point(0.0, 200.0)),
              LineTo(Point(0.0, 200.0)), LineTo(Point(0.0, 10.0)), LineTo(Point(10.0, 0.0)),
              Close ]
  {
  }
}
