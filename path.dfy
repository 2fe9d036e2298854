/** The platform's vector Path, as the list of drawing commands appended to
    it: `moveTo` starts a contour, `lineTo` draws a straight segment from the
    current point, `close` ends the contour. */
module Paths {
  import opened Geometry

  datatype PathOp = MoveTo(to: Point) | LineTo(to: Point) | Close

  /** The points a path visits, in drawing order: the target of every
      `moveTo` and `lineTo`; `close` adds no point of its own. */
  function Vertices(ops: seq<PathOp>): (pts: seq<Point>)
    ensures |pts| <= |ops|
    ensures |ops| > 0 && !ops[0].Close? ==> |pts| > 0 && pts[0] == ops[0].to
  {
    if ops == [] then []
    else
      match ops[0]
      case MoveTo(p) => [p] + Vertices(ops[1..])
      case LineTo(p) => [p] + Vertices(ops[1..])
      case Close => Vertices(ops[1..])
  }

  /** A single closed contour: one `moveTo`, then only `lineTo`s, then `close`. */
  predicate IsClosedContour(ops: seq<PathOp>) {
    && |ops| >= 2
    && ops[0].MoveTo?
    && ops[|ops| - 1].Close?
    && forall i :: 0 < i < |ops| - 1 ==> ops[i].LineTo?
  }

  lemma {:induction false} VerticesAppend(a: seq<PathOp>, b: seq<PathOp>)
    ensures Vertices(a + b) == Vertices(a) + Vertices(b)
  {
    if a == [] {
      assert a + b == b;
    } else {
      assert (a + b)[0] == a[0];
      assert (a + b)[1..] == a[1..] + b;
      VerticesAppend(a[1..], b);
    }
  }

  /** Without `close` commands, the vertices are exactly the commands' targets. */
  lemma {:induction false} VerticesOfStrokes(ops: seq<PathOp>)
    requires forall i :: 0 <= i < |ops| ==> !ops[i].Close?
    ensures |Vertices(ops)| == |ops|
    ensures forall i :: 0 <= i < |ops| ==> Vertices(ops)[i] == ops[i].to
  {
    if ops != [] {
      VerticesOfStrokes(ops[1..]);
      assert Vertices(ops) == [ops[0].to] + Vertices(ops[1..]);
    }
  }

  /** The vertices of a closed contour are the targets of all its commands but
      the final `close`. */
  lemma VerticesOfClosedContour(ops: seq<PathOp>)
    requires IsClosedContour(ops)
    ensures |Vertices(ops)| == |ops| - 1
    ensures forall i :: 0 <= i < |ops| - 1 ==> Vertices(ops)[i] == ops[i].to
  {
    var n := |ops| - 1;
    assert ops == ops[..n] + [Close];
    VerticesAppend(ops[..n], [Close]);
    assert Vertices([Close]) == [] by {
      assert [Close][1..] == [];
    }
    VerticesOfStrokes(ops[..n]);
  }
}
