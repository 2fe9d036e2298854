/** The widget's state: the four cut lengths in pixels, the rectangle it
    reuses for every clip path, and the clip-path creator that reads them. */
module CutCornerViewState {
  import opened Geometry
  import opened Paths
  import opened CutCorner

  class CutCornerView {
    /** Rectangle reused by every clip-path request; reset to the view's size each time. */
    var rectF: RectF

    var topLeftCutSizePx: real
    var topRightCutSizePx: real
    var bottomRightCutSizePx: real
    var bottomLeftCutSizePx: real

    /** How many times the view has asked its host to rebuild the clip shape. */
    ghost var shapeUpdateRequests: nat

    /** A view built without attributes: every cut is 0 and the rectangle is empty. */
    constructor ()
      ensures rectF == RectF(0.0, 0.0, 0.0, 0.0)
      ensures topLeftCutSizePx == 0.0 && topRightCutSizePx == 0.0
      ensures bottomRightCutSizePx == 0.0 && bottomLeftCutSizePx == 0.0
      ensures shapeUpdateRequests == 0
    {
      rectF := RectF(0.0, 0.0, 0.0, 0.0);
      topLeftCutSizePx, topRightCutSizePx := 0.0, 0.0;
      bottomRightCutSizePx, bottomLeftCutSizePx := 0.0, 0.0;
      shapeUpdateRequests := 0;
    }

    /** The clip path for a view of the given size: the rectangle is reset to
        (0, 0, width, height) and the path is generated from it and the
        current cut lengths; no cut length changes. */
    method CreateClipPath(width: int, height: int) returns (path: seq<PathOp>)
      modifies this`rectF
      ensures rectF == RectF(0.0, 0.0, width as real, height as real)
      ensures path == GeneratePath(rectF, topLeftCutSizePx, topRightCutSizePx, bottomRightCutSizePx, bottomLeftCutSizePx)
    {
      rectF := RectF(0.0, 0.0, width as real, height as real);
      path := GeneratePath(rectF, topLeftCutSizePx, topRightCutSizePx, bottomRightCutSizePx, bottomLeftCutSizePx);
    }

    /** The outline is clipped as a vector path, never through a bitmap mask. */
    method RequiresBitmap() returns (b: bool)
      ensures !b
    {
      b := false;
    }

    method GetTopLeftCutSize() returns (size: real)
      ensures size == topLeftCutSizePx
    {
      size := topLeftCutSizePx;
    }

    /** Stores the length as given (negative values included) and requests a
        shape update; nothing else changes. */
    method SetTopLeftCutSize(size: real)
      modifies this
      ensures topLeftCutSizePx == size
      ensures topRightCutSizePx == old(topRightCutSizePx)
      ensures bottomRightCutSizePx == old(bottomRightCutSizePx)
      ensures bottomLeftCutSizePx == old(bottomLeftCutSizePx)
      ensures rectF == old(rectF)
      ensures shapeUpdateRequests == old(shapeUpdateRequests) + 1
    {
      topLeftCutSizePx := size;
      shapeUpdateRequests := shapeUpdateRequests + 1;
    }

    method GetTopRightCutSize() returns (size: real)
      ensures size == topRightCutSizePx
    {
      size := topRightCutSizePx;
    }

    /** Stores the length as given and requests a shape update; nothing else changes. */
    method SetTopRightCutSize(size: real)
      modifies this
      ensures topRightCutSizePx == size
      ensures topLeftCutSizePx == old(topLeftCutSizePx)
      ensures bottomRightCutSizePx == old(bottomRightCutSizePx)
      ensures bottomLeftCutSizePx == old(bottomLeftCutSizePx)
      ensures rectF == old(rectF)
      ensures shapeUpdateRequests == old(shapeUpdateRequests) + 1
    {
      topRightCutSizePx := size;
      shapeUpdateRequests := shapeUpdateRequests + 1;
    }

    method GetBottomRightCutSize() returns (size: real)
      ensures size == bottomRightCutSizePx
    {
      size := bottomRightCutSizePx;
    }

    /** Stores the length as given and requests a shape update; nothing else changes. */
    method SetBottomRightCutSize(size: real)
      modifies this
      ensures bottomRightCutSizePx == size
      ensures topLeftCutSizePx == old(topLeftCutSizePx)
      ensures topRightCutSizePx == old(topRightCutSizePx)
      ensures bottomLeftCutSizePx == old(bottomLeftCutSizePx)
      ensures rectF == old(rectF)
      ensures shapeUpdateRequests == old(shapeUpdateRequests) + 1
    {
      bottomRightCutSizePx := size;
      shapeUpdateRequests := shapeUpdateRequests + 1;
    }

    method GetBottomLeftCutSize() returns (size: real)
      ensures size == bottomLeftCutSizePx
    {
      size := bottomLeftCutSizePx;
    }

    /** Stores the length as given and requests a shape update; nothing else changes. */
    method SetBottomLeftCutSize(size: real)
      modifies this
      ensures bottomLeftCutSizePx == size
      ensures topLeftCutSizePx == old(topLeftCutSizePx)
      ensures topRightCutSizePx == old(topRightCutSizePx)
      ensures bottomRightCutSizePx == old(bottomRightCutSizePx)
      ensures rectF == old(rectF)
      ensures shapeUpdateRequests == old(shapeUpdateRequests) + 1
    {
      bottomLeftCutSizePx := size;
      shapeUpdateRequests := shapeUpdateRequests + 1;
    }
  }
}
