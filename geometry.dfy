/** Points and axis-aligned rectangles in the view's pixel coordinate system
    (x grows to the right, y grows downwards), with exact `real` coordinates
    standing for the platform's `float`. */
module Geometry {

  datatype Point = Point(x: real, y: real)

  /** The platform's RectF: four bounds, in the order left, top, right, bottom. */
  datatype RectF = RectF(left: real, top: real, right: real, bottom: real) {

    function Width(): real { right - left }

    function Height(): real { bottom - top }

    /** Non-negative width and height. */
    predicate WellFormed() { left <= right && top <= bottom }

    /** Length of the boundary, walked once around. */
    function Perimeter(): real { 2.0 * Width() + 2.0 * Height() }

    predicate Contains(p: Point) {
      left <= p.x <= right && top <= p.y <= bottom
    }

    /** Inside the rectangle and on one of its four sides. */
    predicate OnBoundary(p: Point) {
      Contains(p) && (p.x == left || p.x == right || p.y == top || p.y == bottom)
    }

    /** The point reached by walking `s` pixels along the boundary, clockwise
        on screen, starting at the top-left corner: along the top side, then
        down the right side, back along the bottom side and up the left side. */
    function BoundaryPoint(s: real): (p: Point)
      ensures WellFormed() && 0.0 <= s <= Perimeter() ==> OnBoundary(p)
      ensures WellFormed() && s == 0.0 ==> p == Point(left, top)
      ensures WellFormed() && s == Perimeter() ==> p == Point(left, top)
    {
      var w, h := Width(), Height();
      if s <= w then Point(left + s, top)
      else if s <= w + h then Point(right, top + (s - w))
      else if s <= 2.0 * w + h then Point(right - (s - w - h), bottom)
      else Point(left, bottom - (s - 2.0 * w - h))
    }
  }
}
