# CutCornerView: cut-corner clip path

A model of the geometry inside `CutCornerView`, the ShapeOfView widget that clips its
content to a rectangle whose four corners are cut off diagonally, each by its own length.

- `Geometry` (`geometry.dfy`): points and the platform's `RectF` with exact `real`
  coordinates. It also defines `RectF.BoundaryPoint(s)`, the point `s` pixels along the
  boundary, walking clockwise from the top-left corner. The outline's lemmas are stated against this.
- `Paths` (`path.dfy`): the platform `Path` as the list of commands appended to it
  (`MoveTo`, `LineTo`, `Close`). `Vertices` gives the points a path visits, in order.
- `CutCorner` (`cut_corner.dfy`): `generatePath` as the pure function `GeneratePath`. It
  clamps each negative cut to 0, then emits one `moveTo`, eight `lineTo`s (the last one back
  to the start) and a `close`. `Outline` is the nine points of that path. The lemmas give
  the laws of the outline: clamping, vertex order, axis-aligned sides, 45-degree chamfers,
  square corners for zero cuts. They also show that when the cuts fit, the outline walks once
  clockwise round the rectangle's boundary.
- `CutCornerViewState` (`cut_corner_view.dfy`): the view's state as a class. It holds the
  four pixel cut sizes (all 0 at first), the reused `rectF`, and a ghost count of shape-update
  requests. Its methods are the px getters and setters and the clip-path creator's
  `createClipPath` and `requiresBitmap`.

The code draws the closing edge itself: a ninth point equal to the first, followed by `close()`.

## Model

| member | source | states |
|---|---|---|
| `CutCorner.Clamp` | shapeofview/src/main/java/com/github/florent37/shapeofview/shapes/CutCornerView.java:92-95 | the clamped length is never negative; a non-negative length is kept and a negative one becomes 0 |
| `CutCorner.GeneratePath` | shapeofview/src/main/java/com/github/florent37/shapeofview/shapes/CutCornerView.java:89-109 | the path is one closed contour of ten commands (`moveTo`, eight `lineTo`, `close`); it starts at (left + clamped top-left cut, top) and its last `lineTo` returns to that start |
| `CutCorner.Outline` | shapeofview/src/main/java/com/github/florent37/shapeofview/shapes/CutCornerView.java:97-105 | the path visits exactly nine points; the first is (left + clamped top-left cut, top) and the last equals the first |
| `Paths.VerticesOfClosedContour` | shapeofview/src/main/java/com/github/florent37/shapeofview/shapes/CutCornerView.java:97-106 | a `moveTo`, then `lineTo`s, then `close` visits exactly the targets of the `moveTo` and `lineTo`s, in order; `close` adds no point |
| `CutCorner.OutlineOrder` | shapeofview/src/main/java/com/github/florent37/shapeofview/shapes/CutCornerView.java:97-105 | the nine vertices, in order, are (l+tl,t), (r-tr,t), (r,t+tr), (r,b-br), (r-br,b), (l+bl,b), (l,b-bl), (l,t+tl), (l+tl,t), with clamped cuts |
| `CutCorner.ClampLaw` | shapeofview/src/main/java/com/github/florent37/shapeofview/shapes/CutCornerView.java:92-95 | generating with any cut lengths gives the same path as generating with their clamped values |
| `CutCorner.SidesAxisAligned` | shapeofview/src/main/java/com/github/florent37/shapeofview/shapes/CutCornerView.java:97-104 | points 0 and 1 lie on y = top, 2 and 3 on x = right, 4 and 5 on y = bottom, 6 and 7 on x = left |
| `CutCorner.CornersAreChamfers` | shapeofview/src/main/java/com/github/florent37/shapeofview/shapes/CutCornerView.java:98-105 | each corner edge removes its clamped cut length from both sides meeting at the corner, so it is a 45-degree diagonal |
| `CutCorner.ZeroCutSquareCorner` | shapeofview/src/main/java/com/github/florent37/shapeofview/shapes/CutCornerView.java:92-105 | the two vertices flanking a corner coincide if and only if that corner's cut is 0 or negative, and they then sit on the corner itself |
| `CutCorner.NoCutsGiveRectangle` | shapeofview/src/main/java/com/github/florent37/shapeofview/shapes/CutCornerView.java:92-105 | with all cuts at most 0 the outline is the four rectangle corners, each twice in a row, closed at the top-left |
| `CutCorner.FitIffSidesRunClockwise` | shapeofview/src/main/java/com/github/florent37/shapeofview/shapes/CutCornerView.java:97-104 | the clamped cuts fit their sides (tl+tr <= width, tr+br <= height, br+bl <= width, bl+tl <= height) if and only if no side edge runs backwards |
| `CutCorner.OutlineWalksBoundary` | shapeofview/src/main/java/com/github/florent37/shapeofview/shapes/CutCornerView.java:97-105 | when the cuts fit, every vertex is the boundary point at an arc position in [0, perimeter], the positions never decrease, and the walk closes at the first vertex: one clockwise lap of the boundary |
| `CutCorner.OutlineOnBoundary` | shapeofview/src/main/java/com/github/florent37/shapeofview/shapes/CutCornerView.java:97-104 | when the cuts fit, all nine vertices lie within the rectangle and on its boundary |
| `CutCorner.ExampleTwoCuts` | shapeofview/src/main/java/com/github/florent37/shapeofview/shapes/CutCornerView.java:89-109 | for the 100 x 200 rectangle with cuts (10, 0, 20, 0) the path is exactly `moveTo` (10,0), then `lineTo` (100,0), (100,0), (100,180), (80,200), (0,200), (0,200), (0,10), (10,0), then `close` |
| `CutCornerViewState.CutCornerView.constructor` | shapeofview/src/main/java/com/github/florent37/shapeofview/shapes/CutCornerView.java:22-27 | all four cut sizes start at 0 and the reused rectangle is empty |
| `CutCornerViewState.CutCornerView.CreateClipPath` | shapeofview/src/main/java/com/github/florent37/shapeofview/shapes/CutCornerView.java:62-65 | the rectangle becomes (0, 0, width, height) and the result is the generated path for it and the current cut sizes; only the rectangle changes |
| `CutCornerViewState.CutCornerView.RequiresBitmap` | shapeofview/src/main/java/com/github/florent37/shapeofview/shapes/CutCornerView.java:67-70 | always false: the shape is clipped as a vector path |
| `CutCornerViewState.CutCornerView.GetTopLeftCutSize` | shapeofview/src/main/java/com/github/florent37/shapeofview/shapes/CutCornerView.java:111-113 | returns the stored top-left cut size |
| `CutCornerViewState.CutCornerView.SetTopLeftCutSize` | shapeofview/src/main/java/com/github/florent37/shapeofview/shapes/CutCornerView.java:115-118 | stores the argument unclamped; the other three sizes and the rectangle are unchanged; one shape update is requested |
| `CutCornerViewState.CutCornerView.GetTopRightCutSize` | shapeofview/src/main/java/com/github/florent37/shapeofview/shapes/CutCornerView.java:128-130 | returns the stored top-right cut size |
| `CutCornerViewState.CutCornerView.SetTopRightCutSize` | shapeofview/src/main/java/com/github/florent37/shapeofview/shapes/CutCornerView.java:132-135 | stores the argument unclamped; the other three sizes and the rectangle are unchanged; one shape update is requested |
| `CutCornerViewState.CutCornerView.GetBottomRightCutSize` | shapeofview/src/main/java/com/github/florent37/shapeofview/shapes/CutCornerView.java:145-147 | returns the stored bottom-right cut size |
| `CutCornerViewState.CutCornerView.SetBottomRightCutSize` | shapeofview/src/main/java/com/github/florent37/shapeofview/shapes/CutCornerView.java:149-152 | stores the argument unclamped; the other three sizes and the rectangle are unchanged; one shape update is requested |
| `CutCornerViewState.CutCornerView.GetBottomLeftCutSize` | shapeofview/src/main/java/com/github/florent37/shapeofview/shapes/CutCornerView.java:162-164 | returns the stored bottom-left cut size |
| `CutCornerViewState.CutCornerView.SetBottomLeftCutSize` | shapeofview/src/main/java/com/github/florent37/shapeofview/shapes/CutCornerView.java:166-169 | stores the argument unclamped; the other three sizes and the rectangle are unchanged; one shape update is requested |

Setting a size and then reading it returns that size. This follows from each setter's and
getter's contract together.

## Left out

- Constructors reading layout attributes (`init`, lines 36-58), including the truncation of
  dimension attributes to `int`. This is resource lookup by the UI framework. The modelled
  constructor is the one built without attributes.
- `dispatchDraw` (lines 75-87). It draws one border line on a canvas, which is drawing I/O,
  and the code is unfinished.
- The border width and colour fields (lines 29-34). Only drawing uses them.
- The dp getters and setters (`getTopLeftCutSizeDp` and the other `*Dp` methods). They convert
  through `pxToDp` and `dpToPx` in the base class `ShapeOfView`, which is not part of this
  model and depends on the display density.
- `requiresShapeUpdate()` is the base class's hook into the view lifecycle. It is modelled only
  as the ghost counter `shapeUpdateRequests`.
- The registration of the creator with `setClipPathCreator` and the platform's clipping. These
  belong to `ShapeOfView` and `ClipPathManager`, which are not part of this model.
- IEEE `float` arithmetic. Coordinates are exact reals, so the model has no rounding, no NaN
  (`NaN < 0` is false in Java, so a NaN cut passes through the clamp unchanged) and no
  infinities. The `int` sizes of `createClipPath` become reals exactly, while the code's
  `float` conversion is exact only up to 2^24.
- `rectF` is a shared mutable `RectF` object in the code. Here it is a value field that
  `CreateClipPath` reassigns, so aliasing of that object is not modelled.
- Simplicity of the polygon is not stated as segment non-intersection.
  `CutCorner.OutlineWalksBoundary` states the fact it rests on instead: the vertices lie on
  the rectangle's boundary in clockwise order.
