/** Screen-space points (`CGPoint`) and the viewport size, over exact reals. */
module Geometry {

  /** A `CGPoint`; also used for a pair of per-axis angles in degrees. */
  datatype Point = Point(x: real, y: real)

  /** The size of the screen the drag is measured against (`UIScreen.main.bounds`). */
  datatype Viewport = Viewport(width: real, height: real)

  /** A viewport the handler can divide by: the Swift code has no guard for a zero size. */
  predicate ValidViewport(v: Viewport) {
    v.width > 0.0 && v.height > 0.0
  }

  const Origin: Point := Point(0.0, 0.0)

  function Add(a: Point, b: Point): Point {
    Point(a.x + b.x, a.y + b.y)
  }

  function Sub(a: Point, b: Point): Point {
    Point(a.x - b.x, a.y - b.y)
  }
}
