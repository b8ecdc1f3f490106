/**
  Core Graphics values as the widgets use them: points, sizes, rectangles and
  edge insets over `real` (CGFloat without rounding). Accessors read the
  rectangle as stored: `MinX` is the origin, `MaxX` the origin plus the width.
 */
module Geometry {

  datatype Point = Point(x: real, y: real)
  datatype Size = Size(width: real, height: real)
  datatype Rect = Rect(origin: Point, size: Size)
  datatype Insets = Insets(top: real, left: real, bottom: real, right: real)

  const ZeroPoint := Point(0.0, 0.0)
  const ZeroSize := Size(0.0, 0.0)

  function Min(a: real, b: real): real { if a <= b then a else b }
  function Max(a: real, b: real): real { if a >= b then a else b }

  function Width(r: Rect): real { r.size.width }
  function Height(r: Rect): real { r.size.height }
  function MinX(r: Rect): real { r.origin.x }
  function MinY(r: Rect): real { r.origin.y }
  function MaxX(r: Rect): real { r.origin.x + r.size.width }
  function MaxY(r: Rect): real { r.origin.y + r.size.height }
  function MidX(r: Rect): real { r.origin.x + r.size.width / 2.0 }
  function MidY(r: Rect): real { r.origin.y + r.size.height / 2.0 }

  /** The frame of size `s` whose centre is `c`: what setting `UIView.center` gives. */
  function CenteredAt(c: Point, s: Size): (r: Rect)
    ensures r.size == s && MidX(r) == c.x && MidY(r) == c.y
  {
    Rect(Point(c.x - s.width / 2.0, c.y - s.height / 2.0), s)
  }

  /** `CGRect.bounds` of a view whose frame is `r`: the same size at the origin. */
  function Bounds(r: Rect): Rect { Rect(ZeroPoint, r.size) }

  /** `CGRect.contains(_:)`: the point lies in the half-open box. */
  predicate Contains(r: Rect, p: Point) {
    MinX(r) <= p.x < MaxX(r) && MinY(r) <= p.y < MaxY(r)
  }

  /** `r` lies inside `outer` (edges may touch). */
  predicate Inside(r: Rect, outer: Rect) {
    MinX(outer) <= MinX(r) && MaxX(r) <= MaxX(outer) &&
    MinY(outer) <= MinY(r) && MaxY(r) <= MaxY(outer)
  }
}
