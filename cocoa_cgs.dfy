/**
  Value arithmetic on points, sizes and rectangles from `iDo/Cocoa/CGs+iDo.swift`.
  Every operation returns a new value and leaves its receiver alone.
 */
module CocoaCG {
  import opened Geometry

  /** `CGPoint.offset(dx:dy:)`: moves the point by (dx, dy). */
  function Offset(p: Point, dx: real, dy: real): (q: Point)
    ensures q.x - p.x == dx && q.y - p.y == dy
  {
    Point(p.x + dx, p.y + dy)
  }

  /** `CGSize.add(dw:dh:)`: grows the size by (dw, dh). */
  function SizeAdd(s: Size, dw: real, dh: real): (t: Size)
    ensures t.width - s.width == dw && t.height - s.height == dh
  {
    Size(s.width + dw, s.height + dh)
  }

  /** `CGRect.add(dw:dh:)`: grows the size, the origin stays. */
  function RectAdd(r: Rect, dw: real, dh: real): (t: Rect)
    ensures t.origin == r.origin
    ensures Width(t) == Width(r) + dw && Height(t) == Height(r) + dh
  {
    Rect(r.origin, Size(r.size.width + dw, r.size.height + dh))
  }

  /** `CGRect.sub(dw:dh:)`: shrinks the size, the origin stays. */
  function RectSub(r: Rect, dw: real, dh: real): (t: Rect)
    ensures t.origin == r.origin
    ensures Width(t) == Width(r) - dw && Height(t) == Height(r) - dh
  {
    Rect(r.origin, Size(r.size.width - dw, r.size.height - dh))
  }

  /**
    `CGRect.offset(dx:dy:sync:)`: moves the origin; with `sync` (the default)
    the size shrinks by the same amount so the far corner stays put.
   */
  function RectOffset(r: Rect, dx: real, dy: real, sync: bool): (t: Rect)
    ensures t.origin == Offset(r.origin, dx, dy)
    ensures sync ==> MaxX(t) == MaxX(r) && MaxY(t) == MaxY(r)
    ensures !sync ==> t.size == r.size
  {
    var moved := Rect(Offset(r.origin, dx, dy), r.size);
    if sync then Rect(moved.origin, Size(r.size.width - dx, r.size.height - dy)) else moved
  }

  /** `sub` undoes `add` and `add` undoes `sub`. */
  lemma SubUndoesAdd(r: Rect, dw: real, dh: real)
    ensures RectSub(RectAdd(r, dw, dh), dw, dh) == r
    ensures RectAdd(RectSub(r, dw, dh), dw, dh) == r
  {
  }
}
