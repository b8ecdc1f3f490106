/**
  The 2020 geometry helpers of `iDo/Extensions/CG+iDo.swift`. The point, size
  and rectangle shifts are the same arithmetic as the older `CocoaCG` helpers;
  each contract says which one it agrees with. `Resize` grows a rectangle
  while keeping one of nine reference points fixed.
 */
module ExtensionsCG {
  import opened Geometry
  import CocoaCG

  /** `CGPoint.offset(x:y:)`. */
  function PointOffset(p: Point, x: real, y: real): (q: Point)
    ensures q == CocoaCG.Offset(p, x, y)
  {
    Point(p.x + x, p.y + y)
  }

  /** `CGSize.extend(width:height:)`. */
  function SizeExtend(s: Size, width: real, height: real): (t: Size)
    ensures t == CocoaCG.SizeAdd(s, width, height)
  {
    Size(s.width + width, s.height + height)
  }

  /** `CGRect.offset(x:y:)`: a pure translation, the size is kept. */
  function RectOffset(r: Rect, x: real, y: real): (t: Rect)
    ensures t == CocoaCG.RectOffset(r, x, y, false)
    ensures t.size == r.size && MinX(t) == MinX(r) + x && MinY(t) == MinY(r) + y
  {
    Rect(PointOffset(r.origin, x, y), r.size)
  }

  /** `CGRect.extend(width:height:)`: the origin is kept, the size grows. */
  function RectExtend(r: Rect, width: real, height: real): (t: Rect)
    ensures t == CocoaCG.RectAdd(r, width, height)
  {
    Rect(r.origin, SizeExtend(r.size, width, height))
  }

  /** `CGRect.Point`: which reference point `Resize` keeps in place. */
  datatype Fixed = Top | Left | Right | Bottom | Center | TopLeft | TopRight | BottomLeft | BottomRight

  /** The reference point of `r` named by `f`. */
  function ReferencePoint(r: Rect, f: Fixed): Point {
    match f
    case Top => Point(MidX(r), MinY(r))
    case Left => Point(MinX(r), MidY(r))
    case Right => Point(MaxX(r), MidY(r))
    case Bottom => Point(MidX(r), MaxY(r))
    case Center => Point(MidX(r), MidY(r))
    case TopLeft => Point(MinX(r), MinY(r))
    case TopRight => Point(MaxX(r), MinY(r))
    case BottomLeft => Point(MinX(r), MaxY(r))
    case BottomRight => Point(MaxX(r), MaxY(r))
  }

  /**
    `CGRect.resize(width:height:fixed:)`: the size always grows by
    (width, height); the origin moves so that the chosen reference point stays.
   */
  function Resize(r: Rect, width: real, height: real, f: Fixed): (t: Rect)
    ensures t.size == Size(Width(r) + width, Height(r) + height)
    ensures ReferencePoint(t, f) == ReferencePoint(r, f)
  {
    var s := Size(r.size.width + width, r.size.height + height);
    var dx := r.size.width - s.width;
    var dy := r.size.height - s.height;
    var p := match f
      case Top => Point(r.origin.x + dx / 2.0, r.origin.y)
      case Left => Point(r.origin.x, r.origin.y + dy / 2.0)
      case Right => Point(r.origin.x + dx, r.origin.y + dy / 2.0)
      case Bottom => Point(r.origin.x + dx / 2.0, r.origin.y + dy)
      case Center => Point(r.origin.x + dx / 2.0, r.origin.y + dy / 2.0)
      case TopRight => Point(r.origin.x + dx, r.origin.y)
      case BottomLeft => Point(r.origin.x, r.origin.y + dy)
      case BottomRight => Point(r.origin.x + dx, r.origin.y + dy)
      case TopLeft => r.origin;
    Rect(p, s)
  }

  /** `UIEdgeInsets.vertical`: the room the insets take up and down. */
  function Vertical(i: Insets): real {
    i.top + i.bottom
  }

  /** `UIEdgeInsets.horizontal`: the room the insets take left and right. */
  function Horizontal(i: Insets): real {
    i.left + i.right
  }

  /** Padding a content box by insets: the content sits `left`/`top` in from the padded box's edges. */
  lemma PaddedBoxHoldsContent(content: Size, i: Insets)
    ensures var padded := SizeExtend(content, Horizontal(i), Vertical(i));
      padded.width - i.left - i.right == content.width &&
      padded.height - i.top - i.bottom == content.height
  {
  }
}
