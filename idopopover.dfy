/**
  The placement engine of `iDo/Poper/IDOPopover.swift`.

  A popover is laid out in steps that each overwrite a frame of the view:
  the container's size, then its origin, then the content view (the white
  rounded box, which fills the container), then the subview that shows the
  payload, then the arrow mask. Each step is a function here, and the class
  `Popover` runs them on its fields in the source's order.

  The anchor rectangle (the reference view converted to the key window), the
  screen size and the status-bar height are platform queries, taken as
  constants of the popover.
 */
module IDOPopover {
  import opened Geometry
  import opened Wrappers
  import CocoaCG

  /** `IDOPopover.ReferenceLocation`. */
  datatype Location = Left | Right | Top | Bottom | Auto

  /** `IDOPopover.AnimationStyle`. */
  datatype AnimationStyle = Fade | Expand | ZoomScale

  /** The side of the anchor the container ends up on. */
  datatype Side = OnLeft | OnRight | Above | Below

  /** Main screen bounds and the status bar's height. */
  datatype Screen = Screen(width: real, height: real, statusHeight: real)

  /** The margin kept from every screen edge, and the content padding. */
  const Margin: real := 8.0

  function LowX(sc: Screen): real { Margin }
  function LowY(sc: Screen): real { sc.statusHeight + Margin }
  function HighX(sc: Screen): real { sc.width - Margin }
  function HighY(sc: Screen): real { sc.height - Margin }
  function MaxW(sc: Screen): real { sc.width - 2.0 * Margin }
  function MaxH(sc: Screen): real { sc.height - sc.statusHeight - 2.0 * Margin }

  /** `arrowHeight`: the notch is as deep as the margin when drawn, and absent otherwise. */
  function ArrowHeight(isArrowed: bool): (h: real)
    ensures isArrowed ==> h == Margin
    ensures !isArrowed ==> h == 0.0
  {
    if isArrowed then 8.0 else 0.0
  }

  /** `isContainerViewLocatedAtTop`. */
  predicate IsLocatedAtTop(sc: Screen, anchor: Rect, loc: Location) {
    loc == Top || (loc == Auto && MidY(anchor) > sc.height / 2.0)
  }

  /** Where the container goes: `.left`/`.right` as asked, otherwise above or below. */
  function SideOf(sc: Screen, anchor: Rect, loc: Location): (s: Side)
    ensures s == OnLeft <==> loc == Left
    ensures s == OnRight <==> loc == Right
    ensures s == Above <==> IsLocatedAtTop(sc, anchor, loc)
  {
    match loc
    case Left => OnLeft
    case Right => OnRight
    case _ => if IsLocatedAtTop(sc, anchor, loc) then Above else Below
  }

  /** Only `.top`, or `.auto` with the anchor's middle strictly below half the screen, goes above. */
  lemma AboveExactly(sc: Screen, anchor: Rect, loc: Location)
    ensures SideOf(sc, anchor, loc) == Above <==>
      (loc == Top || (loc == Auto && MidY(anchor) > sc.height / 2.0))
    ensures loc == Bottom ==> SideOf(sc, anchor, loc) == Below
  {
  }

  /** The strict comparison: an anchor centred exactly on the screen's middle line goes below. */
  lemma AutoTieGoesBelow(sc: Screen, anchor: Rect)
    requires MidY(anchor) == sc.height / 2.0
    ensures SideOf(sc, anchor, Auto) == Below
  {
  }

  /** The width `containerViewSize` computes when it recomputes the width. */
  function ProposedWidth(sc: Screen, anchor: Rect, loc: Location, isArrowed: bool, content: Size): real {
    var ah := ArrowHeight(isArrowed);
    match loc
    case Left => Min(content.width + 16.0 + ah, MinX(anchor) - LowX(sc))
    case Right => Min(content.width + 16.0 + ah, HighX(sc) - MaxX(anchor))
    case _ => Min(content.width + 16.0, MaxW(sc))
  }

  /** The height `containerViewSize` computes when it recomputes the height. */
  function ProposedHeight(sc: Screen, anchor: Rect, loc: Location, isArrowed: bool, content: Size): real {
    var ah := ArrowHeight(isArrowed);
    match loc
    case Left => Min(content.height + 16.0, MaxH(sc))
    case Right => Min(content.height + 16.0, MaxH(sc))
    case _ =>
      if IsLocatedAtTop(sc, anchor, loc) then Min(content.height + 16.0 + ah, MinY(anchor) - LowY(sc))
      else Min(content.height + 16.0 + ah, HighY(sc) - MaxY(anchor))
  }

  /**
    The width the content estimators of the text and table popovers allow:
    the room beside the anchor, or the screen width, less 32.
   */
  function RoomFor(loc: Location, anchor: Rect, sc: Screen): real {
    match loc
    case Left => MinX(anchor) - 32.0
    case Right => sc.width - MaxX(anchor) - 32.0
    case _ => sc.width - 32.0
  }

  /** Whether `containerViewSize` recomputes the width, given the size it starts from. */
  predicate RecomputesWidth(fixed: Option<Size>, content: Size, start: Size) {
    start.width == 0.0 || (fixed.None? && content.width != start.width)
  }

  /**
    `containerViewSize(with:)`: the container's new size, from the content
    size and the size the container had before (`prior`). A fixed size is
    applied first; a dimension is recomputed only if it is 0 or, without a
    fixed size, if the content width differs from the container's current
    width (the height test also compares widths); both are then capped to
    the screen minus the margins.
   */
  function ContainerSize(sc: Screen, anchor: Rect, loc: Location, isArrowed: bool,
                         fixed: Option<Size>, content: Size, prior: Size): (r: Size)
    ensures r.width <= MaxW(sc) && r.height <= MaxH(sc)
  {
    var start := if fixed.Some? then fixed.value else prior;
    var w := if RecomputesWidth(fixed, content, start)
      then ProposedWidth(sc, anchor, loc, isArrowed, content) else start.width;
    var h := if start.height == 0.0 || (fixed.None? && content.width != w)
      then ProposedHeight(sc, anchor, loc, isArrowed, content) else start.height;
    Size(Min(MaxW(sc), w), Min(MaxH(sc), h))
  }

  /** The width rule, per location, whenever the width is recomputed. */
  lemma RecomputedWidth(sc: Screen, anchor: Rect, loc: Location, isArrowed: bool,
                        fixed: Option<Size>, content: Size, prior: Size)
    requires RecomputesWidth(fixed, content, if fixed.Some? then fixed.value else prior)
    ensures var w := ContainerSize(sc, anchor, loc, isArrowed, fixed, content, prior).width;
      var ah := ArrowHeight(isArrowed);
      && (loc == Left ==> w == Min(MaxW(sc), Min(content.width + 16.0 + ah, MinX(anchor) - 8.0)))
      && (loc == Right ==> w == Min(MaxW(sc), Min(content.width + 16.0 + ah, (sc.width - 8.0) - MaxX(anchor))))
      && (loc != Left && loc != Right ==> w == Min(content.width + 16.0, MaxW(sc)))
  {
  }

  /** A fixed size with no zero side, inside the screen's maxima, is used as it is. */
  lemma FixedSizeKept(sc: Screen, anchor: Rect, loc: Location, isArrowed: bool,
                      fixed: Size, content: Size, prior: Size)
    requires fixed.width != 0.0 && fixed.height != 0.0
    requires fixed.width <= MaxW(sc) && fixed.height <= MaxH(sc)
    ensures ContainerSize(sc, anchor, loc, isArrowed, Some(fixed), content, prior) == fixed
  {
  }

  /**
    The height test compares widths: with no fixed size, a container already
    as wide as the content keeps its old height, whatever the content height.
   */
  lemma StaleHeightWhenWidthsMatch(sc: Screen, anchor: Rect, loc: Location, isArrowed: bool,
                                   content: Size, prior: Size)
    requires prior.width != 0.0 && prior.height != 0.0 && content.width == prior.width
    ensures ContainerSize(sc, anchor, loc, isArrowed, None, content, prior) ==
      Size(Min(MaxW(sc), prior.width), Min(MaxH(sc), prior.height))
  {
  }

  /**
    `containerViewOrigin()`: beside the anchor for `.left`/`.right` (floored at
    the margin on the left), centred on it above or below otherwise, clamped to
    the margins across the anchor.
   */
  function ContainerOrigin(sc: Screen, anchor: Rect, loc: Location, size: Size): (p: Point)
    ensures var side := SideOf(sc, anchor, loc);
      && (side == Above ==> p.y + size.height == MinY(anchor))
      && (side == Below ==> p.y == MaxY(anchor))
      && (side == OnRight ==> p.x == MaxX(anchor))
      && (side == OnLeft ==> p.x >= Margin && (MinX(anchor) - size.width >= Margin ==> p.x + size.width == MinX(anchor)))
      && (side == Above || side == Below ==> p.x >= LowX(sc) && (size.width <= MaxW(sc) ==> p.x + size.width <= HighX(sc)))
      && (side == OnLeft || side == OnRight ==> p.y >= LowY(sc) && (size.height <= MaxH(sc) ==> p.y + size.height <= HighY(sc)))
  {
    var w, h := size.width, size.height;
    var acrossY := Max(LowY(sc), Min(MidY(anchor) - h / 2.0, HighY(sc) - h));
    var acrossX := Max(LowX(sc), Min(MidX(anchor) - w / 2.0, HighX(sc) - w));
    match SideOf(sc, anchor, loc)
    case OnLeft =>
      var x := MinX(anchor) - w;
      Point(if x < 8.0 then 8.0 else x, acrossY)
    case OnRight => Point(MaxX(anchor), acrossY)
    case Above => Point(acrossX, MinY(anchor) - h)
    case Below => Point(acrossX, MaxY(anchor))
  }

  /** `containerViewRect(with:)` for the container: the size step, then the origin step. */
  function ContainerRect(sc: Screen, anchor: Rect, loc: Location, isArrowed: bool,
                         fixed: Option<Size>, content: Size, prior: Size): Rect
  {
    var size := ContainerSize(sc, anchor, loc, isArrowed, fixed, content, prior);
    Rect(ContainerOrigin(sc, anchor, loc, size), size)
  }

  /**
    Whatever the content or fixed size, the laid-out container stays inside
    the screen's margins across the anchor and touches the anchor along it.
   */
  lemma ContainerPlacement(sc: Screen, anchor: Rect, loc: Location, isArrowed: bool,
                           fixed: Option<Size>, content: Size, prior: Size)
    ensures var c := ContainerRect(sc, anchor, loc, isArrowed, fixed, content, prior);
      var side := SideOf(sc, anchor, loc);
      && Width(c) <= sc.width - 16.0 && Height(c) <= sc.height - sc.statusHeight - 16.0
      && (side == Above || side == Below ==> 8.0 <= MinX(c) && MaxX(c) <= sc.width - 8.0)
      && (side == OnLeft || side == OnRight ==> sc.statusHeight + 8.0 <= MinY(c) && MaxY(c) <= sc.height - 8.0)
      && (side == Above ==> MaxY(c) == MinY(anchor))
      && (side == Below ==> MinY(c) == MaxY(anchor))
      && (side == OnRight ==> MinX(c) == MaxX(anchor))
  {
  }

  /**
    `layoutSubviewOfContentView(with:)`: the payload's frame inside the
    container, from the container's size.
   */
  function SubviewFrame(side: Side, ah: real, container: Size): (r: Rect)
    ensures MinX(r) == 8.0 + (if side == OnRight then ah else 0.0)
    ensures MinY(r) == 8.0 + (if side == Below then ah else 0.0)
    ensures container.width - MaxX(r) == 8.0 + (if side == OnLeft then ah else 0.0)
    ensures container.height - MaxY(r) == 8.0 + (if side == Above then ah else 0.0)
  {
    match side
    case OnLeft => Rect(Point(8.0, 8.0), CocoaCG.SizeAdd(container, -16.0 - ah, -16.0))
    case OnRight => Rect(Point(8.0 + ah, 8.0), CocoaCG.SizeAdd(container, -16.0 - ah, -16.0))
    case Above => Rect(Point(8.0, 8.0), CocoaCG.SizeAdd(container, -16.0, -16.0 - ah))
    case Below => Rect(Point(8.0, 8.0 + ah), CocoaCG.SizeAdd(container, -16.0, -16.0 - ah))
  }

  /**
    `arrowsAnchor()`: the anchor's midpoint in the container's coordinates,
    put on the content view's edge that faces the anchor.
   */
  function ArrowAnchor(side: Side, anchor: Rect, container: Rect, content: Rect): (p: Point)
    ensures side == OnLeft ==> p.x == Width(content)
    ensures side == OnRight ==> p.x == 0.0
    ensures side == Above ==> p.y == Height(content)
    ensures side == Below ==> p.y == 0.0
    ensures side == OnLeft || side == OnRight ==> MinY(container) + p.y == MidY(anchor)
    ensures side == Above || side == Below ==> MinX(container) + p.x == MidX(anchor)
  {
    var midY := MidY(anchor) - MinY(container);
    var midX := MidX(anchor) - MinX(container);
    match side
    case OnLeft => Point(Width(content), midY)
    case OnRight => Point(0.0, midY)
    case Above => Point(midX, Height(content))
    case Below => Point(midX, 0.0)
  }

  /**
    The mask `drawArrow()` installs: a rounded body (radius 5) and the
    triangle `apex -> second -> third -> apex`.
   */
  datatype ArrowMask = ArrowMask(body: Rect, apex: Point, second: Point, third: Point)

  /**
    The mask for an arrowed popover. The body is the content's bounds with the
    arrow's depth taken off the facing side; `.right` takes off a literal 8.
   */
  function ArrowMaskOf(side: Side, ah: real, content: Rect, apex: Point): (m: ArrowMask)
    ensures m.apex == apex
    ensures side == OnLeft ==> m.body == Rect(ZeroPoint, Size(Width(content) - ah, Height(content)))
    ensures side == OnRight ==> m.body == Rect(Point(8.0, 0.0), Size(Width(content) - 8.0, Height(content)))
    ensures side == Above ==> m.body == Rect(ZeroPoint, Size(Width(content), Height(content) - ah))
    ensures side == Below ==> m.body == Rect(Point(0.0, ah), Size(Width(content), Height(content) - ah))
    ensures side == OnLeft ==> m.second.x == m.third.x == apex.x - ah
    ensures side == OnRight ==> m.second.x == m.third.x == apex.x + ah
    ensures side == Above ==> m.second.y == m.third.y == apex.y - ah
    ensures side == Below ==> m.second.y == m.third.y == apex.y + ah
    ensures side == OnLeft || side == OnRight ==> m.second.y == apex.y + ah && m.third.y == apex.y - ah
    ensures side == Above || side == Below ==> m.second.x == apex.x - ah && m.third.x == apex.x + ah
  {
    var b := Bounds(content);
    match side
    case OnLeft =>
      ArrowMask(CocoaCG.RectSub(b, ah, 0.0), apex, CocoaCG.Offset(apex, -ah, ah), CocoaCG.Offset(apex, -ah, -ah))
    case OnRight =>
      ArrowMask(CocoaCG.RectOffset(b, 8.0, 0.0, true), apex, CocoaCG.Offset(apex, ah, ah), CocoaCG.Offset(apex, ah, -ah))
    case Above =>
      ArrowMask(CocoaCG.RectSub(b, 0.0, ah), apex, CocoaCG.Offset(apex, -ah, -ah), CocoaCG.Offset(apex, ah, -ah))
    case Below =>
      ArrowMask(CocoaCG.RectOffset(b, 0.0, ah, true), apex, CocoaCG.Offset(apex, -ah, ah), CocoaCG.Offset(apex, ah, ah))
  }

  /**
    With the 8-point arrow, the triangle's base lies on the body's facing edge
    for every side (the literal 8 of `.right` equals the arrow's depth), and the
    apex reaches the content's outer edge.
   */
  lemma NotchBaseOnBodyEdge(side: Side, content: Rect, apex: Point)
    requires side == OnLeft ==> apex.x == Width(content)
    requires side == OnRight ==> apex.x == 0.0
    requires side == Above ==> apex.y == Height(content)
    requires side == Below ==> apex.y == 0.0
    ensures var m := ArrowMaskOf(side, ArrowHeight(true), content, apex);
      && (side == OnLeft ==> m.second.x == MaxX(m.body) && apex.x == MaxX(Bounds(content)))
      && (side == OnRight ==> m.second.x == MinX(m.body) && apex.x == MinX(Bounds(content)))
      && (side == Above ==> m.second.y == MaxY(m.body) && apex.y == MaxY(Bounds(content)))
      && (side == Below ==> m.second.y == MinY(m.body) && apex.y == MinY(Bounds(content)))
  {
  }

  /**
    `showWithAnimations()`: the content frame the entrance animation starts
    from before it animates to `dest`.
   */
  function EntranceStart(style: AnimationStyle, side: Side, dest: Rect, apex: Point): (r: Rect)
    ensures style == Fade ==> r == dest
    ensures style == ZoomScale ==> r == Rect(apex, ZeroSize)
    ensures style == Expand && (side == OnLeft || side == OnRight) ==>
      Width(r) == 0.0 && MinY(r) == MinY(dest) && Height(r) == Height(dest) &&
      MinX(r) == (if side == OnLeft then MaxX(dest) else MinX(dest))
    ensures style == Expand && (side == Above || side == Below) ==>
      Height(r) == 0.0 && MinX(r) == MinX(dest) && Width(r) == Width(dest) &&
      MinY(r) == (if side == Above then MaxY(dest) else MinY(dest))
  {
    match style
    case Fade => dest
    case Expand =>
      (match side
       case OnLeft => Rect(Point(dest.origin.x + dest.size.width, dest.origin.y), Size(0.0, dest.size.height))
       case OnRight => Rect(dest.origin, Size(0.0, dest.size.height))
       case Above => Rect(Point(dest.origin.x, dest.origin.y + dest.size.height), Size(dest.size.width, 0.0))
       case Below => Rect(dest.origin, Size(dest.size.width, 0.0)))
    case ZoomScale => Rect(apex, ZeroSize)
  }

  /** The popover view: its configuration and the frames the layout steps overwrite. */
  class Popover {
    const screen: Screen
    const anchor: Rect
    const location: Location
    const animationStyle: AnimationStyle
    const isArrowed: bool
    const fixedContentSize: Option<Size>

    /** `containerView.frame`, `contentView.frame`, the payload's frame, `contentView.layer.mask`. */
    var containerFrame: Rect
    var contentFrame: Rect
    var subviewFrame: Rect
    var mask: Option<ArrowMask>
    /** Whether the popover is in the key window (`superview != nil`). */
    var attached: bool
    /** The frame the last entrance animation started from. */
    var entranceStart: Option<Rect>

    constructor (screen: Screen, anchor: Rect, location: Location, animationStyle: AnimationStyle,
                 isArrowed: bool, fixedContentSize: Option<Size>)
      ensures this.screen == screen && this.anchor == anchor && this.location == location
      ensures this.animationStyle == animationStyle && this.isArrowed == isArrowed
      ensures this.fixedContentSize == fixedContentSize
      ensures containerFrame == Rect(ZeroPoint, ZeroSize) && contentFrame == Rect(ZeroPoint, ZeroSize)
      ensures mask == None && !attached && entranceStart == None
    {
      this.screen := screen;
      this.anchor := anchor;
      this.location := location;
      this.animationStyle := animationStyle;
      this.isArrowed := isArrowed;
      this.fixedContentSize := fixedContentSize;
      containerFrame := Rect(ZeroPoint, ZeroSize);
      contentFrame := Rect(ZeroPoint, ZeroSize);
      subviewFrame := Rect(ZeroPoint, ZeroSize);
      mask := None;
      attached := false;
      entranceStart := None;
    }

    function Side(): Side {
      SideOf(screen, anchor, location)
    }

    /** `containerViewSize(with:)`, one frame assignment at a time. */
    method ContainerViewSize(content: Size)
      modifies this`containerFrame
      ensures containerFrame.origin == old(containerFrame.origin)
      ensures containerFrame.size ==
        ContainerSize(screen, anchor, location, isArrowed, fixedContentSize, content, old(containerFrame.size))
    {
      ghost var start := if fixedContentSize.Some? then fixedContentSize.value else containerFrame.size;
      if fixedContentSize.Some? {
        containerFrame := containerFrame.(size := fixedContentSize.value);
      }
      assert containerFrame.size == start;
      var ah := ArrowHeight(isArrowed);
      if Width(containerFrame) == 0.0 || (fixedContentSize.None? && content.width != Width(containerFrame)) {
        var w := match location
          case Left => Min(content.width + 16.0 + ah, MinX(anchor) - LowX(screen))
          case Right => Min(content.width + 16.0 + ah, HighX(screen) - MaxX(anchor))
          case _ => Min(content.width + 16.0, MaxW(screen));
        assert w == ProposedWidth(screen, anchor, location, isArrowed, content);
        containerFrame := containerFrame.(size := containerFrame.size.(width := w));
      }
      ghost var w := if RecomputesWidth(fixedContentSize, content, start)
        then ProposedWidth(screen, anchor, location, isArrowed, content) else start.width;
      assert Width(containerFrame) == w && Height(containerFrame) == start.height;
      if Height(containerFrame) == 0.0 || (fixedContentSize.None? && content.width != Width(containerFrame)) {
        var h;
        if location == Left || location == Right {
          h := Min(content.height + 16.0, MaxH(screen));
        } else if IsLocatedAtTop(screen, anchor, location) {
          h := Min(content.height + 16.0 + ah, MinY(anchor) - LowY(screen));
        } else {
          h := Min(content.height + 16.0 + ah, HighY(screen) - MaxY(anchor));
        }
        assert h == ProposedHeight(screen, anchor, location, isArrowed, content);
        containerFrame := containerFrame.(size := containerFrame.size.(height := h));
      }
      assert Width(containerFrame) == w;
      containerFrame := containerFrame.(size := containerFrame.size.(width := Min(MaxW(screen), Width(containerFrame))));
      containerFrame := containerFrame.(size := containerFrame.size.(height := Min(MaxH(screen), Height(containerFrame))));
    }

    /** `containerViewOrigin()`. */
    method ContainerViewOrigin()
      modifies this`containerFrame
      ensures containerFrame.size == old(containerFrame.size)
      ensures containerFrame.origin == ContainerOrigin(screen, anchor, location, old(containerFrame.size))
    {
      var x: real, y: real;
      var w, h := Width(containerFrame), Height(containerFrame);
      match location {
        case Left =>
          x := MinX(anchor) - w;
          y := Max(LowY(screen), Min(MidY(anchor) - h / 2.0, HighY(screen) - h));
          if x < 8.0 { x := 8.0; }
        case Right =>
          x := MaxX(anchor);
          y := Max(LowY(screen), Min(MidY(anchor) - h / 2.0, HighY(screen) - h));
        case _ =>
          x := Max(LowX(screen), Min(MidX(anchor) - w / 2.0, HighX(screen) - w));
          if IsLocatedAtTop(screen, anchor, location) {
            y := MinY(anchor) - h;
          } else {
            y := MaxY(anchor);
          }
      }
      containerFrame := containerFrame.(origin := Point(x, y));
    }

    /** `containerViewRect(with:)`: size, origin, then the content view fills the container. */
    method ContainerViewRect(content: Size)
      modifies this`containerFrame, this`contentFrame
      ensures containerFrame ==
        ContainerRect(screen, anchor, location, isArrowed, fixedContentSize, content, old(containerFrame.size))
      ensures contentFrame == Bounds(containerFrame)
    {
      ContainerViewSize(content);
      ContainerViewOrigin();
      contentFrame := Bounds(containerFrame);
    }

    /** `arrowsAnchor()` on the current frames. */
    function Apex(): Point
      reads this
    {
      ArrowAnchor(Side(), anchor, containerFrame, contentFrame)
    }

    /** `drawArrow()`: the old mask is dropped; an arrowed popover gets a new one. */
    method DrawArrow()
      modifies this`mask
      ensures mask == if isArrowed then Some(ArrowMaskOf(Side(), ArrowHeight(true), contentFrame, Apex())) else None
    {
      mask := None;
      if isArrowed {
        mask := Some(ArrowMaskOf(Side(), ArrowHeight(isArrowed), contentFrame, Apex()));
      }
    }

    /** `layoutSubviewOfContentView(with:)`: places the payload, then draws the arrow. */
    method LayoutSubviewOfContentView()
      modifies this`subviewFrame, this`mask
      ensures subviewFrame == SubviewFrame(Side(), ArrowHeight(isArrowed), containerFrame.size)
      ensures mask == if isArrowed then Some(ArrowMaskOf(Side(), ArrowHeight(true), contentFrame, Apex())) else None
    {
      subviewFrame := SubviewFrame(Side(), ArrowHeight(isArrowed), containerFrame.size);
      DrawArrow();
    }

    /** `showWithAnimations()`: records the start frame; the animation ends on the laid-out frame. */
    method ShowWithAnimations()
      modifies this`entranceStart
      ensures entranceStart == Some(EntranceStart(animationStyle, Side(), contentFrame, Apex()))
    {
      entranceStart := Some(EntranceStart(animationStyle, Side(), contentFrame, Apex()));
    }

    /** `show()`: when not yet in a window, joins the key window if there is one, and animates in either way. */
    method Show(hasKeyWindow: bool)
      modifies this`attached, this`entranceStart
      ensures attached == (old(attached) || hasKeyWindow)
      ensures old(attached) ==> entranceStart == old(entranceStart)
      ensures !old(attached) ==> entranceStart == Some(EntranceStart(animationStyle, Side(), contentFrame, Apex()))
    {
      if !attached {
        if hasKeyWindow {
          attached := true;
        }
        ShowWithAnimations();
      }
    }

    /** `dismiss()`: fades out and leaves the window once the animation completes. */
    method Dismiss()
      modifies this`attached
      ensures !attached
    {
      attached := false;
    }

    /** `touchesEnded(_:with:)`: a touch outside the container dismisses. */
    method TouchesEnded(touch: Option<Point>)
      modifies this`attached
      ensures attached == (old(attached) && !(touch.Some? && !Contains(containerFrame, touch.value)))
    {
      if touch.Some? && !Contains(containerFrame, touch.value) {
        Dismiss();
      }
    }

    /**
      The state a presentation leaves: the container placed for `content`,
      the content view filling it, the payload and arrow laid out, the popover
      in the window when it was or a key window exists, and an entrance
      recorded only for a popover that was not yet in a window.
     */
    twostate predicate Presented(content: Size, hasKeyWindow: bool)
      reads this
    {
      && containerFrame ==
           ContainerRect(screen, anchor, location, isArrowed, fixedContentSize, content, old(containerFrame.size))
      && contentFrame == Bounds(containerFrame)
      && subviewFrame == SubviewFrame(Side(), ArrowHeight(isArrowed), containerFrame.size)
      && mask == (if isArrowed then Some(ArrowMaskOf(Side(), ArrowHeight(true), contentFrame, Apex())) else None)
      && attached == (old(attached) || hasKeyWindow)
      && entranceStart == (if old(attached) then old(entranceStart)
                           else Some(EntranceStart(animationStyle, Side(), contentFrame, Apex())))
    }

    /**
      The full presentation every popover subclass runs once its content size
      is known: `containerViewRect`, `layoutSubviewOfContentView`, `show`.
     */
    method Present(content: Size, hasKeyWindow: bool)
      modifies this
      ensures Presented(content, hasKeyWindow)
    {
      ContainerViewRect(content);
      LayoutSubviewOfContentView();
      Show(hasKeyWindow);
    }
  }

  /**
    After the layout, the arrow's tip, taken back to window coordinates, is
    the middle of the anchor's facing edge (for `.left`, unless the container
    had to be floored at the margin).
   */
  lemma ArrowTipTouchesAnchor(sc: Screen, anchor: Rect, loc: Location, isArrowed: bool,
                              fixed: Option<Size>, content: Size, prior: Size)
    ensures var c := ContainerRect(sc, anchor, loc, isArrowed, fixed, content, prior);
      var side := SideOf(sc, anchor, loc);
      var apex := ArrowAnchor(side, anchor, c, Bounds(c));
      var tip := Point(MinX(c) + apex.x, MinY(c) + apex.y);
      && (side == Above ==> tip == Point(MidX(anchor), MinY(anchor)))
      && (side == Below ==> tip == Point(MidX(anchor), MaxY(anchor)))
      && (side == OnRight ==> tip == Point(MaxX(anchor), MidY(anchor)))
      && (side == OnLeft && MinX(anchor) - Width(c) >= 8.0 ==> tip == Point(MinX(anchor), MidY(anchor)))
  {
    var c := ContainerRect(sc, anchor, loc, isArrowed, fixed, content, prior);
    var side := SideOf(sc, anchor, loc);
    var apex := ArrowAnchor(side, anchor, c, Bounds(c));
    assert Width(Bounds(c)) == Width(c) && Height(Bounds(c)) == Height(c);
  }

  /** The payload stays inside the arrow mask's body, on every side. */
  lemma SubviewInsideMaskBody(side: Side, sc: Screen, anchor: Rect, container: Rect)
    ensures var content := Bounds(container);
      var apex := ArrowAnchor(side, anchor, container, content);
      var m := ArrowMaskOf(side, ArrowHeight(true), content, apex);
      Inside(SubviewFrame(side, ArrowHeight(true), container.size), m.body)
  {
  }
}
