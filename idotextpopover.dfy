/**
  `iDo/Poper/IDOTextPopover.swift`: a popover showing one text. Its content
  size comes from text measurement, which is platform work and enters as two
  measures: the width of a text under a height limit, and its height under a
  width limit.
 */
module IDOTextPopover {
  import opened Geometry
  import opened Wrappers
  import opened Measure
  import opened IDOPopover

  /** The width `estimationTextSize()` gives the content. */
  function TextWidth(fixed: Option<Size>, text: Option<string>, fontSize: real, loc: Location,
                     anchor: Rect, sc: Screen, widthOf: ExtentMeasure): real
  {
    var start := fixed.GetOr(ZeroSize);
    if start.width == 0.0 && text.Some? then
      // The fixed width, which is 0 here, is passed as the height limit.
      var limit := if fixed.Some? then Finite(fixed.value.width) else Unbounded;
      Min(RoomFor(loc, anchor, sc), widthOf(text.value, limit, fontSize))
    else start.width
  }

  /** The width the height is measured at: the content width, less the insets only for a positive fixed width. */
  function HeightWidth(fixed: Option<Size>, width: real, loc: Location, isArrowed: bool): real {
    if fixed.Some? && fixed.value.width > 0.0 then
      (if loc == Left || loc == Right then width - 16.0 - ArrowHeight(isArrowed) else width - 16.0)
    else width
  }

  /** `estimationTextSize()`. */
  function EstimationTextSize(fixed: Option<Size>, text: Option<string>, fontSize: real, loc: Location,
                              anchor: Rect, sc: Screen, isArrowed: bool,
                              widthOf: ExtentMeasure, heightOf: ExtentMeasure): (r: Size)
    ensures var start := fixed.GetOr(ZeroSize);
      && (start.width != 0.0 || text.None? ==> r.width == start.width)
      && (start.height != 0.0 || text.None? ==> r.height == start.height)
    ensures text.Some? && fixed.GetOr(ZeroSize).width == 0.0 ==>
      var measured := widthOf(text.value, if fixed.Some? then Finite(0.0) else Unbounded, fontSize);
      && r.width <= RoomFor(loc, anchor, sc) && r.width <= measured
      && (r.width == RoomFor(loc, anchor, sc) || r.width == measured)
    ensures text.Some? && fixed.GetOr(ZeroSize).height == 0.0 ==>
      0.0 <= r.height && r.height == heightOf(text.value, Finite(HeightWidth(fixed, r.width, loc, isArrowed)), fontSize)
  {
    var width := TextWidth(fixed, text, fontSize, loc, anchor, sc, widthOf);
    var start := fixed.GetOr(ZeroSize);
    var height := if start.height == 0.0 && text.Some?
      then heightOf(text.value, Finite(HeightWidth(fixed, width, loc, isArrowed)), fontSize)
      else start.height;
    Size(width, height)
  }

  /** No text and no fixed size give a zero size. */
  lemma NoTextNoSize(fontSize: real, loc: Location, anchor: Rect, sc: Screen, isArrowed: bool,
                     widthOf: ExtentMeasure, heightOf: ExtentMeasure)
    ensures EstimationTextSize(None, None, fontSize, loc, anchor, sc, isArrowed, widthOf, heightOf) == ZeroSize
  {
  }

  /**
    With a positive fixed width and no fixed height, the height is measured at
    exactly the width the layout gives the text view inside that container.
   */
  lemma HeightMeasuredAtSubviewWidth(sc: Screen, anchor: Rect, loc: Location, isArrowed: bool,
                                     width: real, text: string, fontSize: real, prior: Size,
                                     widthOf: ExtentMeasure, heightOf: ExtentMeasure)
    requires 0.0 < width <= MaxW(sc)
    ensures var fixed := Some(Size(width, 0.0));
      var content := EstimationTextSize(fixed, Some(text), fontSize, loc, anchor, sc, isArrowed, widthOf, heightOf);
      var container := ContainerSize(sc, anchor, loc, isArrowed, fixed, content, prior);
      var subview := SubviewFrame(SideOf(sc, anchor, loc), ArrowHeight(isArrowed), container);
      content.height == heightOf(text, Finite(Width(subview)), fontSize)
  {
  }

  /** `IDOTextPopover`: the popover it lays out, the text and its font size. */
  class TextPopover {
    const popover: Popover
    var text: Option<string>
    var fontSize: real

    constructor (popover: Popover)
      ensures this.popover == popover && text == None && fontSize == 15.0
    {
      this.popover := popover;
      text := None;
      fontSize := 15.0;
    }

    /** `show()`: the estimation cannot fail, so the popover is always laid out and presented. */
    method Show(widthOf: ExtentMeasure, heightOf: ExtentMeasure, hasKeyWindow: bool)
      modifies popover
      ensures var content := EstimationTextSize(popover.fixedContentSize, text, fontSize, popover.location,
                                                popover.anchor, popover.screen, popover.isArrowed, widthOf, heightOf);
        popover.Presented(content, hasKeyWindow)
    {
      var content := EstimationTextSize(popover.fixedContentSize, text, fontSize, popover.location,
                                        popover.anchor, popover.screen, popover.isArrowed, widthOf, heightOf);
      popover.Present(content, hasKeyWindow);
    }
  }
}
