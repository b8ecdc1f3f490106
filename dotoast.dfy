/**
  `iDo/Components/DOToast.swift`: a short-lived text alert shown at the
  centre of the window or sliding up from the bottom.

  The animations are left out; a fade or a slide is taken to its end state
  at once, including the removal from the window that its completion does.
  The delayed `hide()` is recorded as a pending entry holding its delay.
 */
module DOToast {
  import opened Geometry
  import opened Wrappers
  import opened Measure
  import ExtensionsCG

  /** `DOToast.AnimateStyle`. */
  datatype AnimateStyle = Center | Bottom

  /** The width `size(of:estimateWidth:)` stops widening at: half the screen for `.center`, three quarters for `.bottom`. */
  function WidthBound(style: AnimateStyle, screenWidth: real): real {
    if style == Center then screenWidth / 2.0 else screenWidth * 0.75
  }

  /** The text measured in a box of width `w` and unbounded height. */
  function MeasuredAt(text: string, w: real, fontSize: real, measure: BoxMeasure): Size {
    measure(text, Finite(w), Unbounded, fontSize)
  }

  /**
    `size(of:estimateWidth:)`: the text is measured at `width`, and measured
    again at `width + 2·pointSize` for as long as it comes out taller than the
    box is wide and the width is still under the bound. It gives the first
    measurement that either fits or was taken at or past the bound.
   */
  function SizeOf(text: string, width: real, style: AnimateStyle, screenWidth: real,
                  fontSize: real, measure: BoxMeasure): (r: Size)
    requires 0.0 < fontSize
    ensures exists w ::
      && width <= w && r == MeasuredAt(text, w, fontSize, measure)
      && (r.height <= w || WidthBound(style, screenWidth) <= w)
      && (w == width || w < WidthBound(style, screenWidth) + 2.0 * fontSize)
    decreases ((WidthBound(style, screenWidth) - width) / (2.0 * fontSize)).Floor
  {
    var rect := MeasuredAt(text, width, fontSize, measure);
    if rect.height > width && width < WidthBound(style, screenWidth) then
      var next := width + 2.0 * fontSize;
      StepsShrink(WidthBound(style, screenWidth) - width, 2.0 * fontSize);
      SizeOf(text, next, style, screenWidth, fontSize, measure)
    else rect
  }

  /** Moving one step closer to the bound leaves one step fewer. */
  lemma StepsShrink(gap: real, step: real)
    requires 0.0 < step
    ensures (gap - step) / step == gap / step - 1.0
  {
    var q := gap / step;
    var p := (gap - step) / step;
    assert q * step == gap;
    assert p * step == gap - step;
    var e := p - q + 1.0;
    assert e * step == 0.0;
    assert e == (e * step) / step;
  }

  /** The measurement stops at width `w`: the text fits, or `w` has reached the bound. */
  predicate Stops(text: string, w: real, style: AnimateStyle, screenWidth: real, fontSize: real, measure: BoxMeasure) {
    MeasuredAt(text, w, fontSize, measure).height <= w || WidthBound(style, screenWidth) <= w
  }

  /** The `k`th width the widening tries: `width` plus `k` steps of twice the point size. */
  function GridWidth(width: real, fontSize: real, k: nat): real {
    width + (k as real) * (2.0 * fontSize)
  }

  /** Starting one step further along is the same grid, one index on. */
  lemma GridShift(width: real, fontSize: real, j: nat)
    ensures GridWidth(width + 2.0 * fontSize, fontSize, j) == GridWidth(width, fontSize, j + 1)
  {
    var step := 2.0 * fontSize;
    assert ((j + 1) as real) * step == (j as real) * step + step;
  }

  /**
    `size(of:estimateWidth:)` gives the measurement at the first width of the
    grid `width + k·2·pointSize` at which it stops: every earlier width was
    too narrow for the text and still under the bound.
   */
  lemma {:induction false} SizeOfIsFirstStop(text: string, width: real, style: AnimateStyle, screenWidth: real,
                                             fontSize: real, measure: BoxMeasure)
    requires 0.0 < fontSize
    ensures exists k: nat ::
      && SizeOf(text, width, style, screenWidth, fontSize, measure) == MeasuredAt(text, GridWidth(width, fontSize, k), fontSize, measure)
      && Stops(text, GridWidth(width, fontSize, k), style, screenWidth, fontSize, measure)
      && forall j: nat :: j < k ==> !Stops(text, GridWidth(width, fontSize, j), style, screenWidth, fontSize, measure)
    decreases ((WidthBound(style, screenWidth) - width) / (2.0 * fontSize)).Floor
  {
    if Stops(text, width, style, screenWidth, fontSize, measure) {
      assert GridWidth(width, fontSize, 0) == width;
      assert SizeOf(text, width, style, screenWidth, fontSize, measure) == MeasuredAt(text, GridWidth(width, fontSize, 0), fontSize, measure);
    } else {
      var next := width + 2.0 * fontSize;
      StepsShrink(WidthBound(style, screenWidth) - width, 2.0 * fontSize);
      SizeOfIsFirstStop(text, next, style, screenWidth, fontSize, measure);
      var k: nat :| && SizeOf(text, next, style, screenWidth, fontSize, measure) == MeasuredAt(text, GridWidth(next, fontSize, k), fontSize, measure)
        && Stops(text, GridWidth(next, fontSize, k), style, screenWidth, fontSize, measure)
        && forall j: nat :: j < k ==> !Stops(text, GridWidth(next, fontSize, j), style, screenWidth, fontSize, measure);
      forall j: nat
        ensures GridWidth(next, fontSize, j) == GridWidth(width, fontSize, j + 1)
      {
        GridShift(width, fontSize, j);
      }
      forall j: nat | j < k + 1
        ensures !Stops(text, GridWidth(width, fontSize, j), style, screenWidth, fontSize, measure)
      {
        if j == 0 {
          assert GridWidth(width, fontSize, 0) == width;
        } else {
          assert GridWidth(width, fontSize, j) == GridWidth(next, fontSize, j - 1);
        }
      }
      assert SizeOf(text, width, style, screenWidth, fontSize, measure) == MeasuredAt(text, GridWidth(width, fontSize, k + 1), fontSize, measure);
    }
  }

  /** The first measurement is kept when it fits or the start is already at the bound. */
  lemma FirstMeasurementKept(text: string, width: real, style: AnimateStyle, screenWidth: real,
                             fontSize: real, measure: BoxMeasure)
    requires 0.0 < fontSize
    requires MeasuredAt(text, width, fontSize, measure).height <= width || WidthBound(style, screenWidth) <= width
    ensures SizeOf(text, width, style, screenWidth, fontSize, measure) == MeasuredAt(text, width, fontSize, measure)
  {
  }

  /** `show`'s content size: the text size plus 40 by 20 from the bottom, 20 by 20 in the centre. */
  function ContentSize(style: AnimateStyle, textSize: Size): (r: Size)
    ensures r.height - textSize.height == 20.0
    ensures r.width - textSize.width == (if style == Bottom then 40.0 else 20.0)
  {
    if style == Bottom then ExtensionsCG.SizeExtend(textSize, 40.0, 20.0)
    else ExtensionsCG.SizeExtend(textSize, 20.0, 20.0)
  }

  /** `show`'s corner radius: a pill from the bottom, 5 in the centre. */
  function CornerRadius(style: AnimateStyle, content: Size): real {
    if style == Bottom then content.height / 2.0 else 5.0
  }

  /** Where `show` puts the content before any animation: below the screen from the bottom, at the centre otherwise. */
  function PlacedFrame(style: AnimateStyle, content: Size, center: Point, screenHeight: real): (r: Rect)
    ensures r.size == content && MidX(r) == center.x
    ensures style == Center ==> MidY(r) == center.y
    ensures style == Bottom ==> MinY(r) == screenHeight + content.height * 0.7
  {
    if style == Bottom then CenteredAt(Point(center.x, screenHeight + content.height * 1.2), content)
    else CenteredAt(center, content)
  }

  /** The content of a bottom toast starts below the bottom edge of the screen. */
  lemma BottomStartsOffScreen(textSize: Size, center: Point, screenHeight: real)
    requires 0.0 <= textSize.height
    ensures var r := PlacedFrame(Bottom, ContentSize(Bottom, textSize), center, screenHeight);
      screenHeight < MinY(r) && MidX(r) == center.x
  {
  }

  /** The y the slide animation moves the content to: 55 above the bottom going in, a screen further down going out. */
  function SlideTarget(isIn: bool, contentHeight: real, screenHeight: real): (y: real)
    ensures isIn ==> y + contentHeight == screenHeight - 55.0
    ensures !isIn && 0.0 <= screenHeight ==> screenHeight <= y
  {
    if isIn then screenHeight - contentHeight - 55.0 else screenHeight * 2.0
  }

  /** `DOToast`: the style flags, the content view's frame and radius, and whether it is in the window. */
  class Toast {
    var animateStyle: AnimateStyle
    var reverseAnimateWhenHide: bool
    var fontSize: real
    const screenWidth: real
    const screenHeight: real
    /** The centre of the toast view, which covers the window. */
    const center: Point
    /** Never assigned after initialisation: `show` does not store its argument. */
    var cancelable: bool
    var contentFrame: Rect
    var cornerRadius: real
    var alpha: real
    var text: string
    var attached: bool
    /** The delays of the `hide()` calls scheduled and not yet run. */
    var pendingHides: seq<real>

    constructor (animateStyle: AnimateStyle, screenWidth: real, screenHeight: real, center: Point)
      ensures this.animateStyle == animateStyle && this.screenWidth == screenWidth
      ensures this.screenHeight == screenHeight && this.center == center
      ensures reverseAnimateWhenHide && fontSize == 14.0 && cancelable
      ensures cornerRadius == 5.0 && !attached && pendingHides == []
    {
      this.animateStyle := animateStyle;
      this.screenWidth := screenWidth;
      this.screenHeight := screenHeight;
      this.center := center;
      reverseAnimateWhenHide := true;
      fontSize := 14.0;
      cancelable := true;
      contentFrame := Rect(ZeroPoint, ZeroSize);
      cornerRadius := 5.0;
      alpha := 1.0;
      text := "";
      attached := false;
      pendingHides := [];
    }

    /** `fade(from:to:)`, taken to its end: the alpha ends at `to`, and a fade out removes the view. */
    method Fade(from: real, to: real)
      modifies this`alpha, this`attached
      ensures alpha == to
      ensures attached == (old(attached) && to > 0.0)
    {
      alpha := from;
      alpha := to;
      if to <= 0.0 {
        attached := false;
      }
    }

    /** `slide(in:)`, taken to its end: the content moves to the slide target, and a slide out removes the view. */
    method Slide(isIn: bool)
      modifies this`contentFrame, this`attached
      ensures contentFrame == Rect(Point(old(contentFrame).origin.x, SlideTarget(isIn, old(contentFrame).size.height, screenHeight)),
                                   old(contentFrame).size)
      ensures attached == (old(attached) && isIn)
    {
      var to := SlideTarget(isIn, contentFrame.size.height, screenHeight);
      contentFrame := Rect(Point(contentFrame.origin.x, to), contentFrame.size);
      if !isIn {
        attached := false;
      }
    }

    /**
      `show(_:duration:cancelable:)`: sizes, shapes and places the content;
      a toast not yet in a window joins the key window if there is one, and
      is animated in and given a pending hide either way. The `cancelable`
      argument is dropped.
     */
    method Show(t: string, duration: real, cancelableArgument: bool, hasKeyWindow: bool, measure: BoxMeasure)
      requires 0.0 < fontSize
      modifies this`text, this`contentFrame, this`cornerRadius, this`alpha, this`attached, this`pendingHides
      ensures var content := ContentSize(animateStyle, SizeOf(t, 80.0, animateStyle, screenWidth, fontSize, measure));
        var placed := PlacedFrame(animateStyle, content, center, screenHeight);
        && text == t
        && cornerRadius == CornerRadius(animateStyle, content)
        && attached == (old(attached) || hasKeyWindow)
        && (old(attached) ==> contentFrame == placed && alpha == old(alpha) && pendingHides == old(pendingHides))
        && (!old(attached) && animateStyle == Bottom ==>
              contentFrame == Rect(Point(placed.origin.x, SlideTarget(true, content.height, screenHeight)), content)
              && alpha == old(alpha))
        && (!old(attached) && animateStyle == Center ==> contentFrame == placed && alpha == 1.0)
        && (!old(attached) ==> pendingHides == old(pendingHides) + [duration])
      ensures cancelable == old(cancelable)
    {
      var textSize := SizeOf(t, 80.0, animateStyle, screenWidth, fontSize, measure);
      text := t;
      var fromBottom := animateStyle == Bottom;
      var content := ContentSize(animateStyle, textSize);
      cornerRadius := CornerRadius(animateStyle, content);
      contentFrame := PlacedFrame(animateStyle, content, center, screenHeight);
      if !attached {
        if hasKeyWindow {
          attached := true;
        }
        if fromBottom {
          Slide(true);
        } else {
          Fade(0.0, 1.0);
        }
        pendingHides := pendingHides + [duration];
      }
    }

    /**
      The state `hide()` leaves: out of the window, with a bottom toast that
      reverses slid to twice the screen height and any other toast faded to 0
      where it was.
     */
    twostate predicate Hidden()
      reads this
    {
      && !attached
      && (reverseAnimateWhenHide && animateStyle == Bottom ==>
            contentFrame.origin.y == screenHeight * 2.0 && contentFrame.size == old(contentFrame).size && alpha == old(alpha))
      && (!(reverseAnimateWhenHide && animateStyle == Bottom) ==> contentFrame == old(contentFrame) && alpha == 0.0)
    }

    /** `hide()`: slides out a bottom toast when reversing is on, fades out otherwise; either way it leaves the window. */
    method Hide()
      modifies this`contentFrame, this`alpha, this`attached
      ensures Hidden()
    {
      if reverseAnimateWhenHide {
        if animateStyle == Bottom {
          Slide(false);
          return;
        }
      }
      Fade(1.0, 0.0);
    }

    /** `touchesBegan(_:with:)`: a touch outside the content hides a cancelable toast; anything else is ignored. */
    method TouchesBegan(touch: Option<Point>)
      modifies this`contentFrame, this`alpha, this`attached
      ensures var hides := cancelable && touch.Some? && !Contains(old(contentFrame), touch.value);
        (hides ==> Hidden()) && (!hides ==> contentFrame == old(contentFrame) && alpha == old(alpha) && attached == old(attached))
    {
      if !cancelable {
        return;
      }
      if touch.Some? {
        if !Contains(contentFrame, touch.value) {
          Hide();
        }
      }
    }
  }

  /** A bottom toast that was not yet showing ends its entrance resting 55 above the bottom of the screen, centred across. */
  lemma BottomEntranceRestsAboveEdge(textSize: Size, center: Point, screenHeight: real)
    ensures var content := ContentSize(Bottom, textSize);
      var placed := PlacedFrame(Bottom, content, center, screenHeight);
      var r := Rect(Point(placed.origin.x, SlideTarget(true, content.height, screenHeight)), content);
      MaxY(r) == screenHeight - 55.0 && MidX(r) == center.x
  {
  }
}
