/**
  `iDo/Classic/Toast.swift`: a text alert with a duration, shown at the
  centre of the window or rising from its bottom, then faded out.

  The two animations are taken to their end states at once; the delayed
  fade-out is recorded as a pending entry holding its delay in seconds and
  runs when `HideFired` is called.
 */
module Toast {
  import opened Geometry
  import opened Wrappers
  import opened Measure

  /** `Toast.Duration`: three named lengths or any number of milliseconds. */
  datatype Duration = Short | Medium | Long | Other(ms: int)

  /** `Toast.Location`. */
  datatype Location = Center | Bottom

  /** `init?(rawValue:)`: 1500, 2500 and 5000 are the named cases, and any other value is kept as `.other`; it never fails. */
  function FromRaw(raw: int): (d: Option<Duration>)
    ensures d.Some?
    ensures raw == 1500 <==> d == Some(Short)
    ensures raw == 2500 <==> d == Some(Medium)
    ensures raw == 5000 <==> d == Some(Long)
    ensures raw !in {1500, 2500, 5000} <==> d == Some(Other(raw))
  {
    if raw == 1500 then Some(Short)
    else if raw == 2500 then Some(Medium)
    else if raw == 5000 then Some(Long)
    else Some(Other(raw))
  }

  /** `rawValue` as the source writes it: each named case gives the next shorter length. */
  function RawValueAsWritten(d: Duration): (ms: int)
    ensures d.Other? ==> ms == d.ms
    ensures d == Short ==> ms < 1500
    ensures d == Medium ==> ms == 1500
    ensures d == Long ==> ms == 2500
  {
    match d
    case Short => 1000
    case Medium => 1500
    case Long => 2500
    case Other(s) => s
  }

  /** `rawValue` as the cases document it and as `init?(rawValue:)` reads it: 1500, 2500 and 5000 milliseconds. */
  function RawValue(d: Duration): (ms: int)
    ensures d == Short ==> ms == 1500
    ensures d == Medium ==> ms == 2500
    ensures d == Long ==> ms == 5000
    ensures d.Other? ==> ms == d.ms
  {
    match d
    case Short => 1500
    case Medium => 2500
    case Long => 5000
    case Other(s) => s
  }

  /** As written, a raw value survives the trip through a `Duration` exactly when it is not one of the three named lengths. */
  lemma AsWrittenRoundTripIff(raw: int)
    ensures RawValueAsWritten(FromRaw(raw).value) == raw <==> raw !in {1500, 2500, 5000}
  {
  }

  /** The input that shows it: `.short` is made from 1500 but reports 1000. */
  lemma AsWrittenShortDrifts()
    ensures FromRaw(1500) == Some(Short) && RawValueAsWritten(Short) == 1000
  {
  }

  /** Corrected, every raw value survives the trip through a `Duration`. */
  lemma RawRoundTrip(raw: int)
    ensures RawValue(FromRaw(raw).value) == raw
  {
  }

  /** A `Duration` has one raw form: it survives the trip back exactly when it is not an `.other` holding a named length. */
  lemma DurationRoundTripIff(d: Duration)
    ensures FromRaw(RawValue(d)) == Some(d) <==> !(d.Other? && d.ms in {1500, 2500, 5000})
  {
  }

  /** The delay the documented lengths call for: the show animation's 0.35 plus the duration as `init?(rawValue:)` reads it. */
  function IntendedHideDelay(d: Duration): real {
    0.35 + (RawValue(d) as real) / 1000.0
  }

  /**
    The delay in seconds before the fade-out: the show animation's 0.35 plus
    the duration's `rawValue` as the source writes it. A named duration
    therefore fades out sooner than its documented length.
   */
  function HideDelay(d: Duration): (s: real)
    ensures d.Other? ==> s == IntendedHideDelay(d)
    ensures !d.Other? ==> s < IntendedHideDelay(d)
  {
    0.35 + (RawValueAsWritten(d) as real) / 1000.0
  }

  /** The named durations wait 1.35, 1.85 and 2.85 seconds, where their documented lengths call for 1.85, 2.85 and 5.35. */
  lemma NamedDelays()
    ensures HideDelay(Short) == 1.35 && HideDelay(Medium) == 1.85 && HideDelay(Long) == 2.85
    ensures IntendedHideDelay(Short) == 1.85 && IntendedHideDelay(Medium) == 2.85 && IntendedHideDelay(Long) == 5.35
    ensures forall ms: int :: 0 <= ms ==> HideDelay(Other(ms)) >= 0.35
  {
  }

  /** The text box's width: 35% of the screen, or half of it when the single-line text is wider than 35% less the 30 of padding. */
  function TextWidth(singleLine: real, screenWidth: real): (w: real)
    ensures w == screenWidth * 0.35 || w == screenWidth * 0.5
    ensures singleLine <= screenWidth * 0.35 - 30.0 ==> w == screenWidth * 0.35
    ensures 0.0 < screenWidth && w == screenWidth * 0.35 ==> singleLine <= w - 30.0
  {
    if screenWidth * 0.35 - 30.0 < singleLine then screenWidth * 0.5 else screenWidth * 0.35
  }

  /** A longer text never gets a narrower box. */
  lemma TextWidthMonotone(a: real, b: real, screenWidth: real)
    requires a <= b && 0.0 <= screenWidth
    ensures TextWidth(a, screenWidth) <= TextWidth(b, screenWidth)
  {
  }

  /** The content's size: the text box's width, and the text's height plus 15 above and below. */
  function ContentSize(textWidth: real, textHeight: real): Size {
    Size(textWidth, textHeight + 30.0)
  }

  /** The label's frame: inset 15 on every side of the content. */
  function LabelFrame(textWidth: real, textHeight: real): (r: Rect)
    ensures MinX(r) == 15.0 && MaxX(r) == textWidth - 15.0
    ensures MinY(r) == 15.0 && MaxY(r) == textHeight + 15.0
  {
    Rect(Point(15.0, 15.0), Size(textWidth - 30.0, textHeight))
  }

  /** The corner radius: a pill when rounded, 5 otherwise. */
  function CornerRadius(isRounded: bool, textHeight: real): real {
    if isRounded then (textHeight + 30.0) / 2.0 else 5.0
  }

  /** The label sits 15 inside each edge of the content's bounds. */
  lemma LabelInsetFifteen(textWidth: real, textHeight: real)
    ensures var content := Rect(ZeroPoint, ContentSize(textWidth, textHeight));
      var inner := LabelFrame(textWidth, textHeight);
      && MinX(inner) == MinX(content) + 15.0 && MaxX(inner) == MaxX(content) - 15.0
      && MinY(inner) == MinY(content) + 15.0 && MaxY(inner) == MaxY(content) - 15.0
  {
  }

  /** Where `show` puts the content before animating: centred, or centred across on the bottom edge of the screen. */
  function PlacedFrame(location: Location, content: Size, screen: Size): (r: Rect)
    ensures r.size == content && MidX(r) == screen.width / 2.0
    ensures location == Center ==> MidY(r) == screen.height / 2.0
    ensures location == Bottom ==> MidY(r) == screen.height
  {
    var c := Point(screen.width / 2.0, screen.height / 2.0);
    if location == Center then CenteredAt(c, content)
    else CenteredAt(Point(c.x, screen.height), content)
  }

  /** Where the show animation leaves it: still centred, or 65 above the bottom edge. */
  function ShownFrame(location: Location, content: Size, screen: Size): (r: Rect)
    ensures r.size == content && MidX(r) == screen.width / 2.0
    ensures location == Center ==> MidY(r) == screen.height / 2.0
    ensures location == Bottom ==> MaxY(r) == screen.height - 65.0
  {
    var placed := PlacedFrame(location, content, screen);
    if location == Center then placed
    else Rect(Point(placed.origin.x, screen.height - content.height - 65.0), content)
  }

  /** A bottom toast starts half below the screen's edge and rises to rest 65 above it, centred across throughout. */
  lemma BottomRises(content: Size, screen: Size)
    ensures var placed := PlacedFrame(Bottom, content, screen);
      var shown := ShownFrame(Bottom, content, screen);
      && MidY(placed) == screen.height && MaxY(shown) == screen.height - 65.0
      && MidX(placed) == screen.width / 2.0 && MidX(shown) == screen.width / 2.0
      && shown.size == content
  {
  }

  /** `Toast`: the rounding flag, the content and label frames, the view memberships and the scheduled fade-outs. */
  class Toast {
    var isRounded: bool
    /** The container covers the screen. */
    const screen: Size
    var contentFrame: Rect
    var cornerRadius: real
    var labelFrame: Rect
    var contentAlpha: real
    var text: string
    /** Whether the content is in the container, the label in the content, and the container in the key window. */
    var contentAttached: bool
    var labelAttached: bool
    var containerAttached: bool
    /** The delays of the fade-outs scheduled by `show`. */
    var pendingHides: seq<real>

    constructor (screen: Size)
      ensures this.screen == screen && !isRounded && contentAlpha == 0.0
      ensures !contentAttached && !labelAttached && !containerAttached && pendingHides == []
    {
      this.screen := screen;
      isRounded := false;
      contentFrame := Rect(ZeroPoint, ZeroSize);
      cornerRadius := 0.0;
      labelFrame := Rect(ZeroPoint, ZeroSize);
      contentAlpha := 0.0;
      text := "";
      contentAttached := false;
      labelAttached := false;
      containerAttached := false;
      pendingHides := [];
    }

    /**
      The sizing half of `show(_:from:duration:)`: the box is measured from
      the text at font size 16, then the content is shaped and placed and the
      label set inside it.
     */
    method LayOut(t: string, location: Location, widthOf: ExtentMeasure, heightOf: ExtentMeasure) returns (content: Size)
      modifies this`contentFrame, this`cornerRadius, this`labelFrame, this`text
      ensures var w := TextWidth(widthOf(t, Unbounded, 16.0), screen.width);
        var h := heightOf(t, Finite(w - 30.0), 16.0);
        && content == ContentSize(w, h)
        && contentFrame == PlacedFrame(location, content, screen)
        && cornerRadius == CornerRadius(isRounded, h)
        && labelFrame == LabelFrame(w, h)
      ensures text == t
    {
      var textWidth := screen.width * 0.35;
      if textWidth - 30.0 < widthOf(t, Unbounded, 16.0) {
        textWidth := screen.width * 0.5;
      }
      assert textWidth == TextWidth(widthOf(t, Unbounded, 16.0), screen.width);
      var textHeight := heightOf(t, Finite(textWidth - 30.0), 16.0);
      content := ContentSize(textWidth, textHeight);
      contentFrame := PlacedFrame(location, content, screen);
      cornerRadius := CornerRadius(isRounded, textHeight);
      labelFrame := LabelFrame(textWidth, textHeight);
      text := t;
    }

    /**
      `show(_:from:duration:)`: lays the toast out, adds whatever is not yet
      added (the container only when there is a key window), animates the
      content in and schedules its fade-out.
     */
    method Show(t: string, location: Location, duration: Duration, hasKeyWindow: bool,
                widthOf: ExtentMeasure, heightOf: ExtentMeasure)
      modifies this`contentFrame, this`cornerRadius, this`labelFrame, this`contentAlpha, this`text,
               this`contentAttached, this`labelAttached, this`containerAttached, this`pendingHides
      ensures var w := TextWidth(widthOf(t, Unbounded, 16.0), screen.width);
        var h := heightOf(t, Finite(w - 30.0), 16.0);
        && contentFrame == ShownFrame(location, ContentSize(w, h), screen)
        && cornerRadius == CornerRadius(isRounded, h)
        && labelFrame == LabelFrame(w, h)
      ensures text == t && contentAlpha == 1.0 && contentAttached && labelAttached
      ensures containerAttached == (old(containerAttached) || hasKeyWindow)
      ensures pendingHides == old(pendingHides) + [HideDelay(duration)]
    {
      var content := LayOut(t, location, widthOf, heightOf);
      contentAttached := true;
      labelAttached := true;
      if !containerAttached && hasKeyWindow {
        containerAttached := true;
      }
      contentAlpha := 1.0;
      if location == Bottom {
        contentFrame := Rect(Point(contentFrame.origin.x, screen.height - content.height - 65.0), content);
      }
      assert contentFrame == ShownFrame(location, content, screen);
      pendingHides := pendingHides + [HideDelay(duration)];
    }

    /** A scheduled fade-out, taken to its end: the content is transparent and the container leaves the window. */
    method HideFired()
      modifies this`contentAlpha, this`containerAttached
      ensures contentAlpha == 0.0 && !containerAttached
    {
      contentAlpha := 0.0;
      containerAttached := false;
    }
  }
}
