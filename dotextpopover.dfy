/**
  `iDo/Components/DOTextPopover.swift`: a popover holding plain or
  attributed text. `size(of:estimateWidth:)` picks a measuring box from the
  fixed size and then, when it is free to, widens the box by twice the font
  size until the measured height no longer exceeds the width.

  That widening recursion has no bound in the source; here it carries a
  `fuel` count and gives `None` when the fuel runs out. The fixed size, the
  content margin and the view holding the text (`fixedPopoverViewSize`,
  `contentMargin`, `shadowView`) are not declared in the base class shown,
  so they are fields set from outside, the shadow view known by its size.
 */
module DOTextPopover {
  import opened Geometry
  import opened Wrappers
  import opened Measure
  import ExtensionsCG

  /** An attributed string, known by its characters and the font size of its first run. */
  datatype AttributedString = AttributedString(text: string, fontSize: real)

  /** What `size(of:)` is given: a `String` or an `NSAttributedString`. */
  datatype Chars = Plain(text: string) | Rich(attributed: AttributedString)
  {
    function Characters(): string {
      match this
      case Plain(s) => s
      case Rich(a) => a.text
    }

    /** The font measured with: the popover's font for a string, the first run's for an attributed string. */
    function MeasuringFont(font: real): real {
      match this
      case Plain(_) => font
      case Rich(a) => a.fontSize
    }
  }

  /** The measuring box `size(of:)` settles on before it measures. */
  datatype Plan =
    | Given(size: Size)                    // both fixed sides positive: returned as is
    | Once(width: Limit, height: Limit)    // one side fixed: measured once, never widened
    | Widening(start: real)                // measured at this width, widened while too tall

  /** The fixed-size decision table of `size(of:estimateWidth:)`. */
  function PlanOf(fixed: Option<Size>, estimate: Option<real>): Plan {
    if fixed.None? then Widening(estimate.GetOr(80.0))
    else
      var f := fixed.value;
      if f.width <= 0.0 && f.height > 0.0 then Once(Unbounded, Finite(f.height))
      else if f.width > 0.0 && f.height <= 0.0 then Once(Finite(f.width), Unbounded)
      else if f.width > 0.0 && f.height > 0.0 then Given(f)
      else Widening(estimate.GetOr(80.0))
  }

  /** The measurement at width `w` with no height limit. */
  function MeasuredAt(chars: Chars, w: real, font: real, measure: BoxMeasure): Size {
    measure(chars.Characters(), Finite(w), Unbounded, chars.MeasuringFont(font))
  }

  /** A box of width `w` is wide enough: the text measured in it is no taller than `w`. */
  predicate FitsAt(chars: Chars, w: real, font: real, measure: BoxMeasure) {
    MeasuredAt(chars, w, font, measure).height <= w
  }

  /** The widening recursion from width `w`, with at most `fuel` further widenings. */
  function Widen(chars: Chars, w: real, font: real, measure: BoxMeasure, fuel: nat): Option<Size>
    decreases fuel
  {
    var truth := MeasuredAt(chars, w, font, measure);
    if truth.height > w then
      if fuel == 0 then None else Widen(chars, w + 2.0 * font, font, measure, fuel - 1)
    else Some(truth)
  }

  /** `size(of:estimateWidth:)`. */
  function SizeOf(chars: Chars, estimate: Option<real>, fixed: Option<Size>, font: real,
                  measure: BoxMeasure, fuel: nat): (r: Option<Size>)
    ensures fixed.Some? && fixed.value.width > 0.0 && fixed.value.height > 0.0 ==> r == Some(fixed.value)
    ensures fixed.Some? && fixed.value.width <= 0.0 && fixed.value.height > 0.0 ==>
      r == Some(measure(chars.Characters(), Unbounded, Finite(fixed.value.height), chars.MeasuringFont(font)))
    ensures fixed.Some? && fixed.value.width > 0.0 && fixed.value.height <= 0.0 ==>
      r == Some(measure(chars.Characters(), Finite(fixed.value.width), Unbounded, chars.MeasuringFont(font)))
    ensures PlanOf(fixed, estimate).Widening? ==> r == Widen(chars, estimate.GetOr(80.0), font, measure, fuel)
  {
    match PlanOf(fixed, estimate)
    case Given(s) => Some(s)
    case Once(w, h) => Some(measure(chars.Characters(), w, h, chars.MeasuringFont(font)))
    case Widening(start) => Widen(chars, start, font, measure, fuel)
  }

  /** The width after `k` widenings from `start`. */
  function WidthAfter(start: real, font: real, k: nat): real {
    if k == 0 then start else WidthAfter(start, font, k - 1) + 2.0 * font
  }

  /** Widening `k + 1` times from `start` is widening `k` times from the first widened width. */
  lemma {:induction false} WidthAfterShift(start: real, font: real, k: nat)
    ensures WidthAfter(start + 2.0 * font, font, k) == WidthAfter(start, font, k + 1)
    decreases k
  {
    if k > 0 {
      WidthAfterShift(start, font, k - 1);
    }
  }

  /** With a non-negative font size the widths only grow. */
  lemma {:induction false} WidthAfterGrows(start: real, font: real, k: nat)
    requires 0.0 <= font
    ensures start <= WidthAfter(start, font, k)
    decreases k
  {
    if k > 0 {
      WidthAfterGrows(start, font, k - 1);
    }
  }

  /** None of the first `n + 1` widths from `start` fits. */
  predicate NoFitWithin(chars: Chars, start: real, font: real, measure: BoxMeasure, n: nat) {
    forall k :: 0 <= k <= n ==> !FitsAt(chars, WidthAfter(start, font, k), font, measure)
  }

  /** The width after `k` widenings fits, and none before it does. */
  predicate FirstFitIs(chars: Chars, start: real, font: real, measure: BoxMeasure, k: nat) {
    && FitsAt(chars, WidthAfter(start, font, k), font, measure)
    && forall j :: 0 <= j < k ==> !FitsAt(chars, WidthAfter(start, font, j), font, measure)
  }

  /** The widening recursion gives up exactly when none of the widths it may try fits. */
  lemma {:induction false} WidenNoneIffNoFit(chars: Chars, start: real, font: real, measure: BoxMeasure, fuel: nat)
    ensures Widen(chars, start, font, measure, fuel).None? <==> NoFitWithin(chars, start, font, measure, fuel)
    decreases fuel
  {
    var next := start + 2.0 * font;
    assert WidthAfter(start, font, 0) == start;
    if fuel > 0 && !FitsAt(chars, start, font, measure) {
      WidenNoneIffNoFit(chars, next, font, measure, fuel - 1);
      if NoFitWithin(chars, next, font, measure, fuel - 1) {
        forall k | 0 <= k <= fuel
          ensures !FitsAt(chars, WidthAfter(start, font, k), font, measure)
        {
          if k > 0 {
            WidthAfterShift(start, font, k - 1);
            assert !FitsAt(chars, WidthAfter(next, font, k - 1), font, measure);
          }
        }
      } else {
        var k :| 0 <= k <= fuel - 1 && FitsAt(chars, WidthAfter(next, font, k), font, measure);
        WidthAfterShift(start, font, k);
        assert FitsAt(chars, WidthAfter(start, font, k + 1), font, measure);
      }
    }
  }

  /** When the first width that fits is within reach, the widening recursion gives its measurement. */
  lemma {:induction false} WidenGivesFirstFit(chars: Chars, start: real, font: real, measure: BoxMeasure, fuel: nat, k: nat)
    requires k <= fuel && FirstFitIs(chars, start, font, measure, k)
    ensures Widen(chars, start, font, measure, fuel) == Some(MeasuredAt(chars, WidthAfter(start, font, k), font, measure))
    decreases fuel
  {
    var next := start + 2.0 * font;
    assert WidthAfter(start, font, 0) == start;
    if k > 0 {
      assert !FitsAt(chars, WidthAfter(start, font, 0), font, measure);
      WidthAfterShift(start, font, k - 1);
      forall j | 0 <= j < k - 1
        ensures !FitsAt(chars, WidthAfter(next, font, j), font, measure)
      {
        WidthAfterShift(start, font, j);
        assert !FitsAt(chars, WidthAfter(start, font, j + 1), font, measure);
      }
      WidenGivesFirstFit(chars, next, font, measure, fuel - 1, k - 1);
    }
  }

  /**
    Whenever `size(of:)` widens and finishes, the size it gives was measured
    in a box at least as wide as where it started, and fits that box.
   */
  lemma WidenedSizeFits(chars: Chars, estimate: Option<real>, fixed: Option<Size>, font: real,
                        measure: BoxMeasure, fuel: nat)
    requires 0.0 <= font && PlanOf(fixed, estimate).Widening?
    ensures var r := SizeOf(chars, estimate, fixed, font, measure, fuel);
      r.Some? ==> exists w :: estimate.GetOr(80.0) <= w && r.value == MeasuredAt(chars, w, font, measure) && r.value.height <= w
  {
    var start := estimate.GetOr(80.0);
    var r := SizeOf(chars, estimate, fixed, font, measure, fuel);
    if r.Some? {
      WidenNoneIffNoFit(chars, start, font, measure, fuel);
      var k: nat :| k <= fuel && FitsAt(chars, WidthAfter(start, font, k), font, measure);
      var first := FirstFit(chars, start, font, measure, k);
      WidenGivesFirstFit(chars, start, font, measure, fuel, first);
      WidthAfterGrows(start, font, first);
      assert r.value == MeasuredAt(chars, WidthAfter(start, font, first), font, measure);
    }
  }

  /** The smallest number of widenings, at most `k`, after which the box fits, given that it fits after `k`. */
  ghost function FirstFit(chars: Chars, start: real, font: real, measure: BoxMeasure, k: nat): (first: nat)
    requires FitsAt(chars, WidthAfter(start, font, k), font, measure)
    ensures first <= k && FirstFitIs(chars, start, font, measure, first)
  {
    if exists j :: 0 <= j < k && FitsAt(chars, WidthAfter(start, font, j), font, measure) then
      var j :| 0 <= j < k && FitsAt(chars, WidthAfter(start, font, j), font, measure);
      FirstFit(chars, start, font, measure, j)
    else k
  }

  /** The size `genViews` gives the shadow view: with a fixed size as measured, otherwise measured from 80 plus the margins. */
  function ContainerSizeOf(chars: Chars, fixed: Option<Size>, margin: Insets, font: real,
                           measure: BoxMeasure, fuel: nat): (r: Option<Size>)
    ensures fixed.Some? ==> r == SizeOf(chars, None, fixed, font, measure, fuel)
    ensures fixed.None? ==> r.Some? == Widen(chars, 80.0, font, measure, fuel).Some?
    ensures fixed.None? && r.Some? ==>
      r.value.width - Widen(chars, 80.0, font, measure, fuel).value.width == margin.left + margin.right &&
      r.value.height - Widen(chars, 80.0, font, measure, fuel).value.height == margin.top + margin.bottom
  {
    if fixed.Some? then SizeOf(chars, None, fixed, font, measure, fuel)
    else
      match SizeOf(chars, Some(80.0), None, font, measure, fuel)
      case None => None
      case Some(s) => Some(ExtensionsCG.SizeExtend(s, ExtensionsCG.Horizontal(margin), ExtensionsCG.Vertical(margin)))
  }

  /** The characters `genViews(forAttributing:)` lays out: the attributed text when asked for and set, else the text. */
  function SourceOf(isAttributed: bool, text: Option<string>, attributedText: Option<AttributedString>): Option<Chars> {
    if isAttributed && attributedText.Some? then Some(Rich(attributedText.value))
    else if text.Some? then Some(Plain(text.value))
    else None
  }

  /** What the text view is given: the attributed text, possibly nil, when asked for; else the text. */
  function ShownOf(isAttributed: bool, text: Option<string>, attributedText: Option<AttributedString>): Option<Chars> {
    if isAttributed then (if attributedText.Some? then Some(Rich(attributedText.value)) else None)
    else if text.Some? then Some(Plain(text.value))
    else None
  }

  /** `DOTextPopover`: its texts and font, the sizing inputs and the views it builds. */
  class TextPopover {
    var text: Option<string>
    var attributedText: Option<AttributedString>
    var font: real
    var fixedPopoverViewSize: Option<Size>
    var contentMargin: Insets
    /** `shadowView.frame.size`, once the view exists, and what the text view displays. */
    var containerSize: Option<Size>
    var shown: Option<Chars>

    constructor ()
      ensures text == None && attributedText == None && font == 15.0
      ensures fixedPopoverViewSize == None && containerSize == None && shown == None
    {
      text := None;
      attributedText := None;
      font := 15.0;
      fixedPopoverViewSize := None;
      contentMargin := Insets(0.0, 0.0, 0.0, 0.0);
      containerSize := None;
      shown := None;
    }

    /**
      `genViews(forAttributing:)`: with nothing to show nothing happens;
      otherwise the shadow view gets the container size and the text view
      its text.
     */
    method GenViews(isAttributed: bool, measure: BoxMeasure, fuel: nat)
      modifies this`containerSize, this`shown
      ensures var chars := SourceOf(isAttributed, text, attributedText);
        var size := if chars.Some? then ContainerSizeOf(chars.value, fixedPopoverViewSize, contentMargin, font, measure, fuel) else None;
        && (size.Some? ==> containerSize == size && shown == ShownOf(isAttributed, text, attributedText))
        && (size.None? ==> containerSize == old(containerSize) && shown == old(shown))
    {
      var chars := SourceOf(isAttributed, text, attributedText);
      if chars.None? {
        return;
      }
      var size := ContainerSizeOf(chars.value, fixedPopoverViewSize, contentMargin, font, measure, fuel);
      if size.None? {
        return;
      }
      containerSize := size;
      shown := ShownOf(isAttributed, text, attributedText);
    }

    /** Setting `text` regenerates the views from it. */
    method SetText(t: Option<string>, measure: BoxMeasure, fuel: nat)
      modifies this`text, this`containerSize, this`shown
      ensures text == t && attributedText == old(attributedText)
      ensures var size := if t.Some? then ContainerSizeOf(Plain(t.value), fixedPopoverViewSize, contentMargin, font, measure, fuel) else None;
        && (size.Some? ==> containerSize == size && shown == Some(Plain(t.value)))
        && (size.None? ==> containerSize == old(containerSize) && shown == old(shown))
    {
      text := t;
      GenViews(false, measure, fuel);
    }

    /** Setting `attriubtedText` regenerates the views, from the text when it is set to nil. */
    method SetAttributedText(a: Option<AttributedString>, measure: BoxMeasure, fuel: nat)
      modifies this`attributedText, this`containerSize, this`shown
      ensures attributedText == a && text == old(text)
      ensures var chars := SourceOf(true, text, a);
        var size := if chars.Some? then ContainerSizeOf(chars.value, fixedPopoverViewSize, contentMargin, font, measure, fuel) else None;
        && (size.Some? ==> containerSize == size && shown == (if a.Some? then Some(Rich(a.value)) else None))
        && (size.None? ==> containerSize == old(containerSize) && shown == old(shown))
    {
      attributedText := a;
      GenViews(true, measure, fuel);
    }
  }
}
