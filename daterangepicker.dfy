/**
  `iDo/Classic/DateRangePicker.swift`: a two-picker date range chooser with
  an optional column of shortcuts. The frames of the pickers, labels and
  buttons and the show and hide animations are left out; the date
  formatting of the reported dates is too, so a report carries the two
  picker dates.
 */
module DateRangePicker {
  import opened Geometry
  import opened Wrappers
  import opened DateShortcuts

  /** `DatePicker.Location`. */
  datatype Location = Center | Bottom

  /** The two buttons wired to `dismiss(_:)`. */
  datatype Button = Cancel | Submit

  /** `estimationWidth()`: 90% of the screen with shortcuts, 70% without, 5% more on a 320-point screen. */
  function EstimationWidth(screenWidth: real, hasShortcuts: bool): real {
    var scale := if hasShortcuts then 0.9 else 0.7;
    screenWidth * (if screenWidth == 320.0 then scale + 0.05 else scale)
  }

  /** The picker is always narrower than the screen, and the shortcut column makes it wider. */
  lemma EstimationWidthFits(screenWidth: real)
    requires 0.0 < screenWidth
    ensures 0.0 < EstimationWidth(screenWidth, false) < EstimationWidth(screenWidth, true) < screenWidth
    ensures EstimationWidth(320.0, true) == 304.0 && EstimationWidth(320.0, false) == 240.0
  {
  }

  /** `DateRangePicker`: the shortcuts and their buttons, the two picker dates and whether it is on screen. */
  class RangePicker {
    const screenWidth: real
    var located: Location
    var shortcuts: Option<seq<Shortcut>>
    /** The shortcut buttons' frames, the scroll content's height and the selected button. */
    var buttonFrames: seq<Rect>
    var contentHeight: real
    var selected: Option<nat>
    /** Whether the shortcut column is in the content view. */
    var shortcutsAttached: bool
    var beginDate: Moment
    var endDate: Moment
    var handlerSet: bool
    var onScreen: bool

    /** There is one button per shortcut. */
    predicate Valid()
      reads this
    {
      shortcuts.Some? ==> |buttonFrames| == |shortcuts.value|
    }

    constructor (screenWidth: real)
      ensures this.screenWidth == screenWidth && located == Center && shortcuts == None
      ensures beginDate == Now && endDate == Now && !handlerSet && !onScreen
      ensures Valid()
    {
      this.screenWidth := screenWidth;
      located := Center;
      shortcuts := None;
      buttonFrames := [];
      contentHeight := 0.0;
      selected := None;
      shortcutsAttached := false;
      beginDate := Now;
      endDate := Now;
      handlerSet := false;
      onScreen := false;
    }

    /** The width the content is laid out at. */
    function ContentWidth(): real
      reads this
    {
      EstimationWidth(screenWidth, shortcuts.Some?)
    }

    /**
      Setting `shortcuts` runs `setShortcuts()`, which unwraps the new value:
      the old buttons go, one button per shortcut is stacked every 46 points,
      and the column joins the content view.
     */
    method SetShortcuts(s: Option<seq<Shortcut>>)
      requires s.Some?
      modifies this`shortcuts, this`buttonFrames, this`contentHeight, this`selected, this`shortcutsAttached
      ensures shortcuts == s && selected == None && shortcutsAttached
      ensures |buttonFrames| == |s.value| && forall i :: 0 <= i < |buttonFrames| ==> buttonFrames[i] == ButtonFrame(i)
      ensures contentHeight == 46.0 * (|s.value| as real)
      ensures Valid()
    {
      shortcuts := s;
      var frames, height := ButtonFrames(s.value);
      buttonFrames := frames;
      contentHeight := height;
      selected := None;
      shortcutsAttached := true;
    }

    /** `setDatePicker(with:)`: a known shortcut sets both dates; an unknown tag leaves them. */
    method SetDatePicker(tag: Option<Shortcut>, now: Components, weekStart: Components)
      modifies this`beginDate, this`endDate
      ensures tag.Some? ==> (beginDate, endDate) == ShortcutRange(tag.value, now, weekStart)
      ensures tag.None? ==> beginDate == old(beginDate) && endDate == old(endDate)
    {
      var dates := PickerDates(tag, now, weekStart);
      if dates.Some? {
        beginDate := dates.value.0;
        endDate := dates.value.1;
      }
    }

    /** `onShortcut(_:)` for the `i`th button: it alone is selected, and its shortcut sets the dates. */
    method OnShortcut(i: nat, now: Components, weekStart: Components)
      requires Valid() && shortcuts.Some? && i < |shortcuts.value|
      modifies this`selected, this`beginDate, this`endDate
      ensures selected == Some(i)
      ensures (beginDate, endDate) == ShortcutRange(shortcuts.value[i], now, weekStart)
    {
      selected := Some(i);
      SetDatePicker(Some(shortcuts.value[i]), now, weekStart);
    }

    /** `show(with:)`: the background joins the key window when there is one, and the handler is kept. */
    method Show(handler: bool, hasKeyWindow: bool)
      modifies this`handlerSet, this`onScreen
      ensures handlerSet == handler
      ensures onScreen == (old(onScreen) || hasKeyWindow)
    {
      if !onScreen && hasKeyWindow {
        onScreen := true;
      }
      handlerSet := handler;
    }

    /** `dismiss(_:)`: only the submit button reports the two dates, and only to a handler that is set; either button hides. */
    method Dismiss(sender: Button) returns (report: Option<(Moment, Moment)>)
      modifies this`onScreen
      ensures report == if sender == Submit && handlerSet then Some((beginDate, endDate)) else None
      ensures !onScreen
    {
      report := None;
      if sender == Submit {
        if handlerSet {
          report := Some((beginDate, endDate));
        }
      }
      onScreen := false;
    }
  }
}
