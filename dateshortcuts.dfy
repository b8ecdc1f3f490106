/**
  The date shortcuts of `iDo/Classic/DateRangePicker.swift` and
  `iDo/Classic/IDODateRangePicker.swift`, which carry the same code: the
  list of shortcuts, the column of shortcut buttons, and the edits a
  shortcut makes to today's date components to get the two picker dates.

  The calendar stays abstract: a picker date is either `Date()` at the
  moment of the tap (`Now`) or whatever date the calendar makes from a set
  of components (`At`), which may be out of range (day 0, month −1) for the
  calendar to normalise. The start of the current week is an input.
 */
module DateShortcuts {
  import opened Geometry
  import opened Wrappers

  /** `Shortcut`, in declaration order. */
  datatype Shortcut =
    | Today | Yesterday | ThreeDays | ThisWeek | Week | ThisMonth
    | Month | ThisQuarter | Quarter | ThisYear | LastYear | Year

  /** `Shortcut.all`. */
  const All: seq<Shortcut> := [Today, Yesterday, ThreeDays, ThisWeek, Week, ThisMonth,
                               Month, ThisQuarter, Quarter, ThisYear, LastYear, Year]

  /** `Shortcut.all` lists each of the twelve shortcuts exactly once. */
  lemma AllListsEachOnce()
    ensures |All| == 12
    ensures forall s: Shortcut :: s in All
    ensures forall i, j :: 0 <= i < j < |All| ==> All[i] != All[j]
  {
    forall s: Shortcut
      ensures s in All
    {
      match s
      case Today => assert All[0] == s;
      case Yesterday => assert All[1] == s;
      case ThreeDays => assert All[2] == s;
      case ThisWeek => assert All[3] == s;
      case Week => assert All[4] == s;
      case ThisMonth => assert All[5] == s;
      case Month => assert All[6] == s;
      case ThisQuarter => assert All[7] == s;
      case Quarter => assert All[8] == s;
      case ThisYear => assert All[9] == s;
      case LastYear => assert All[10] == s;
      case Year => assert All[11] == s;
    }
  }

  /** The date components the shortcuts edit. */
  datatype Components = Components(year: int, month: int, day: int, hour: int, minute: int, second: int,
                                   yearForWeekOfYear: int)

  /** A picker date: the current date, or the date the calendar makes from some components. */
  datatype Moment = Now | At(components: Components)

  /** `beginOfDay()`: 00:00:00 on the components' day. */
  function BeginOfDay(c: Components): (r: Components)
    ensures r.hour == 0 && r.minute == 0 && r.second == 0
    ensures r.year == c.year && r.month == c.month && r.day == c.day && r.yearForWeekOfYear == c.yearForWeekOfYear
  {
    c.(hour := 0, minute := 0, second := 0)
  }

  /** `endOfDay()`: 23:59:59 on the components' day. */
  function EndOfDay(c: Components): (r: Components)
    ensures r.hour == 23 && r.minute == 59 && r.second == 59
    ensures r.year == c.year && r.month == c.month && r.day == c.day && r.yearForWeekOfYear == c.yearForWeekOfYear
  {
    c.(hour := 23, minute := 59, second := 59)
  }

  /**
    The first month of the quarter holding `month`, as the source writes it:
    the third bound is 8, so September falls into the quarter starting in
    October.
   */
  function QuarterStartAsWritten(month: int): (q: int)
    ensures q in {1, 4, 7, 10}
    ensures 1 <= month <= 12 && month != 9 ==> q <= month < q + 3
    ensures month == 9 ==> q == 10
  {
    if month <= 3 then 1 else if month <= 6 then 4 else if month <= 8 then 7 else 10
  }

  /** In September the quarter as written starts a month later, so "this quarter" begins after today. */
  lemma SeptemberStartsNextQuarter()
    ensures QuarterStartAsWritten(9) == 10
    ensures QuarterStartAsWritten(9) > 9
  {
  }

  /** The first month of the quarter holding `month`, with September in the third quarter. */
  function QuarterStart(month: int): (q: int)
    ensures q in {1, 4, 7, 10}
    ensures 1 <= month <= 12 ==> q <= month < q + 3
  {
    if month <= 3 then 1 else if month <= 6 then 4 else if month <= 9 then 7 else 10
  }

  /** Every month falls in the three months from its quarter's start, which is one of 1, 4, 7 and 10. */
  lemma QuarterStartHoldsMonth(month: int)
    requires 1 <= month <= 12
    ensures QuarterStart(month) in {1, 4, 7, 10}
    ensures QuarterStart(month) <= month < QuarterStart(month) + 3
  {
  }

  /** Both versions agree on every month except September. */
  lemma QuarterStartDiffersOnlyInSeptember(month: int)
    ensures QuarterStart(month) != QuarterStartAsWritten(month) <==> month == 9
  {
  }

  /**
    The begin and end dates a shortcut gives, relative to the components of
    now and of the start of the week. "This quarter" uses the quarter table
    as the source writes it.
   */
  function ShortcutRange(s: Shortcut, now: Components, weekStart: Components): (r: (Moment, Moment))
    ensures r.0.At? && r.0.components.hour == 0 && r.0.components.minute == 0 && r.0.components.second == 0
    ensures r.1 == Now || (r.1.At? && r.1.components.hour == 23 && r.1.components.minute == 59 && r.1.components.second == 59)
  {
    match s
    case Today => (At(BeginOfDay(now)), Now)
    case Yesterday => (At(BeginOfDay(now.(day := now.day - 1))), At(EndOfDay(now.(day := now.day - 1))))
    case ThreeDays => (At(BeginOfDay(now.(day := now.day - 3))), Now)
    case ThisWeek => (At(BeginOfDay(weekStart)), Now)
    case Week => (At(BeginOfDay(now.(day := now.day - 7))), Now)
    case ThisMonth => (At(BeginOfDay(now.(day := 1))), Now)
    case Month => (At(BeginOfDay(now.(month := now.month - 1))), Now)
    case ThisQuarter => (At(BeginOfDay(now.(day := 1, month := QuarterStartAsWritten(now.month)))), Now)
    case Quarter => (At(BeginOfDay(now.(month := now.month - 3))), Now)
    case ThisYear => (At(BeginOfDay(now.(month := 1, day := 1))), Now)
    case Year => (At(BeginOfDay(now.(year := now.year - 1, yearForWeekOfYear := now.yearForWeekOfYear - 1))), Now)
    case LastYear =>
      var last := now.(year := now.year - 1, yearForWeekOfYear := now.yearForWeekOfYear - 1);
      (At(BeginOfDay(last.(month := 1, day := 1))), At(EndOfDay(last.(month := 12, day := 31))))
  }

  /**
    `setDatePicker(with:)`: starting from now's components, each shortcut
    edits them in place, taking the begin date at 00:00:00 and the end date
    at 23:59:59 or now. An unknown tag sets nothing.
   */
  method PickerDates(tag: Option<Shortcut>, now: Components, weekStart: Components) returns (dates: Option<(Moment, Moment)>)
    ensures tag.None? ==> dates.None?
    ensures tag.Some? ==> dates == Some(ShortcutRange(tag.value, now, weekStart))
  {
    if tag.None? {
      return None;
    }
    var dateComponent := now;
    var begin: Moment;
    var end: Moment;
    match tag.value {
      case Today =>
        dateComponent := BeginOfDay(dateComponent);
        begin := At(dateComponent);
        end := Now;
      case Yesterday =>
        dateComponent := dateComponent.(day := dateComponent.day - 1);
        dateComponent := EndOfDay(dateComponent);
        end := At(dateComponent);
        dateComponent := BeginOfDay(dateComponent);
        begin := At(dateComponent);
      case ThreeDays =>
        dateComponent := dateComponent.(day := dateComponent.day - 3);
        dateComponent := BeginOfDay(dateComponent);
        begin := At(dateComponent);
        end := Now;
      case ThisWeek =>
        dateComponent := weekStart;
        dateComponent := BeginOfDay(dateComponent);
        begin := At(dateComponent);
        end := Now;
      case Week =>
        dateComponent := dateComponent.(day := dateComponent.day - 7);
        dateComponent := BeginOfDay(dateComponent);
        begin := At(dateComponent);
        end := Now;
      case ThisMonth =>
        dateComponent := dateComponent.(day := 1);
        dateComponent := BeginOfDay(dateComponent);
        begin := At(dateComponent);
        end := Now;
      case Month =>
        dateComponent := dateComponent.(month := dateComponent.month - 1);
        dateComponent := BeginOfDay(dateComponent);
        begin := At(dateComponent);
        end := Now;
      case ThisQuarter =>
        dateComponent := dateComponent.(day := 1);
        dateComponent := dateComponent.(month := QuarterStartAsWritten(dateComponent.month));
        dateComponent := BeginOfDay(dateComponent);
        begin := At(dateComponent);
        end := Now;
      case Quarter =>
        dateComponent := dateComponent.(month := dateComponent.month - 3);
        dateComponent := BeginOfDay(dateComponent);
        begin := At(dateComponent);
        end := Now;
      case ThisYear =>
        dateComponent := dateComponent.(month := 1);
        dateComponent := dateComponent.(day := 1);
        dateComponent := BeginOfDay(dateComponent);
        begin := At(dateComponent);
        end := Now;
      case Year =>
        dateComponent := dateComponent.(year := dateComponent.year - 1);
        dateComponent := dateComponent.(yearForWeekOfYear := dateComponent.yearForWeekOfYear - 1);
        dateComponent := BeginOfDay(dateComponent);
        begin := At(dateComponent);
        end := Now;
      case LastYear =>
        dateComponent := dateComponent.(year := dateComponent.year - 1);
        dateComponent := dateComponent.(yearForWeekOfYear := dateComponent.yearForWeekOfYear - 1);
        dateComponent := dateComponent.(month := 1);
        dateComponent := dateComponent.(day := 1);
        dateComponent := BeginOfDay(dateComponent);
        begin := At(dateComponent);
        dateComponent := dateComponent.(month := 12);
        dateComponent := dateComponent.(day := 31);
        dateComponent := EndOfDay(dateComponent);
        end := At(dateComponent);
    }
    dates := Some((begin, end));
  }

  /** Every shortcut begins at midnight. */
  lemma BeginsAtMidnight(s: Shortcut, now: Components, weekStart: Components)
    ensures var begin := ShortcutRange(s, now, weekStart).0;
      begin.At? && begin.components.hour == 0 && begin.components.minute == 0 && begin.components.second == 0
  {
  }

  /**
    Only yesterday and last year end at a fixed time, 23:59:59 of the day
    the range ends on; every other shortcut runs up to now.
   */
  lemma EndsNowUnlessWholeDays(s: Shortcut, now: Components, weekStart: Components)
    ensures var end := ShortcutRange(s, now, weekStart).1;
      && (s != Yesterday && s != LastYear <==> end == Now)
      && (end.At? ==> end.components.hour == 23 && end.components.minute == 59 && end.components.second == 59)
  {
  }

  /** Yesterday is the whole of the day before today. */
  lemma YesterdayIsOneWholeDay(now: Components, weekStart: Components)
    ensures var (begin, end) := ShortcutRange(Yesterday, now, weekStart);
      && begin.At? && end.At?
      && begin.components == now.(day := now.day - 1, hour := 0, minute := 0, second := 0)
      && end.components == now.(day := now.day - 1, hour := 23, minute := 59, second := 59)
  {
  }

  /** Last year runs from 1 January 00:00:00 to 31 December 23:59:59 of the year before. */
  lemma LastYearIsPreviousCalendarYear(now: Components, weekStart: Components)
    ensures var (begin, end) := ShortcutRange(LastYear, now, weekStart);
      && begin.At? && end.At?
      && begin.components == Components(now.year - 1, 1, 1, 0, 0, 0, now.yearForWeekOfYear - 1)
      && end.components == Components(now.year - 1, 12, 31, 23, 59, 59, now.yearForWeekOfYear - 1)
  {
  }

  /**
    The rolling shortcuts step back from today: 1, 3 and 7 days, 1 and 3
    months, or a year, each keeping the rest of the date.
   */
  lemma RollingOffsets(now: Components, weekStart: Components)
    ensures ShortcutRange(ThreeDays, now, weekStart).0 == At(BeginOfDay(now).(day := now.day - 3))
    ensures ShortcutRange(Week, now, weekStart).0 == At(BeginOfDay(now).(day := now.day - 7))
    ensures ShortcutRange(Month, now, weekStart).0 == At(BeginOfDay(now).(month := now.month - 1))
    ensures ShortcutRange(Quarter, now, weekStart).0 == At(BeginOfDay(now).(month := now.month - 3))
    ensures ShortcutRange(Year, now, weekStart).0 ==
      At(BeginOfDay(now).(year := now.year - 1, yearForWeekOfYear := now.yearForWeekOfYear - 1))
  {
  }

  /**
    The calendar-aligned shortcuts begin on the first day of the month, of
    the quarter, or of the year, except that in September "this quarter"
    begins on 1 October of the same year, after today.
   */
  lemma AlignedStarts(now: Components, weekStart: Components)
    requires 1 <= now.month <= 12
    ensures var b := ShortcutRange(ThisMonth, now, weekStart).0.components;
      b.day == 1 && b.month == now.month && b.year == now.year
    ensures var b := ShortcutRange(ThisQuarter, now, weekStart).0.components;
      b.day == 1 && b.year == now.year &&
      (if now.month == 9 then b.month == 10 else b.month <= now.month < b.month + 3)
    ensures var b := ShortcutRange(ThisYear, now, weekStart).0.components;
      b.day == 1 && b.month == 1 && b.year == now.year
  {
  }

  /** The frame of the `i`th shortcut button: 65 by 40, stacked every 46 points. */
  function ButtonFrame(i: nat): Rect {
    Rect(Point(0.0, 46.0 * (i as real)), Size(65.0, 40.0))
  }

  /**
    `setShortcuts()`'s loop: one button per shortcut, each 46 points below
    the last, and a scroll content height of 46 per button.
   */
  method ButtonFrames(shortcuts: seq<Shortcut>) returns (frames: seq<Rect>, contentHeight: real)
    ensures |frames| == |shortcuts|
    ensures forall i :: 0 <= i < |frames| ==> frames[i] == ButtonFrame(i)
    ensures contentHeight == 46.0 * (|shortcuts| as real)
  {
    var offsetY := 0.0;
    frames := [];
    for i := 0 to |shortcuts|
      invariant |frames| == i
      invariant forall j :: 0 <= j < i ==> frames[j] == ButtonFrame(j)
      invariant offsetY == 46.0 * (i as real)
    {
      frames := frames + [Rect(Point(0.0, offsetY), Size(65.0, 40.0))];
      offsetY := offsetY + 46.0;
    }
    contentHeight := offsetY;
  }

  /** Buttons are apart by 6 points, and all of them lie inside the scroll content. */
  lemma ButtonsStackWithGaps(count: nat, i: nat, j: nat)
    requires i < j < count
    ensures MaxY(ButtonFrame(i)) + 6.0 <= MinY(ButtonFrame(j))
    ensures 0.0 <= MinY(ButtonFrame(i)) && MaxY(ButtonFrame(j)) <= 46.0 * (count as real)
  {
  }
}
