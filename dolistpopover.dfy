/**
  `iDo/Components/DOListPopover.swift`: a list of strings, given directly or
  read from dictionaries through `keys`, with single or multiple selection.

  Selected rows are kept as row numbers in tap order (`_selections`); the
  strings on screen are `_strings`, here `displayed`. The handler the popover
  reports to, its fixed size, its content margin and the view holding the
  list (`operateHandler`, `fixedPopoverSize`, `contentMargin`, `shadowView`)
  are not declared in the base class shown, so they are fields set from
  outside: the handler only by whether it is set, the shadow view by its size.
 */
module DOListPopover {
  import opened Geometry
  import opened Wrappers
  import opened Measure
  import opened AnyValues
  import ExtensionsCG

  /** `DOListPopover.Style`. */
  datatype Style = Text | IconText

  /** What `hide()` passes to the handler: all rows and their strings, or the one row. */
  datatype Report = Multiple(rows: seq<nat>, texts: seq<string>) | Single(row: nat, text: string)

  /** The keys used when none are given: `["name"]` for text, `["image", "name"]` with icons. */
  function DefaultKeys(style: Style): (ks: seq<string>)
    ensures |ks| == (if style == Text then 1 else 2) && ks[|ks| - 1] == "name"
  {
    if style == Text then ["name"] else ["image", "name"]
  }

  /** The keys `calculateEstimateWidth()` reads with: the given ones, or the defaults. */
  function KeysInUse(keys: Option<seq<string>>, style: Style): seq<string> {
    keys.GetOr(DefaultKeys(style))
  }

  /** Whether `calculateEstimateWidth()` reads `contents` (and so writes the keys back). */
  predicate ReadsContents(strings: Option<seq<string>>, contents: Option<seq<map<string, Value>>>, keys: Option<seq<string>>) {
    strings.None? && contents.Some? && !(keys.Some? && |keys.value| == 0)
  }

  /**
    With icons the text is read under the second key, so a one-key list
    traps: callers must not combine the two.
   */
  predicate KeysFitStyle(strings: Option<seq<string>>, keys: Option<seq<string>>, style: Style) {
    strings.Some? || keys.None? || style == Text || |keys.value| != 1
  }

  /**
    The texts `calculateEstimateWidth()` collects, or None when it gives up
    before collecting: both sources nil, or an empty key list.
   */
  function CollectedTexts(strings: Option<seq<string>>, contents: Option<seq<map<string, Value>>>,
                          keys: Option<seq<string>>, style: Style): (r: Option<seq<string>>)
    requires KeysFitStyle(strings, keys, style)
    ensures strings.Some? ==> r == strings
    ensures r.Some? && strings.None? ==> ReadsContents(strings, contents, keys)
  {
    if strings.None? && contents.None? then None
    else if strings.Some? then strings
    else if keys.Some? && |keys.value| == 0 then None
    else
      var ks := KeysInUse(keys, style);
      Some(StringsUnder(contents.value, ks[if style == Text then 0 else 1]))
  }

  /** The extra width for the icon (15 plus 10) and for the check mark (15 plus 5). */
  function Extras(style: Style, showCheckedIndicator: bool): real {
    (if style == IconText then 25.0 else 0.0) + (if showCheckedIndicator then 20.0 else 0.0)
  }

  /** What `calculateEstimateWidth()` returns. */
  function EstimateWidth(strings: Option<seq<string>>, contents: Option<seq<map<string, Value>>>,
                         keys: Option<seq<string>>, style: Style, rowHeight: real, fontSize: real,
                         showCheckedIndicator: bool, measure: ExtentMeasure): (r: Option<real>)
    requires KeysFitStyle(strings, keys, style)
    ensures r.Some? <==>
      (var texts := CollectedTexts(strings, contents, keys, style); texts.Some? && |texts.value| > 0)
  {
    var texts := CollectedTexts(strings, contents, keys, style);
    if texts.None? || |texts.value| == 0 then None
    else Some(Widest(texts.value, measure, Finite(rowHeight), fontSize) + Extras(style, showCheckedIndicator))
  }

  /**
    The estimate is the widest text plus the extras, and it is nil in exactly
    the three cases the method gives up in.
   */
  lemma EstimateWidthCases(strings: Option<seq<string>>, contents: Option<seq<map<string, Value>>>,
                           keys: Option<seq<string>>, style: Style, rowHeight: real, fontSize: real,
                           showCheckedIndicator: bool, measure: ExtentMeasure)
    requires KeysFitStyle(strings, keys, style)
    ensures strings.None? && contents.None? ==>
      EstimateWidth(strings, contents, keys, style, rowHeight, fontSize, showCheckedIndicator, measure).None?
    ensures strings.None? && keys == Some([]) ==>
      EstimateWidth(strings, contents, keys, style, rowHeight, fontSize, showCheckedIndicator, measure).None?
    ensures strings == Some([]) ==>
      EstimateWidth(strings, contents, keys, style, rowHeight, fontSize, showCheckedIndicator, measure).None?
    ensures var r := EstimateWidth(strings, contents, keys, style, rowHeight, fontSize, showCheckedIndicator, measure);
      var texts := CollectedTexts(strings, contents, keys, style);
      r.Some? ==>
        && (forall i :: 0 <= i < |texts.value| ==>
              measure(texts.value[i], Finite(rowHeight), fontSize) + Extras(style, showCheckedIndicator) <= r.value)
        && (exists i :: 0 <= i < |texts.value| &&
              r.value == measure(texts.value[i], Finite(rowHeight), fontSize) + Extras(style, showCheckedIndicator))
  {
    var texts := CollectedTexts(strings, contents, keys, style);
    if texts.Some? {
      WidestIsMax(texts.value, measure, Finite(rowHeight), fontSize);
    }
  }

  /** Dictionaries whose names are all strings give one displayed text per dictionary, in order. */
  lemma DefaultKeysReadNames(contents: seq<map<string, Value>>, style: Style)
    requires forall i :: 0 <= i < |contents| ==> StringAt(contents[i], "name").Some?
    ensures var texts := CollectedTexts(None, Some(contents), None, style);
      && texts.Some? && |texts.value| == |contents|
      && forall i :: 0 <= i < |contents| ==> texts.value[i] == StringAt(contents[i], "name").value
  {
    StringsUnderAll(contents, "name");
  }

  /** `_strings.count ?? 0` rows of `rowHeight`. */
  function RowsHeight(rowHeight: real, displayed: Option<seq<string>>): real {
    rowHeight * (if displayed.Some? then |displayed.value| as real else 0.0)
  }

  /** The measuring loop of `calculateEstimateWidth()`: the widest text at the row height. */
  method WidestText(texts: seq<string>, measure: ExtentMeasure, rowHeight: real, fontSize: real) returns (maxWidth: real)
    ensures maxWidth == Widest(texts, measure, Finite(rowHeight), fontSize)
  {
    maxWidth := 0.0;
    var i := 0;
    while i < |texts|
      invariant 0 <= i <= |texts|
      invariant maxWidth == Widest(texts[..i], measure, Finite(rowHeight), fontSize)
    {
      var w := measure(texts[i], Finite(rowHeight), fontSize);
      if w > maxWidth {
        maxWidth := w;
      }
      assert texts[..i + 1][..i] == texts[..i];
      i := i + 1;
    }
    assert texts[..|texts|] == texts;
  }

  /** No row appears twice. */
  predicate NoDuplicates(rows: seq<nat>) {
    forall i, j :: 0 <= i < j < |rows| ==> rows[i] != rows[j]
  }

  /** The first position of `row` in `rows`. */
  function IndexOf(rows: seq<nat>, row: nat): (i: nat)
    requires row in rows
    ensures i < |rows| && rows[i] == row && row !in rows[..i]
  {
    if rows[0] == row then 0 else 1 + IndexOf(rows[1..], row)
  }

  /** The selection after a tap on `row` (`tableView(_:didSelectRowAt:)`). */
  function Tapped(selections: seq<nat>, row: nat, allowSelection: bool, allowMultiple: bool): (r: seq<nat>)
    ensures !allowSelection ==> r == selections
    ensures allowSelection && row in selections ==> |r| == |selections| - 1
    ensures allowSelection && row !in selections ==> |r| > 0 && r[|r| - 1] == row && (allowMultiple ==> r[..|r| - 1] == selections)
    ensures allowSelection && row !in selections && !allowMultiple ==> r == [row]
  {
    if !allowSelection then selections
    else if row in selections then
      var i := IndexOf(selections, row);
      selections[..i] + selections[i + 1..]
    else if allowMultiple then selections + [row]
    else [row]
  }

  /**
    A tap toggles the tapped row: it is selected afterwards exactly when it
    was not before. Other rows keep their state, except that a single-select
    tap on a new row deselects all the others.
   */
  lemma TapToggles(selections: seq<nat>, row: nat, allowMultiple: bool, other: nat)
    requires NoDuplicates(selections) && other != row
    ensures var after := Tapped(selections, row, true, allowMultiple);
      && (row in after <==> row !in selections)
      && (other in after <==> other in selections && (allowMultiple || row in selections))
  {
    var after := Tapped(selections, row, true, allowMultiple);
    if row in selections {
      var i := IndexOf(selections, row);
      assert selections == selections[..i] + [row] + selections[i + 1..];
      forall j | i < j < |selections|
        ensures selections[j] != row
      {
      }
      assert row !in selections[i + 1..];
    }
  }

  /** A tap keeps the selection free of duplicates, and a single-select list at one row at most. */
  lemma TapKeepsSelectionValid(selections: seq<nat>, row: nat, allowSelection: bool, allowMultiple: bool)
    requires NoDuplicates(selections)
    ensures NoDuplicates(Tapped(selections, row, allowSelection, allowMultiple))
    ensures !allowMultiple && |selections| <= 1 ==> |Tapped(selections, row, allowSelection, allowMultiple)| <= 1
    ensures forall r :: r in Tapped(selections, row, allowSelection, allowMultiple) ==> r in selections || r == row
  {
    if allowSelection && row in selections {
      var i := IndexOf(selections, row);
      var after := selections[..i] + selections[i + 1..];
      forall a, b | 0 <= a < b < |after|
        ensures after[a] != after[b]
      {
        var a' := if a < i then a else a + 1;
        var b' := if b < i then b else b + 1;
        assert after[a] == selections[a'] && after[b] == selections[b'];
      }
      forall r | r in after
        ensures r in selections
      {
        var k :| 0 <= k < |after| && after[k] == r;
        assert after[k] == selections[if k < i then k else k + 1];
      }
    }
  }

  /** A tap on a row below `n` keeps every selected row below `n`. */
  lemma TappedRowsBelow(selections: seq<nat>, row: nat, allowSelection: bool, allowMultiple: bool, n: nat)
    requires NoDuplicates(selections) && row < n
    requires forall i :: 0 <= i < |selections| ==> selections[i] < n
    ensures var after := Tapped(selections, row, allowSelection, allowMultiple);
      forall i :: 0 <= i < |after| ==> after[i] < n
  {
    var after := Tapped(selections, row, allowSelection, allowMultiple);
    TapKeepsSelectionValid(selections, row, allowSelection, allowMultiple);
    forall i | 0 <= i < |after|
      ensures after[i] < n
    {
      assert after[i] in after;
      if after[i] != row {
        var k :| 0 <= k < |selections| && selections[k] == after[i];
      }
    }
  }

  /** The strings of the selected rows, in selection order. */
  function TextsOfRows(rows: seq<nat>, displayed: seq<string>): (texts: seq<string>)
    requires forall i :: 0 <= i < |rows| ==> rows[i] < |displayed|
    ensures |texts| == |rows| && forall i :: 0 <= i < |rows| ==> texts[i] == displayed[rows[i]]
  {
    if |rows| == 0 then [] else [displayed[rows[0]]] + TextsOfRows(rows[1..], displayed)
  }

  /**
    The rows `hide()` reads exist: it reads `_strings!` only when the handler
    is set and something is selected, then every selected row (multiple) or
    the first one (single). Otherwise the force unwrap or the index traps.
   */
  predicate HideReadsExist(handlerSet: bool, allowMultiple: bool, selections: seq<nat>, displayed: Option<seq<string>>) {
    !handlerSet || |selections| == 0 ||
    (displayed.Some? &&
     if allowMultiple then forall i :: 0 <= i < |selections| ==> selections[i] < |displayed.value|
     else selections[0] < |displayed.value|)
  }

  /** What `hide()` passes to the handler, if it calls it. */
  function HideReport(handlerSet: bool, allowMultiple: bool, selections: seq<nat>, displayed: seq<string>): (r: Option<Report>)
    requires HideReadsExist(handlerSet, allowMultiple, selections, Some(displayed))
    ensures r.Some? <==> handlerSet && |selections| > 0
    ensures r.Some? && allowMultiple ==>
      && r.value.Multiple? && r.value.rows == selections && |r.value.texts| == |selections|
      && forall i :: 0 <= i < |selections| ==> r.value.texts[i] == displayed[selections[i]]
    ensures r.Some? && !allowMultiple ==> r.value == Single(selections[0], displayed[selections[0]])
  {
    if !handlerSet || |selections| == 0 then None
    else if allowMultiple then Some(Multiple(selections, TextsOfRows(selections, displayed)))
    else Some(Single(selections[0], displayed[selections[0]]))
  }

  /**
    A selection made on one list survives a later `show` with a shorter one:
    `calculateEstimateWidth()` replaces `_strings` and leaves `_selections`
    alone. Row 4 of five strings, after the strings become two, is a row
    `hide()` reads and cannot find.
   */
  lemma StaleSelectionOutlivesReshow()
    ensures HideReadsExist(true, false, [4], Some(["a", "b", "c", "d", "e"]))
    ensures CollectedTexts(Some(["a", "b"]), None, None, Text) == Some(["a", "b"])
    ensures !HideReadsExist(true, false, [4], CollectedTexts(Some(["a", "b"]), None, None, Text))
  {
  }

  class ListPopover {
    var style: Style
    var allowSelection: bool
    var allowMultipleSelection: bool
    /** The row configuration's height, font size and check-mark flag, fixed for the life of the popover here. */
    const rowHeight: real
    const fontSize: real
    const showCheckedIndicator: bool
    var strings: Option<seq<string>>
    var contents: Option<seq<map<string, Value>>>
    var keys: Option<seq<string>>
    /** `_strings` and `_selections`. */
    var displayed: Option<seq<string>>
    var selections: seq<nat>
    var fixedPopoverSize: Option<Size>
    var contentMargin: Insets
    var handlerSet: bool
    /** `shadowView.frame.size`, once the view exists. */
    var containerSize: Option<Size>

    /** The rows a handler may be told about all exist on screen. */
    predicate Valid()
      reads this
    {
      NoDuplicates(selections) &&
      (|selections| > 0 ==> displayed.Some? && forall i :: 0 <= i < |selections| ==> selections[i] < |displayed.value|)
    }

    constructor (rowHeight: real, fontSize: real, showCheckedIndicator: bool)
      ensures this.rowHeight == rowHeight && this.fontSize == fontSize && this.showCheckedIndicator == showCheckedIndicator
      ensures style == Text && allowSelection && !allowMultipleSelection
      ensures strings == None && contents == None && keys == None && displayed == None && selections == []
      ensures fixedPopoverSize == None && !handlerSet && containerSize == None
      ensures Valid()
    {
      this.rowHeight := rowHeight;
      this.fontSize := fontSize;
      this.showCheckedIndicator := showCheckedIndicator;
      style := Text;
      allowSelection := true;
      allowMultipleSelection := false;
      strings := None;
      contents := None;
      keys := None;
      displayed := None;
      selections := [];
      fixedPopoverSize := None;
      contentMargin := Insets(0.0, 0.0, 0.0, 0.0);
      handlerSet := false;
      containerSize := None;
    }

    /**
      The first half of `calculateEstimateWidth()`: gathers the texts to
      display, writing the keys in use back when it reads dictionaries.
     */
    method CollectTexts() returns (texts: Option<seq<string>>)
      requires KeysFitStyle(strings, keys, style)
      modifies this`keys
      ensures texts == CollectedTexts(strings, contents, old(keys), style)
      ensures keys == if ReadsContents(strings, contents, old(keys)) then Some(KeysInUse(old(keys), style)) else old(keys)
    {
      if strings.None? && contents.None? {
        return None;
      }
      if strings.Some? {
        texts := strings;
      } else {
        if keys.Some? && |keys.value| == 0 {
          return None;
        }
        if style == Text {
          var ks := keys.GetOr(["name"]);
          keys := Some(ks);
          texts := Some(StringsUnder(contents.value, ks[0]));
        } else {
          var ks := keys.GetOr(["image", "name"]);
          keys := Some(ks);
          texts := Some(StringsUnder(contents.value, ks[1]));
        }
      }
    }

    /**
      `calculateEstimateWidth()`: collects the texts, stores them for display
      when there are any, and returns the widest plus the extras.
     */
    method CalculateEstimateWidth(measure: ExtentMeasure) returns (width: Option<real>)
      requires KeysFitStyle(strings, keys, style)
      modifies this`keys, this`displayed
      ensures width == EstimateWidth(strings, contents, old(keys), style, rowHeight, fontSize, showCheckedIndicator, measure)
      ensures keys == if ReadsContents(strings, contents, old(keys)) then Some(KeysInUse(old(keys), style)) else old(keys)
      ensures var texts := CollectedTexts(strings, contents, old(keys), style);
        displayed == if texts.Some? && |texts.value| > 0 then texts else old(displayed)
    {
      var texts := CollectTexts();
      if texts.None? || |texts.value| == 0 {
        return None;
      }
      displayed := texts;
      var maxWidth := WidestText(texts.value, measure, rowHeight, fontSize);
      if style == IconText {
        maxWidth := maxWidth + 25.0;
      }
      if showCheckedIndicator {
        maxWidth := maxWidth + 20.0;
      }
      width := Some(maxWidth);
    }

    /** `genView(ofSize:)`: the view holding the list gets the size plus the margins. */
    method GenView(size: Size)
      modifies this`containerSize
      ensures containerSize == Some(ExtensionsCG.SizeExtend(size, ExtensionsCG.Horizontal(contentMargin), ExtensionsCG.Vertical(contentMargin)))
      ensures var c := containerSize.value;
        c.width - size.width == contentMargin.left + contentMargin.right &&
        c.height - size.height == contentMargin.top + contentMargin.bottom
    {
      containerSize := Some(ExtensionsCG.SizeExtend(size, ExtensionsCG.Horizontal(contentMargin), ExtensionsCG.Vertical(contentMargin)));
    }

    /**
      `calculateContainerSize()`: a positive fixed width is used without
      estimating (the height then counts the rows already on screen, if any);
      otherwise the estimate decides, and nothing is generated when it is nil.
     */
    method CalculateContainerSize(measure: ExtentMeasure)
      requires KeysFitStyle(strings, keys, style)
      modifies this`keys, this`displayed, this`containerSize
      ensures var margin := contentMargin;
        var fixed := fixedPopoverSize;
        var est := EstimateWidth(strings, contents, old(keys), style, rowHeight, fontSize, showCheckedIndicator, measure);
        && (fixed.Some? && fixed.value.width > 0.0 && fixed.value.height <= 0.0 ==>
              containerSize == Some(ExtensionsCG.SizeExtend(Size(fixed.value.width, RowsHeight(rowHeight, old(displayed))),
                                   ExtensionsCG.Horizontal(margin), ExtensionsCG.Vertical(margin))))
        && (fixed.Some? && fixed.value.width > 0.0 && fixed.value.height > 0.0 ==>
              containerSize == Some(ExtensionsCG.SizeExtend(fixed.value, ExtensionsCG.Horizontal(margin), ExtensionsCG.Vertical(margin))))
        && (!(fixed.Some? && fixed.value.width > 0.0) && est.Some? ==>
              containerSize == Some(ExtensionsCG.SizeExtend(Size(est.value, RowsHeight(rowHeight, displayed)),
                                   ExtensionsCG.Horizontal(margin), ExtensionsCG.Vertical(margin))) &&
              displayed == CollectedTexts(strings, contents, old(keys), style))
        && (!(fixed.Some? && fixed.value.width > 0.0) && est.None? ==> containerSize == old(containerSize))
      ensures fixedPopoverSize.Some? && fixedPopoverSize.value.width > 0.0 ==> keys == old(keys) && displayed == old(displayed)
      ensures !(fixedPopoverSize.Some? && fixedPopoverSize.value.width > 0.0) ==>
        keys == if ReadsContents(strings, contents, old(keys)) then Some(KeysInUse(old(keys), style)) else old(keys)
      ensures !(fixedPopoverSize.Some? && fixedPopoverSize.value.width > 0.0) ==>
        var texts := CollectedTexts(strings, contents, old(keys), style);
        displayed == if texts.Some? && |texts.value| > 0 then texts else old(displayed)
    {
      if fixedPopoverSize.Some? && fixedPopoverSize.value.width > 0.0 {
        var fixedSize := fixedPopoverSize.value;
        if fixedSize.height <= 0.0 {
          GenView(Size(fixedSize.width, RowsHeight(rowHeight, displayed)));
        } else {
          GenView(fixedSize);
        }
      } else {
        var width := CalculateEstimateWidth(measure);
        if width.Some? {
          GenView(Size(width.value, RowsHeight(rowHeight, displayed)));
        }
      }
    }

    /**
      `hide()`: the handler hears about the selection only when it is set and
      the selection is not empty. The rows it then reads must exist, which a
      selection kept from an earlier, longer list need not satisfy.
     */
    method Hide() returns (report: Option<Report>)
      requires HideReadsExist(handlerSet, allowMultipleSelection, selections, displayed)
      ensures report == if !handlerSet || |selections| == 0 then None
                        else HideReport(handlerSet, allowMultipleSelection, selections, displayed.value)
    {
      if !handlerSet || |selections| == 0 {
        return None;
      }
      var strs := displayed.value;
      if allowMultipleSelection {
        var indexes := selections;
        var texts: seq<string> := [];
        var i := 0;
        while i < |indexes|
          invariant 0 <= i <= |indexes|
          invariant texts == TextsOfRows(indexes[..i], strs)
        {
          texts := texts + [strs[indexes[i]]];
          i := i + 1;
        }
        assert indexes[..|indexes|] == indexes;
        report := Some(Multiple(indexes, texts));
      } else {
        var index := selections[0];
        report := Some(Single(index, strs[index]));
      }
    }

    /**
      `tableView(_:didSelectRowAt:)` for one of the rows on screen: toggles
      the row; a single-select tap on a new row also hides the popover, which
      may report to the handler.
     */
    method DidSelectRow(row: nat) returns (report: Option<Report>)
      requires NoDuplicates(selections) && displayed.Some? && row < |displayed.value|
      modifies this`selections
      ensures selections == Tapped(old(selections), row, allowSelection, allowMultipleSelection)
      ensures NoDuplicates(selections)
      ensures old(Valid()) ==> Valid()
      ensures !allowMultipleSelection && |old(selections)| <= 1 ==> |selections| <= 1
      ensures var hides := allowSelection && row !in old(selections) && !allowMultipleSelection;
        report == if hides then HideReport(handlerSet, false, [row], displayed.value) else None
    {
      ghost var before := selections;
      ghost var wasValid := Valid();
      report := None;
      if allowSelection {
        if row in selections {
          Deselect(row);
        } else if allowMultipleSelection {
          selections := selections + [row];
        } else {
          report := SelectOnlyAndHide(row);
        }
      }
      assert selections == Tapped(before, row, allowSelection, allowMultipleSelection);
      TapKeepsSelectionValid(before, row, allowSelection, allowMultipleSelection);
      if wasValid {
        TappedRowsBelow(before, row, allowSelection, allowMultipleSelection, |displayed.value|);
      }
    }

    /** A tap on a selected row removes it from the selections. */
    method Deselect(row: nat)
      requires row in selections
      modifies this`selections
      ensures selections == Tapped(old(selections), row, true, allowMultipleSelection)
    {
      var index := IndexOf(selections, row);
      selections := selections[..index] + selections[index + 1..];
    }

    /** The single-select tail of `didSelectRowAt`: the tapped row replaces the selection, then `hide()`. */
    method SelectOnlyAndHide(row: nat) returns (report: Option<Report>)
      requires !allowMultipleSelection && displayed.Some? && row < |displayed.value|
      modifies this`selections
      ensures selections == [row]
      ensures report == HideReport(handlerSet, false, [row], displayed.value)
    {
      selections := [row];
      report := Hide();
    }
  }
}
