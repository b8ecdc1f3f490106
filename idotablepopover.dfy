/**
  `iDo/Poper/IDOTablePopover.swift`: a popover listing rows built from
  `contents`, which are either plain strings or dictionaries read through
  `extendKeys`.

  Swift's `[Any]` contents are a sequence of `Item`s. The casts
  `contents as? [String]` and `contents as? [[String: Any]]` succeed when
  every element has the right kind, so an empty list passes both.
  Dictionary values are `AnyValues.Value`s.
 */
module IDOTablePopover {
  import opened Geometry
  import opened Wrappers
  import opened Measure
  import opened IDOPopover
  import opened AnyValues

  datatype Item = Text(text: string) | Record(fields: map<string, Value>) | OtherItem

  /** `IDOTablePopoverCellsConfiguration.ContentType`. */
  datatype ContentType = PureText | IconText | TextIcon | Subtitle1 | Subtitle2

  /** The parts of `IDOTablePopoverCellsConfiguration` that the sizes depend on. */
  datatype CellsConfig = CellsConfig(
    contentType: ContentType,
    rowHeight: real,
    titlesFontSize: real,
    subtitlesFontSize: real,
    shouldAddedIndicator: bool)

  /** The initialiser's defaults: 45-point rows, plain text, fonts 15 and 13, with the indicator. */
  const DefaultConfig := CellsConfig(PureText, 45.0, 15.0, 13.0, true)

  /** The width reserved for the check mark or the icon. */
  const IndicatorWidth: real := 33.0

  /** `contents as? [String]` succeeds. */
  predicate AllText(items: seq<Item>) {
    forall i :: 0 <= i < |items| ==> items[i].Text?
  }

  /** `contents as? [[String: Any]]` succeeds. */
  predicate AllRecords(items: seq<Item>) {
    forall i :: 0 <= i < |items| ==> items[i].Record?
  }

  /** The strings of the text items, in order. */
  function TextsOf(items: seq<Item>): (r: seq<string>)
    ensures AllText(items) ==> |r| == |items| && forall i :: 0 <= i < |items| ==> r[i] == items[i].text
  {
    if |items| == 0 then []
    else (if items[0].Text? then [items[0].text] else []) + TextsOf(items[1..])
  }

  /** The dictionaries of the items; an item that is not one reads as an empty dictionary. */
  function FieldsOf(items: seq<Item>): (r: seq<map<string, Value>>)
    ensures |r| == |items|
    ensures forall i :: 0 <= i < |items| && items[i].Record? ==> r[i] == items[i].fields
  {
    seq(|items|, i requires 0 <= i < |items| => if items[i].Record? then items[i].fields else map[])
  }

  /** `contents.compactMap({ $0[key] as? String })` on dictionary contents. */
  function StringsAt(items: seq<Item>, key: string): seq<string> {
    StringsUnder(FieldsOf(items), key)
  }

  /** `maxLength(of:with:)`: measures each text at the row height and keeps the widest. */
  method MaxLength(texts: seq<string>, measure: ExtentMeasure, rowHeight: real, fontSize: real) returns (m: real)
    ensures m == Widest(texts, measure, Finite(rowHeight), fontSize)
    ensures forall i :: 0 <= i < |texts| ==> measure(texts[i], Finite(rowHeight), fontSize) <= m
    ensures |texts| == 0 ==> m == 0.0
    ensures |texts| > 0 ==> exists i :: 0 <= i < |texts| && m == measure(texts[i], Finite(rowHeight), fontSize)
  {
    m := 0.0;
    var i := 0;
    while i < |texts|
      invariant 0 <= i <= |texts|
      invariant m == Widest(texts[..i], measure, Finite(rowHeight), fontSize)
    {
      var w := measure(texts[i], Finite(rowHeight), fontSize);
      if w > m {
        m := w;
      }
      assert texts[..i + 1][..i] == texts[..i];
      i := i + 1;
    }
    assert texts[..|texts|] == texts;
    WidestIsMax(texts, measure, Finite(rowHeight), fontSize);
  }

  /** `tableView(_:numberOfRowsInSection:)`: one row per content, none without contents. */
  function RowCount(contents: Option<seq<Item>>): (n: nat)
    ensures contents.None? ==> n == 0
    ensures contents.Some? ==> n == |contents.value|
  {
    if contents.Some? then |contents.value| else 0
  }

  /** The height of all rows together. */
  function RowsHeight(cfg: CellsConfig, contents: Option<seq<Item>>): real {
    cfg.rowHeight * (RowCount(contents) as real)
  }

  /** The width of dictionary contents before the clamp, or the error thrown. */
  function RecordsWidth(items: seq<Item>, keys: Option<seq<string>>, cfg: CellsConfig, measure: ExtentMeasure): (r: Result<real, int>)
    ensures keys.None? || |keys.value| == 0 ==> r == Err(-1004)
    ensures r.Err? ==> r.error == -1004 || (r.error == -1005 && cfg.contentType != PureText && |keys.value| == 1)
  {
    if keys.None? || |keys.value| < 1 then Err(-1004)
    else
      var ks := keys.value;
      match cfg.contentType
      case PureText =>
        Ok(Widest(StringsAt(items, ks[0]), measure, Finite(cfg.rowHeight), cfg.titlesFontSize)
           + (if cfg.shouldAddedIndicator then IndicatorWidth else 0.0))
      case _ =>
        if |ks| < 2 then Err(-1005)
        else
          var first := ks[if cfg.contentType == IconText then 1 else 0];
          var w := Max(Widest(StringsAt(items, first), measure, Finite(cfg.rowHeight), cfg.titlesFontSize),
                       Widest(StringsAt(items, ks[1]), measure, Finite(cfg.rowHeight), cfg.subtitlesFontSize));
          Ok(w + (if cfg.contentType == IconText || cfg.contentType == TextIcon then IndicatorWidth else 0.0))
  }

  /** The width `estimationSize()` settles on, or the error it throws. */
  function EstimatedWidth(start: Size, contents: Option<seq<Item>>, keys: Option<seq<string>>,
                          cfg: CellsConfig, loc: Location, anchor: Rect, sc: Screen, measure: ExtentMeasure): Result<real, int>
  {
    if start.width != 0.0 || contents.None? then Ok(start.width)
    else if AllRecords(contents.value) then
      (match RecordsWidth(contents.value, keys, cfg, measure)
       case Ok(w) => Ok(Min(RoomFor(loc, anchor, sc), w))
       case Err(e) => Err(e))
    else if AllText(contents.value) then
      Ok(Widest(TextsOf(contents.value), measure, Finite(cfg.rowHeight), cfg.titlesFontSize)
         + (if cfg.shouldAddedIndicator then IndicatorWidth else 0.0))
    else Ok(0.0)
  }

  /** What `estimationSize()` returns or throws. */
  function EstimatedSize(fixed: Option<Size>, contents: Option<seq<Item>>, keys: Option<seq<string>>,
                         cfg: CellsConfig, loc: Location, anchor: Rect, sc: Screen, measure: ExtentMeasure): (r: Result<Size, int>)
    ensures r.Err? ==> fixed.GetOr(ZeroSize).width == 0.0 && contents.Some? && AllRecords(contents.value)
    ensures r.Err? ==> r.error == -1004 || r.error == -1005
    ensures r.Ok? && fixed.Some? && fixed.value.width != 0.0 ==> r.value.width == fixed.value.width
    ensures r.Ok? && fixed.Some? && fixed.value.height != 0.0 ==> r.value.height == fixed.value.height
    ensures fixed.GetOr(ZeroSize).width == 0.0 && contents.Some? && AllRecords(contents.value) ==>
      match RecordsWidth(contents.value, keys, cfg, measure)
      case Ok(w) => r.Ok? && r.value.width == Min(RoomFor(loc, anchor, sc), w)
      case Err(e) => r == Err(e)
  {
    var start := fixed.GetOr(ZeroSize);
    match EstimatedWidth(start, contents, keys, cfg, loc, anchor, sc, measure)
    case Err(e) => Err(e)
    case Ok(w) =>
      Ok(Size(w, if start.height == 0.0 then RowsHeight(cfg, contents) else start.height))
  }

  /** Dictionary contents need at least one key whenever the width is estimated (an empty list counts). */
  lemma MissingKeysThrow(fixed: Option<Size>, items: seq<Item>, keys: Option<seq<string>>,
                         cfg: CellsConfig, loc: Location, anchor: Rect, sc: Screen, measure: ExtentMeasure)
    requires fixed.GetOr(ZeroSize).width == 0.0 && AllRecords(items)
    requires keys.None? || |keys.value| == 0
    ensures EstimatedSize(fixed, Some(items), keys, cfg, loc, anchor, sc, measure) == Err(-1004)
  {
  }

  /** Every layout but plain text needs two keys. */
  lemma OneKeyThrowsUnlessPureText(fixed: Option<Size>, items: seq<Item>, key: string,
                                   cfg: CellsConfig, loc: Location, anchor: Rect, sc: Screen, measure: ExtentMeasure)
    requires fixed.GetOr(ZeroSize).width == 0.0 && AllRecords(items)
    ensures EstimatedSize(fixed, Some(items), Some([key]), cfg, loc, anchor, sc, measure).Err? <==> cfg.contentType != PureText
    ensures cfg.contentType != PureText ==> EstimatedSize(fixed, Some(items), Some([key]), cfg, loc, anchor, sc, measure) == Err(-1005)
  {
  }

  /** Without a fixed height the height is one row height per content, and 0 without contents. */
  lemma HeightIsRows(fixed: Option<Size>, contents: Option<seq<Item>>, keys: Option<seq<string>>,
                     cfg: CellsConfig, loc: Location, anchor: Rect, sc: Screen, measure: ExtentMeasure)
    requires fixed.GetOr(ZeroSize).height == 0.0
    ensures var r := EstimatedSize(fixed, contents, keys, cfg, loc, anchor, sc, measure);
      r.Ok? ==> r.value.height == cfg.rowHeight * (RowCount(contents) as real)
    ensures contents.None? ==> EstimatedSize(fixed, contents, keys, cfg, loc, anchor, sc, measure) == Ok(Size(fixed.GetOr(ZeroSize).width, 0.0))
  {
  }

  /** A fixed size with no zero side is returned as it is, whatever the contents. */
  lemma FixedSizeWins(fixed: Size, contents: Option<seq<Item>>, keys: Option<seq<string>>,
                      cfg: CellsConfig, loc: Location, anchor: Rect, sc: Screen, measure: ExtentMeasure)
    requires fixed.width != 0.0 && fixed.height != 0.0
    ensures EstimatedSize(Some(fixed), contents, keys, cfg, loc, anchor, sc, measure) == Ok(fixed)
  {
  }

  /**
    Non-empty string contents are never clamped: the width is the widest
    string plus the indicator's 33 when it is shown.
   */
  lemma StringWidthUnclamped(fixed: Option<Size>, items: seq<Item>, keys: Option<seq<string>>,
                             cfg: CellsConfig, loc: Location, anchor: Rect, sc: Screen, measure: ExtentMeasure)
    requires fixed.GetOr(ZeroSize).width == 0.0 && AllText(items) && |items| > 0
    ensures var r := EstimatedSize(fixed, Some(items), keys, cfg, loc, anchor, sc, measure);
      && r.Ok?
      && r.value.width == Widest(TextsOf(items), measure, Finite(cfg.rowHeight), cfg.titlesFontSize)
                          + (if cfg.shouldAddedIndicator then 33.0 else 0.0)
      && (forall i :: 0 <= i < |items| ==>
            measure(items[i].text, Finite(cfg.rowHeight), cfg.titlesFontSize) + (if cfg.shouldAddedIndicator then 33.0 else 0.0) <= r.value.width)
  {
    assert !AllRecords(items) by {
      assert !items[0].Record?;
    }
    WidestIsMax(TextsOf(items), measure, Finite(cfg.rowHeight), cfg.titlesFontSize);
  }

  /** Dictionary widths never exceed the room beside or across the anchor. */
  lemma RecordWidthClamped(fixed: Option<Size>, items: seq<Item>, keys: Option<seq<string>>,
                           cfg: CellsConfig, loc: Location, anchor: Rect, sc: Screen, measure: ExtentMeasure)
    requires fixed.GetOr(ZeroSize).width == 0.0 && AllRecords(items)
    ensures var r := EstimatedSize(fixed, Some(items), keys, cfg, loc, anchor, sc, measure);
      r.Ok? ==> r.value.width <= RoomFor(loc, anchor, sc)
  {
  }

  /** Icon layouts always reserve 33 for the icon, on top of the widest title or subtitle. */
  lemma IconLayoutsReserveIcon(fixed: Option<Size>, items: seq<Item>, ks: seq<string>,
                               cfg: CellsConfig, measure: ExtentMeasure)
    requires |ks| >= 2 && (cfg.contentType == IconText || cfg.contentType == TextIcon)
    ensures var r := RecordsWidth(items, Some(ks), cfg, measure);
      && r.Ok?
      && var titleKey := ks[if cfg.contentType == IconText then 1 else 0];
      && (forall t :: t in StringsAt(items, titleKey) ==> measure(t, Finite(cfg.rowHeight), cfg.titlesFontSize) + 33.0 <= r.value)
      && (forall t :: t in StringsAt(items, ks[1]) ==> measure(t, Finite(cfg.rowHeight), cfg.subtitlesFontSize) + 33.0 <= r.value)
  {
    var first := ks[if cfg.contentType == IconText then 1 else 0];
    WidestIsMax(StringsAt(items, first), measure, Finite(cfg.rowHeight), cfg.titlesFontSize);
    WidestIsMax(StringsAt(items, ks[1]), measure, Finite(cfg.rowHeight), cfg.subtitlesFontSize);
    forall t | t in StringsAt(items, first)
      ensures measure(t, Finite(cfg.rowHeight), cfg.titlesFontSize) + 33.0 <= RecordsWidth(items, Some(ks), cfg, measure).value
    {
      var i :| 0 <= i < |StringsAt(items, first)| && StringsAt(items, first)[i] == t;
    }
    forall t | t in StringsAt(items, ks[1])
      ensures measure(t, Finite(cfg.rowHeight), cfg.subtitlesFontSize) + 33.0 <= RecordsWidth(items, Some(ks), cfg, measure).value
    {
      var i :| 0 <= i < |StringsAt(items, ks[1])| && StringsAt(items, ks[1])[i] == t;
    }
  }

  /**
    Plain text reads the first key only: its width is the widest title under
    that key, or 0 when no dictionary has a string there, plus the
    indicator's 33 when it is shown.
   */
  lemma {:induction false} PureTextRecordsWidth(items: seq<Item>, ks: seq<string>, cfg: CellsConfig, measure: ExtentMeasure)
    requires |ks| >= 1 && cfg.contentType == PureText
    ensures var r := RecordsWidth(items, Some(ks), cfg, measure);
      var titles := StringsAt(items, ks[0]);
      var pad := if cfg.shouldAddedIndicator then 33.0 else 0.0;
      && r == Ok(Widest(titles, measure, Finite(cfg.rowHeight), cfg.titlesFontSize) + pad)
      && (forall i :: 0 <= i < |titles| ==> measure(titles[i], Finite(cfg.rowHeight), cfg.titlesFontSize) + pad <= r.value)
      && (|titles| == 0 ==> r.value == pad)
      && (|titles| > 0 ==> exists i :: 0 <= i < |titles| && r.value == measure(titles[i], Finite(cfg.rowHeight), cfg.titlesFontSize) + pad)
  {
    WidestIsMax(StringsAt(items, ks[0]), measure, Finite(cfg.rowHeight), cfg.titlesFontSize);
  }

  /**
    The four two-key layouts take the wider of the widest title (under the
    second key for icon-text, the first otherwise) and the widest subtitle
    under the second key, and add 33 for the icon in the two icon layouts
    only; the width is one of the measured texts, or 0 when there are none.
   */
  lemma {:induction false} TwoKeyRecordsWidth(items: seq<Item>, ks: seq<string>, cfg: CellsConfig, measure: ExtentMeasure)
    requires |ks| >= 2 && cfg.contentType != PureText
    ensures var r := RecordsWidth(items, Some(ks), cfg, measure);
      var titles := StringsAt(items, ks[if cfg.contentType == IconText then 1 else 0]);
      var subtitles := StringsAt(items, ks[1]);
      var limit := Finite(cfg.rowHeight);
      var pad := if cfg.contentType == IconText || cfg.contentType == TextIcon then 33.0 else 0.0;
      && r == Ok(Max(Widest(titles, measure, limit, cfg.titlesFontSize), Widest(subtitles, measure, limit, cfg.subtitlesFontSize)) + pad)
      && (forall i :: 0 <= i < |titles| ==> measure(titles[i], limit, cfg.titlesFontSize) + pad <= r.value)
      && (forall i :: 0 <= i < |subtitles| ==> measure(subtitles[i], limit, cfg.subtitlesFontSize) + pad <= r.value)
      && (|titles| == 0 && |subtitles| == 0 ==> r.value == pad)
      && (|titles| + |subtitles| > 0 ==>
            || (exists i :: 0 <= i < |titles| && r.value == measure(titles[i], limit, cfg.titlesFontSize) + pad)
            || (exists i :: 0 <= i < |subtitles| && r.value == measure(subtitles[i], limit, cfg.subtitlesFontSize) + pad))
  {
    var titles := StringsAt(items, ks[if cfg.contentType == IconText then 1 else 0]);
    var subtitles := StringsAt(items, ks[1]);
    WidestIsMax(titles, measure, Finite(cfg.rowHeight), cfg.titlesFontSize);
    WidestIsMax(subtitles, measure, Finite(cfg.rowHeight), cfg.subtitlesFontSize);
  }

  /** `isDisabled(with:)`: the first of four typed probes that finds a value decides. */
  function IsDisabled(fields: map<string, Value>): (r: bool)
    ensures r ==> (("isDisabled" in fields && fields["isDisabled"] in {Str("true"), Flag(true)})
                || ("disabled" in fields && fields["disabled"] in {Str("true"), Flag(true)}))
    ensures ("isDisabled" in fields && (fields["isDisabled"].Str? || fields["isDisabled"].Flag?)) ==>
              (r <==> fields["isDisabled"] in {Str("true"), Flag(true)})
    ensures !("isDisabled" in fields && (fields["isDisabled"].Str? || fields["isDisabled"].Flag?)) ==>
              (r <==> "disabled" in fields && fields["disabled"] in {Str("true"), Flag(true)})
  {
    if "isDisabled" in fields && fields["isDisabled"].Str? then fields["isDisabled"].text == "true"
    else if "isDisabled" in fields && fields["isDisabled"].Flag? then fields["isDisabled"].flag
    else if "disabled" in fields && fields["disabled"].Str? then fields["disabled"].text == "true"
    else if "disabled" in fields && fields["disabled"].Flag? then fields["disabled"].flag
    else false
  }

  /** A string other than "true" under "isDisabled" enables the row, whatever "disabled" says. */
  lemma IsDisabledShadowsDisabled(fields: map<string, Value>, s: string)
    requires s != "true"
    ensures !IsDisabled(fields["isDisabled" := Str(s)]["disabled" := Flag(true)])
  {
    var f := fields["isDisabled" := Str(s)]["disabled" := Flag(true)];
    assert f["isDisabled"] == Str(s);
  }

  /** The title `applyValues(_:with:)` shows for a dictionary, given at least one key. */
  function TitleOf(ct: ContentType, fields: map<string, Value>, keys: seq<string>): Option<string>
    requires |keys| >= 1
  {
    match ct
    case IconText => if |keys| >= 2 then StringAt(fields, keys[1]) else None
    case _ => StringAt(fields, keys[0])
  }

  /** The icon, for the two icon layouts. */
  function IconOf(ct: ContentType, fields: map<string, Value>, keys: seq<string>): Option<nat>
    requires |keys| >= 1
  {
    match ct
    case IconText => PictureAt(fields, keys[0])
    case TextIcon => if |keys| >= 2 then PictureAt(fields, keys[1]) else None
    case _ => None
  }

  /** The subtitle, for the two subtitle layouts. */
  function SubtitleOf(ct: ContentType, fields: map<string, Value>, keys: seq<string>): Option<string>
    requires |keys| >= 1
  {
    if (ct == Subtitle1 || ct == Subtitle2) && |keys| >= 2 then StringAt(fields, keys[1]) else None
  }

  /**
    The two icon layouts read the same dictionary with their keys swapped:
    icon-text takes the icon from the first key and the title from the second,
    text-icon the other way round; without a second key the second part is nil.
   */
  lemma IconLayoutsSwapKeys(fields: map<string, Value>, a: string, b: string)
    ensures TitleOf(IconText, fields, [a, b]) == TitleOf(TextIcon, fields, [b, a]) == StringAt(fields, b)
    ensures IconOf(IconText, fields, [a, b]) == IconOf(TextIcon, fields, [b, a]) == PictureAt(fields, a)
    ensures TitleOf(IconText, fields, [a]) == None && IconOf(TextIcon, fields, [a]) == None
    ensures SubtitleOf(Subtitle1, fields, [a]) == None && SubtitleOf(Subtitle2, fields, [a, b]) == StringAt(fields, b)
  {
  }

  /** `IDOTablePopoverCell`: what a row shows. */
  class Cell {
    const contentType: ContentType
    var title: Option<string>
    var subtitle: Option<string>
    var icon: Option<nat>
    var originalImage: Option<nat>
    var disabled: bool

    constructor (contentType: ContentType)
      ensures this.contentType == contentType
      ensures title == None && subtitle == None && icon == None && originalImage == None && !disabled
    {
      this.contentType := contentType;
      title := None;
      subtitle := None;
      icon := None;
      originalImage := None;
      disabled := false;
    }

    /**
      `applyValues(_:with:)`: a string becomes the title; a dictionary with at
      least one key fills the parts its layout uses and sets the disabled
      state; anything else leaves the cell alone.
     */
    method ApplyValues(content: Item, keys: Option<seq<string>>)
      modifies this
      ensures content.Text? ==>
        title == Some(content.text) &&
        subtitle == old(subtitle) && icon == old(icon) && originalImage == old(originalImage) && disabled == old(disabled)
      ensures content.Record? && keys.Some? && |keys.value| >= 1 ==>
        var f, ks := content.fields, keys.value;
        && title == TitleOf(contentType, f, ks)
        && (contentType == IconText || contentType == TextIcon ==> icon == originalImage == IconOf(contentType, f, ks))
        && (contentType != IconText && contentType != TextIcon ==> icon == old(icon) && originalImage == old(originalImage))
        && (contentType == Subtitle1 || contentType == Subtitle2 ==> subtitle == SubtitleOf(contentType, f, ks))
        && (contentType != Subtitle1 && contentType != Subtitle2 ==> subtitle == old(subtitle))
        && disabled == IsDisabled(f)
      ensures !content.Text? && !(content.Record? && keys.Some? && |keys.value| >= 1) ==>
        title == old(title) && subtitle == old(subtitle) && icon == old(icon) &&
        originalImage == old(originalImage) && disabled == old(disabled)
    {
      if content.Text? {
        title := Some(content.text);
      } else if content.Record? && keys.Some? && |keys.value| >= 1 {
        var f, ks := content.fields, keys.value;
        match contentType {
          case PureText =>
            title := StringAt(f, ks[0]);
          case IconText =>
            title := if |ks| >= 2 then StringAt(f, ks[1]) else None;
            icon := PictureAt(f, ks[0]);
            originalImage := icon;
          case TextIcon =>
            title := StringAt(f, ks[0]);
            icon := if |ks| >= 2 then PictureAt(f, ks[1]) else None;
            originalImage := icon;
          case _ =>
            title := StringAt(f, ks[0]);
            subtitle := if |ks| >= 2 then StringAt(f, ks[1]) else None;
        }
        disabled := IsDisabled(f);
      }
    }
  }

  /** `IDOTablePopover`: the popover it lays out, its contents and its keys. */
  class TablePopover {
    const popover: Popover
    const config: CellsConfig
    var contents: Option<seq<Item>>
    var extendKeys: Option<seq<string>>

    constructor (popover: Popover, config: CellsConfig)
      ensures this.popover == popover && this.config == config
      ensures contents == None && extendKeys == None
    {
      this.popover := popover;
      this.config := config;
      contents := None;
      extendKeys := None;
    }

    /** The dictionary branch of `estimationSize()` up to the clamp. */
    method RecordsContentWidth(items: seq<Item>, measure: ExtentMeasure) returns (r: Result<real, int>)
      ensures r == RecordsWidth(items, extendKeys, config, measure)
    {
      if extendKeys.None? || |extendKeys.value| < 1 {
        return Err(-1004);
      }
      var keys := extendKeys.value;

      var width: real;
      match config.contentType {
        case PureText =>
          width := MaxLength(StringsAt(items, keys[0]), measure, config.rowHeight, config.titlesFontSize);
          if config.shouldAddedIndicator {
            width := width + IndicatorWidth;
          }
          assert RecordsWidth(items, extendKeys, config, measure) == Ok(width);
        case _ =>
          if |keys| < 2 {
            return Err(-1005);
          }
          var indexOfKeys := if config.contentType == IconText then 1 else 0;
          var fw := MaxLength(StringsAt(items, keys[indexOfKeys]), measure, config.rowHeight, config.titlesFontSize);
          var sw := MaxLength(StringsAt(items, keys[1]), measure, config.rowHeight, config.subtitlesFontSize);
          width := Max(fw, sw);
          if config.contentType == IconText || config.contentType == TextIcon {
            width := width + IndicatorWidth;
          }
          assert RecordsWidth(items, extendKeys, config, measure) == Ok(width);
      }
      r := Ok(width);
    }

    /** `estimationSize()`, one assignment to the running size at a time. */
    method EstimationSize(measure: ExtentMeasure) returns (r: Result<Size, int>)
      ensures r == EstimatedSize(popover.fixedContentSize, contents, extendKeys, config,
                                 popover.location, popover.anchor, popover.screen, measure)
    {
      var size := popover.fixedContentSize.GetOr(ZeroSize);
      if size.width == 0.0 && contents.Some? {
        var items := contents.value;
        if AllText(items) {
          var w := MaxLength(TextsOf(items), measure, config.rowHeight, config.titlesFontSize);
          size := size.(width := w);
          if config.shouldAddedIndicator {
            size := size.(width := size.width + IndicatorWidth);
          }
        }
        if AllRecords(items) {
          var w := RecordsContentWidth(items, measure);
          if w.Err? {
            return Err(w.error);
          }
          size := size.(width := w.value);
          var anchor, sc := popover.anchor, popover.screen;
          match popover.location {
            case Left => size := size.(width := Min(MinX(anchor) - 32.0, size.width));
            case Right => size := size.(width := Min(sc.width - MaxX(anchor) - 32.0, size.width));
            case _ => size := size.(width := Min(sc.width - 32.0, size.width));
          }
        }
      }
      if size.height == 0.0 {
        size := size.(height := RowsHeight(config, contents));
      }
      r := Ok(size);
    }

    /** `show()`: lays the popover out and presents it only when the estimation succeeds. */
    method Show(measure: ExtentMeasure, hasKeyWindow: bool)
      modifies popover
      ensures var est := EstimatedSize(popover.fixedContentSize, contents, extendKeys, config,
                                       popover.location, popover.anchor, popover.screen, measure);
        && (est.Ok? ==> popover.Presented(est.value, hasKeyWindow))
        && (est.Err? ==> unchanged(popover))
    {
      var est := EstimationSize(measure);
      if est.Ok? {
        popover.Present(est.value, hasKeyWindow);
      }
    }
  }
}
