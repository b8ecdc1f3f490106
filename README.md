# iDo layout rules in Dafny

This project models the deterministic core of iDo, a UIKit widget kit written in Swift. It covers:

- the placement engine of the `IDOPopover` family: which side of the anchor the popover goes on, the container's size and origin, the inset payload frame, the arrow and the entrance animation's start frame;
- the content-size estimators of the table, image and text popovers, with their error codes −1000 to −1005;
- the 2020 `DOListPopover` and `DOTextPopover`, including the list's selection state machine;
- `DOToast`, `DOLoading` and the `DOImageLoop` carousel;
- the date shortcuts of the two range pickers, on a record of calendar components;
- `Toast` with its `Duration` codec, and the hex colour parser and `rgb`/`rgba` of `UIColor`;
- the geometry helpers on `CGPoint`, `CGSize`, `CGRect` and `UIEdgeInsets`;
- the string slicing subscripts and the `NSRange` that attributed-string styling uses.

Geometry is on `real` numbers (`CGFloat` without rounding). The platform enters as parameters, each result non-negative:

- text measurement (`Measure.ExtentMeasure`, `Measure.BoxMeasure`);
- the screen, the status bar and the anchor rectangle in window coordinates (`IDOPopover.Screen`, `anchor`);
- the file system and URL parsing (`IDOImagePopover.Environment`);
- the current date and the start of the week (`DateShortcuts.Components`).

Views that the source mutates in place are classes. Their fields are frames, flags and the view memberships the code changes. Each method states its new state through the pure step functions, and lemmas prove the layout's promises about those functions.

Module map:

| file | module | models |
|---|---|---|
| geometry.dfy | Geometry | `CGPoint`/`CGSize`/`CGRect`/`UIEdgeInsets` values and the rect accessors |
| wrappers.dfy | Wrappers | `Option` and `Result` (a thrown error code) |
| measure.dfy | Measure | text measurement as parameters; the running maximum |
| values.dfy | AnyValues | `[String: Any]` dictionary values and their typed casts |
| cocoa_cgs.dfy | CocoaCG | iDo/Cocoa/CGs+iDo.swift |
| ext_cg.dfy | ExtensionsCG | iDo/Extensions/CG+iDo.swift |
| idopopover.dfy | IDOPopover | iDo/Poper/IDOPopover.swift |
| idotablepopover.dfy | IDOTablePopover | iDo/Poper/IDOTablePopover.swift |
| idoimagepopover.dfy | IDOImagePopover | iDo/Poper/IDOImagePopover.swift |
| idotextpopover.dfy | IDOTextPopover | iDo/Poper/IDOTextPopover.swift |
| dolistpopover.dfy | DOListPopover | iDo/Components/DOListPopover.swift |
| dotextpopover.dfy | DOTextPopover | iDo/Components/DOTextPopover.swift |
| dotoast.dfy | DOToast | iDo/Components/DOToast.swift |
| doloading.dfy | DOLoading | iDo/Components/DOLoading.swift |
| doimageloop.dfy | DOImageLoop | iDo/Components/DOImageLoop.swift |
| dateshortcuts.dfy | DateShortcuts | `Shortcut`, `setDatePicker(with:)` and `setShortcuts()` shared by both range pickers |
| daterangepicker.dfy | DateRangePicker | iDo/Classic/DateRangePicker.swift |
| idodaterangepicker.dfy | IDODateRangePicker | iDo/Classic/IDODateRangePicker.swift |
| toast.dfy | Toast | iDo/Classic/Toast.swift |
| uicolor.dfy | UIColorHex | iDo/Cocoa/UIColor+iDo.swift |
| string_extension.dfy | StringSlices | iDo/Extensions/String+Extension.swift |
| string_ido.dfy | StringChecked | iDo/Cocoa/String+iDo.swift |

## Model

| member | source | states |
|---|---|---|
| Geometry.CenteredAt | iDo/Components/DOToast.swift:90-94 | setting `center` keeps the size and puts the midpoint there (also iDo/Classic/Toast.swift:107) |
| CocoaCG.Offset | iDo/Cocoa/CGs+iDo.swift:13-18 | the point moves by exactly (dx, dy) |
| CocoaCG.SizeAdd | iDo/Cocoa/CGs+iDo.swift:23-28 | the size grows by (dw, dh) componentwise |
| CocoaCG.RectAdd | iDo/Cocoa/CGs+iDo.swift:33-38 | the origin stays and the size grows by (dw, dh) |
| CocoaCG.RectSub | iDo/Cocoa/CGs+iDo.swift:41-46 | the origin stays and the size shrinks by (dw, dh) |
| CocoaCG.RectOffset | iDo/Cocoa/CGs+iDo.swift:49-57 | with sync the origin moves and maxX and maxY stay put; without sync it is a pure translation that keeps the size |
| CocoaCG.SubUndoesAdd | iDo/Cocoa/CGs+iDo.swift:33-46 | `sub` undoes `add` and `add` undoes `sub` |
| ExtensionsCG.PointOffset | iDo/Extensions/CG+iDo.swift:19-24 | the point moves by (x, y) |
| ExtensionsCG.SizeExtend | iDo/Extensions/CG+iDo.swift:44-49 | the size grows by (width, height) |
| ExtensionsCG.RectOffset | iDo/Extensions/CG+iDo.swift:59-61 | the origin moves and the size is kept |
| ExtensionsCG.RectExtend | iDo/Extensions/CG+iDo.swift:67-69 | the origin is kept and the size grows |
| ExtensionsCG.Resize | iDo/Extensions/CG+iDo.swift:98-129 | the size always grows by (width, height); the named reference point (centre, a corner or an edge midpoint) keeps its place |
| ExtensionsCG.PaddedBoxHoldsContent | iDo/Extensions/CG+iDo.swift:136-139 | a content box extended by `horizontal` and `vertical` leaves exactly left/right/top/bottom around the content |
| Measure.WidestIsMax | iDo/Poper/IDOTablePopover.swift:187-196 | the running maximum is at least every measured width, is one of them, and is 0 for no texts |
| AnyValues.StringsUnder | iDo/Poper/IDOTablePopover.swift:153-154 | `compactMap` of the string casts keeps only string values, in record order, at most one per record |
| AnyValues.StringsUnderPicksStrings | iDo/Poper/IDOTablePopover.swift:153-154 | the texts are exactly the string values, one for each record that holds a string under the key, in increasing record order; records without one are skipped |
| AnyValues.StringsUnderAll | iDo/Components/DOListPopover.swift:165-170 | when every record holds a string under the key, there is one text per record, in order |
| IDOPopover.ArrowHeight | iDo/Poper/IDOPopover.swift:65 | the notch is 8 deep when arrowed and absent otherwise |
| IDOPopover.SideOf | iDo/Poper/IDOPopover.swift:218-223 | `.left`/`.right` go left/right exactly when asked; the popover goes above exactly when it is located at the top |
| IDOPopover.AboveExactly | iDo/Poper/IDOPopover.swift:218-223 | above iff `.top`, or `.auto` with the anchor's midY strictly greater than half the screen height; `.bottom` is always below |
| IDOPopover.AutoTieGoesBelow | iDo/Poper/IDOPopover.swift:221 | an `.auto` anchor centred exactly on the middle line goes below |
| IDOPopover.ContainerSize | iDo/Poper/IDOPopover.swift:226-254 | whatever the fixed and content sizes, width ≤ screenWidth−16 and height ≤ screenHeight−statusHeight−16 |
| IDOPopover.RecomputedWidth | iDo/Poper/IDOPopover.swift:233-252 | a recomputed width is min(content+16+arrow, anchor.minX−8) on the left, min(content+16+arrow, screenWidth−8−anchor.maxX) on the right, else min(content+16, maxW) |
| IDOPopover.FixedSizeKept | iDo/Poper/IDOPopover.swift:227-229 | a fixed size with no zero side, within the maxima, is used as it is |
| IDOPopover.StaleHeightWhenWidthsMatch | iDo/Poper/IDOPopover.swift:241 | the height test compares widths: with no fixed size and a content width equal to the current one, the old height stays |
| IDOPopover.ContainerOrigin | iDo/Poper/IDOPopover.swift:257-279 | above/below: x is clamped to [8, screenWidth−8−w] around the anchor's midX and the box abuts the anchor's top or bottom; left/right: the box abuts the anchor's side (floored at 8 on the left) and y is clamped to [statusHeight+8, screenHeight−8−h] |
| IDOPopover.ContainerPlacement | iDo/Poper/IDOPopover.swift:226-288 | after `containerViewRect` the container lies inside the screen margins on the clamped axis and touches the anchor on the other |
| IDOPopover.SubviewFrame | iDo/Poper/IDOPopover.swift:291-307 | the payload is inset 8 on every side, and a further arrowHeight on the side that faces the anchor |
| IDOPopover.ArrowAnchor | iDo/Poper/IDOPopover.swift:147-161 | the arrow apex lies on the content edge facing the anchor, in line with the anchor's midpoint |
| IDOPopover.ArrowMaskOf | iDo/Poper/IDOPopover.swift:164-211 | the body rectangle leaves room for the notch (with the literal 8 on the right side); the two base vertices sit arrowHeight back from the apex and ±arrowHeight along the edge |
| IDOPopover.NotchBaseOnBodyEdge | iDo/Poper/IDOPopover.swift:175-205 | for an arrowed popover the notch's base lies on the body's facing edge and its apex on the content's edge |
| IDOPopover.EntranceStart | iDo/Poper/IDOPopover.swift:315-340 | fade starts from the final frame, zoom from a zero box at the apex, and expand from a zero-width or zero-height strip at the apex |
| IDOPopover.ArrowTipTouchesAnchor | iDo/Poper/IDOPopover.swift:147-161 | once laid out, the apex in window coordinates is on the anchor's facing edge, at its midpoint |
| IDOPopover.SubviewInsideMaskBody | iDo/Poper/IDOPopover.swift:291-307 | the payload frame lies inside the arrow mask's body on every side |
| IDOPopover.Popover.constructor | iDo/Poper/IDOPopover.swift:87-103 | a new popover has zero frames, no mask and is not in the window |
| IDOPopover.Popover.ContainerViewSize | iDo/Poper/IDOPopover.swift:226-254 | the container's size becomes `ContainerSize` of the old size and the origin stays |
| IDOPopover.Popover.ContainerViewOrigin | iDo/Poper/IDOPopover.swift:257-279 | the origin becomes `ContainerOrigin` of the current size and the size stays |
| IDOPopover.Popover.ContainerViewRect | iDo/Poper/IDOPopover.swift:282-288 | the container gets the sized and placed rect, and the content view fills it |
| IDOPopover.Popover.DrawArrow | iDo/Poper/IDOPopover.swift:164-211 | the mask is the notched shape when arrowed and none otherwise |
| IDOPopover.Popover.LayoutSubviewOfContentView | iDo/Poper/IDOPopover.swift:291-309 | the payload frame is `SubviewFrame` and the arrow is redrawn |
| IDOPopover.Popover.ShowWithAnimations | iDo/Poper/IDOPopover.swift:315-345 | the entrance starts from `EntranceStart` for the animation style |
| IDOPopover.Popover.Show | iDo/Poper/IDOPopover.swift:123-131 | the popover is in the window afterwards exactly when it already was or a key window exists; one that was not in the window runs its entrance either way |
| IDOPopover.Popover.Dismiss | iDo/Poper/IDOPopover.swift:134-136 | the popover leaves the window |
| IDOPopover.Popover.TouchesEnded | iDo/Poper/IDOPopover.swift:110-117 | only a touch outside the container dismisses |
| IDOPopover.Popover.Present | iDo/Poper/IDOTextPopover.swift:48-52 | a subclass's `show` leaves every popover field stated (`Presented`): the container rect, the content view filling it, the payload frame and arrow mask, the key window joined when there is one, and an entrance recorded only for a popover not yet in a window |
| IDOTablePopover.TextsOf | iDo/Poper/IDOTablePopover.swift:141 | for string contents, one text per content, in order |
| IDOTablePopover.MaxLength | iDo/Poper/IDOTablePopover.swift:187-196 | the loop returns the widest measured text at the row height: no smaller than any, equal to one, 0 for none |
| IDOTablePopover.RowCount | iDo/Poper/IDOTablePopover.swift:203-205 | one row per content, none without contents |
| IDOTablePopover.MissingKeysThrow | iDo/Poper/IDOTablePopover.swift:147-150 | dictionary contents with nil or empty keys throw −1004 whenever the width is estimated |
| IDOTablePopover.OneKeyThrowsUnlessPureText | iDo/Poper/IDOTablePopover.swift:158-161 | with one key, estimation fails iff the layout is not plain text, and then with −1005 |
| IDOTablePopover.HeightIsRows | iDo/Poper/IDOTablePopover.swift:180-182 | without a fixed height the height is rowHeight × count, and 0 without contents |
| IDOTablePopover.FixedSizeWins | iDo/Poper/IDOTablePopover.swift:136-183 | a fixed size with no zero side comes back unchanged |
| IDOTablePopover.StringWidthUnclamped | iDo/Poper/IDOTablePopover.swift:141-146 | string contents get the widest text plus 33 with the indicator, never clamped, and at least each text's width |
| IDOTablePopover.RecordWidthClamped | iDo/Poper/IDOTablePopover.swift:171-175 | dictionary widths never exceed the room beside or across the anchor minus 32 |
| IDOTablePopover.IconLayoutsReserveIcon | iDo/Poper/IDOTablePopover.swift:158-169 | icon layouts always add 33 to the widest title or subtitle |
| IDOTablePopover.IsDisabled | iDo/Poper/IDOTablePopover.swift:357-371 | the first typed probe that finds a string or a bool decides, "isDisabled" before "disabled"; otherwise false |
| IDOTablePopover.IsDisabledShadowsDisabled | iDo/Poper/IDOTablePopover.swift:358-360 | a non-"true" string under "isDisabled" enables the row whatever "disabled" holds |
| IDOTablePopover.IconLayoutsSwapKeys | iDo/Poper/IDOTablePopover.swift:337-351 | icon-text takes the icon from keys[0] and the title from keys[1], text-icon the reverse; a missing second key gives nil |
| IDOTablePopover.Cell.constructor | iDo/Poper/IDOTablePopover.swift:259-261 | a new cell shows nothing and is enabled |
| IDOTablePopover.Cell.ApplyValues | iDo/Poper/IDOTablePopover.swift:333-354 | a string sets the title; a dictionary with a key fills the parts its layout uses and the disabled state; anything else changes nothing |
| IDOTablePopover.TablePopover.constructor | iDo/Poper/IDOTablePopover.swift:65-78 | a new table popover has no contents and no keys |
| IDOTablePopover.PureTextRecordsWidth | iDo/Poper/IDOTablePopover.swift:152-157 | plain text is the widest string under the first key (0 when none), plus 33 only with the indicator |
| IDOTablePopover.TwoKeyRecordsWidth | iDo/Poper/IDOTablePopover.swift:158-170 | the other layouts take the wider of the widest title and the widest subtitle (0 when none), plus 33 only for the icon layouts; the width is one of the measured texts plus that pad |
| IDOTablePopover.RecordsWidth | iDo/Poper/IDOTablePopover.swift:147-175 | nil or empty keys give −1004; the only other error is −1005, for a single key with a layout that is not plain text |
| IDOTablePopover.EstimatedSize | iDo/Poper/IDOTablePopover.swift:135-184 | errors (−1004 or −1005 only) arise only without a fixed width and with dictionary contents; a nonzero fixed width or height is kept in the result; without a fixed width, dictionary contents give `RecordsWidth`'s error or the smaller of its width and the room beside the anchor |
| IDOTablePopover.TablePopover.RecordsContentWidth | iDo/Poper/IDOTablePopover.swift:147-170 | the dictionary branch's width or error equals `RecordsWidth` |
| IDOTablePopover.TablePopover.EstimationSize | iDo/Poper/IDOTablePopover.swift:135-184 | the step-by-step size equals `EstimatedSize`, about which the lemmas above speak |
| IDOTablePopover.TablePopover.Show | iDo/Poper/IDOTablePopover.swift:90-99 | exactly when estimation succeeds the popover is `Presented` at the estimated size (all frames, mask, window and entrance stated); on an error the popover is untouched |
| IDOImagePopover.FixedImageSize | iDo/Poper/IDOImagePopover.swift:81-90 | a fixed side ≤ 0 throws −1002; otherwise fixed − (16+arrow, 16) on the left/right and fixed − (16, 16+arrow) above/below |
| IDOImagePopover.FixedImageFillsSubview | iDo/Poper/IDOImagePopover.swift:86-89 | the fixed-size image is exactly the payload frame the popover gives it |
| IDOImagePopover.SourcePriority | iDo/Poper/IDOImagePopover.swift:80-116 | fixed size, image, local path, remote path: the first present decides; none throws −1000 |
| IDOImagePopover.LocalLoadReportsZero | iDo/Poper/IDOImagePopover.swift:137-155 | a missing file throws −1001, a read error is rethrown, and a successful load reports a zero size |
| IDOImagePopover.ImagePopover.constructor | iDo/Poper/IDOImagePopover.swift:49-55 | a new image popover has no sources, no image and is loading |
| IDOImagePopover.ImagePopover.LoadLocalImage | iDo/Poper/IDOImagePopover.swift:137-156 | the result equals `LocalResult` and the image view's image is replaced only when the file was read |
| IDOImagePopover.ImagePopover.LoadRemoteImage | iDo/Poper/IDOImagePopover.swift:159-194 | an existing image gives its size, a parseable URL 120×120, anything else −1003; a spinner is added while loading |
| IDOImagePopover.ImagePopover.EstimationImageSize | iDo/Poper/IDOImagePopover.swift:79-117 | the result equals `EstimatedImageSize` |
| IDOImagePopover.ImagePopover.Show | iDo/Poper/IDOImagePopover.swift:64-72 | exactly when the estimation succeeds the popover is `Presented` at that size, and on an error it is untouched; the image view's image and spinner count end as the estimation leaves them |
| IDOTextPopover.EstimationTextSize | iDo/Poper/IDOTextPopover.swift:59-85 | a nonzero fixed side is kept; a measured width is the smaller of the text width and the room beside or across the anchor; the height is measured at that width, less the insets only for a positive fixed width |
| IDOTextPopover.NoTextNoSize | iDo/Poper/IDOTextPopover.swift:60-84 | no text and no fixed size give a zero size |
| IDOTextPopover.HeightMeasuredAtSubviewWidth | iDo/Poper/IDOTextPopover.swift:74-83 | with a fixed width the height is measured at exactly the payload width the layout gives |
| IDOTextPopover.TextPopover.constructor | iDo/Poper/IDOTextPopover.swift:26-38 | no text, font size 15 |
| IDOTextPopover.TextPopover.Show | iDo/Poper/IDOTextPopover.swift:48-52 | always `Presented` at `EstimationTextSize` (all frames, mask, window and entrance stated) |
| DOListPopover.DefaultKeys | iDo/Components/DOListPopover.swift:164-168 | ["name"] for text and ["image", "name"] with icons: the name is always the last key |
| DOListPopover.CollectedTexts | iDo/Components/DOListPopover.swift:155-172 | strings win over contents; contents are read only when no strings are set |
| DOListPopover.EstimateWidth | iDo/Components/DOListPopover.swift:148-204 | a width exactly when some text is found to display |
| DOListPopover.EstimateWidthCases | iDo/Components/DOListPopover.swift:149-204 | nil when both sources are nil, when keys are empty, or when no text is found; otherwise the widest text + 25 for icons + 20 for the check mark |
| DOListPopover.DefaultKeysReadNames | iDo/Components/DOListPopover.swift:162-170 | without keys, dictionaries holding a "name" string give one text per dictionary, in order |
| DOListPopover.IndexOf | iDo/Components/DOListPopover.swift:308 | the first position of the row |
| DOListPopover.TapToggles | iDo/Components/DOListPopover.swift:306-320 | a selected row is removed; an unselected one is appended (multi) or becomes the only one (single); other rows keep their state |
| DOListPopover.TapKeepsSelectionValid | iDo/Components/DOListPopover.swift:306-320 | taps keep the selection free of duplicates and, in single-select, at most one row; only the tapped row can join |
| DOListPopover.TappedRowsBelow | iDo/Components/DOListPopover.swift:306-320 | tapping a displayed row keeps every selected row among the displayed ones |
| DOListPopover.TextsOfRows | iDo/Components/DOListPopover.swift:129-133 | one string per selected row, in selection order |
| DOListPopover.HideReport | iDo/Components/DOListPopover.swift:126-141 | a report iff the handler is set and the selection is not empty: all rows with their strings (multi) or the first row with its string (single) |
| DOListPopover.Tapped | iDo/Components/DOListPopover.swift:306-320 | no change without selection; a selected row leaves (one fewer); an unselected row is appended after the old selection (multi) or is the whole selection (single) |
| DOListPopover.StaleSelectionOutlivesReshow | iDo/Components/DOListPopover.swift:126-178 | a row selected among five strings is still selected after the strings are replaced by two, so `hide` would read `_strings![4]` out of range |
| DOListPopover.ListPopover.constructor | iDo/Components/DOListPopover.swift:77-86 | text style, selection allowed, single-select, nothing to display, nothing selected |
| DOListPopover.WidestText | iDo/Components/DOListPopover.swift:180-192 | the measuring loop returns the widest text at the row height, `Widest`, which `WidestIsMax` shows is no smaller than any and equal to one |
| DOListPopover.ListPopover.CollectTexts | iDo/Components/DOListPopover.swift:149-172 | the texts are `CollectedTexts` of the old keys; the keys in use are written back exactly when contents are read |
| DOListPopover.ListPopover.CalculateEstimateWidth | iDo/Components/DOListPopover.swift:148-205 | the result equals `EstimateWidth`; the keys in use are written back only when contents are read; the texts become the displayed strings |
| DOListPopover.ListPopover.GenView | iDo/Components/DOListPopover.swift:225-257 | the container is the size plus the content margins |
| DOListPopover.ListPopover.CalculateContainerSize | iDo/Components/DOListPopover.swift:208-222 | a positive fixed width is used with rowHeight × count for a non-positive height; otherwise the estimated width with rowHeight × count, or nothing, and the keys and displayed texts change as in `CalculateEstimateWidth` |
| DOListPopover.ListPopover.Hide | iDo/Components/DOListPopover.swift:126-141 | requires only that the rows `hide` reads exist when it reads them; the handler is told `HideReport` iff it is set and the selection is not empty |
| DOListPopover.ListPopover.DidSelectRow | iDo/Components/DOListPopover.swift:306-320 | needs only duplicate-free selections and a displayed row; the selection becomes `Tapped` and stays duplicate-free, a valid popover stays valid, and a single-select tap on a new row hides and reports it |
| DOTextPopover.SizeOf | iDo/Components/DOTextPopover.swift:47-92 | a fully positive fixed size comes back as is; one fixed side measures once in (∞, h) or (w, ∞); otherwise widening from the estimate, 80 by default |
| DOTextPopover.WidthAfterShift | iDo/Components/DOTextPopover.swift:87-89 | restarting from start + 2 × point size is one step further along the same widths |
| DOTextPopover.WidthAfterGrows | iDo/Components/DOTextPopover.swift:87-89 | with a non-negative point size, every width the widening tries is at least the start |
| DOTextPopover.WidenNoneIffNoFit | iDo/Components/DOTextPopover.swift:87-91 | widening gives up exactly when no width it may try fits |
| DOTextPopover.WidenGivesFirstFit | iDo/Components/DOTextPopover.swift:87-91 | widening stops at the first width whose measured height is no more than the width |
| DOTextPopover.WidenedSizeFits | iDo/Components/DOTextPopover.swift:86-91 | a widened result was measured at a width at least the start, and fits it |
| DOTextPopover.ContainerSizeOf | iDo/Components/DOTextPopover.swift:104-111 | with a fixed size the measured size; otherwise the size measured from 80 plus the margins |
| DOTextPopover.TextPopover.constructor | iDo/Components/DOTextPopover.swift:14-37 | no text, font 15, no views yet |
| DOTextPopover.TextPopover.GenViews | iDo/Components/DOTextPopover.swift:95-134 | with nothing to show nothing changes; otherwise the container gets `ContainerSizeOf` and the text view its text |
| DOTextPopover.TextPopover.SetText | iDo/Components/DOTextPopover.swift:15-20 | setting the text regenerates the plain views |
| DOTextPopover.TextPopover.SetAttributedText | iDo/Components/DOTextPopover.swift:23-28 | setting the attributed text regenerates the attributed views |
| DOToast.SizeOf | iDo/Components/DOToast.swift:153-169 | the result is a measurement at a width w ≥ the start that fits or reached the style's bound (half or three quarters of the screen), and w overshoots the bound by less than one step |
| DOToast.SizeOfIsFirstStop | iDo/Components/DOToast.swift:153-169 | the result is the measurement at the first width on the grid start + k × 2 × point size that fits or reaches the bound; every earlier width neither fits nor reaches it |
| DOToast.ContentSize | iDo/Components/DOToast.swift:83-87 | the content is the text plus 20 in height and plus 40 (bottom) or 20 (centre) in width |
| DOToast.PlacedFrame | iDo/Components/DOToast.swift:88-95 | the size is kept and the midX is the centre's; centre style puts the midY at the centre, bottom style puts the top edge 0.7 × height below the screen |
| DOToast.SlideTarget | iDo/Components/DOToast.swift:188-194 | sliding in, the bottom edge rests 55 above the screen's bottom; sliding out, the top edge is at or below the screen's bottom |
| DOToast.FirstMeasurementKept | iDo/Components/DOToast.swift:159-168 | the first measurement is kept when it fits or the start is at the bound |
| DOToast.BottomStartsOffScreen | iDo/Components/DOToast.swift:88-91 | a bottom toast is placed entirely below the screen |
| DOToast.BottomEntranceRestsAboveEdge | iDo/Components/DOToast.swift:188-196 | a bottom toast slides in to rest 55 above the screen's bottom, centred across |
| DOToast.Toast.constructor | iDo/Components/DOToast.swift:44-50 | a new toast is cancelable, reverses on hide and is not in the window |
| DOToast.Toast.Fade | iDo/Components/DOToast.swift:176-185 | the alpha ends at `to`; a fade to ≤ 0 removes the view |
| DOToast.Toast.Slide | iDo/Components/DOToast.swift:188-202 | the content moves to 55 above the bottom going in, and to twice the screen height going out, which removes the view |
| DOToast.Toast.Show | iDo/Components/DOToast.swift:76-110 | text + (40, 20) from the bottom or + (20, 20) in the centre; radius half the height or 5; only a toast not yet showing is animated in and given a pending hide, and it joins the window only when a key window exists; `cancelable` is not stored |
| DOToast.Toast.Hide | iDo/Components/DOToast.swift:113-121 | slides out only when reversing and from the bottom, otherwise fades out; either way it leaves the window |
| DOToast.Toast.TouchesBegan | iDo/Components/DOToast.swift:56-64 | hides exactly when cancelable and the touch is outside the content frame, leaving the frame and alpha as `Hide` does (`Hidden`); otherwise nothing changes |
| DOLoading.ContentSide | iDo/Components/DOLoading.swift:70-73 | the square's side is min(65, parent width / 2, parent height / 2) |
| DOLoading.CircleInsideSquare | iDo/Components/DOLoading.swift:232-241 | the arc is centred in the content with radius 0.55 × h/2, so the disk stays inside the square |
| DOLoading.Loading.constructor | iDo/Components/DOLoading.swift:47-64 | not loading, 65 × 65 content, no circle and no indicator |
| DOLoading.Loading.Show | iDo/Components/DOLoading.swift:96-107 | moving into a different view (the key window by default) marks the circle for rebuilding; the same view, or none, changes nothing |
| DOLoading.Loading.Hide | iDo/Components/DOLoading.swift:110-115 | both flags cleared, the circle's animations removed, the overlay out of its view |
| DOLoading.Loading.StartSystemIndicator | iDo/Components/DOLoading.swift:133-144 | the circle leaves the content; the indicator exists, is in the content and spins |
| DOLoading.Loading.StartClassicAnimating | iDo/Components/DOLoading.swift:147-186 | the indicator leaves the content; an existing circle gets the animation group |
| DOLoading.Loading.StartAnimating | iDo/Components/DOLoading.swift:122-130 | nothing while loading; otherwise both flags are set and every view flag is stated per mode: classic animates the circle if there is one and takes the system indicator off, system creates, attaches and animates the indicator and takes the circle off |
| DOLoading.Loading.CreateCircleLayerIfNeeded | iDo/Components/DOLoading.swift:226-247 | an existing circle is kept unless asked; otherwise the circle for the current content size replaces it |
| DOLoading.Loading.Draw | iDo/Components/DOLoading.swift:68-79 | nothing without a parent; otherwise the square side, a rebuild only when marked and classic (clearing the mark), then `startAnimating`; every field it may change is stated, and a circle rebuilt while already loading is attached but stays still |
| DOImageLoop.SwiftRem | iDo/Components/DOImageLoop.swift:110-112 | Swift's truncating `%`: the dividend minus the result is a multiple of n, the result is strictly inside (−\|n\|, \|n\|), and a nonzero result has the dividend's sign |
| DOImageLoop.SwiftRemKeepsSign | iDo/Components/DOImageLoop.swift:110 | −1 % 3 is −1 in Swift, 2 in Dafny |
| DOImageLoop.SlotsAreNeighbours | iDo/Components/DOImageLoop.swift:110-112 | for −1 ≤ c ≤ n the slots are (c−1) mod n, c mod n, (c+1) mod n, all valid indices |
| DOImageLoop.ScrollRotates | iDo/Components/DOImageLoop.swift:109-112 | after a scroll the middle slot shows the previous image for slot 0 and the next for slot 2 |
| DOImageLoop.ImageLoop.constructor | iDo/Components/DOImageLoop.swift:33-35 | no images, page 0, not yet offset |
| DOImageLoop.ImageLoop.Draw | iDo/Components/DOImageLoop.swift:48-53 | the first draw scrolls to the middle slot; later draws change nothing |
| DOImageLoop.ImageLoop.ResetImage | iDo/Components/DOImageLoop.swift:108-121 | the slots are `SlotsOf` the current index, the page is the middle slot and the scroll is recentred |
| DOImageLoop.ImageLoop.SetImages | iDo/Components/DOImageLoop.swift:64-78 | an empty list changes nothing; otherwise the images are stored, the page control is hidden and scrolling off exactly for one image, and the loop starts at image 0 |
| DOImageLoop.ImageLoop.TimerFired | iDo/Components/DOImageLoop.swift:124-126 | the tick scrolls to the right slot |
| DOImageLoop.ImageLoop.ScrollEnded | iDo/Components/DOImageLoop.swift:131-135 | ending on the middle slot changes nothing; otherwise the loop resets around the slot reached |
| DateShortcuts.AllListsEachOnce | iDo/Classic/DateRangePicker.swift:39-41 | `Shortcut.all` lists the twelve shortcuts once each, today first and year last |
| DateShortcuts.BeginOfDay | iDo/Classic/DateRangePicker.swift:359-364 | 00:00:00 on the same day |
| DateShortcuts.EndOfDay | iDo/Classic/DateRangePicker.swift:367-372 | 23:59:59 on the same day |
| DateShortcuts.SeptemberStartsNextQuarter | iDo/Classic/DateRangePicker.swift:405-417 | as written, September's quarter starts in October, after today |
| DateShortcuts.QuarterStartHoldsMonth | iDo/Classic/DateRangePicker.swift:405-417 | corrected, the quarter start is 1, 4, 7 or 10 and the month lies in its three months |
| DateShortcuts.QuarterStartDiffersOnlyInSeptember | iDo/Classic/IDODateRangePicker.swift:321-333 | the written and corrected tables differ in September only |
| DateShortcuts.QuarterStartAsWritten | iDo/Classic/DateRangePicker.swift:405-417 | as written, the start is 1, 4, 7 or 10 and holds the month for every month but September, whose start is October |
| DateShortcuts.QuarterStart | iDo/Classic/DateRangePicker.swift:405-417 | corrected, the start is 1, 4, 7 or 10 and the month lies in its three months |
| DateShortcuts.ShortcutRange | iDo/Classic/DateRangePicker.swift:374-440 | every shortcut begins on a date at 00:00:00 and ends now or at 23:59:59 of a date |
| DateShortcuts.PickerDates | iDo/Classic/DateRangePicker.swift:348-441 | editing the components in place gives `ShortcutRange` (with the as-written quarter table) for a known tag, and nothing for an unknown one |
| DateShortcuts.BeginsAtMidnight | iDo/Classic/DateRangePicker.swift:374-440 | every shortcut's begin date is at 00:00:00 |
| DateShortcuts.EndsNowUnlessWholeDays | iDo/Classic/DateRangePicker.swift:374-440 | every shortcut but yesterday and last year ends now |
| DateShortcuts.YesterdayIsOneWholeDay | iDo/Classic/DateRangePicker.swift:378-381 | yesterday runs from 00:00:00 to 23:59:59 of day − 1 |
| DateShortcuts.LastYearIsPreviousCalendarYear | iDo/Classic/DateRangePicker.swift:432-440 | last year runs from 1 January 00:00:00 to 31 December 23:59:59 of year − 1 |
| DateShortcuts.RollingOffsets | iDo/Classic/DateRangePicker.swift:382-431 | three days, a week, a month, a quarter and a year begin day−3, day−7, month−1, month−3 and year−1 at midnight |
| DateShortcuts.AlignedStarts | iDo/Classic/DateRangePicker.swift:397-426 | this month, quarter and year begin on day 1 of the month, of the quarter's first month (October for a September date, as written) and of January |
| DateShortcuts.ButtonFrames | iDo/Classic/DateRangePicker.swift:211-227 | the loop gives button i the frame (0, 46·i, 65, 40) and a content height of 46 × count |
| DateShortcuts.ButtonsStackWithGaps | iDo/Classic/DateRangePicker.swift:214-227 | buttons are 6 apart and all inside the scroll content |
| DateRangePicker.EstimationWidthFits | iDo/Classic/DateRangePicker.swift:241-248 | 70% or 90% of the screen by shortcuts, 5% more at 320: always narrower than the screen, 304 and 240 at 320 |
| DateRangePicker.RangePicker.constructor | iDo/Classic/DateRangePicker.swift:108-130 | centred, no shortcuts, both dates now, off screen |
| DateRangePicker.RangePicker.SetShortcuts | iDo/Classic/DateRangePicker.swift:211-235 | one button per shortcut at `ButtonFrame(i)`, content height 46 × count, none selected, the column attached |
| DateRangePicker.RangePicker.SetDatePicker | iDo/Classic/DateRangePicker.swift:348-441 | a known shortcut sets both dates to its range; an unknown tag leaves them |
| DateRangePicker.RangePicker.OnShortcut | iDo/Classic/DateRangePicker.swift:338-345 | only the tapped button is selected and its shortcut sets the dates |
| DateRangePicker.RangePicker.Show | iDo/Classic/DateRangePicker.swift:160-185 | the handler is kept; the picker goes on screen when there is a key window |
| DateRangePicker.RangePicker.Dismiss | iDo/Classic/DateRangePicker.swift:301-332 | the dates are reported iff the submit button was tapped and a handler is set; either button hides |
| IDODateRangePicker.EstimationWidthFits | iDo/Classic/IDODateRangePicker.swift:181-188 | 70% in the centre and 90% at the bottom, 5% more at 320: always narrower than the screen |
| IDODateRangePicker.EstimationWidthAgainstClassic | iDo/Classic/IDODateRangePicker.swift:181-188 | the two pickers' widths agree exactly when bottom placement matches having shortcuts |
| IDODateRangePicker.RangePicker.constructor | iDo/Classic/IDODateRangePicker.swift:78-104 | centred, no shortcuts, both dates now, off screen |
| IDODateRangePicker.RangePicker.SetShortcuts | iDo/Classic/IDODateRangePicker.swift:151-175 | one button per shortcut at `ButtonFrame(i)`, content height 46 × count |
| IDODateRangePicker.RangePicker.SetDatePicker | iDo/Classic/IDODateRangePicker.swift:264-359 | a known shortcut sets both dates to its range; an unknown tag leaves them |
| IDODateRangePicker.RangePicker.OnShortcut | iDo/Classic/IDODateRangePicker.swift:254-261 | only the tapped button is selected and its shortcut sets the dates |
| IDODateRangePicker.RangePicker.Show | iDo/Classic/IDODateRangePicker.swift:114-125 | the handler is kept; the control goes on screen only when it already was or a key window exists |
| IDODateRangePicker.RangePicker.Dismiss | iDo/Classic/IDODateRangePicker.swift:241-248 | the dates are reported iff submit and a handler is set; the control hides |
| Toast.FromRaw | iDo/Classic/Toast.swift:26-33 | never fails: 1500, 2500 and 5000 are the named cases, and anything else is `.other` of itself |
| Toast.RawValue | iDo/Classic/Toast.swift:36-43 | corrected: 1500, 2500 and 5000 for the named cases, s for `.other(s)` |
| Toast.AsWrittenRoundTripIff | iDo/Classic/Toast.swift:26-43 | as written, a raw value survives `init?(rawValue:)` then `rawValue` iff it is not 1500, 2500 or 5000 |
| Toast.AsWrittenShortDrifts | iDo/Classic/Toast.swift:28-38 | as written, `.short` is made from 1500 but reports 1000 |
| Toast.RawRoundTrip | iDo/Classic/Toast.swift:26-43 | corrected, every raw value round-trips |
| Toast.DurationRoundTripIff | iDo/Classic/Toast.swift:26-43 | a duration round-trips iff it is not an `.other` holding a named length |
| Toast.RawValueAsWritten | iDo/Classic/Toast.swift:36-43 | as written, `.medium` reports 1500, `.long` 2500, `.short` less than 1500, and `.other(s)` s |
| Toast.HideDelay | iDo/Classic/Toast.swift:139 | 0.35 s plus the as-written milliseconds: equal to the intended delay for `.other`, shorter for every named case |
| Toast.NamedDelays | iDo/Classic/Toast.swift:139 | as written the fade-out waits 1.35, 1.85 and 2.85 s for short, medium and long, against 1.85, 2.85 and 5.35 s intended; never less than 0.35 s |
| Toast.LabelFrame | iDo/Classic/Toast.swift:114 | the label spans 15 to width − 15 across and 15 to text height + 15 down |
| Toast.PlacedFrame | iDo/Classic/Toast.swift:104-111 | the content keeps its size and is centred across; centre style centres it vertically, bottom style puts its midY on the bottom edge |
| Toast.ShownFrame | iDo/Classic/Toast.swift:104-136 | after the animation, centre style is centred and bottom style rests with its bottom edge 65 above the screen's bottom, centred across |
| Toast.TextWidth | iDo/Classic/Toast.swift:95-98 | the box is 35% of the screen when the single-line text fits within 35% − 30, and 50% otherwise |
| Toast.TextWidthMonotone | iDo/Classic/Toast.swift:95-98 | a longer text never gets a narrower box |
| Toast.LabelInsetFifteen | iDo/Classic/Toast.swift:101-114 | the content is the text height + 30 high and the label sits 15 inside each edge |
| Toast.BottomRises | iDo/Classic/Toast.swift:106-136 | a bottom toast starts centred on the bottom edge and rises to rest 65 above it, centred across |
| Toast.Toast.constructor | iDo/Classic/Toast.swift:71-89 | not rounded, transparent, nothing attached, nothing pending |
| Toast.Toast.LayOut | iDo/Classic/Toast.swift:95-115 | the box is `TextWidth` wide and the measured height + 30 high, placed by `PlacedFrame`, with the radius and the label frame that follow; the text is set |
| Toast.Toast.Show | iDo/Classic/Toast.swift:92-146 | the frame, radius and label follow from the measured text; the content is opaque and attached; the container joins a key window; a fade-out is scheduled after `HideDelay`, the as-written delay |
| Toast.Toast.HideFired | iDo/Classic/Toast.swift:139-145 | the content becomes transparent and the container leaves the window |
| UIColorHex.Rgb | iDo/Cocoa/UIColor+iDo.swift:19-25 | alpha is 1; values in 0–255 give components in 0–1 |
| UIColorHex.Rgba | iDo/Cocoa/UIColor+iDo.swift:33-40 | fewer than four values give alpha 0; values in 0–255 give all four components in 0–1 |
| UIColorHex.Cleaned | iDo/Cocoa/UIColor+iDo.swift:45-47 | the cleaned string holds no "#" |
| UIColorHex.NormaliseRange | iDo/Cocoa/UIColor+iDo.swift:20 | a component above 1 is divided by 255, one at or below 1 is kept, so 0–255 maps into 0–1 |
| UIColorHex.RgbIsOpaqueRgba | iDo/Cocoa/UIColor+iDo.swift:19-40 | `rgb` is `rgba` of the first three values (0 when missing) with alpha 1 |
| UIColorHex.ExtraValuesIgnored | iDo/Cocoa/UIColor+iDo.swift:21-39 | values beyond the third (`rgb`) or fourth (`rgba`) change nothing |
| UIColorHex.RgbaWithoutAlphaIsTransparent | iDo/Cocoa/UIColor+iDo.swift:35-39 | `rgba` with fewer than four values has alpha 0 |
| UIColorHex.OneIsAFraction | iDo/Cocoa/UIColor+iDo.swift:20 | `rgb(1, 1, 1)` is white while `rgb(2, 2, 2)` is nearly black |
| UIColorHex.RemoveCharLeavesNone | iDo/Cocoa/UIColor+iDo.swift:46-47 | deleting "#" leaves no "#" and keeps every other character |
| UIColorHex.RemoveAbsent | iDo/Cocoa/UIColor+iDo.swift:46 | a string lacking a character of the pattern is unchanged |
| UIColorHex.CleaningCanLeaveAPrefix | iDo/Cocoa/UIColor+iDo.swift:45-47 | one pass each can leave a "0X": "0#X1" cleans to "0X1" |
| UIColorHex.DigitValue | iDo/Cocoa/UIColor+iDo.swift:52 | a hex digit is worth less than 16 |
| UIColorHex.ParseUInt64 | iDo/Cocoa/UIColor+iDo.swift:52 | a parse is below 2^64 and needs at least one character |
| UIColorHex.FromHex | iDo/Cocoa/UIColor+iDo.swift:43-63 | a colour iff the cleaned string parses; opaque for at most six characters; every component in [0, 1] |
| UIColorHex.ThreeDigitsAreNotShorthand | iDo/Cocoa/UIColor+iDo.swift:50-59 | "#FFF" is 0x000FFF, not white |
| UIColorHex.HexValueOfHex8 | iDo/Cocoa/UIColor+iDo.swift:52 | formatted digits spell the bytes back in base 16 |
| UIColorHex.Hex8IsUpper | iDo/Cocoa/UIColor+iDo.swift:45 | the formatted six and eight digits are upper-case hex, which `uppercased()` keeps |
| UIColorHex.CleanedDigits | iDo/Cocoa/UIColor+iDo.swift:45-47 | upper-case digits pass the cleaning untouched, with "#", "0x" or nothing in front |
| UIColorHex.Unpack | iDo/Cocoa/UIColor+iDo.swift:56-59 | the shifts and masks give the packed bytes back: bits 16–23 are r, 8–15 g, 0–7 b, and the rest a |
| UIColorHex.ParseHex8 | iDo/Cocoa/UIColor+iDo.swift:45-52 | "#" and eight formatted digits clean to the digits, which scan to the packed value |
| UIColorHex.ColorOfPacked | iDo/Cocoa/UIColor+iDo.swift:53-59 | r, g, b are bits 16–23, 8–15, 0–7 over 255; alpha bits 24–31 only for a long string, else 1 |
| UIColorHex.RoundTripRgb | iDo/Cocoa/UIColor+iDo.swift:43-63 | "#RRGGBB", "0xRRGGBB" and "RRGGBB" give back the three bytes over 255, opaque |
| UIColorHex.RoundTripRgba | iDo/Cocoa/UIColor+iDo.swift:43-63 | "#AARRGGBB" gives back all four bytes over 255 |
| UIColorHex.HexAgreesWithRgb | iDo/Cocoa/UIColor+iDo.swift:19-63 | the hex form and `rgb` of the same bytes agree, except where `rgb` reads a 1 as a fraction |
| StringSlices.Closed | iDo/Extensions/String+Extension.swift:18-22 | `s[a...b]` has b−a+1 characters, s[a] through s[b] |
| StringSlices.HalfOpen | iDo/Extensions/String+Extension.swift:27-31 | `s[a..<b]` has b−a characters, s[a] through s[b−1] |
| StringSlices.From | iDo/Extensions/String+Extension.swift:36-39 | `s[a...]` is the suffix after the first a characters |
| StringSlices.UpTo | iDo/Extensions/String+Extension.swift:44-47 | `s[..<b]` is the prefix of length b |
| StringSlices.Through | iDo/Extensions/String+Extension.swift:52-55 | `s[...b]` is the prefix of length b+1 |
| StringSlices.DocumentedExamples | iDo/Extensions/String+Extension.swift:15-55 | the documented results on "1234567890": "234", "23", "34567890", "123", "123" |
| StringSlices.ClosedIsHalfOpen | iDo/Extensions/String+Extension.swift:18-55 | `a...b` is `a..<b+1` and `...b` is `..<b+1` |
| StringSlices.SlicesCompose | iDo/Extensions/String+Extension.swift:27-47 | `..<b` and `b...` rebuild the string; `a..<b` is the suffix from a of `..<b` |
| StringSlices.RangeFromAsWritten | iDo/Extensions/String+Extension.swift:100-107 | as written, a range from a to b starts at a and ends at b, one short of the closed range; no range gives (0, count) |
| StringSlices.RangeFrom | iDo/Extensions/String+Extension.swift:100-107 | corrected, a range from a to b starts at a and ends just after b; no range gives (0, count) |
| StringSlices.ClosedRangeNeverEmpty | iDo/Extensions/String+Extension.swift:101-103 | the `isEmpty` branch never fires: a closed range always yields a range |
| StringSlices.AsWrittenDropsLast | iDo/Extensions/String+Extension.swift:104-106 | as written, the range for `a...b` covers it without its last character |
| StringSlices.AsWrittenExample | iDo/Extensions/String+Extension.swift:105 | styling "1234567890" in 1...3 touches "23" |
| StringSlices.RangeFromCoversSlice | iDo/Extensions/String+Extension.swift:100-107 | corrected, the range covers exactly `s[a...b]`; no range covers the whole string |
| StringChecked.ClosedSlice | iDo/Cocoa/String+iDo.swift:35-41 | with lower ≥ 0 and upper < count, characters lower through upper: upper−lower+1 of them |
| StringChecked.HalfOpenSlice | iDo/Cocoa/String+iDo.swift:44-50 | with lower ≥ 0 and upper ≤ count, characters lower up to upper: upper−lower of them |
| StringChecked.ClosedIsHalfOpenPlusOne | iDo/Cocoa/String+iDo.swift:35-50 | `s[a...b] == s[a..<b+1]`, and adjacent slices concatenate |
| StringChecked.WholeString | iDo/Cocoa/String+iDo.swift:35-50 | `0...count−1` and `0..<count` are the whole string |

## Left out

- Animations (`UIView.animate`, `CABasicAnimation`, `CAAnimationGroup`) are taken to their end states at once; durations, easing and interrupted animations are not modelled.
- Timers and delays (`Timer`, `RunLoop`, `DispatchQueue.asyncAfter`) are a list of pending delays, or an explicit call such as `Toast.Toast.HideFired` and `DOImageLoop.ImageLoop.TimerFired`. `DOImageLoop.start(duration:)`, `stop()` and `broken()` only drive the timer and are not modelled.
- Text measurement (`boundingRect`, `boundingWidth`, `boundingHeight`) is a parameter with non-negative results; `ceil` and the font's metrics are inside it.
- Floating point: `CGFloat` is a real number, with no rounding, NaN or infinity except the explicit unbounded measuring limit. `round` in the scroll index is replaced by the slot index given directly.
- `CGRect` accessors are not standardised: minX is origin.x and maxX is origin.x + width even for a negative width.
- Calendar normalisation (`Calendar.date(from:)`, `dateInterval(of: .weekOfYear)`) is abstract. A picker date is a record of components or "now". The start of the week is an input. `date(from:) ?? Date()` is taken to succeed.
- Shortcut buttons are found by `rawValue.hash`. The model passes the shortcut itself, so hash collisions between titles are not modelled.
- DateRangePicker.RangePicker.SetShortcuts: requires the new value to be set, because `setShortcuts()` force-unwraps `shortcuts!`. Its `else` branch that removes the column is therefore unreachable and not modelled.
- IDODateRangePicker.RangePicker.SetShortcuts: requires the new value to be set, for the same force-unwrap.
- The range pickers' `layoutSubviews` frames, titles, date formatting (`DateFormatter`, `timeIntervalSince1970`) and `setTitle(_:for:)` are view plumbing. `dismiss` reports the two picker dates rather than the formatted dictionaries.
- DOTextPopover.SizeOf: the widening recursion has no bound in the source. Here it carries a `fuel` count and gives `None` when the count runs out, so a text that never fits is not modelled.
- DOListPopover.CollectedTexts: requires `KeysFitStyle`, so the icon style with a single key, where the source's `ks[1]` at iDo/Components/DOListPopover.swift:170 traps, is excluded rather than modelled.
- DOListPopover.EstimateWidth: requires `KeysFitStyle`, for the same `ks[1]` trap.
- DOListPopover.EstimateWidthCases: requires `KeysFitStyle`, for the same `ks[1]` trap.
- DOListPopover.ListPopover.CalculateEstimateWidth: requires `KeysFitStyle` for the `ks[1]` trap. It does not promise `Valid()` afterwards, because selections made against the old strings are kept.
- DOListPopover.ListPopover.CalculateContainerSize: the same `KeysFitStyle` requirement and the same stale selections.
- DOListPopover.ListPopover.Hide: a selection that outlived a change of strings makes the source trap reading `_strings![index]` (iDo/Components/DOListPopover.swift:132, 137). Here that state is excluded by `HideReadsExist`, and `StaleSelectionOutlivesReshow` shows that it is reachable.
- DOImageLoop.ImageLoop.ScrollEnded: requires images unless the scroll ends on the middle slot. Before `setImages`, `images` is a nil implicitly unwrapped optional (iDo/Components/DOImageLoop.swift:34), and the reset from line 110 traps on it, or takes a remainder by zero for an empty list; both are excluded rather than modelled.
- DOListPopover.ListPopover.CollectTexts: requires `KeysFitStyle`, for the same `ks[1]` trap as `CollectedTexts`.
- DOTextPopover.MeasuredAt: an empty attributed string traps in the source at `attributes(at: 0, …)` (iDo/Components/DOTextPopover.swift:79). Here it is measured like any other text.
- DOTextPopover.SizeOf: measures an empty attributed string instead of trapping, as for `MeasuredAt`.
- DOTextPopover.ContainerSizeOf: the same empty attributed-string trap is not modelled.
- DOTextPopover.TextPopover.GenViews: the same empty attributed-string trap is not modelled.
- DOTextPopover.TextPopover.SetAttributedText: setting an empty attributed string succeeds here, where the source traps when it lays it out.
- StringSlices.RangeFrom: `NSRange` counts UTF-16 code units and `String` subscripts count `Character`s. The model treats every character as one unit, so text with surrogate pairs or combined characters is not covered.
- StringSlices.RangeFromCoversSlice: the same one-unit-per-character assumption.
- DOToast.SizeOf: requires a positive font size. That is what makes the widening terminate, and the source's system font always has one.
- DOToast.Toast.constructor: `init` force-unwraps `keyWindow!` (iDo/Components/DOToast.swift:45), which traps without a key window. The constructor takes no window, so that trap is not modelled; `Show` takes whether a key window exists.
- DOToast.Toast.Show: the `cancelable` argument is accepted and dropped, as in the source. The model does not add the storing the documentation suggests.
- IDOImagePopover.ImagePopover.LoadLocalImage: `URL(string: absolutePath)!` (iDo/Poper/IDOImagePopover.swift:147) traps on a path that does not parse as a URL. That trap is not modelled; reading such a path counts as a failed read of the `Environment`.
- IDOImagePopover.LocalResult: the same `URL(string:)` trap is not modelled.
- IDOImagePopover.ImagePopover.LoadRemoteImage: the background download and the later `show()` it triggers are not modelled. The image is known only by its size.
- File system, bundle and URL work (`FileManager`, `Data(contentsOf:)`, `NSSearchPathForDirectoriesInDomains`, `URL(string:)`) is the `Environment` parameter. `appendingPathComponent` is a "/" join.
- UIColorHex.Cleaned: `uppercased()` is ASCII-only; Unicode case mapping is not modelled.
- StringSlices.Closed: the subscript `s[a...b]` traps when the range is out of bounds. Here in-range bounds are a precondition rather than a modelled trap.
- StringSlices.HalfOpen: the same out-of-range trap of `s[a..<b]` is a precondition.
- StringSlices.From: the same out-of-range trap of `s[a...]` is a precondition.
- StringSlices.UpTo: the same out-of-range trap of `s[..<b]` is a precondition.
- StringSlices.Through: the same out-of-range trap of `s[...b]` is a precondition.
- StringChecked.ClosedSlice: Swift's `assert`s are preconditions here. In an optimised build they are skipped and the slicing itself traps; that difference is not modelled.
- StringChecked.HalfOpenSlice: the same as `ClosedSlice`.
- The measuring helpers `boundingWidth`/`boundingHeight` and the number conversions of iDo/Cocoa/String+iDo.swift are not part of this model.
- The attribute setters of `NSMutableAttributedString` (`bold`, `italic`, `color`, …) are not modelled. Only the range they all compute is.
- Cell appearance (`setSelected`, `setDisabled`'s colours, `setLoading`, `setNullDataLabel`), colours, fonts, shadows and corner masks are left out. So are constraint helpers such as `fillToSuperview` and `makeConstraint`.
- `DOPopover`, the single date pickers, alerts, media pickers, image helpers and the demo are not part of this model.
- `CGPoint.distance(to:)` (a square root) is not modelled.

## Findings

| source | as written | input that shows it | evidently intended | confidence | as-written member | corrected member |
|---|---|---|---|---|---|---|
| iDo/Classic/DateRangePicker.swift:411 | `thisQuarter` starts the quarter in July only for months ≤ 8 (the same at iDo/Classic/IDODateRangePicker.swift:327) | any date in September: the "this quarter" range begins on 1 October, after today | months ≤ 9 start in July | high, not executed | DateShortcuts.SeptemberStartsNextQuarter | DateShortcuts.QuarterStartHoldsMonth |
| iDo/Classic/Toast.swift:36-43 | `rawValue` gives 1000, 1500 and 2500 for `.short`, `.medium` and `.long` | `Duration(rawValue: 1500)!` is `.short`, whose `rawValue` is 1000 | 1500, 2500 and 5000, as the case comments and `init?(rawValue:)` say | high, not executed | Toast.AsWrittenShortDrifts | Toast.RawRoundTrip |
| iDo/Extensions/String+Extension.swift:105 | the `NSRange` length for `a...b` is `b - a` | styling "1234567890" in `1...3` touches "23", while `"1234567890"[1...3]` is "234" | length `b - a + 1`, matching the closed-range subscript | medium, not executed | StringSlices.AsWrittenExample | StringSlices.RangeFromCoversSlice |

The model of the program follows the code as written: `ShortcutRange`, `PickerDates` and both pickers' `OnShortcut` use `QuarterStartAsWritten`, and `Toast.HideDelay` uses `RawValueAsWritten`. The corrected definitions sit beside them: `QuarterStart` with `QuarterStartHoldsMonth`, `RawValue` with `RawRoundTrip` and `IntendedHideDelay`, and `RangeFrom` with `RangeFromCoversSlice`.
