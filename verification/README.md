# Cursor model for OpenSheetMusicDisplay

This project is a Dafny model of the playback and navigation cursor of OpenSheetMusicDisplay, defined in `src/OpenSheetMusicDisplay/Cursor.ts`. The cursor is a highlighted image element laid over a paginated, rendered score. It follows a music-part iterator when the user steps through the score, and a playback clock when the score is playing.

The model has eight modules:

- `Wrappers` (wrappers.dfy): the `Option` type, for answers the source leaves undefined or null.
- `Score` (score.dfy): the score data the cursor reads. This covers voice entries and their notes, a snapshot of the iterator, the part manager's timestamp translations, source measures and the sheet's selection. The sheet is the `MusicSheet` class, whose selection a reset changes in place. `Flatten` lists the notes under the cursor.
- `Graphics` (graphics.dfy): the layout engine's answers. It holds pages with their end timestamps, systems with their staff lines, graphical measures and staff entries. Each query the cursor makes becomes a function field of `Layout`. `VerticalSpan` gives the cursor's vertical extent in a system.
- `PageAnchor` (page_anchor.dfy): which page owns a timestamp (`OwningPage`, using the strict "greater than" rule). Also how the element moves between page containers (`Reanchor`, `AnchorByTimestamp`, `AnchorBySystem`).
- `PositionResolver` (position_resolver.dfy): where the cursor goes for the iterator's position. This is either interpolated across a collapsed multi-rest or at the leftmost of the staff entries drawn for the visible voice entries (`ResolvePosition`). Voice entries without a staff entry are skipped (`DefinedStaffEntries`).
- `DrawRange` (draw_range.dfy): the selection a reset sets. It uses the engraving rules' draw range, clamped to the last measure.
- `CursorIds` (cursor_ids.dfy): the probing loop that picks the element id `cursorImg-n`.
- `Cursors` (cursor.dfy): the `Cursor` class. Its fields are `hidden`, `currentPageNumber`, `container`, `displayed`, `width`, `geometry` (top, left and height in pixels), `style`, `iteratorState` and the constant `elementId`. Its methods mirror the source's, and each uses `modifies` clauses that name exactly the fields it may change. `VoicesUnderCursor` returns what the iterator snapshot answers for an instrument filter.

Timestamps are exact fractions in the source, so the model uses `real`. Pixel geometry is computed exactly over `real`, using the source's formulas.

The following are inputs to the model:

- the iterator's current state, and the state after a step;
- the layout engine's answers;
- the part manager's timestamp translations;
- the zoom level;
- the engraving rules;
- the set of element ids already present in the document.

## Model

| member | source | states |
|---|---|---|
| Score.FlattenAppend | src/OpenSheetMusicDisplay/Cursor.ts:317-319 | flattening a concatenation gives the two flattenings concatenated; this is what pushing entry after entry builds |
| Score.FlattenMembership | src/OpenSheetMusicDisplay/Cursor.ts:314-321 | a note is under the cursor iff it belongs to the note list of some voice entry under the cursor (both directions) |
| Score.FlattenLength | src/OpenSheetMusicDisplay/Cursor.ts:314-321 | the number of notes under the cursor is the sum of the entries' note counts; no note is lost or duplicated |
| Graphics.VerticalSpanCoversStaffLines | src/OpenSheetMusicDisplay/Cursor.ts:214-218 | with staff lines stacked top to bottom, the span from the first line's top to the last line's bottom has non-negative height and covers every staff line of the system |
| PageAnchor.OwningPage | src/OpenSheetMusicDisplay/Cursor.ts:327-345 | the result is the first page, in page order, whose last-system timestamp is strictly greater than t. Every earlier page ends at or before t. There is no result exactly when every page ends at or before t |
| PageAnchor.OwningPageIs | src/OpenSheetMusicDisplay/Cursor.ts:328-333 | any page that ends after t, with no earlier page doing so, is the owner |
| PageAnchor.OwningPagePartition | src/OpenSheetMusicDisplay/Cursor.ts:328-333 | when page end timestamps increase, page i owns exactly the timestamps in [end of page i-1, end of page i), so pages partition time |
| PageAnchor.BoundaryBelongsToNextPage | src/OpenSheetMusicDisplay/Cursor.ts:330-332 | a timestamp equal to page i's end is not owned by page i; it is owned by page i+1 |
| PageAnchor.TwoPageScenario | src/OpenSheetMusicDisplay/Cursor.ts:328-333 | with pages ending at 4/4 and 8/4, the timestamp 3/4 is on page 1 and 4/4 is on page 2 |
| PageAnchor.ReanchorIdempotent | src/OpenSheetMusicDisplay/Cursor.ts:334-342 | re-anchoring to page p records p; doing it twice equals doing it once; re-anchoring to the recorded page changes nothing |
| PageAnchor.ReanchorAnchors | src/OpenSheetMusicDisplay/Cursor.ts:334-342 | after moving to a different page, the element is in that page's container; a cursor that sat in its recorded page's container still does afterwards |
| PageAnchor.AnchorByTimestampIdempotent | src/OpenSheetMusicDisplay/Cursor.ts:326-346 | re-anchoring by the same timestamp a second time changes nothing |
| PositionResolver.MultiRestRatioInOpenUnit | src/OpenSheetMusicDisplay/Cursor.ts:186-188 | for 1 <= ordinal <= run length, the progress ratio ordinal/(total+1) lies strictly between 0 and 1 |
| PositionResolver.MultiRestXWithinMeasure | src/OpenSheetMusicDisplay/Cursor.ts:186-190 | for an ordinal inside the run and begin-instructions width <= measure width, measureX + beginWidth <= x <= measureX + width. The upper bound is strict when beginWidth < width; at equality x is exactly measureX + width |
| PositionResolver.MultiRestXMonotone | src/OpenSheetMusicDisplay/Cursor.ts:186-190 | a later ordinal never places the cursor further left |
| PositionResolver.ThreeMeasureRunScenario | src/OpenSheetMusicDisplay/Cursor.ts:188 | in a run of 3 collapsed measures, ordinal 1 gives ratio 1/4 and ordinal 3 gives 3/4 |
| PositionResolver.Leftmost | src/OpenSheetMusicDisplay/Cursor.ts:195-199 | the chosen staff entry's x is <= the x of every staff entry; the model takes the first of equal minima |
| PositionResolver.DefinedStaffEntries | src/OpenSheetMusicDisplay/Cursor.ts:195-198 | the staff entries left after dropping the voice entries that have none: a staff entry is in the list iff some voice entry has it (both directions), and there are no more of them than voice entries. The sort moves undefined elements to the end, so the leftmost of these is the element taken |
| PositionResolver.ResolvePosition | src/OpenSheetMusicDisplay/Cursor.ts:178-211 | at the end of the score, or without current or visible voice entries, no position. In a multi-rest, a position exactly when the graphical measure has a system, at the interpolated x in that system. Otherwise some visible voice entry's staff entry has an x no other defined staff entry is left of; the position is that entry's x and system, and there is none exactly when that entry has no system |
| PositionResolver.ResolveMultiRest | src/OpenSheetMusicDisplay/Cursor.ts:184-192 | in a multi-rest, the resolved x lies within the graphical measure, after its leading instructions, and the system is the measure's system |
| DrawRange.ClampIndex | src/OpenSheetMusicDisplay/Cursor.ts:110-114 | the clamped index is at most the last measure index and at most the rule's index, and equals one of them |
| DrawRange.ResetIndicesInRange | src/OpenSheetMusicDisplay/Cursor.ts:110-114 | both draw indices name existing measures. Neither exceeds its rule. A maximum that is already in range is kept |
| DrawRange.ResetSelectionShape | src/OpenSheetMusicDisplay/Cursor.ts:116-123 | a set selection start is kept and the start is always set afterwards; the selection end is the end measure's timestamp plus its duration |
| DrawRange.ResetSelectsNonEmptyStretch | src/OpenSheetMusicDisplay/Cursor.ts:110-123 | on contiguous measures with positive durations, with min index <= max index and no start set, the new selection start is strictly before the selection end |
| CursorIds.UniqueCursorElementId | src/OpenSheetMusicDisplay/Cursor.ts:31-37 | returns cursorImg-n for the smallest n whose id is not in the document: the id is absent and every cursorImg-k with k < n is present |
| Cursors.Cursor.constructor | src/OpenSheetMusicDisplay/Cursor.ts:24-45 | the element id is absent from the document and is the smallest free cursorImg-n; the cursor starts in its initial container, on page 1, not hidden, displayed, with width 0 and no geometry, style or iterator |
| Cursors.Cursor.MoveToPage | src/OpenSheetMusicDisplay/Cursor.ts:334-342 | the element moves to page p's container only when p differs from the recorded page; the recorded page becomes p |
| Cursors.Cursor.UpdateCurrentPage | src/OpenSheetMusicDisplay/Cursor.ts:326-346 | the loop over pages re-anchors to the owner of the iterator's timestamp and returns its page number. When there is no owner it returns 1 and changes neither the page nor the container |
| Cursors.Cursor.UpdateCurrentPageFromSystem | src/OpenSheetMusicDisplay/Cursor.ts:348-362 | re-anchors to the system's page and returns its number; with no system, returns 1 and changes nothing |
| Cursors.Cursor.Place | src/OpenSheetMusicDisplay/Cursor.ts:224-243 | sets the pixel geometry and the width, regenerates the gradient only when the width changes, and shows the element |
| Cursors.Cursor.Update | src/OpenSheetMusicDisplay/Cursor.ts:168-244 | while hidden, nothing changes. Otherwise the cursor is re-anchored by the iterator's timestamp. Without a resolved position, geometry, width, style and display are unchanged. With one, the element is placed at the resolved x over the system's staff-line span |
| Cursors.Cursor.Show | src/OpenSheetMusicDisplay/Cursor.ts:97-101 | clears `hidden`, then behaves as an update of a visible cursor |
| Cursors.Cursor.Hide | src/OpenSheetMusicDisplay/Cursor.ts:249-258 | `hidden` becomes true and the element is no longer displayed; nothing else changes |
| Cursors.Cursor.Next | src/OpenSheetMusicDisplay/Cursor.ts:263-266 | the iterator becomes the advanced one, then the cursor updates; a hidden cursor stays where it was |
| Cursors.Cursor.UpdateWithTimestamp | src/OpenSheetMusicDisplay/Cursor.ts:134-166 | re-anchors by the system of the translated timestamp and places the element at the layout's cursor points for the timestamp's x in that system (`TimestampPlaced`). The element is always displayed afterwards, and `hidden` is never changed |
| Cursors.Cursor.ResetIterator | src/OpenSheetMusicDisplay/Cursor.ts:103-126 | without a sheet or measure list, nothing changes. Otherwise the selection start is set only if unset, the selection end becomes the clamped end measure's end, and the iterator becomes the fresh one |
| Cursors.Cursor.Reset | src/OpenSheetMusicDisplay/Cursor.ts:271-276 | `ResetDone`: without a sheet or measure list, the iterator and sheet are unchanged; otherwise the selection is the draw range's and the iterator the started one. Then the cursor is anchored and placed at the enrolled timestamp of the (new) selection start. `hidden` is unchanged |
| Cursors.Cursor.Init | src/OpenSheetMusicDisplay/Cursor.ts:87-92 | everything a reset promises (`ResetDone`: selection, iterator, anchoring and placement at the selection start's timestamp), and the cursor is not hidden |
| Cursors.Cursor.OnPlaybackEvent | src/OpenSheetMusicDisplay/Cursor.ts:46-69 | a position change anchors and places the cursor at the predicted position exactly as a timestamp update does, leaving the iterator and the sheet alone; a reset does everything a reset promises; pause, selection-end and note events change nothing; `hidden` never changes |
| Cursors.Cursor.NotesUnderCursor | src/OpenSheetMusicDisplay/Cursor.ts:314-321 | the loop returns exactly the flattened note lists of the voice entries under the cursor, in order |
| Cursors.HiddenCursorShownByPlayback | src/OpenSheetMusicDisplay/Cursor.ts:134-166 | hiding and then updating by timestamp leaves the element displayed while `hidden` stays true |
| Cursors.HiddenCursorStaysHiddenOnNext | src/OpenSheetMusicDisplay/Cursor.ts:168-171 | hiding and then stepping leaves the cursor hidden and not displayed |
| Cursors.ReanchorTwiceBySystem | src/OpenSheetMusicDisplay/Cursor.ts:348-362 | re-anchoring twice to the same system is re-anchoring once |
| Cursors.PlacedOnAVoiceUnderCursor | src/OpenSheetMusicDisplay/Cursor.ts:193-200 | outside a multi-rest, when a position resolves, some voice under the cursor (`VoicesUnderCursor`, lines 309-312) has the staff entry at the cursor's x in its system, and no voice under the cursor has a staff entry further left |
| Cursors.NoVoicesNoPosition | src/OpenSheetMusicDisplay/Cursor.ts:178-181 | with no voice under the cursor, an update cannot fail and resolves no position, so the element is not moved |

## Left out

- DOM and canvas work is not modelled: `getElementById`, `appendChild`/`removeChild`, style strings and the gradient canvas with its data URL. A container is either the constructor's `InitialContainer` or `PageContainer(n)`, the element `osmdCanvasPage` + n. The style is the value `Gradient(width, color)`. The gradient's colour stops (Cursor.ts:291-294) are not modelled.
- `FollowCursor` scrolling (`getBoundingClientRect`, `scrollIntoView`) is left out because it is a browser side effect.
- Floating-point rounding is not modelled, because pixel values are exact reals. The DOM stores an image's `width` and `height` attributes as integers, so the source's "width changed" test can compare a fractional new width with a truncated stored one. The model compares exact values.
- Iterator internals (`moveToNextVisibleVoiceEntry`, `CurrentVisibleVoiceEntries`, `getIterator`) and layout-engine queries (`findGraphicalMeasure`, `findGraphicalStaffEntryFromMeasureList`, `calculateXPositionFromTimestamp`, `calculateCursorPoints`, `absoluteEnrolledToSheetTimestamp`) are foreign code. They appear as input snapshots and function fields, and are total. A voice entry without a staff entry is modelled (`staffEntryOf` answers `None`, and the entry is skipped as the sort skips `undefined`), and so are a staff entry or a graphical measure without a system. Three cases in which the source throws are not: `findGraphicalMeasure` answering `undefined` for a multi-rest (Cursor.ts:185; `graphicalMeasureAt` is total), a page without systems (Cursor.ts:329; every page has a last-system timestamp), and no visible voice entry having a staff entry (Cursor.ts:199), which `Resolvable` excludes as a precondition of `Update`, `Show` and `Next`.
- A system always has at least one staff line (the `System` subset type), because the source indexes the first staff line unconditionally.
- PositionResolver.Leftmost: the model picks the first staff entry among those with equal minimal x. The source sorts with a comparator that answers -1 for equal x in both orders, so the source's choice among ties depends on the sort implementation. Only minimality is the source's promise.
- Cursors.Cursor.ResetIterator: requires a non-empty measure list when one is present. With an empty list the source reads measure index -1. Draw indices are natural numbers, because a negative index would also read outside the list.
- Cursors.Cursor.Reset: the selection start comes from the same sheet that was reset, or none without a sheet. The source reads it through the layout's parent sheet, which is assumed to be the same sheet.
- Calling `update`, `show` or `next` before `init` (an undefined iterator) is excluded by a precondition; only a hidden cursor may update without an iterator. `hidden` is a boolean, so the source's `undefined`/`null` tests do not apply.
- Console logging, the commented-out code in `cursorPositionChanged`, and the `Iterator` and `Hidden` getters are left out. The getters read a field directly.
- `hidden` starts false (Cursor.ts:83), and element ids are probed in the document (Cursor.ts:34); the model does the same.
