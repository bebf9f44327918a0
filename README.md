# Story editor store and media preview, modelled in Dafny

This project models two parts of a React Native social app.

**The story editor store** (`stores/storyEditorStore.ts`) is the single zustand store behind the story editor. For one draft it holds:

- the background (image, colour, filter, filter intensity);
- three ordered layers of canvas content: text labels, emoji stickers and drawing paths;
- the selected text and sticker ids;
- the current tool and colour, and five picker-open flags;
- story duration and privacy;
- a linear undo/redo history of whole-content snapshots with a cursor.

It is modelled as the class `StoryEditorStore.StoryEditorStore`:

- Its fields are those of `StoryEditorState`.
- It has one method per action. Each method states its whole new state as an update of the old one, `State() == old(State()).(field := …)`.
- What saving, undoing and redoing do is stated once, as the functions `Saved`, `Undone` and `Redone` on the value type `EditorState.EditorState`. The methods are proved against them.
- `GetAllElements` keeps the source's three push loops. Undo and redo keep its filter-by-tag restore.
- The flatten/restore round trip, the history invariant and the undo/redo relations are proved as lemmas.

**The chat media preview** (`app/mobile/components/chat/MediaPreview.tsx`) contributes:

- `formatDuration`, the `m:ss` formatter, proved against a reader for its output (a round trip in both directions);
- the header label, which renders nothing for no files and is singular only for exactly one file;
- the per-thumbnail duration badge.

Modules:

- `Options`: the optional-value type.
- `Decimal`: decimal rendering and parsing of naturals, for template literals.
- `Elements`: the element types, patch merging, id generation, and id-keyed update and remove.
- `Snapshot`: the `CanvasElement` sum type, flatten, and the per-tag filters.
- `EditorState`: the state value, `initialState`, the history transitions and the duration clamp.
- `StoryEditorStore`: the class.
- `Scenarios`: concrete editing sessions driven through the class.
- `MediaPreview`: the preview logic.

## Model

| member | source | states |
|---|---|---|
| Decimal.Show | stores/storyEditorStore.ts:173 | the decimal rendering of a clock reading is a non-empty digit string, with a leading zero only for 0 and one digit exactly below 10 |
| Decimal.ParseShow | app/mobile/components/chat/MediaPreview.tsx:85 | reading back the decimal rendering of `n` gives `n` |
| Decimal.ShowInjective | stores/storyEditorStore.ts:173 | two naturals render the same exactly when they are equal |
| Decimal.ShowParse | app/mobile/components/chat/MediaPreview.tsx:85 | a digit string without a leading zero is the rendering of its value |
| Elements.MergeText | stores/storyEditorStore.ts:195 | `{...el, ...updates}`: the result's id is the patch's id if it has one and the element's otherwise; the empty patch changes nothing |
| Elements.MergeSticker | stores/storyEditorStore.ts:233 | the same merge for stickers |
| Elements.MergeTextIdempotent | stores/storyEditorStore.ts:192-198 | applying the same text patch twice equals applying it once |
| Elements.MergeStickerIdempotent | stores/storyEditorStore.ts:230-236 | applying the same sticker patch twice equals applying it once |
| Elements.TextIdAt | stores/storyEditorStore.ts:173 | a generated text id is `text-` followed by a non-empty digit string |
| Elements.StickerIdAt | stores/storyEditorStore.ts:215 | a generated sticker id is `sticker-` followed by a non-empty digit string |
| Elements.GeneratedIds | stores/storyEditorStore.ts:173-215 | two text ids (and two sticker ids) are equal exactly when the clock readings are equal; a text id never equals a sticker id |
| Elements.UpdateWhere | stores/storyEditorStore.ts:194-196 | `map` with an id test: same length; every element with the id is merged with the patch, every other element is kept as it is |
| Elements.UpdateMissingId | stores/storyEditorStore.ts:192-198 | updating an id no element carries leaves the collection unchanged |
| Elements.UpdateKeepsIds | stores/storyEditorStore.ts:192-198 | when the patch does not change ids, the sequence of ids is unchanged |
| Elements.RemoveId | stores/storyEditorStore.ts:202 | `filter` by id: no survivor has the id, every survivor comes from the input, and every element without the id survives |
| Elements.RemoveMissingId | stores/storyEditorStore.ts:200-207 | removing an id no element carries leaves the collection unchanged |
| Elements.RemoveIdAppend | stores/storyEditorStore.ts:202 | removal distributes over concatenation, so survivors keep their relative order |
| Snapshot.TagTexts | stores/storyEditorStore.ts:370-372 | one `text` entry per label |
| Snapshot.TagStickers | stores/storyEditorStore.ts:374-376 | one `sticker` entry per sticker |
| Snapshot.TagPaths | stores/storyEditorStore.ts:378-380 | one `drawing` entry per path |
| Snapshot.Flatten | stores/storyEditorStore.ts:366-383 | the flattened content has the sum of the three lengths |
| Snapshot.TextsOf | stores/storyEditorStore.ts:310-312 | the text filter keeps at most the snapshot's length |
| Snapshot.StickersOf | stores/storyEditorStore.ts:314-316 | the sticker filter keeps at most the snapshot's length |
| Snapshot.PathsOf | stores/storyEditorStore.ts:318-320 | the drawing filter keeps at most the snapshot's length |
| Snapshot.TextsOfAppend | stores/storyEditorStore.ts:310-312 | the text filter distributes over concatenation |
| Snapshot.StickersOfAppend | stores/storyEditorStore.ts:314-316 | the sticker filter distributes over concatenation |
| Snapshot.PathsOfAppend | stores/storyEditorStore.ts:318-320 | the drawing filter distributes over concatenation |
| Snapshot.FiltersPartition | stores/storyEditorStore.ts:310-320 | every snapshot entry lands in exactly one of the three filters, so together they keep as many entries as the snapshot has |
| Snapshot.FiltersOfTexts | stores/storyEditorStore.ts:310-320 | tagged labels come back out of the text filter and out of no other |
| Snapshot.FiltersOfStickers | stores/storyEditorStore.ts:310-320 | tagged stickers come back out of the sticker filter and out of no other |
| Snapshot.FiltersOfPaths | stores/storyEditorStore.ts:310-320 | tagged paths come back out of the drawing filter and out of no other |
| Snapshot.RestoreFlatten | stores/storyEditorStore.ts:366-383 | filtering a flattened snapshot by tag gives back each of the three collections |
| Snapshot.FlattenInjective | stores/storyEditorStore.ts:366-383 | two flattenings are equal exactly when their three collections are equal |
| EditorState.Saved | stores/storyEditorStore.ts:291-301 | `saveToHistory` on a value: keeps the invariant and leaves the content in sync with the cursor; history becomes the kept prefix up to the cursor plus one new snapshot of the current content; the cursor is on the last snapshot; nothing else changes |
| EditorState.Undone | stores/storyEditorStore.ts:303-329 | `undo` on a value: a no-op at index 0 or -1; otherwise the cursor steps back and the content is in sync with it; history, selection, tools and flags never change; the invariant holds |
| EditorState.Redone | stores/storyEditorStore.ts:331-356 | `redo` on a value: a no-op at the newest snapshot; otherwise the cursor steps forward and the content is in sync with it; only content and cursor change; the invariant holds |
| EditorState.UndoThenRedo | stores/storyEditorStore.ts:303-356 | undo then redo returns to the same cursor and to the content of the snapshot under it, and to the same state when the content was in sync |
| EditorState.RedoThenUndo | stores/storyEditorStore.ts:303-356 | redo then undo does the same in the other direction |
| EditorState.NoRedoAfterSave | stores/storyEditorStore.ts:294-295 | right after a save the redo branch is gone, so redo is a no-op |
| EditorState.UndoN | stores/storyEditorStore.ts:303-329 | any number of undos keeps the invariant and the history |
| EditorState.UndoNeverEmpties | stores/storyEditorStore.ts:305 | once there is a snapshot, `n` undos leave the cursor at `max(index - n, 0)`, never at -1 |
| EditorState.InitialStateIdle | stores/storyEditorStore.ts:130-152 | `initialState` keeps the history invariant with an empty canvas, no snapshot and cursor -1; undo and redo are no-ops on it; the first save records the empty canvas as snapshot 0 |
| EditorState.Restored | stores/storyEditorStore.ts:310-327 | the filter-by-tag restore replaces the three collections and nothing else; every snapshot entry goes to exactly one collection; restoring the current content changes nothing |
| EditorState.ClampDuration | stores/storyEditorStore.ts:359-360 | the stored duration lies in [1, 60], equals the input inside that range, and is 1 below it and 60 above it |
| StoryEditorStore.NewTextElement | stores/storyEditorStore.ts:172-183 | the label `addTextElement` creates: id `text-` plus the clock digits, the given text and colour, at (50, 100), size 32, system font, centred, unrotated, scale 1, and no background, stroke or shadow |
| StoryEditorStore.NewStickerElement | stores/storyEditorStore.ts:213-221 | the sticker `addStickerElement` creates: id `sticker-` plus the clock digits, the given emoji, at the given position or (100, 200) for each coordinate left out, scale 1, unrotated |
| StoryEditorStore.ClearIfSelected | stores/storyEditorStore.ts:203 | the selection is cleared exactly when it was the deleted id, and kept otherwise |
| StoryEditorStore.DropLast | stores/storyEditorStore.ts:259 | `slice(0, -1)`: empty stays empty; otherwise the result plus the old last path is the old list |
| StoryEditorStore.StoryEditorStore.constructor | stores/storyEditorStore.ts:130-155 | a new store holds `initialState` and satisfies the history invariant |
| StoryEditorStore.StoryEditorStore.SetBackgroundImage | stores/storyEditorStore.ts:158-159 | replaces the background image; nothing else changes |
| StoryEditorStore.StoryEditorStore.SetBackgroundColor | stores/storyEditorStore.ts:161-162 | replaces the background colour; nothing else changes |
| StoryEditorStore.StoryEditorStore.SetBackgroundFilter | stores/storyEditorStore.ts:164-165 | replaces the filter; nothing else changes |
| StoryEditorStore.StoryEditorStore.SetBackgroundFilterIntensity | stores/storyEditorStore.ts:167-168 | replaces the intensity without validation; nothing else changes |
| StoryEditorStore.StoryEditorStore.AddTextElement | stores/storyEditorStore.ts:171-190 | appends exactly one label, built from the text, the defaults and the colour before the call, after the unchanged old labels; then the state is `Saved` of that; the invariant is kept |
| StoryEditorStore.StoryEditorStore.UpdateTextElement | stores/storyEditorStore.ts:192-198 | the labels become `UpdateWhere` of the old ones; history and everything else are unchanged |
| StoryEditorStore.StoryEditorStore.DeleteTextElement | stores/storyEditorStore.ts:200-207 | the labels become `RemoveId` of the old ones, the selection is cleared only if it was the id, and the state is then `Saved`; the invariant is kept |
| StoryEditorStore.StoryEditorStore.SelectTextElement | stores/storyEditorStore.ts:209-210 | replaces the text selection without an existence check; nothing else changes |
| StoryEditorStore.StoryEditorStore.AddStickerElement | stores/storyEditorStore.ts:213-228 | appends exactly one sticker with the given or default position; then the state is `Saved`; the invariant is kept |
| StoryEditorStore.StoryEditorStore.UpdateStickerElement | stores/storyEditorStore.ts:230-236 | the stickers become `UpdateWhere` of the old ones; nothing else changes |
| StoryEditorStore.StoryEditorStore.DeleteStickerElement | stores/storyEditorStore.ts:238-245 | symmetric to `DeleteTextElement` for stickers |
| StoryEditorStore.StoryEditorStore.SelectStickerElement | stores/storyEditorStore.ts:247-248 | replaces the sticker selection; nothing else changes |
| StoryEditorStore.StoryEditorStore.AddDrawingPath | stores/storyEditorStore.ts:251-255 | appends the path, with no snapshot; nothing else changes |
| StoryEditorStore.StoryEditorStore.RemoveLastDrawingPath | stores/storyEditorStore.ts:257-261 | drops only the newest path, or nothing when there is none, with no snapshot |
| StoryEditorStore.StoryEditorStore.ClearDrawing | stores/storyEditorStore.ts:263-266 | empties the paths, then the state is `Saved`; the invariant is kept |
| StoryEditorStore.StoryEditorStore.SetCurrentTool | stores/storyEditorStore.ts:269-270 | replaces the tool; nothing else changes |
| StoryEditorStore.StoryEditorStore.SetCurrentColor | stores/storyEditorStore.ts:272-273 | replaces the colour; nothing else changes |
| StoryEditorStore.StoryEditorStore.ToggleColorPicker | stores/storyEditorStore.ts:275-276 | flips only its own flag |
| StoryEditorStore.StoryEditorStore.ToggleFontPicker | stores/storyEditorStore.ts:278-279 | flips only its own flag |
| StoryEditorStore.StoryEditorStore.ToggleFilterPicker | stores/storyEditorStore.ts:281-282 | flips only its own flag |
| StoryEditorStore.StoryEditorStore.ToggleMediaPicker | stores/storyEditorStore.ts:284-285 | flips only its own flag |
| StoryEditorStore.StoryEditorStore.ToggleEmojiPicker | stores/storyEditorStore.ts:287-288 | flips only its own flag |
| StoryEditorStore.StoryEditorStore.SaveToHistory | stores/storyEditorStore.ts:291-301 | the new state is `Saved` of the old one, and the invariant is kept |
| StoryEditorStore.StoryEditorStore.Undo | stores/storyEditorStore.ts:303-329 | the new state is `Undone` of the old one, and the invariant is kept |
| StoryEditorStore.StoryEditorStore.Redo | stores/storyEditorStore.ts:331-356 | the new state is `Redone` of the old one, and the invariant is kept |
| StoryEditorStore.StoryEditorStore.SetStoryDuration | stores/storyEditorStore.ts:359-360 | stores the clamped duration; nothing else changes |
| StoryEditorStore.StoryEditorStore.SetPrivacy | stores/storyEditorStore.ts:362-363 | replaces the privacy; nothing else changes |
| StoryEditorStore.StoryEditorStore.GetAllElements | stores/storyEditorStore.ts:366-383 | the three loops produce all labels, then all stickers, then all paths, each tagged and in order |
| StoryEditorStore.StoryEditorStore.ResetEditor | stores/storyEditorStore.ts:386-388 | every field is back at `initialState`, and the invariant holds |
| Scenarios.UndoStopsAtFirstSnapshot | stores/storyEditorStore.ts:303-329 | two adds give two snapshots with the cursor at 1; one undo gives cursor 0 and only the first label; a second undo leaves the cursor at 0 |
| Scenarios.NewActionDropsRedoBranch | stores/storyEditorStore.ts:291-301 | add, add, undo, add leaves exactly the snapshots after the first and the third add, and redo then changes nothing |
| Scenarios.ResizeNewLabel | stores/storyEditorStore.ts:171-198 | resizing a new label through its generated id sets its font size, keeps its text, and adds no snapshot |
| Scenarios.DurationExamples | stores/storyEditorStore.ts:359-360 | durations 0, 100 and 10 are stored as 1, 60 and 10 |
| MediaPreview.PadStart | app/mobile/components/chat/MediaPreview.tsx:85 | `padStart`: the result has the target width or the input's length, ends with the input, and is fill before it |
| MediaPreview.SecondsField | app/mobile/components/chat/MediaPreview.tsx:84-85 | the padded seconds below 60 are exactly two digits that read back as the seconds |
| MediaPreview.FormatDuration | app/mobile/components/chat/MediaPreview.tsx:82-86 | the output has at least four characters, a colon three from the end, and digits everywhere else, so exactly one colon |
| MediaPreview.Clock | app/mobile/components/chat/MediaPreview.tsx:85 | `${mins}:${ss}` for a digit string and two digits has that same layout, three characters longer than the minutes |
| MediaPreview.ColonIndex | app/mobile/components/chat/MediaPreview.tsx:85 | the index of the first colon, or `None` when there is none |
| MediaPreview.ClockValue | app/mobile/components/chat/MediaPreview.tsx:85 | a minutes field and a seconds field have a value exactly when they are digits, then two digits below 60 |
| MediaPreview.FormatThenParse | app/mobile/components/chat/MediaPreview.tsx:82-86 | reading a formatted duration back gives the same number of seconds: minutes are `s / 60` and seconds `s % 60` |
| MediaPreview.ParseThenFormat | app/mobile/components/chat/MediaPreview.tsx:82-86 | every well-formed `m:ss` whose minutes have no leading zero is what formatting its value produces |
| MediaPreview.PaddedSeconds | app/mobile/components/chat/MediaPreview.tsx:85 | every two-digit seconds field below 60 is the padding of its value |
| MediaPreview.FileNoun | app/mobile/components/chat/MediaPreview.tsx:38 | the noun is `arquivo` exactly when the count is 1, and `arquivos` otherwise |
| MediaPreview.HeaderTitle | app/mobile/components/chat/MediaPreview.tsx:30-39 | nothing is rendered exactly when the list is empty; one file reads `1 arquivo selecionado(s)`; more read `N arquivos selecionado(s)` |
| MediaPreview.DurationBadge | app/mobile/components/chat/MediaPreview.tsx:61-67 | intended behaviour: a badge exactly for videos with a non-zero duration, and its text reads back as that duration |
| MediaPreview.BadgeSlotAsWritten | app/mobile/components/chat/MediaPreview.tsx:61-67 | as written: the slot is a bare number exactly for a video with duration 0, and a badge exactly when `DurationBadge` gives one, with the same text |
| MediaPreview.ZeroLengthVideo | app/mobile/components/chat/MediaPreview.tsx:61 | a video with duration 0 puts the number 0 into the thumbnail view, where no badge is intended |

## Left out

- Numbers are `real`. Float rounding, `NaN`, infinities and the float formatting of coordinates and intensity are not modelled.
- `Date.now()` is not modelled. The id-generating actions take the clock reading as a parameter `now`.
- Id uniqueness is not claimed, because the code does not guarantee it. Two adds in the same millisecond get the same id (`Elements.GeneratedIds`). Later update and delete actions then act on both elements.
- A `Partial<T>` patch is a record of optional fields. A field explicitly set to `undefined` in a patch is not modelled; in the source it would erase the field.
- `ImagePickerAsset` is kept by its `uri` only. Image picking is asynchronous I/O in other files and is not part of this model.
- `history.slice(0, historyIndex + 1)` is modelled only under the history invariant, which every action keeps. JavaScript's negative slice bounds never arise there.
- The `isDrawing` field is modelled and reset, but the store has no action that sets it.
- StoryEditorStore.StoryEditorStore.UpdateTextElement: the history invariant is not restated. It follows from the whole-state ensures, which leave `history` and `historyIndex` untouched. The same holds for every other action that records no snapshot.
- MediaPreview.FormatDuration: the model takes whole non-negative seconds. The source's `Math.floor` of a negative or fractional duration, and `Number.prototype.toString` exponent forms for very large values, are not modelled.
- The React view markup, styles, the clear-all and remove buttons, and the thumbnail image are not part of this model.

## Findings

| source | as written | input that shows it | evidently intended | confidence | as-written member | corrected member |
|---|---|---|---|---|---|---|
| app/mobile/components/chat/MediaPreview.tsx:61 | `item.type === 'video' && item.duration && (<badge/>)`: a zero duration is falsy, so the whole expression is the number `0`, and React Native rejects a raw number as a child of a `View` ("Text strings must be rendered within a <Text> component"), so the thumbnail fails to render | a video item with `duration: 0` | no badge and nothing else for a zero or missing duration | medium, not executed | MediaPreview.BadgeSlotAsWritten, MediaPreview.ZeroLengthVideo | MediaPreview.DurationBadge |
