/** The whole state of one story draft as a value, its initial value, and the
    linear undo/redo history over it: what saving, undoing and redoing do to
    the state, stated once and used by the store's methods. */
module EditorState {
  import opened Options
  import opened Elements
  import opened Snapshot

  datatype BackgroundFilter = NoFilter | BlackWhite | Vintage | Sepia | Cool | Warm
  datatype Tool = TextTool | StickerTool | DrawingTool | Eraser | NoTool
  datatype Privacy = Everyone | Friends | Private

  /** A picked gallery or camera image, kept by reference only. */
  datatype ImageAsset = ImageAsset(uri: string)

  datatype EditorState = EditorState(
    backgroundImage: Option<ImageAsset>,
    backgroundColor: string,
    backgroundFilter: BackgroundFilter,
    backgroundFilterIntensity: real,
    textElements: seq<TextElement>,
    selectedTextId: Option<string>,
    stickerElements: seq<StickerElement>,
    selectedStickerId: Option<string>,
    drawingPaths: seq<DrawingPath>,
    isDrawing: bool,
    currentTool: Tool,
    currentColor: string,
    showColorPicker: bool,
    showFontPicker: bool,
    showFilterPicker: bool,
    showMediaPicker: bool,
    showEmojiPicker: bool,
    history: seq<seq<CanvasElement>>,
    historyIndex: int,
    storyDuration: real,
    privacy: Privacy)

  const InitialState := EditorState(
    None, "#FFFFFF", NoFilter, 1.0,
    [], None, [], None, [], false,
    NoTool, "#000000", false, false, false, false, false,
    [], -1,
    5.0, Friends)

  /** A fresh editor: a blank canvas, no snapshot yet, so undo and redo
      have nothing to step to, and the first save records the empty canvas. */
  lemma InitialStateIdle()
    ensures HistoryInvariant(InitialState) && Content(InitialState) == []
    ensures InitialState.history == [] && InitialState.historyIndex == -1
    ensures Undone(InitialState) == InitialState && Redone(InitialState) == InitialState
    ensures Saved(InitialState).history == [[]] && Saved(InitialState).historyIndex == 0
  {
  }

  /** The cursor points into the history, and is -1 exactly when there is no
      snapshot yet. */
  predicate HistoryInvariant(s: EditorState) {
    && -1 <= s.historyIndex < |s.history|
    && (s.historyIndex == -1 <==> s.history == [])
  }

  /** The content collections are what the snapshot under the cursor
      restores to. */
  predicate InSync(s: EditorState) {
    && 0 <= s.historyIndex < |s.history|
    && TextsOf(s.history[s.historyIndex]) == s.textElements
    && StickersOf(s.history[s.historyIndex]) == s.stickerElements
    && PathsOf(s.history[s.historyIndex]) == s.drawingPaths
  }

  /** The content of `s` as `getAllElements` lists it. */
  function Content(s: EditorState): seq<CanvasElement> {
    Flatten(s.textElements, s.stickerElements, s.drawingPaths)
  }

  /** The state with its three collections replaced by what `snap` restores to. */
  function Restored(s: EditorState, snap: seq<CanvasElement>): (r: EditorState)
    ensures r.(textElements := s.textElements, stickerElements := s.stickerElements, drawingPaths := s.drawingPaths) == s
    ensures |r.textElements| + |r.stickerElements| + |r.drawingPaths| == |snap|
    ensures snap == Content(s) ==> r == s
  {
    FiltersPartition(snap);
    RestoreFlatten(s.textElements, s.stickerElements, s.drawingPaths);
    s.(textElements := TextsOf(snap), stickerElements := StickersOf(snap), drawingPaths := PathsOf(snap))
  }

  /** `saveToHistory`: drop every snapshot after the cursor, append the
      current content, and point the cursor at it. */
  function Saved(s: EditorState): (r: EditorState)
    requires HistoryInvariant(s)
    ensures HistoryInvariant(r) && InSync(r)
    ensures |r.history| == s.historyIndex + 2 && r.historyIndex == |r.history| - 1
    ensures r.history[..s.historyIndex + 1] == s.history[..s.historyIndex + 1]
    ensures r.history[r.historyIndex] == Content(s)
    ensures r.(history := s.history, historyIndex := s.historyIndex) == s
  {
    RestoreFlatten(s.textElements, s.stickerElements, s.drawingPaths);
    var kept := s.history[..s.historyIndex + 1];
    s.(history := kept + [Content(s)], historyIndex := |kept|)
  }

  /** `undo`: a no-op at or before the first snapshot; otherwise step the
      cursor back and restore the collections from that snapshot. */
  function Undone(s: EditorState): (r: EditorState)
    requires HistoryInvariant(s)
    ensures HistoryInvariant(r) && r.history == s.history
    ensures s.historyIndex <= 0 ==> r == s
    ensures s.historyIndex > 0 ==> r.historyIndex == s.historyIndex - 1 && InSync(r)
    ensures r.(textElements := s.textElements, stickerElements := s.stickerElements,
               drawingPaths := s.drawingPaths, historyIndex := s.historyIndex) == s
  {
    if s.historyIndex > 0 then
      Restored(s, s.history[s.historyIndex - 1]).(historyIndex := s.historyIndex - 1)
    else s
  }

  /** `redo`: a no-op at the newest snapshot; otherwise step the cursor
      forward and restore the collections from that snapshot. */
  function Redone(s: EditorState): (r: EditorState)
    requires HistoryInvariant(s)
    ensures HistoryInvariant(r) && r.history == s.history
    ensures s.historyIndex >= |s.history| - 1 ==> r == s
    ensures s.historyIndex < |s.history| - 1 ==> r.historyIndex == s.historyIndex + 1 && InSync(r)
    ensures r.(textElements := s.textElements, stickerElements := s.stickerElements,
               drawingPaths := s.drawingPaths, historyIndex := s.historyIndex) == s
  {
    if s.historyIndex < |s.history| - 1 then
      Restored(s, s.history[s.historyIndex + 1]).(historyIndex := s.historyIndex + 1)
    else s
  }

  /** Undo followed by redo comes back to the same cursor and to the content
      of the snapshot under it; when the content was in sync, to the same
      state. */
  lemma UndoThenRedo(s: EditorState)
    requires HistoryInvariant(s) && s.historyIndex > 0
    ensures Redone(Undone(s)) == Restored(s, s.history[s.historyIndex])
    ensures InSync(s) ==> Redone(Undone(s)) == s
  {
  }

  /** Redo followed by undo, symmetrically. */
  lemma RedoThenUndo(s: EditorState)
    requires HistoryInvariant(s) && 0 <= s.historyIndex < |s.history| - 1
    ensures Undone(Redone(s)) == Restored(s, s.history[s.historyIndex])
    ensures InSync(s) ==> Undone(Redone(s)) == s
  {
  }

  /** Saving discards the redo branch: right after a save, redo does nothing. */
  lemma NoRedoAfterSave(s: EditorState)
    requires HistoryInvariant(s)
    ensures Redone(Saved(s)) == Saved(s)
  {
  }

  /** Once there is a snapshot, no number of undos brings the cursor below the
      first one. */
  lemma {:induction false} UndoNeverEmpties(s: EditorState, n: nat)
    requires HistoryInvariant(s) && s.history != []
    ensures UndoN(s, n).historyIndex == if s.historyIndex >= n then s.historyIndex - n else 0
    decreases n
  {
    if n > 0 {
      UndoNeverEmpties(Undone(s), n - 1);
    }
  }

  /** `n` undos in a row. */
  function UndoN(s: EditorState, n: nat): (r: EditorState)
    requires HistoryInvariant(s)
    ensures HistoryInvariant(r) && r.history == s.history
    decreases n
  {
    if n == 0 then s else UndoN(Undone(s), n - 1)
  }

  /** `Math.max(1, Math.min(60, duration))`: the only clamp the store applies. */
  function ClampDuration(d: real): (r: real)
    ensures 1.0 <= r <= 60.0
    ensures 1.0 <= d <= 60.0 ==> r == d
    ensures d < 1.0 ==> r == 1.0
    ensures d > 60.0 ==> r == 60.0
  {
    var lowered := if d < 60.0 then d else 60.0;
    if lowered > 1.0 then lowered else 1.0
  }
}
