/** Concrete editing sessions driven through the store, each from a fresh
    store in its initial state. `now1`, `now2`, ... are the clock readings
    the adds see. */
module Scenarios {
  import opened Options
  import opened Elements
  import opened Snapshot
  import opened EditorState
  import opened StoryEditorStore

  /** Two adds, then two undos: the first undo goes back to the snapshot
      holding only the first label; the second stops there instead of
      reaching an empty history position. */
  method UndoStopsAtFirstSnapshot(now1: nat, now2: nat)
    returns (lengthAfterAdds: int, indexAfterAdds: int, indexAfterUndo: int,
             textsAfterUndo: seq<TextElement>, indexAfterSecondUndo: int)
    ensures lengthAfterAdds == 2 && indexAfterAdds == 1
    ensures indexAfterUndo == 0 && textsAfterUndo == [NewTextElement("a", now1, "#000000")]
    ensures indexAfterSecondUndo == 0
  {
    var store := new StoryEditorStore();
    store.AddTextElement("a", now1);
    var first := store.textElements;
    store.AddTextElement("b", now2);
    lengthAfterAdds, indexAfterAdds := |store.history|, store.historyIndex;
    assert store.history[0] == Flatten(first, [], []);
    store.Undo();
    indexAfterUndo, textsAfterUndo := store.historyIndex, store.textElements;
    store.Undo();
    indexAfterSecondUndo := store.historyIndex;
  }

  /** add, add, undo, add: the snapshot after the second add is gone, the
      history holds the snapshots after the first and the third add, and
      redo has nothing to step to. */
  method NewActionDropsRedoBranch(now1: nat, now2: nat, now3: nat)
    returns (history: seq<seq<CanvasElement>>, redoChangedState: bool)
    ensures |history| == 2
    ensures history[0] == [TextItem(NewTextElement("a", now1, "#000000"))]
    ensures history[1] == [TextItem(NewTextElement("a", now1, "#000000")), TextItem(NewTextElement("c", now3, "#000000"))]
    ensures !redoChangedState
  {
    var store := new StoryEditorStore();
    store.AddTextElement("a", now1);
    store.AddTextElement("b", now2);
    store.Undo();
    store.AddTextElement("c", now3);
    history := store.history;
    var before := store.State();
    store.Redo();
    redoChangedState := store.State() != before;
  }

  /** Add a label, then resize it through its generated id: the resize
      lands on that label, keeps its text, and adds no snapshot. */
  method ResizeNewLabel(now: nat)
    returns (resized: TextElement, historyLength: int)
    ensures resized.fontSize == 48.0 && resized.text == "Hello" && resized.id == TextIdAt(now)
    ensures historyLength == 1
  {
    var store := new StoryEditorStore();
    store.AddTextElement("Hello", now);
    var id := store.textElements[0].id;
    store.UpdateTextElement(id, EmptyTextPatch.(fontSize := Some(48.0)));
    resized, historyLength := store.textElements[0], |store.history|;
  }

  /** Durations below, above and inside the range. */
  method DurationExamples() returns (low: real, high: real, inside: real)
    ensures low == 1.0 && high == 60.0 && inside == 10.0
  {
    var store := new StoryEditorStore();
    store.SetStoryDuration(0.0);
    low := store.storyDuration;
    store.SetStoryDuration(100.0);
    high := store.storyDuration;
    store.SetStoryDuration(10.0);
    inside := store.storyDuration;
  }
}
