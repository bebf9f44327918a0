/** The story editor store: one mutable object holding the draft's state,
    with one method per action. Every method states the whole new state as
    an update of the old one, so whatever it does not name is unchanged. */
module StoryEditorStore {
  import opened Options
  import opened Elements
  import opened Snapshot
  import opened EditorState

  /** The element `addTextElement` creates. */
  function NewTextElement(text: string, now: nat, color: string): (r: TextElement)
    ensures r.id == TextIdAt(now) && r.text == text && r.color == color
    ensures r.x == 50.0 && r.y == 100.0 && r.fontSize == 32.0 && r.fontFamily == System && r.textAlign == Center
    ensures r.rotation == 0.0 && r.scale == 1.0
    ensures r.backgroundColor == None && r.backgroundOpacity == None && r.strokeColor == None && r.strokeWidth == None
    ensures r.shadowColor == None && r.shadowOffset == None && r.shadowOpacity == None && r.shadowRadius == None
  {
    TextElement(TextIdAt(now), text, 50.0, 100.0, 32.0, System, color,
                None, None, None, None, 0.0, 1.0, Center, None, None, None, None)
  }

  /** The element `addStickerElement` creates; `x` and `y` default to 100 and 200. */
  function NewStickerElement(emoji: string, x: Option<real>, y: Option<real>, now: nat): (r: StickerElement)
    ensures r.id == StickerIdAt(now) && r.emoji == emoji
    ensures x == None ==> r.x == 100.0
    ensures x.Some? ==> r.x == x.value
    ensures y == None ==> r.y == 200.0
    ensures y.Some? ==> r.y == y.value
    ensures r.scale == 1.0 && r.rotation == 0.0
  {
    StickerElement(StickerIdAt(now), emoji, x.GetOr(100.0), y.GetOr(200.0), 1.0, 0.0)
  }

  /** `selected === id ? null : selected`. */
  function ClearIfSelected(selected: Option<string>, id: string): (r: Option<string>)
    ensures r == None <==> selected == None || selected == Some(id)
    ensures r != None ==> r == selected
  {
    if selected == Some(id) then None else selected
  }

  /** `drawingPaths.slice(0, -1)`. */
  function DropLast<T>(s: seq<T>): (r: seq<T>)
    ensures s == [] ==> r == []
    ensures s != [] ==> r + [s[|s| - 1]] == s
  {
    if s == [] then [] else s[..|s| - 1]
  }

  class StoryEditorStore {
    var backgroundImage: Option<ImageAsset>
    var backgroundColor: string
    var backgroundFilter: BackgroundFilter
    var backgroundFilterIntensity: real
    var textElements: seq<TextElement>
    var selectedTextId: Option<string>
    var stickerElements: seq<StickerElement>
    var selectedStickerId: Option<string>
    var drawingPaths: seq<DrawingPath>
    var isDrawing: bool
    var currentTool: Tool
    var currentColor: string
    var showColorPicker: bool
    var showFontPicker: bool
    var showFilterPicker: bool
    var showMediaPicker: bool
    var showEmojiPicker: bool
    var history: seq<seq<CanvasElement>>
    var historyIndex: int
    var storyDuration: real
    var privacy: Privacy

    /** The store's fields as one value. */
    function State(): EditorState
      reads this
    {
      EditorState(
        backgroundImage, backgroundColor, backgroundFilter, backgroundFilterIntensity,
        textElements, selectedTextId, stickerElements, selectedStickerId, drawingPaths, isDrawing,
        currentTool, currentColor,
        showColorPicker, showFontPicker, showFilterPicker, showMediaPicker, showEmojiPicker,
        history, historyIndex, storyDuration, privacy)
    }

    ghost predicate Valid()
      reads this
    {
      HistoryInvariant(State())
    }

    /** A store holding `InitialState`. */
    constructor ()
      ensures State() == InitialState
      ensures Valid()
    {
      new;
      ResetEditor();
    }

    // Background

    method SetBackgroundImage(image: Option<ImageAsset>)
      modifies this
      ensures State() == old(State()).(backgroundImage := image)
    {
      backgroundImage := image;
    }

    method SetBackgroundColor(color: string)
      modifies this
      ensures State() == old(State()).(backgroundColor := color)
    {
      backgroundColor := color;
    }

    method SetBackgroundFilter(filter: BackgroundFilter)
      modifies this
      ensures State() == old(State()).(backgroundFilter := filter)
    {
      backgroundFilter := filter;
    }

    method SetBackgroundFilterIntensity(intensity: real)
      modifies this
      ensures State() == old(State()).(backgroundFilterIntensity := intensity)
    {
      backgroundFilterIntensity := intensity;
    }

    // Text

    /** Appends a new label, coloured with the current colour, then records a
        snapshot. `now` stands for the clock reading `Date.now()`. */
    method AddTextElement(text: string, now: nat)
      requires Valid()
      modifies this
      ensures Valid()
      ensures textElements == old(textElements) + [NewTextElement(text, now, old(currentColor))]
      ensures State() == Saved(old(State()).(textElements := textElements))
    {
      var newElement := NewTextElement(text, now, currentColor);
      textElements := textElements + [newElement];
      SaveToHistory();
    }

    /** Merges `updates` into every label whose id is `id`; records no snapshot. */
    method UpdateTextElement(id: string, updates: TextPatch)
      modifies this
      ensures State() == old(State()).(textElements := UpdateWhere(old(textElements), TextId, id, MergeText, updates))
    {
      textElements := UpdateWhere(textElements, TextId, id, MergeText, updates);
    }

    /** Removes every label whose id is `id`, clears the text selection if it
        was `id`, then records a snapshot. */
    method DeleteTextElement(id: string)
      requires Valid()
      modifies this
      ensures Valid()
      ensures State() == Saved(old(State()).(textElements := RemoveId(old(textElements), TextId, id),
                                             selectedTextId := ClearIfSelected(old(selectedTextId), id)))
    {
      ghost var before := State();
      textElements := RemoveId(textElements, TextId, id);
      selectedTextId := ClearIfSelected(selectedTextId, id);
      assert State() == before.(textElements := textElements, selectedTextId := selectedTextId);
      SaveToHistory();
    }

    /** Selects any id, existing or not, or clears the selection. */
    method SelectTextElement(id: Option<string>)
      modifies this
      ensures State() == old(State()).(selectedTextId := id)
    {
      selectedTextId := id;
    }

    // Stickers

    method AddStickerElement(emoji: string, x: Option<real>, y: Option<real>, now: nat)
      requires Valid()
      modifies this
      ensures Valid()
      ensures stickerElements == old(stickerElements) + [NewStickerElement(emoji, x, y, now)]
      ensures State() == Saved(old(State()).(stickerElements := stickerElements))
    {
      var newElement := NewStickerElement(emoji, x, y, now);
      stickerElements := stickerElements + [newElement];
      SaveToHistory();
    }

    method UpdateStickerElement(id: string, updates: StickerPatch)
      modifies this
      ensures State() == old(State()).(stickerElements := UpdateWhere(old(stickerElements), StickerId, id, MergeSticker, updates))
    {
      stickerElements := UpdateWhere(stickerElements, StickerId, id, MergeSticker, updates);
    }

    method DeleteStickerElement(id: string)
      requires Valid()
      modifies this
      ensures Valid()
      ensures State() == Saved(old(State()).(stickerElements := RemoveId(old(stickerElements), StickerId, id),
                                             selectedStickerId := ClearIfSelected(old(selectedStickerId), id)))
    {
      ghost var before := State();
      stickerElements := RemoveId(stickerElements, StickerId, id);
      selectedStickerId := ClearIfSelected(selectedStickerId, id);
      assert State() == before.(stickerElements := stickerElements, selectedStickerId := selectedStickerId);
      SaveToHistory();
    }

    method SelectStickerElement(id: Option<string>)
      modifies this
      ensures State() == old(State()).(selectedStickerId := id)
    {
      selectedStickerId := id;
    }

    // Drawing

    /** Appends a finished stroke; records no snapshot. */
    method AddDrawingPath(path: DrawingPath)
      modifies this
      ensures State() == old(State()).(drawingPaths := old(drawingPaths) + [path])
    {
      drawingPaths := drawingPaths + [path];
    }

    /** Drops the newest stroke, if any; records no snapshot. */
    method RemoveLastDrawingPath()
      modifies this
      ensures State() == old(State()).(drawingPaths := DropLast(old(drawingPaths)))
    {
      drawingPaths := DropLast(drawingPaths);
    }

    /** Removes every stroke, then records a snapshot. */
    method ClearDrawing()
      requires Valid()
      modifies this
      ensures Valid()
      ensures State() == Saved(old(State()).(drawingPaths := []))
    {
      drawingPaths := [];
      SaveToHistory();
    }

    // Tool and pickers

    method SetCurrentTool(tool: Tool)
      modifies this
      ensures State() == old(State()).(currentTool := tool)
    {
      currentTool := tool;
    }

    method SetCurrentColor(color: string)
      modifies this
      ensures State() == old(State()).(currentColor := color)
    {
      currentColor := color;
    }

    method ToggleColorPicker()
      modifies this
      ensures State() == old(State()).(showColorPicker := !old(showColorPicker))
    {
      showColorPicker := !showColorPicker;
    }

    method ToggleFontPicker()
      modifies this
      ensures State() == old(State()).(showFontPicker := !old(showFontPicker))
    {
      showFontPicker := !showFontPicker;
    }

    method ToggleFilterPicker()
      modifies this
      ensures State() == old(State()).(showFilterPicker := !old(showFilterPicker))
    {
      showFilterPicker := !showFilterPicker;
    }

    method ToggleMediaPicker()
      modifies this
      ensures State() == old(State()).(showMediaPicker := !old(showMediaPicker))
    {
      showMediaPicker := !showMediaPicker;
    }

    method ToggleEmojiPicker()
      modifies this
      ensures State() == old(State()).(showEmojiPicker := !old(showEmojiPicker))
    {
      showEmojiPicker := !showEmojiPicker;
    }

    // History

    /** Truncates the history after the cursor, appends the current content
        and moves the cursor onto it. */
    method SaveToHistory()
      requires Valid()
      modifies this
      ensures Valid()
      ensures State() == Saved(old(State()))
    {
      var currentElements := GetAllElements();
      var newHistory := history[..historyIndex + 1];
      newHistory := newHistory + [currentElements];
      history := newHistory;
      historyIndex := |newHistory| - 1;
    }

    method Undo()
      requires Valid()
      modifies this
      ensures Valid()
      ensures State() == Undone(old(State()))
    {
      if historyIndex > 0 {
        var previousIndex := historyIndex - 1;
        var previousElements := history[previousIndex];
        textElements := TextsOf(previousElements);
        stickerElements := StickersOf(previousElements);
        drawingPaths := PathsOf(previousElements);
        historyIndex := previousIndex;
      }
    }

    method Redo()
      requires Valid()
      modifies this
      ensures Valid()
      ensures State() == Redone(old(State()))
    {
      if historyIndex < |history| - 1 {
        var nextIndex := historyIndex + 1;
        var nextElements := history[nextIndex];
        textElements := TextsOf(nextElements);
        stickerElements := StickersOf(nextElements);
        drawingPaths := PathsOf(nextElements);
        historyIndex := nextIndex;
      }
    }

    // Story metadata

    method SetStoryDuration(duration: real)
      modifies this
      ensures State() == old(State()).(storyDuration := ClampDuration(duration))
    {
      storyDuration := ClampDuration(duration);
    }

    method SetPrivacy(p: Privacy)
      modifies this
      ensures State() == old(State()).(privacy := p)
    {
      privacy := p;
    }

    /** Lists the content in drawing order: the texts, then the stickers, then
        the strokes, each tagged with its kind. */
    method GetAllElements() returns (elements: seq<CanvasElement>)
      ensures elements == Flatten(textElements, stickerElements, drawingPaths)
    {
      elements := [];
      for i := 0 to |textElements|
        invariant elements == TagTexts(textElements[..i])
      {
        elements := elements + [TextItem(textElements[i])];
      }
      assert textElements[..|textElements|] == textElements;
      for i := 0 to |stickerElements|
        invariant elements == TagTexts(textElements) + TagStickers(stickerElements[..i])
      {
        elements := elements + [StickerItem(stickerElements[i])];
      }
      assert stickerElements[..|stickerElements|] == stickerElements;
      for i := 0 to |drawingPaths|
        invariant elements == TagTexts(textElements) + TagStickers(stickerElements) + TagPaths(drawingPaths[..i])
      {
        elements := elements + [DrawingItem(drawingPaths[i])];
      }
      assert drawingPaths[..|drawingPaths|] == drawingPaths;
    }

    /** Puts every field back to its initial value (`set(initialState)`). */
    method ResetEditor()
      modifies this
      ensures State() == InitialState
      ensures Valid()
    {
      ResetBackground();
      ResetContent();
      ResetTools();
      ResetPickers();
      ResetMetadata();
    }

    // The parts of `ResetEditor`, one group of fields each: `set(initialState)`
    // as one assignment of all 21 fields runs out of resource in the solver.

    method ResetBackground()
      modifies this
      ensures backgroundImage == None && backgroundColor == "#FFFFFF" && backgroundFilter == NoFilter && backgroundFilterIntensity == 1.0
      ensures unchanged(this`textElements, this`selectedTextId, this`stickerElements, this`selectedStickerId, this`drawingPaths, this`isDrawing, this`currentTool, this`currentColor, this`showColorPicker, this`showFontPicker, this`showFilterPicker, this`showMediaPicker, this`showEmojiPicker, this`history, this`historyIndex, this`storyDuration, this`privacy)
    {
      backgroundImage, backgroundColor, backgroundFilter, backgroundFilterIntensity := None, "#FFFFFF", NoFilter, 1.0;
    }

    method ResetContent()
      modifies this
      ensures textElements == [] && selectedTextId == None && stickerElements == [] && selectedStickerId == None && drawingPaths == [] && isDrawing == false
      ensures unchanged(this`backgroundImage, this`backgroundColor, this`backgroundFilter, this`backgroundFilterIntensity, this`currentTool, this`currentColor, this`showColorPicker, this`showFontPicker, this`showFilterPicker, this`showMediaPicker, this`showEmojiPicker, this`history, this`historyIndex, this`storyDuration, this`privacy)
    {
      textElements, selectedTextId, stickerElements, selectedStickerId, drawingPaths, isDrawing := [], None, [], None, [], false;
    }

    method ResetTools()
      modifies this
      ensures currentTool == NoTool && currentColor == "#000000"
      ensures unchanged(this`backgroundImage, this`backgroundColor, this`backgroundFilter, this`backgroundFilterIntensity, this`textElements, this`selectedTextId, this`stickerElements, this`selectedStickerId, this`drawingPaths, this`isDrawing, this`showColorPicker, this`showFontPicker, this`showFilterPicker, this`showMediaPicker, this`showEmojiPicker, this`history, this`historyIndex, this`storyDuration, this`privacy)
    {
      currentTool, currentColor := NoTool, "#000000";
    }

    method ResetPickers()
      modifies this
      ensures showColorPicker == false && showFontPicker == false && showFilterPicker == false && showMediaPicker == false && showEmojiPicker == false
      ensures unchanged(this`backgroundImage, this`backgroundColor, this`backgroundFilter, this`backgroundFilterIntensity, this`textElements, this`selectedTextId, this`stickerElements, this`selectedStickerId, this`drawingPaths, this`isDrawing, this`currentTool, this`currentColor, this`history, this`historyIndex, this`storyDuration, this`privacy)
    {
      showColorPicker, showFontPicker, showFilterPicker, showMediaPicker, showEmojiPicker := false, false, false, false, false;
    }

    method ResetMetadata()
      modifies this
      ensures history == [] && historyIndex == -1 && storyDuration == 5.0 && privacy == Friends
      ensures unchanged(this`backgroundImage, this`backgroundColor, this`backgroundFilter, this`backgroundFilterIntensity, this`textElements, this`selectedTextId, this`stickerElements, this`selectedStickerId, this`drawingPaths, this`isDrawing, this`currentTool, this`currentColor, this`showColorPicker, this`showFontPicker, this`showFilterPicker, this`showMediaPicker, this`showEmojiPicker)
    {
      history, historyIndex, storyDuration, privacy := [], -1, 5.0, Friends;
    }
  }
}
