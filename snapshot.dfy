/** The tagged union used for history snapshots: the three collections
    flattened into one list, and the per-tag filters that take a snapshot
    apart again. */
module Snapshot {
  import opened Elements

  /** `{ type: 'text' | 'sticker' | 'drawing', data }`. The tag and the
      payload's kind agree by construction. */
  datatype CanvasElement =
    | TextItem(textData: TextElement)
    | StickerItem(stickerData: StickerElement)
    | DrawingItem(drawingData: DrawingPath)

  function TagTexts(t: seq<TextElement>): (r: seq<CanvasElement>)
    ensures |r| == |t|
  {
    seq(|t|, i requires 0 <= i < |t| => TextItem(t[i]))
  }

  function TagStickers(s: seq<StickerElement>): (r: seq<CanvasElement>)
    ensures |r| == |s|
  {
    seq(|s|, i requires 0 <= i < |s| => StickerItem(s[i]))
  }

  function TagPaths(d: seq<DrawingPath>): (r: seq<CanvasElement>)
    ensures |r| == |d|
  {
    seq(|d|, i requires 0 <= i < |d| => DrawingItem(d[i]))
  }

  /** All text, then all stickers, then all drawings, each in insertion
      order: the list `getAllElements` returns. */
  function Flatten(t: seq<TextElement>, s: seq<StickerElement>, d: seq<DrawingPath>): (r: seq<CanvasElement>)
    ensures |r| == |t| + |s| + |d|
  {
    TagTexts(t) + TagStickers(s) + TagPaths(d)
  }

  /** `snapshot.filter(el => el.type === 'text').map(el => el.data)`. */
  function TextsOf(snap: seq<CanvasElement>): (r: seq<TextElement>)
    ensures |r| <= |snap|
    decreases |snap|
  {
    if snap == [] then []
    else (if snap[0].TextItem? then [snap[0].textData] else []) + TextsOf(snap[1..])
  }

  /** `snapshot.filter(el => el.type === 'sticker').map(el => el.data)`. */
  function StickersOf(snap: seq<CanvasElement>): (r: seq<StickerElement>)
    ensures |r| <= |snap|
    decreases |snap|
  {
    if snap == [] then []
    else (if snap[0].StickerItem? then [snap[0].stickerData] else []) + StickersOf(snap[1..])
  }

  /** `snapshot.filter(el => el.type === 'drawing').map(el => el.data)`. */
  function PathsOf(snap: seq<CanvasElement>): (r: seq<DrawingPath>)
    ensures |r| <= |snap|
    decreases |snap|
  {
    if snap == [] then []
    else (if snap[0].DrawingItem? then [snap[0].drawingData] else []) + PathsOf(snap[1..])
  }

  /** Each filter works piecewise on a concatenation. */
  lemma {:induction false} TextsOfAppend(a: seq<CanvasElement>, b: seq<CanvasElement>)
    ensures TextsOf(a + b) == TextsOf(a) + TextsOf(b)
    decreases |a|
  {
    if a == [] {
      assert a + b == b;
    } else {
      assert (a + b)[0] == a[0] && (a + b)[1..] == a[1..] + b;
      TextsOfAppend(a[1..], b);
    }
  }

  lemma {:induction false} StickersOfAppend(a: seq<CanvasElement>, b: seq<CanvasElement>)
    ensures StickersOf(a + b) == StickersOf(a) + StickersOf(b)
    decreases |a|
  {
    if a == [] {
      assert a + b == b;
    } else {
      assert (a + b)[0] == a[0] && (a + b)[1..] == a[1..] + b;
      StickersOfAppend(a[1..], b);
    }
  }

  lemma {:induction false} PathsOfAppend(a: seq<CanvasElement>, b: seq<CanvasElement>)
    ensures PathsOf(a + b) == PathsOf(a) + PathsOf(b)
    decreases |a|
  {
    if a == [] {
      assert a + b == b;
    } else {
      assert (a + b)[0] == a[0] && (a + b)[1..] == a[1..] + b;
      PathsOfAppend(a[1..], b);
    }
  }

  /** Tagged text comes back out of the text filter and no other. */
  lemma {:induction false} FiltersOfTexts(t: seq<TextElement>)
    ensures TextsOf(TagTexts(t)) == t
    ensures StickersOf(TagTexts(t)) == [] && PathsOf(TagTexts(t)) == []
    decreases |t|
  {
    if t != [] {
      assert TagTexts(t)[1..] == TagTexts(t[1..]);
      FiltersOfTexts(t[1..]);
    }
  }

  lemma {:induction false} FiltersOfStickers(s: seq<StickerElement>)
    ensures StickersOf(TagStickers(s)) == s
    ensures TextsOf(TagStickers(s)) == [] && PathsOf(TagStickers(s)) == []
    decreases |s|
  {
    if s != [] {
      assert TagStickers(s)[1..] == TagStickers(s[1..]);
      FiltersOfStickers(s[1..]);
    }
  }

  lemma {:induction false} FiltersOfPaths(d: seq<DrawingPath>)
    ensures PathsOf(TagPaths(d)) == d
    ensures TextsOf(TagPaths(d)) == [] && StickersOf(TagPaths(d)) == []
    decreases |d|
  {
    if d != [] {
      assert TagPaths(d)[1..] == TagPaths(d[1..]);
      FiltersOfPaths(d[1..]);
    }
  }

  /** Every entry of a snapshot goes to exactly one of the three filters:
      together they keep as many entries as the snapshot holds. */
  lemma {:induction false} FiltersPartition(snap: seq<CanvasElement>)
    ensures |TextsOf(snap)| + |StickersOf(snap)| + |PathsOf(snap)| == |snap|
    decreases |snap|
  {
    if snap != [] {
      FiltersPartition(snap[1..]);
    }
  }

  /** Restoring a freshly flattened snapshot gives back each collection:
      flattening loses nothing and mixes nothing. */
  lemma RestoreFlatten(t: seq<TextElement>, s: seq<StickerElement>, d: seq<DrawingPath>)
    ensures TextsOf(Flatten(t, s, d)) == t
    ensures StickersOf(Flatten(t, s, d)) == s
    ensures PathsOf(Flatten(t, s, d)) == d
  {
    var ts, tsd := TagTexts(t) + TagStickers(s), TagTexts(t) + TagStickers(s) + TagPaths(d);
    TextsOfAppend(TagTexts(t), TagStickers(s));
    TextsOfAppend(ts, TagPaths(d));
    StickersOfAppend(TagTexts(t), TagStickers(s));
    StickersOfAppend(ts, TagPaths(d));
    PathsOfAppend(TagTexts(t), TagStickers(s));
    PathsOfAppend(ts, TagPaths(d));
    FiltersOfTexts(t);
    FiltersOfStickers(s);
    FiltersOfPaths(d);
  }

  /** A snapshot is determined by what it restores to when it is in the
      canonical order `Flatten` produces: flatten is injective. */
  lemma FlattenInjective(t1: seq<TextElement>, s1: seq<StickerElement>, d1: seq<DrawingPath>,
                         t2: seq<TextElement>, s2: seq<StickerElement>, d2: seq<DrawingPath>)
    ensures Flatten(t1, s1, d1) == Flatten(t2, s2, d2) <==> t1 == t2 && s1 == s2 && d1 == d2
  {
    RestoreFlatten(t1, s1, d1);
    RestoreFlatten(t2, s2, d2);
  }
}
