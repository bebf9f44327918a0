/** The three kinds of canvas content of a story draft (text labels, emoji
    stickers, freehand strokes), the partial updates applied to them, and the
    id-keyed list operations the editor store performs on its collections. */
module Elements {
  import opened Options
  import Decimal

  datatype FontFamily = System | Monospace | Serif
  datatype TextAlign = Left | Center | Right
  datatype ShadowOffset = ShadowOffset(width: real, height: real)

  /** A positioned, styled text label. Colours are opaque strings. */
  datatype TextElement = TextElement(
    id: string,
    text: string,
    x: real,
    y: real,
    fontSize: real,
    fontFamily: FontFamily,
    color: string,
    backgroundColor: Option<string>,
    backgroundOpacity: Option<real>,
    strokeColor: Option<string>,
    strokeWidth: Option<real>,
    rotation: real,
    scale: real,
    textAlign: TextAlign,
    shadowColor: Option<string>,
    shadowOffset: Option<ShadowOffset>,
    shadowOpacity: Option<real>,
    shadowRadius: Option<real>)

  /** A positioned emoji glyph. */
  datatype StickerElement = StickerElement(
    id: string,
    emoji: string,
    x: real,
    y: real,
    scale: real,
    rotation: real)

  datatype Point = Point(x: real, y: real)

  /** One completed freehand stroke. */
  datatype DrawingPath = DrawingPath(id: string, points: seq<Point>, color: string, width: real)

  /** A `Partial<TextElement>`: every field the caller supplies replaces the
      element's field; `None` leaves it as it is. */
  datatype TextPatch = TextPatch(
    id: Option<string>,
    text: Option<string>,
    x: Option<real>,
    y: Option<real>,
    fontSize: Option<real>,
    fontFamily: Option<FontFamily>,
    color: Option<string>,
    backgroundColor: Option<string>,
    backgroundOpacity: Option<real>,
    strokeColor: Option<string>,
    strokeWidth: Option<real>,
    rotation: Option<real>,
    scale: Option<real>,
    textAlign: Option<TextAlign>,
    shadowColor: Option<string>,
    shadowOffset: Option<ShadowOffset>,
    shadowOpacity: Option<real>,
    shadowRadius: Option<real>)

  /** A `Partial<StickerElement>`. */
  datatype StickerPatch = StickerPatch(
    id: Option<string>,
    emoji: Option<string>,
    x: Option<real>,
    y: Option<real>,
    scale: Option<real>,
    rotation: Option<real>)

  const EmptyTextPatch := TextPatch(None, None, None, None, None, None, None, None, None,
                                    None, None, None, None, None, None, None, None, None)
  const EmptyStickerPatch := StickerPatch(None, None, None, None, None, None)

  /** A supplied optional field overrides the current one. */
  function Override<T>(patch: Option<T>, current: Option<T>): Option<T> {
    if patch.Some? then patch else current
  }

  function TextId(t: TextElement): string { t.id }
  function StickerId(s: StickerElement): string { s.id }

  /** `{ ...el, ...updates }` for a text element. */
  function MergeText(el: TextElement, p: TextPatch): (r: TextElement)
    ensures r.id == p.id.GetOr(el.id)
    ensures p == EmptyTextPatch ==> r == el
  {
    TextElement(
      p.id.GetOr(el.id),
      p.text.GetOr(el.text),
      p.x.GetOr(el.x),
      p.y.GetOr(el.y),
      p.fontSize.GetOr(el.fontSize),
      p.fontFamily.GetOr(el.fontFamily),
      p.color.GetOr(el.color),
      Override(p.backgroundColor, el.backgroundColor),
      Override(p.backgroundOpacity, el.backgroundOpacity),
      Override(p.strokeColor, el.strokeColor),
      Override(p.strokeWidth, el.strokeWidth),
      p.rotation.GetOr(el.rotation),
      p.scale.GetOr(el.scale),
      p.textAlign.GetOr(el.textAlign),
      Override(p.shadowColor, el.shadowColor),
      Override(p.shadowOffset, el.shadowOffset),
      Override(p.shadowOpacity, el.shadowOpacity),
      Override(p.shadowRadius, el.shadowRadius))
  }

  /** `{ ...el, ...updates }` for a sticker. */
  function MergeSticker(el: StickerElement, p: StickerPatch): (r: StickerElement)
    ensures r.id == p.id.GetOr(el.id)
    ensures p == EmptyStickerPatch ==> r == el
  {
    StickerElement(
      p.id.GetOr(el.id),
      p.emoji.GetOr(el.emoji),
      p.x.GetOr(el.x),
      p.y.GetOr(el.y),
      p.scale.GetOr(el.scale),
      p.rotation.GetOr(el.rotation))
  }

  /** Applying the same patch twice is the same as applying it once (a
      repeated drag or resize event changes nothing more). */
  lemma MergeTextIdempotent(el: TextElement, p: TextPatch)
    ensures MergeText(MergeText(el, p), p) == MergeText(el, p)
  {
  }

  lemma MergeStickerIdempotent(el: StickerElement, p: StickerPatch)
    ensures MergeSticker(MergeSticker(el, p), p) == MergeSticker(el, p)
  {
  }

  /** The id generated from a clock reading: `text-${Date.now()}`. */
  function TextIdAt(now: nat): (id: string)
    ensures |id| > 5 && id[..5] == "text-" && Decimal.AllDigits(id[5..])
  {
    "text-" + Decimal.Show(now)
  }

  /** `sticker-${Date.now()}`. */
  function StickerIdAt(now: nat): (id: string)
    ensures |id| > 8 && id[..8] == "sticker-" && Decimal.AllDigits(id[8..])
  {
    "sticker-" + Decimal.Show(now)
  }

  /** Generated ids are unique only up to the clock: two elements created at
      the same millisecond get the same id, and different readings never
      collide. Text and sticker ids never collide with each other. */
  lemma GeneratedIds(now1: nat, now2: nat)
    ensures TextIdAt(now1) == TextIdAt(now2) <==> now1 == now2
    ensures StickerIdAt(now1) == StickerIdAt(now2) <==> now1 == now2
    ensures TextIdAt(now1) != StickerIdAt(now2)
  {
    var t1, t2 := TextIdAt(now1), TextIdAt(now2);
    if t1 == t2 {
      assert Decimal.Show(now1) == t1[5..];
      Decimal.ShowInjective(now1, now2);
    }
    var s1, s2 := StickerIdAt(now1), StickerIdAt(now2);
    if s1 == s2 {
      assert Decimal.Show(now1) == s1[8..];
      Decimal.ShowInjective(now1, now2);
    }
    assert TextIdAt(now1)[0] == 't' && StickerIdAt(now2)[0] == 's';
  }

  /** The sequence of ids of a collection, in order. */
  function Ids<T>(els: seq<T>, key: T -> string): seq<string> {
    seq(|els|, i requires 0 <= i < |els| => key(els[i]))
  }

  /** `els.map(el => el.id === id ? merge(el, patch) : el)`. */
  function UpdateWhere<T, P>(els: seq<T>, key: T -> string, id: string, merge: (T, P) -> T, patch: P): (r: seq<T>)
    ensures |r| == |els|
    ensures forall i :: 0 <= i < |els| && key(els[i]) == id ==> r[i] == merge(els[i], patch)
    ensures forall i :: 0 <= i < |els| && key(els[i]) != id ==> r[i] == els[i]
    decreases |els|
  {
    if els == [] then []
    else [if key(els[0]) == id then merge(els[0], patch) else els[0]]
         + UpdateWhere(els[1..], key, id, merge, patch)
  }

  /** An id that no element carries leaves the collection as it was. */
  lemma UpdateMissingId<T, P>(els: seq<T>, key: T -> string, id: string, merge: (T, P) -> T, patch: P)
    requires id !in Ids(els, key)
    ensures UpdateWhere(els, key, id, merge, patch) == els
  {
    var r := UpdateWhere(els, key, id, merge, patch);
    forall i | 0 <= i < |els| ensures r[i] == els[i] {
      assert Ids(els, key)[i] == key(els[i]);
    }
  }

  /** When the patch does not touch the id, the ids keep their order. */
  lemma UpdateKeepsIds<T, P>(els: seq<T>, key: T -> string, id: string, merge: (T, P) -> T, patch: P)
    requires forall el :: key(merge(el, patch)) == key(el)
    ensures Ids(UpdateWhere(els, key, id, merge, patch), key) == Ids(els, key)
  {
  }

  /** `els.filter(el => el.id !== id)`. */
  function RemoveId<T>(els: seq<T>, key: T -> string, id: string): (r: seq<T>)
    ensures |r| <= |els|
    ensures forall i :: 0 <= i < |r| ==> r[i] in els && key(r[i]) != id
    ensures forall i :: 0 <= i < |els| && key(els[i]) != id ==> els[i] in r
    ensures id !in Ids(r, key)
    decreases |els|
  {
    if els == [] then []
    else (if key(els[0]) == id then [] else [els[0]]) + RemoveId(els[1..], key, id)
  }

  /** Removing an id that no element carries changes nothing. */
  lemma {:induction false} RemoveMissingId<T>(els: seq<T>, key: T -> string, id: string)
    requires id !in Ids(els, key)
    ensures RemoveId(els, key, id) == els
    decreases |els|
  {
    if els != [] {
      assert Ids(els, key)[0] == key(els[0]);
      assert Ids(els[1..], key) == Ids(els, key)[1..];
      RemoveMissingId(els[1..], key, id);
    }
  }

  /** Removal works piecewise, so the survivors keep their relative order. */
  lemma {:induction false} RemoveIdAppend<T>(a: seq<T>, b: seq<T>, key: T -> string, id: string)
    ensures RemoveId(a + b, key, id) == RemoveId(a, key, id) + RemoveId(b, key, id)
    decreases |a|
  {
    if a != [] {
      assert (a + b)[1..] == a[1..] + b;
      RemoveIdAppend(a[1..], b, key, id);
    } else {
      assert a + b == b;
    }
  }
}
