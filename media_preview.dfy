/** The chat media preview strip: its header line and the `m:ss` badge it
    puts on videos. */
module MediaPreview {
  import opened Options
  import opened Decimal

  datatype MediaType = Image | Video

  /** A picked attachment; `duration` is whole seconds when present. */
  datatype MediaItem = MediaItem(id: string, uri: string, mediaType: MediaType, duration: Option<nat>)

  /** `s.padStart(width, fill)` for a one-character fill. */
  function PadStart(s: string, width: nat, fill: char): (r: string)
    ensures |r| == if |s| < width then width else |s|
    ensures r[|r| - |s|..] == s
    ensures forall i :: 0 <= i < |r| - |s| ==> r[i] == fill
  {
    if |s| >= width then s else seq(width - |s|, _ => fill) + s
  }

  /** The seconds field: a value below 60 padded to exactly two digits,
      which read back as the value. */
  lemma SecondsField(secs: nat)
    requires secs < 60
    ensures var ss := PadStart(Show(secs), 2, '0'); |ss| == 2 && AllDigits(ss) && Parse(ss) == secs
  {
    ParseShow(secs);
    if secs < 10 {
      assert PadStart(Show(secs), 2, '0') == "0" + Show(secs);
      ParseLeadingZero(Show(secs));
    }
  }

  /** The layout of an `m:ss` badge: at least four characters, a colon three
      from the end, and decimal digits everywhere else, so exactly one
      colon. */
  predicate ClockShaped(r: string) {
    && |r| >= 4 && r[|r| - 3] == ':'
    && forall i :: 0 <= i < |r| && i != |r| - 3 ==> IsDigit(r[i])
  }

  /** `formatDuration`: whole minutes, a colon, then the seconds within the
      minute padded to two digits. `FormatThenParse` and `ParseThenFormat`
      show that the two fields carry the minutes and the seconds. */
  function FormatDuration(seconds: nat): (r: string)
    ensures ClockShaped(r)
  {
    var secs := seconds % 60;
    SecondsField(secs);
    Clock(Show(seconds / 60), PadStart(Show(secs), 2, '0'))
  }

  /** A minutes field and a two-digit seconds field joined by a colon. */
  function Clock(m: string, ss: string): (r: string)
    requires 1 <= |m| && AllDigits(m) && |ss| == 2 && AllDigits(ss)
    ensures ClockShaped(r) && |r| == |m| + 3
  {
    var r := m + ":" + ss;
    assert forall i :: 0 <= i < |m| ==> r[i] == m[i];
    assert forall i :: |m| < i < |r| ==> r[i] == ss[i - |m| - 1];
    r
  }

  /** A digit prefix pushes the first colon back by its length. */
  lemma {:induction false} ColonAfterDigits(m: string, rest: string)
    requires AllDigits(m) && rest != [] && rest[0] == ':'
    ensures ColonIndex(m + rest) == Some(|m|)
    decreases |m|
  {
    if m == [] {
      assert m + rest == rest;
    } else {
      assert (m + rest)[1..] == m[1..] + rest;
      ColonAfterDigits(m[1..], rest);
    }
  }

  /** Index of the first ':' in `s`, if there is one. */
  function ColonIndex(s: string): (r: Option<nat>)
    ensures r.Some? ==> r.value < |s| && s[r.value] == ':' && forall i :: 0 <= i < r.value ==> s[i] != ':'
    ensures r.None? ==> forall i :: 0 <= i < |s| ==> s[i] != ':'
    decreases |s|
  {
    if s == [] then None
    else if s[0] == ':' then Some(0)
    else match ColonIndex(s[1..])
      case None => None
      case Some(k) => Some(k + 1)
  }

  /** The value of a minutes field and a seconds field: digits, then two
      digits below 60. */
  function ClockValue(m: string, ss: string): (r: Option<nat>)
    ensures r.Some? <==> 1 <= |m| && AllDigits(m) && |ss| == 2 && AllDigits(ss) && Parse(ss) < 60
  {
    if 1 <= |m| && AllDigits(m) && |ss| == 2 && AllDigits(ss) && Parse(ss) < 60
    then Some(Parse(m) * 60 + Parse(ss))
    else None
  }

  /** Reads an `m:ss` string back as seconds: digits, the first colon, then
      two digits below 60. */
  function ParseDuration(s: string): (r: Option<nat>)
  {
    match ColonIndex(s)
    case None => None
    case Some(k) => ClockValue(s[..k], s[k + 1..])
  }

  /** Where the two fields of `m + ":" + ss` sit. */
  lemma ClockFields(m: string, ss: string)
    ensures var s := m + ":" + ss; s[..|m|] == m && s[|m| + 1..] == ss
  {
    var s := m + ":" + ss;
    assert s[..|m|] == m;
    assert s[|m| + 1..] == ss;
  }

  /** `ParseDuration` on a string laid out as minutes, colon, seconds. */
  lemma ParseClock(m: string, ss: string)
    requires AllDigits(m)
    ensures ParseDuration(m + ":" + ss) == ClockValue(m, ss)
  {
    assert m + (":" + ss) == m + ":" + ss;
    ColonAfterDigits(m, ":" + ss);
    ClockFields(m, ss);
  }

  /** Minutes and seconds within the minute put back together. */
  lemma MinutesAndSeconds(n: nat, mins: nat, secs: nat)
    requires mins == n / 60 && secs == n % 60
    ensures mins * 60 + secs == n
  {
  }

  /** The fields `formatDuration` writes read back as the minutes and the
      seconds they were made from. */
  lemma ClockFieldsValue(mins: nat, secs: nat)
    requires secs < 60
    ensures ClockValue(Show(mins), PadStart(Show(secs), 2, '0')) == Some(mins * 60 + secs)
  {
    var m, ss := Show(mins), PadStart(Show(secs), 2, '0');
    ParseShow(mins);
    SecondsField(secs);
    WellFormedClock(m, ss, mins, secs);
  }

  /** Well-formed fields whose values are `mins` and `secs` are worth
      `mins * 60 + secs` seconds. */
  lemma WellFormedClock(m: string, ss: string, mins: nat, secs: nat)
    requires 1 <= |m| && AllDigits(m) && Parse(m) == mins
    requires |ss| == 2 && AllDigits(ss) && Parse(ss) == secs && secs < 60
    ensures ClockValue(m, ss) == Some(mins * 60 + secs)
  {
  }

  /** Reading back minutes and padded seconds joined by a colon. */
  lemma ParseFormattedClock(mins: nat, secs: nat)
    requires secs < 60
    ensures ParseDuration(Show(mins) + ":" + PadStart(Show(secs), 2, '0')) == Some(mins * 60 + secs)
  {
    ClockFieldsValue(mins, secs);
    ParseClock(Show(mins), PadStart(Show(secs), 2, '0'));
  }

  /** Formatting `mins * 60 + secs` writes exactly those two fields. */
  lemma FormatFields(seconds: nat, mins: nat, secs: nat)
    requires seconds == mins * 60 + secs && secs < 60
    ensures FormatDuration(seconds) == Show(mins) + ":" + PadStart(Show(secs), 2, '0')
  {
    assert mins == seconds / 60 && secs == seconds % 60;
  }

  /** Reading a formatted duration back gives the same number of seconds. */
  lemma FormatThenParse(seconds: nat)
    ensures ParseDuration(FormatDuration(seconds)) == Some(seconds)
  {
    MinutesAndSeconds(seconds, seconds / 60, seconds % 60);
    FormatAsClock(seconds, seconds / 60, seconds % 60);
  }

  /** Formatting `mins * 60 + secs` reads back as that many seconds. */
  lemma FormatAsClock(seconds: nat, mins: nat, secs: nat)
    requires seconds == mins * 60 + secs && secs < 60
    ensures ParseDuration(FormatDuration(seconds)) == Some(seconds)
  {
    assert mins == seconds / 60 && secs == seconds % 60;
    FormatFields(seconds, mins, secs);
    ParseFormattedClock(mins, secs);
  }

  /** A two-digit seconds field below 60 is what padding its value gives. */
  lemma PaddedSeconds(ss: string)
    requires |ss| == 2 && AllDigits(ss) && Parse(ss) < 60
    ensures PadStart(Show(Parse(ss)), 2, '0') == ss
  {
    if ss[0] == '0' {
      var tail := ss[1..];
      assert ss == "0" + tail;
      ParseLeadingZero(tail);
      ShowParse(tail);
    } else {
      ShowParse(ss);
    }
  }

  /** Conversely, an `m:ss` string whose minutes carry no leading zero is
      exactly what formatting its value produces. */
  lemma ParseThenFormat(s: string)
    requires ParseDuration(s).Some?
    requires Canonical(s[..ColonIndex(s).value])
    ensures FormatDuration(ParseDuration(s).value) == s
  {
    var k := ColonIndex(s).value;
    var m, ss := s[..k], s[k + 1..];
    assert s == m + ":" + ss;
    var mins, secs := Parse(m), Parse(ss);
    var n := mins * 60 + secs;
    assert ParseDuration(s) == Some(n);
    assert mins == n / 60 && secs == n % 60;
    FormatFields(n, mins, secs);
    ShowParse(m);
    PaddedSeconds(ss);
  }

  /** The noun of the header: singular only for exactly one file. */
  function FileNoun(count: nat): (r: string)
    ensures r == "arquivo" <==> count == 1
    ensures r == "arquivos" <==> count != 1
  {
    if count == 1 then "arquivo" else "arquivos"
  }

  /** The header line of the strip, or `None` when the component renders
      nothing at all. */
  function HeaderTitle(media: seq<MediaItem>): (r: Option<string>)
    ensures r == None <==> |media| == 0
    ensures |media| == 1 ==> r == Some("1 arquivo selecionado(s)")
    ensures |media| > 1 ==> r == Some(Show(|media|) + " arquivos selecionado(s)")
  {
    if |media| == 0 then None
    else
      SingularTitle();
      PluralTitle(Show(|media|));
      assert Show(1) == "1";
      Some(Show(|media|) + " " + FileNoun(|media|) + " selecionado(s)")
  }

  /** The header for a single file, pieced together. */
  lemma SingularTitle()
    ensures "1" + " " + "arquivo" + " selecionado(s)" == "1 arquivo selecionado(s)"
  {
  }

  /** The header for several files, pieced together. */
  lemma PluralTitle(count: string)
    ensures count + " " + "arquivos" + " selecionado(s)" == count + " arquivos selecionado(s)"
  {
    assert " " + "arquivos" + " selecionado(s)" == " arquivos selecionado(s)";
  }

  /** The duration badge of one thumbnail: only videos with a non-zero
      duration get one, and its text reads back as that duration. */
  function DurationBadge(item: MediaItem): (r: Option<string>)
    ensures r.Some? <==> item.mediaType == Video && item.duration.Some? && item.duration.value != 0
    ensures r.Some? ==> ParseDuration(r.value) == Some(item.duration.value)
  {
    if item.mediaType == Video && item.duration.Some? && item.duration.value != 0 then
      FormatThenParse(item.duration.value);
      Some(FormatDuration(item.duration.value))
    else None
  }

  /** What the badge slot of a thumbnail evaluates to: nothing, a bare
      number (which React Native refuses as a child of a `View`, failing the
      render), or the badge view with its text. */
  datatype BadgeSlot = NothingRendered | BareNumber(value: nat) | BadgeView(text: string)

  /** The badge slot as written, `isVideo && duration && <badge/>`, with the
      short-circuit `&&` of the language: a zero duration is falsy and is
      itself the value of the expression. */
  function BadgeSlotAsWritten(item: MediaItem): (r: BadgeSlot)
    ensures r.BareNumber? <==> item.mediaType == Video && item.duration == Some(0)
    ensures r.BadgeView? <==> DurationBadge(item).Some?
    ensures r.BadgeView? ==> DurationBadge(item) == Some(r.text)
  {
    if item.mediaType != Video then NothingRendered
    else match item.duration
      case None => NothingRendered
      case Some(d) => if d == 0 then BareNumber(0) else BadgeView(FormatDuration(d))
  }

  /** A zero-length video hands the number 0 to the thumbnail view, a
      render error, where the intended reading shows no badge at all. */
  lemma ZeroLengthVideo()
    ensures BadgeSlotAsWritten(MediaItem("v", "file:///v.mp4", Video, Some(0))) == BareNumber(0)
    ensures DurationBadge(MediaItem("v", "file:///v.mp4", Video, Some(0))) == None
  {
  }
}
