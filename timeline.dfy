/** Timeline geometry: the ruler's major ticks and their `m:ss` labels, the
    pixel-to-time mapping of a click, the per-track clip lists, and where a
    clip box and the playhead are drawn. */
module Timeline {
  import opened Seqs
  import opened Types

  /** Height in pixels of one track row (the `h-24` rows). */
  const TRACK_ROW_HEIGHT: int := 96

  /** Length of the ruler: ten seconds past the project end, at least a minute. */
  function TotalSeconds(duration: real): (total: real)
    ensures total >= 60.0 && total >= duration + 10.0
    ensures total == 60.0 || total == duration + 10.0
  {
    if duration + 10.0 > 60.0 then duration + 10.0 else 60.0
  }

  /** The ruler loop `for (i = 0; i < totalSeconds; i += 5) push(i)`: every
      multiple of five below `totalSeconds`, in increasing order. */
  method MajorTicks(totalSeconds: real) returns (ticks: seq<int>)
    ensures forall k :: 0 <= k < |ticks| ==> ticks[k] == 5 * k
    ensures forall k :: 0 <= k < |ticks| ==> (ticks[k] as real) < totalSeconds
    ensures (5 * |ticks|) as real >= totalSeconds
    ensures forall j, k :: 0 <= j < k < |ticks| ==> ticks[j] < ticks[k]
    ensures forall n: int :: 0 <= n && n % 5 == 0 && (n as real) < totalSeconds ==> n in ticks
  {
    ticks := [];
    var i := 0;
    while (i as real) < totalSeconds
      invariant i == 5 * |ticks|
      invariant forall k :: 0 <= k < |ticks| ==> ticks[k] == 5 * k
      invariant forall k :: 0 <= k < |ticks| ==> (ticks[k] as real) < totalSeconds
      decreases totalSeconds.Floor - i
    {
      ticks := ticks + [i];
      i := i + 5;
    }
    forall n: int | 0 <= n && n % 5 == 0 && (n as real) < totalSeconds
      ensures n in ticks
    {
      var k := n / 5;
      assert n == 5 * k;
      assert k < |ticks|;
      assert ticks[k] == n;
    }
  }

  // ---------------------------------------------------------------------
  // formatTime: `${Math.floor(s / 60)}:${(s % 60).toString().padStart(2, '0')}`

  function DigitChar(d: int): char
    requires 0 <= d < 10
  {
    (48 + d) as char
  }

  predicate IsDigit(ch: char) {
    '0' <= ch <= '9'
  }

  predicate AllDigits(s: string) {
    forall i :: 0 <= i < |s| ==> IsDigit(s[i])
  }

  /** `Number.prototype.toString()` on a natural number: its decimal digits. */
  function NatToString(n: nat): string
    decreases n
  {
    if n < 10 then [DigitChar(n)] else NatToString(n / 10) + [DigitChar(n % 10)]
  }

  /** `padStart(2, '0')`. */
  function PadStart2(s: string): string {
    if |s| == 0 then "00" else if |s| == 1 then "0" + s else s
  }

  /** The ruler label of a whole number of seconds: the minutes in decimal
      without leading zeros, a colon, and exactly two seconds digits. It
      reads back as the number of seconds it was made from. */
  function FormatTime(seconds: nat): (s: string)
    ensures |s| >= 4 && s[|s| - 3] == ':'
    ensures AllDigits(s[..|s| - 3]) && AllDigits(s[|s| - 2..])
    ensures seconds >= 60 ==> s[0] != '0'
    ensures seconds < 600 <==> |s| == 4
    ensures ParseTime(s) == Some(seconds)
  {
    var m, ss := NatToString(seconds / 60), PadStart2(NatToString(seconds % 60));
    NatToStringDigits(seconds / 60);
    NoLeadingZero(seconds / 60);
    SecondsField(seconds % 60);
    ParseJoined(m, ss);
    var s := m + ":" + ss;
    assert s[..|s| - 3] == m && s[|s| - 2..] == ss;
    s
  }

  /** The number a string of decimal digits denotes. */
  function DigitsValue(s: string): nat
    decreases |s|
  {
    if s == [] then 0
    else
      var d := s[|s| - 1] as int - 48;
      DigitsValue(s[..|s| - 1]) * 10 + (if 0 <= d < 10 then d else 0)
  }

  /** Index of the first ':' in `s`. */
  function ColonIndex(s: string): (r: Option<nat>)
    ensures r.Some? ==> r.value < |s| && s[r.value] == ':'
    decreases |s|
  {
    if s == [] then None
    else if s[0] == ':' then Some(0)
    else match ColonIndex(s[1..])
      case None => None
      case Some(i) => Some(i + 1)
  }

  /** Reads an `m:ss` label back: minutes digits, a colon, exactly two
      seconds digits below 60. The inverse of `FormatTime`. */
  function ParseTime(s: string): Option<nat> {
    match ColonIndex(s)
    case None => None
    case Some(i) => ParseFields(s[..i], s[i + 1..])
  }

  /** A non-empty minutes field and exactly two seconds digits below 60. */
  predicate ValidFields(mins: string, secs: string) {
    mins != [] && AllDigits(mins) && |secs| == 2 && AllDigits(secs) && DigitsValue(secs) < 60
  }

  /** The minutes and seconds fields on either side of the colon. */
  function ParseFields(mins: string, secs: string): Option<nat> {
    if ValidFields(mins, secs)
    then Some(DigitsValue(mins) * 60 + DigitsValue(secs))
    else None
  }

  lemma {:induction false} NatToStringDigits(n: nat)
    ensures NatToString(n) != [] && AllDigits(NatToString(n))
    ensures DigitsValue(NatToString(n)) == n
    ensures n < 10 <==> |NatToString(n)| == 1
    decreases n
  {
    if n >= 10 {
      NatToStringDigits(n / 10);
      var s := NatToString(n / 10) + [DigitChar(n % 10)];
      assert s[..|s| - 1] == NatToString(n / 10);
    }
  }

  /** The decimal digits of a positive number do not start with zero. */
  lemma {:induction false} NoLeadingZero(n: nat)
    ensures n > 0 ==> NatToString(n)[0] != '0'
    decreases n
  {
    if n >= 10 {
      NoLeadingZero(n / 10);
    }
  }

  lemma {:induction false} LeadingZero(s: string)
    ensures DigitsValue("0" + s) == DigitsValue(s)
    decreases |s|
  {
    if s != [] {
      var t := "0" + s;
      assert t[..|t| - 1] == "0" + s[..|s| - 1];
      LeadingZero(s[..|s| - 1]);
    } else {
      assert ("0" + s)[..0] == [];
    }
  }

  lemma {:induction false} ColonIndexAfter(a: string, b: string)
    requires forall i :: 0 <= i < |a| ==> a[i] != ':'
    ensures ColonIndex(a + ":" + b) == Some(|a|)
    decreases |a|
  {
    if a != [] {
      assert (a + ":" + b)[1..] == a[1..] + ":" + b;
      ColonIndexAfter(a[1..], b);
    }
  }

  /** The seconds part of a label: two digits denoting the seconds. */
  lemma {:induction false} SecondsField(secs: nat)
    requires secs < 60
    ensures var ss := PadStart2(NatToString(secs));
            |ss| == 2 && AllDigits(ss) && DigitsValue(ss) == secs
  {
    NatToStringDigits(secs);
    if secs >= 10 {
      assert NatToString(secs) == NatToString(secs / 10) + [DigitChar(secs % 10)];
      NatToStringDigits(secs / 10);
    } else {
      LeadingZero(NatToString(secs));
    }
  }

  /** Digits contain no colon. */
  lemma DigitsNoColon(ms: string)
    requires AllDigits(ms)
    ensures forall i :: 0 <= i < |ms| ==> ms[i] != ':'
  {
    forall i | 0 <= i < |ms| ensures ms[i] != ':' {
      assert IsDigit(ms[i]);
    }
  }

  /** Joining a digit field and another field with a colon splits back at
      that colon. */
  lemma SplitAtColon(ms: string, ss: string)
    requires AllDigits(ms)
    ensures ParseTime(ms + ":" + ss) == ParseFields(ms, ss)
  {
    var f := ms + ":" + ss;
    DigitsNoColon(ms);
    ColonIndexAfter(ms, ss);
    assert f[..|ms|] == ms;
    assert f[|ms| + 1..] == ss;
  }

  /** A minutes field, a colon and a valid seconds field parse to the time
      they denote. */
  lemma ParseJoined(ms: string, ss: string)
    requires ValidFields(ms, ss)
    ensures ParseTime(ms + ":" + ss) == Some(DigitsValue(ms) * 60 + DigitsValue(ss))
  {
    SplitAtColon(ms, ss);
  }

  // ---------------------------------------------------------------------
  // Pixel geometry

  /** The time a click at horizontal offset `x` seeks to: `max(0, x / zoom)`. */
  function ClickTime(x: real, zoom: real): (t: real)
    requires zoom > 0.0
    ensures t >= 0.0
    ensures x >= 0.0 ==> t * zoom == x
    ensures x <= 0.0 ==> t == 0.0
  {
    var raw := x / zoom;
    if raw > 0.0 then raw else 0.0
  }

  /** Horizontal position of the playhead; clicking there seeks back to
      the playhead's time. */
  function PlayheadLeft(currentTime: real, zoom: real): (x: real)
    ensures zoom > 0.0 && currentTime >= 0.0 ==> x >= 0.0 && ClickTime(x, zoom) == currentTime
  {
    currentTime * zoom
  }

  /** The rows stacked one below the other, each `h-24` high. */
  function StackedRowsHeight(tracks: seq<Track>): nat
    decreases |tracks|
  {
    if tracks == [] then 0 else TRACK_ROW_HEIGHT + StackedRowsHeight(tracks[1..])
  }

  /** Height of the playhead, `tracks.length * 96`: exactly the height of
      the stacked track rows, so it crosses every row and no further. */
  function PlayheadHeight(tracks: seq<Track>): (h: int)
    ensures h == StackedRowsHeight(tracks)
  {
    RowsHeight(tracks);
    |tracks| * TRACK_ROW_HEIGHT
  }

  lemma {:induction false} RowsHeight(tracks: seq<Track>)
    ensures StackedRowsHeight(tracks) == |tracks| * TRACK_ROW_HEIGHT
    decreases |tracks|
  {
    if tracks != [] {
      RowsHeight(tracks[1..]);
    }
  }

  datatype ClipBox = ClipBox(left: real, width: real)

  /** The box a clip is drawn in on its track row: it spans
      `[startTime * zoom, (startTime + duration) * zoom)`. */
  function ClipBoxOf(c: Clip, zoom: real): (b: ClipBox)
    ensures b.left == c.startTime * zoom
    ensures b.left + b.width == (c.startTime + c.duration) * zoom
  {
    ClipBox(c.startTime * zoom, c.duration * zoom)
  }

  /** The playhead is inside a clip's box exactly when the clip's
      half-open time range holds the current time. */
  lemma PlayheadInsideClipBox(c: Clip, currentTime: real, zoom: real)
    requires zoom > 0.0
    ensures (ClipBoxOf(c, zoom).left <= PlayheadLeft(currentTime, zoom) < ClipBoxOf(c, zoom).left + ClipBoxOf(c, zoom).width)
            <==> (c.startTime <= currentTime < c.startTime + c.duration)
  {
    var b := ClipBoxOf(c, zoom);
    assert b.left + b.width == (c.startTime + c.duration) * zoom;
    if c.startTime <= currentTime {
      assert c.startTime * zoom <= currentTime * zoom;
    }
    if c.startTime * zoom <= currentTime * zoom {
      assert c.startTime <= currentTime;
    }
    if currentTime < c.startTime + c.duration {
      assert currentTime * zoom < (c.startTime + c.duration) * zoom;
    }
    if currentTime * zoom < (c.startTime + c.duration) * zoom {
      assert currentTime < c.startTime + c.duration;
    }
  }

  // ---------------------------------------------------------------------
  // Track rows

  /** The clips drawn in the row of track `trackId`: those that name it, in
      clip order, each as often as it occurs in the project. */
  function TrackClips(clips: seq<Clip>, trackId: string): (r: seq<Clip>)
    ensures forall i :: 0 <= i < |r| ==> r[i] in clips && r[i].trackId == trackId
    ensures forall i :: 0 <= i < |clips| && clips[i].trackId == trackId ==> clips[i] in r
    ensures IsSubsequence(r, clips)
    ensures multiset(r) <= multiset(clips)
    ensures forall i :: 0 <= i < |clips| && clips[i].trackId == trackId ==>
              multiset(r)[clips[i]] == multiset(clips)[clips[i]]
  {
    Filter(clips, (c: Clip) => c.trackId == trackId)
  }

  /** With distinct track ids a clip is drawn in the row of the track it
      names and in no other row. */
  lemma ClipDrawnUnderOneTrack(tracks: seq<Track>, clips: seq<Clip>, c: Clip)
    requires TrackIdsDistinct(tracks)
    requires c in clips
    ensures forall j :: 0 <= j < |tracks| ==> (c in TrackClips(clips, tracks[j].id) <==> tracks[j].id == c.trackId)
    ensures forall j, k ::
              (0 <= j < |tracks| && 0 <= k < |tracks| &&
               c in TrackClips(clips, tracks[j].id) && c in TrackClips(clips, tracks[k].id)) ==> j == k
  {
    forall j | 0 <= j < |tracks| && c in TrackClips(clips, tracks[j].id)
      ensures tracks[j].id == c.trackId
    {
      var r := TrackClips(clips, tracks[j].id);
      var i :| 0 <= i < |r| && r[i] == c;
    }
    forall j | 0 <= j < |tracks| && tracks[j].id == c.trackId
      ensures c in TrackClips(clips, tracks[j].id)
    {
      var i :| 0 <= i < |clips| && clips[i] == c;
    }
  }

  // ---------------------------------------------------------------------
  // Clicks

  /** What a click on the scrollable area lands on. */
  datatype ClickTarget = OnClip(clipId: string) | OnBackground

  /** The callback a click fires: `onSeek(time)` or `onSelectClip(id)`. */
  datatype TimelineEvent = Seek(time: real) | SelectClip(id: Option<string>)

  /** A click on a clip box selects that clip and, because it stops the
      event's propagation, does not seek; a click elsewhere seeks to the
      clamped time under the cursor. */
  function HandleClick(target: ClickTarget, x: real, zoom: real): (e: TimelineEvent)
    requires zoom > 0.0
    ensures target.OnClip? ==> e == SelectClip(Some(target.clipId))
    ensures target.OnBackground? ==> e.Seek? && e.time >= 0.0 && (x >= 0.0 ==> e.time * zoom == x)
  {
    match target
    case OnClip(id) => SelectClip(Some(id))
    case OnBackground => Seek(ClickTime(x, zoom))
  }
}
