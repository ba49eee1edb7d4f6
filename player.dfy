/** The preview player: which clips are shown at the playhead, the playback
    clock's per-frame step, and how the `<video>` element of the active
    clip is brought in line with the clock. */
module Player {
  import opened Seqs
  import opened Types
  import opened App

  // ---------------------------------------------------------------------
  // Active-clip resolver

  /** A clip is shown from its start time up to, not including, its end:
      a clip of positive length is active at its start and inactive at its
      end, and a clip of no length is never active. */
  predicate IsActive(c: Clip, t: real)
    ensures IsActive(c, t) ==> c.duration > 0.0
    ensures c.duration > 0.0 && t == c.startTime ==> IsActive(c, t)
    ensures t == c.startTime + c.duration ==> !IsActive(c, t)
  {
    t >= c.startTime && t < c.startTime + c.duration
  }

  /** `activeClips`: the clips active at the playhead, in clip order, each
      as often as it occurs in the project. */
  function ActiveClips(p: ProjectState): (r: seq<Clip>)
    ensures forall i :: 0 <= i < |r| ==> r[i] in p.clips && IsActive(r[i], p.currentTime)
    ensures forall i :: 0 <= i < |p.clips| && IsActive(p.clips[i], p.currentTime) ==> p.clips[i] in r
    ensures IsSubsequence(r, p.clips)
    ensures multiset(r) <= multiset(p.clips)
    ensures forall i :: 0 <= i < |p.clips| && IsActive(p.clips[i], p.currentTime) ==>
              multiset(r)[p.clips[i]] == multiset(p.clips)[p.clips[i]]
  {
    Filter(p.clips, (c: Clip) => IsActive(c, p.currentTime))
  }

  /** The clip the `<video>`/`<img>` layer shows at time `t`. */
  predicate IsBackground(c: Clip, t: real) {
    IsActive(c, t) && IsVisual(c)
  }

  /** `activeVideo`: the first active VIDEO or IMAGE clip. It is the first
      clip in clip-array order (not track order) that is active and visual,
      there is none exactly when no active clip is VIDEO or IMAGE, and it is
      never an AUDIO clip. */
  function ActiveVideo(p: ProjectState): (r: Option<Clip>)
    ensures r.None? <==> forall i :: 0 <= i < |p.clips| ==> !IsBackground(p.clips[i], p.currentTime)
    ensures r.Some? ==>
              exists i :: 0 <= i < |p.clips| && p.clips[i] == r.value && IsBackground(p.clips[i], p.currentTime)
                          && forall j :: 0 <= j < i ==> !IsBackground(p.clips[j], p.currentTime)
    ensures r.Some? ==> r.value.kind != Audio
  {
    var r := Find(ActiveClips(p), IsVisual);
    ActiveVideoIsFirstActiveVisual(p, r);
    r
  }

  /** Finding a visual clip among the active ones is finding the first
      background clip of the whole list. */
  lemma ActiveVideoIsFirstActiveVisual(p: ProjectState, r: Option<Clip>)
    requires r == Find(ActiveClips(p), IsVisual)
    ensures r == Find(p.clips, (c: Clip) => IsBackground(c, p.currentTime))
  {
    FindFilter(p.clips, (c: Clip) => IsActive(c, p.currentTime), IsVisual,
               (c: Clip) => IsBackground(c, p.currentTime));
  }

  /** `activeTextClips`: the overlays, exactly the active TEXT clips in
      clip order; AUDIO clips are neither background nor overlay. */
  function ActiveTextClips(p: ProjectState): (r: seq<Clip>)
    ensures forall i :: 0 <= i < |r| ==> r[i].kind == Text && IsActive(r[i], p.currentTime) && r[i] in p.clips
    ensures forall i :: 0 <= i < |p.clips| && p.clips[i].kind == Text && IsActive(p.clips[i], p.currentTime) ==>
              p.clips[i] in r
    ensures IsSubsequence(r, p.clips)
    ensures multiset(r) <= multiset(p.clips)
    ensures forall i :: 0 <= i < |p.clips| && p.clips[i].kind == Text && IsActive(p.clips[i], p.currentTime) ==>
              multiset(r)[p.clips[i]] == multiset(p.clips)[p.clips[i]]
  {
    var r := Filter(ActiveClips(p), (c: Clip) => c.kind == Text);
    ActiveTextClipsExact(p, r);
    r
  }

  /** Filtering the active clips for TEXT is filtering the whole list once. */
  lemma ActiveTextClipsExact(p: ProjectState, r: seq<Clip>)
    requires r == Filter(ActiveClips(p), (c: Clip) => c.kind == Text)
    ensures r == Filter(p.clips, (c: Clip) => IsActive(c, p.currentTime) && c.kind == Text)
  {
    FilterFilter(p.clips, (c: Clip) => IsActive(c, p.currentTime), (c: Clip) => c.kind == Text,
                 (c: Clip) => IsActive(c, p.currentTime) && c.kind == Text);
  }

  // ---------------------------------------------------------------------
  // Playback clock

  /** One frame of the clock `loop` after `deltaMs` milliseconds. A paused
      project is a fixed point; a playing one either stops exactly at the
      workspace end or advances by `deltaMs / 1000` and keeps playing; only
      the playhead and the play flag change, and a playing project never
      ends a tick past the end. */
  function Tick(p: ProjectState, deltaMs: real): (r: ProjectState)
    ensures !p.isPlaying ==> r == p
    ensures p.isPlaying && p.currentTime + deltaMs / 1000.0 >= p.duration ==>
              r == p.(currentTime := p.duration, isPlaying := false)
    ensures p.isPlaying && p.currentTime + deltaMs / 1000.0 < p.duration ==>
              r == p.(currentTime := p.currentTime + deltaMs / 1000.0)
    ensures r == p.(currentTime := r.currentTime, isPlaying := r.isPlaying)
    ensures p.isPlaying ==> r.currentTime <= p.duration
    ensures p.currentTime <= p.duration ==> r.currentTime <= p.duration
  {
    if !p.isPlaying then p
    else
      var newTime := p.currentTime + deltaMs / 1000.0;
      if newTime >= p.duration then PlayToggled(TimeUpdated(p, p.duration))
      else TimeUpdated(p, newTime)
  }

  /** A sequence of frames. */
  function Run(p: ProjectState, deltas: seq<real>): ProjectState
    decreases |deltas|
  {
    if deltas == [] then p else Run(Tick(p, deltas[0]), deltas[1..])
  }

  function Sum(xs: seq<real>): real
    decreases |xs|
  {
    if xs == [] then 0.0 else xs[0] + Sum(xs[1..])
  }

  predicate NonNegative(xs: seq<real>) {
    forall i :: 0 <= i < |xs| ==> xs[i] >= 0.0
  }

  /** Playing from a point inside the workspace, with frame times that do
      not go back: the playhead never passes the end; if the frames add up
      to at least the time left, playback ends paused exactly at the end
      (even when no time was left, the next frame pauses);
      otherwise it is still playing, advanced by the elapsed time. Only the
      playhead and the play flag ever change. */
  lemma {:induction false} RunFromPlaying(p: ProjectState, deltas: seq<real>)
    requires p.isPlaying && p.currentTime <= p.duration
    requires NonNegative(deltas)
    ensures var r := Run(p, deltas);
            && r == p.(currentTime := r.currentTime, isPlaying := r.isPlaying)
            && r.currentTime <= p.duration
            && (deltas != [] && p.currentTime + Sum(deltas) / 1000.0 >= p.duration ==>
                  r == p.(currentTime := p.duration, isPlaying := false))
            && (p.currentTime + Sum(deltas) / 1000.0 < p.duration ==>
                  r == p.(currentTime := p.currentTime + Sum(deltas) / 1000.0))
    decreases |deltas|
  {
    if deltas != [] {
      var q := Tick(p, deltas[0]);
      assert NonNegative(deltas[1..]);
      assert Sum(deltas) == deltas[0] + Sum(deltas[1..]);
      if q.isPlaying {
        assert q == p.(currentTime := p.currentTime + deltas[0] / 1000.0);
        RunFromPlaying(q, deltas[1..]);
      } else {
        assert q == p.(currentTime := p.duration, isPlaying := false);
        RunPausedFixed(q, deltas[1..]);
        SumNonNegative(deltas[1..]);
      }
    }
  }

  /** Once paused, further frames never advance nor toggle anything. */
  lemma {:induction false} RunPausedFixed(p: ProjectState, deltas: seq<real>)
    requires !p.isPlaying
    ensures Run(p, deltas) == p
    decreases |deltas|
  {
    if deltas != [] {
      RunPausedFixed(p, deltas[1..]);
    }
  }

  lemma {:induction false} SumNonNegative(xs: seq<real>)
    requires NonNegative(xs)
    ensures Sum(xs) >= 0.0
    decreases |xs|
  {
    if xs != [] {
      assert NonNegative(xs[1..]);
      SumNonNegative(xs[1..]);
    }
  }

  /** The frame callback scheduled with `requestAnimationFrame`. It reads the
      project the effect was registered with, which is the held project,
      because the effect is registered again whenever the play flag or the
      playhead changes. Such a re-registration cancels the pending frame and
      starts a fresh `PlaybackLoop` whose `lastTime` is the time of
      registration, so after a frame that moves the playhead the next delta
      is measured from that re-registration, not from this frame. */
  class PlaybackLoop {
    var lastTime: real

    /** Registration of the effect: `lastTime = performance.now()`. */
    constructor (now: real)
      ensures lastTime == now
    {
      lastTime := now;
    }

    /** `loop(time)`: returns whether another frame is requested. */
    method Frame(editor: Editor, time: real) returns (scheduled: bool)
      modifies this, editor
      ensures editor.assets == old(editor.assets)
      ensures !old(editor.project.isPlaying) ==>
                editor.project == old(editor.project) && lastTime == old(lastTime) && !scheduled
      ensures old(editor.project.isPlaying) ==>
                lastTime == time && editor.project == Tick(old(editor.project), time - old(lastTime))
      ensures scheduled <==> old(editor.project.isPlaying) && editor.project.isPlaying
    {
      var p := editor.project;
      if !p.isPlaying {
        return false;
      }
      var delta := (time - lastTime) / 1000.0;
      lastTime := time;
      var newTime := p.currentTime + delta;
      if newTime >= p.duration {
        editor.HandleTimeUpdate(p.duration);
        editor.HandleTogglePlay();
        scheduled := false;
      } else {
        editor.HandleTimeUpdate(newTime);
        scheduled := true;
      }
    }
  }

  // ---------------------------------------------------------------------
  // Media-element synchronisation

  /** Re-seek only when the element is more than this many seconds off. */
  const SEEK_TOLERANCE: real := 0.5

  /** The state of the `<video>` element that the decision reads and sets. */
  datatype MediaElement = MediaElement(position: real, paused: bool)

  /** What the `ref` callback does to the element. */
  datatype SyncAction = SyncAction(seekTo: Option<real>, play: bool, pause: bool)

  function Abs(x: real): real {
    if x < 0.0 then -x else x
  }

  /** The media-local time the element should show: the clip's trim
      offset plus the time elapsed since the clip started. While the clip
      is active it runs from the offset, at the clip's start, up to, not
      including, offset plus duration. */
  function SeekTime(p: ProjectState, c: Clip): (t: real)
    ensures IsActive(c, p.currentTime) ==> c.offset <= t < c.offset + c.duration
    ensures p.currentTime == c.startTime ==> t == c.offset
  {
    p.currentTime - c.startTime + c.offset
  }

  /** The `ref` callback's decision: it seeks exactly when the element is
      off by more than the tolerance, plays exactly when the project plays
      and the element is paused, pauses exactly in the opposite case, and
      never both plays and pauses. */
  function SyncDecision(p: ProjectState, c: Clip, el: MediaElement): (a: SyncAction)
    ensures a.seekTo.Some? <==> Abs(el.position - SeekTime(p, c)) > SEEK_TOLERANCE
    ensures a.seekTo.Some? ==> a.seekTo.value == SeekTime(p, c)
    ensures a.play <==> p.isPlaying && el.paused
    ensures a.pause <==> !p.isPlaying && !el.paused
    ensures !(a.play && a.pause)
  {
    var target := SeekTime(p, c);
    SyncAction(
      if Abs(el.position - target) > SEEK_TOLERANCE then Some(target) else None,
      p.isPlaying && el.paused,
      !p.isPlaying && !el.paused)
  }

  /** The element after the action: a seek sets its position, `play()` and
      `pause()` set its paused flag. */
  function ApplySync(el: MediaElement, a: SyncAction): MediaElement {
    MediaElement(
      if a.seekTo.Some? then a.seekTo.value else el.position,
      if a.play then false else if a.pause then true else el.paused)
  }

  /** After the action the element is within the tolerance of the target
      and paused exactly when the project is not playing; a second decision
      then does nothing. */
  lemma SyncReconciles(p: ProjectState, c: Clip, el: MediaElement)
    ensures var el' := ApplySync(el, SyncDecision(p, c, el));
            && Abs(el'.position - SeekTime(p, c)) <= SEEK_TOLERANCE
            && el'.paused == !p.isPlaying
            && SyncDecision(p, c, el') == SyncAction(None, false, false)
  {
  }

  /** The element only exists when the background clip is a VIDEO clip, and
      then the decision is taken for that clip. */
  function VideoSync(p: ProjectState, el: MediaElement): (r: Option<SyncAction>)
    ensures r.Some? <==> ActiveVideo(p).Some? && ActiveVideo(p).value.kind == Video
    ensures r.Some? ==> r.value == SyncDecision(p, ActiveVideo(p).value, el)
  {
    match ActiveVideo(p)
    case None => None
    case Some(v) => if v.kind == Video then Some(SyncDecision(p, v, el)) else None
  }

  // ---------------------------------------------------------------------
  // End to end

  /** From the default project, dropping an image at time 0 and seeking to 3
      gives one IMAGE clip on the video track, selected, that is the
      background at time 3 with media time 3, and no overlays. */
  lemma DropImageThenSeek(asset: Asset, id: string)
    requires asset.kind == ImageAsset
    ensures var p1 := AssetDropped(InitialState(), Some(asset), id);
            var p2 := TimeUpdated(p1, 3.0);
            && |p2.clips| == 1
            && p2.clips[0] == Clip(id, "track-1", Image, Some(asset.url), None, asset.name, 0.0, 5.0, 0.0, IdentityProperties)
            && p2.selectedClipId == Some(id)
            && ActiveVideo(p2) == Some(p2.clips[0])
            && SeekTime(p2, p2.clips[0]) == 3.0
            && ActiveTextClips(p2) == []
            && VideoSync(p2, MediaElement(0.0, true)).None?
  {
    var p0 := InitialState();
    assert p0.tracks[0].kind == VideoTrack;
    var p1 := AssetDropped(p0, Some(asset), id);
    var p2 := TimeUpdated(p1, 3.0);
    var c := p2.clips[0];
    assert ActiveClips(p2) == [c];
  }
}
