/** The editor's held state and the handlers that replace it. Each handler's
    new project is computed by a pure updater function (the body of the
    `setProject(prev => ...)` callback); the class `Editor` holds the
    project and the asset list and assigns those results. */
module App {
  import opened Seqs
  import opened Types
  import opened Constants
  import opened Timeline
  import opened PropertiesPanel

  /** Workspace length of a new project, in seconds. */
  const INITIAL_DURATION: real := 300.0
  /** Length of a clip made by dropping an asset. */
  const DROP_CLIP_DURATION: real := 5.0
  /** Length of a clip made by "Add Text". */
  const TEXT_CLIP_DURATION: real := 3.0

  /** The project the editor starts with: the default tracks, no clips, a
      300-second workspace, the playhead at zero, paused, nothing selected,
      and the default zoom of 20 pixels per second, which is positive; the
      data-model invariants hold. */
  function InitialState(): (r: ProjectState)
    ensures r.tracks == DEFAULT_TRACKS && |r.tracks| == 3
    ensures r.clips == []
    ensures r.duration == 300.0 && r.currentTime == 0.0
    ensures !r.isPlaying && r.selectedClipId.None?
    ensures r.zoom == TIMELINE_ZOOM_DEFAULT == 20.0 && r.zoom > 0.0
    ensures WellFormed(r)
  {
    DefaultTracksShape();
    ProjectState(DEFAULT_TRACKS, [], INITIAL_DURATION, 0.0, false, None, TIMELINE_ZOOM_DEFAULT)
  }

  // ---------------------------------------------------------------------
  // updateProject, handleTimeUpdate, handleTogglePlay, selection

  /** One field of an object spread: the patch's value when present. */
  function Pick<T>(o: Option<T>, d: T): (r: T)
    ensures o.Some? ==> r == o.value
    ensures o.None? ==> r == d
  {
    if o.Some? then o.value else d
  }

  /** `{ ...prev, ...updates }`: every field the patch names takes the
      patch's value, every other field keeps the old one, so the empty patch
      changes nothing. */
  function ProjectUpdated(p: ProjectState, u: ProjectPatch): (r: ProjectState)
    ensures u == EmptyProjectPatch ==> r == p
    ensures (u.tracks.Some? ==> r.tracks == u.tracks.value) && (u.tracks.None? ==> r.tracks == p.tracks)
    ensures (u.clips.Some? ==> r.clips == u.clips.value) && (u.clips.None? ==> r.clips == p.clips)
    ensures (u.duration.Some? ==> r.duration == u.duration.value) && (u.duration.None? ==> r.duration == p.duration)
    ensures (u.currentTime.Some? ==> r.currentTime == u.currentTime.value) &&
            (u.currentTime.None? ==> r.currentTime == p.currentTime)
    ensures (u.isPlaying.Some? ==> r.isPlaying == u.isPlaying.value) && (u.isPlaying.None? ==> r.isPlaying == p.isPlaying)
    ensures (u.selectedClipId.Some? ==> r.selectedClipId == u.selectedClipId.value) &&
            (u.selectedClipId.None? ==> r.selectedClipId == p.selectedClipId)
    ensures (u.zoom.Some? ==> r.zoom == u.zoom.value) && (u.zoom.None? ==> r.zoom == p.zoom)
  {
    ProjectState(Pick(u.tracks, p.tracks), Pick(u.clips, p.clips), Pick(u.duration, p.duration),
                 Pick(u.currentTime, p.currentTime), Pick(u.isPlaying, p.isPlaying),
                 Pick(u.selectedClipId, p.selectedClipId), Pick(u.zoom, p.zoom))
  }

  /** Applying an update twice is applying it once. */
  lemma ProjectUpdatedIdempotent(p: ProjectState, u: ProjectPatch)
    ensures ProjectUpdated(ProjectUpdated(p, u), u) == ProjectUpdated(p, u)
  {
  }

  /** `handleTimeUpdate(time)`: sets the playhead, with no clamping to the
      workspace. */
  function TimeUpdated(p: ProjectState, time: real): (r: ProjectState)
    ensures r == ProjectUpdated(p, EmptyProjectPatch.(currentTime := Some(time)))
  {
    p.(currentTime := time)
  }

  /** `handleTogglePlay()`. */
  function PlayToggled(p: ProjectState): (r: ProjectState)
    ensures r == ProjectUpdated(p, EmptyProjectPatch.(isPlaying := Some(!p.isPlaying)))
  {
    p.(isPlaying := !p.isPlaying)
  }

  /** `onSelectClip(id)`, wired to `updateProject({ selectedClipId: id })`:
      sets only the selection and does not check that the clip exists. */
  function Selected(p: ProjectState, id: Option<string>): (r: ProjectState)
    ensures r == p.(selectedClipId := id)
  {
    ProjectUpdated(p, EmptyProjectPatch.(selectedClipId := Some(id)))
  }

  /** Each of these handlers changes one field: seeking keeps every other
      field (and accepts times outside the workspace), toggling twice is the
      identity, and the last seek wins. */
  lemma SingleFieldHandlers(p: ProjectState, t: real, t2: real)
    ensures TimeUpdated(p, t).currentTime == t && TimeUpdated(p, t).(currentTime := p.currentTime) == p
    ensures PlayToggled(p).isPlaying != p.isPlaying && PlayToggled(p).(isPlaying := p.isPlaying) == p
    ensures PlayToggled(PlayToggled(p)) == p
    ensures TimeUpdated(TimeUpdated(p, t), t2) == TimeUpdated(p, t2)
  {
  }

  // ---------------------------------------------------------------------
  // handleDropOnTimeline

  /** The drop rule: both video and image assets go on video tracks. */
  predicate AcceptsAsset(t: Track, a: Asset) {
    (a.kind == VideoAsset && t.kind == VideoTrack) || (a.kind == ImageAsset && t.kind == VideoTrack)
  }

  predicate HasTrackOfKind(tracks: seq<Track>, k: TrackType) {
    exists i :: 0 <= i < |tracks| && tracks[i].kind == k
  }

  /** The first track of kind `k`, as `tracks.find(t => t.type === k)`. */
  predicate FirstOfKindAt(tracks: seq<Track>, k: TrackType, i: int) {
    0 <= i < |tracks| && tracks[i].kind == k && forall j :: 0 <= j < i ==> tracks[j].kind != k
  }

  /** The track a dropped asset goes on: the first video track, if any. */
  function DropTarget(tracks: seq<Track>, a: Asset): (r: Option<Track>)
    ensures r.None? <==> !HasTrackOfKind(tracks, VideoTrack)
    ensures r.Some? ==> exists i :: FirstOfKindAt(tracks, VideoTrack, i) && tracks[i] == r.value
  {
    Find(tracks, (t: Track) => AcceptsAsset(t, a))
  }

  /** The clip a drop creates: VIDEO for a video asset and IMAGE otherwise,
      so it belongs on a video lane; it shows the asset's url under the
      asset's name from `startTime` for five seconds, untrimmed, with the
      identity transform. */
  function NewMediaClip(a: Asset, trackId: string, startTime: real, id: string): (c: Clip)
    ensures c.id == id && c.trackId == trackId
    ensures (c.kind == Video <==> a.kind == VideoAsset) && (c.kind == Image <==> a.kind == ImageAsset)
    ensures LaneFor(c.kind) == VideoTrack && IsVisual(c)
    ensures PayloadMatchesKind(c) && c.src == Some(a.url) && c.name == a.name
    ensures c.startTime == startTime && c.duration == 5.0 && c.offset == 0.0
    ensures c.properties == ClipProperties(0.0, 0.0, 1.0, 1.0, 0.0)
  {
    Clip(id, trackId, if a.kind == VideoAsset then Video else Image, Some(a.url), None, a.name,
         startTime, DROP_CLIP_DURATION, 0.0, IdentityProperties)
  }

  /** `handleDropOnTimeline`, given the decoded drag data (`None` when the
      drag carried none) and a fresh clip id. With a video track, one clip is
      appended after the existing ones and selected: a VIDEO clip for a video
      asset, otherwise IMAGE, with the asset's url and name, placed at the
      playhead on the first video track for five seconds, offset zero,
      identity transform. Without drag data or a video track nothing changes. */
  function AssetDropped(p: ProjectState, data: Option<Asset>, id: string): (r: ProjectState)
    ensures data.None? || !HasTrackOfKind(p.tracks, VideoTrack) ==> r == p
    ensures data.Some? && HasTrackOfKind(p.tracks, VideoTrack) ==>
              && |r.clips| == |p.clips| + 1
              && r.clips[..|p.clips|] == p.clips
              && r.selectedClipId == Some(id)
              && r.(clips := p.clips, selectedClipId := p.selectedClipId) == p
              && var c := r.clips[|p.clips|];
                 && c.id == id
                 && (c.kind == Video <==> data.value.kind == VideoAsset)
                 && (c.kind == Image <==> data.value.kind == ImageAsset)
                 && c.src == Some(data.value.url) && c.content.None? && c.name == data.value.name
                 && c.startTime == p.currentTime && c.duration == 5.0 && c.offset == 0.0
                 && c.properties == ClipProperties(0.0, 0.0, 1.0, 1.0, 0.0)
                 && exists i :: FirstOfKindAt(p.tracks, VideoTrack, i) && p.tracks[i].id == c.trackId
  {
    match data
    case None => p
    case Some(asset) =>
      match DropTarget(p.tracks, asset)
      case None => p
      case Some(track) =>
        var clip := NewMediaClip(asset, track.id, p.currentTime, id);
        p.(clips := p.clips + [clip], selectedClipId := Some(id))
  }

  // ---------------------------------------------------------------------
  // handleAddText

  /** The track "Add Text" uses: the first text track, if any. */
  function TextTarget(tracks: seq<Track>): (r: Option<Track>)
    ensures r.None? <==> !HasTrackOfKind(tracks, TextTrack)
    ensures r.Some? ==> exists i :: FirstOfKindAt(tracks, TextTrack, i) && tracks[i] == r.value
  {
    Find(tracks, (t: Track) => t.kind == TextTrack)
  }

  /** The clip "Add Text" creates: a TEXT clip, so it belongs on a text
      lane, reading "New Text" under the name "Text Overlay", from
      `startTime` for three seconds, with the identity transform. */
  function NewTextClip(trackId: string, startTime: real, id: string): (c: Clip)
    ensures c.id == id && c.trackId == trackId && c.kind == Text && LaneFor(c.kind) == TextTrack
    ensures PayloadMatchesKind(c) && c.content == Some("New Text") && c.name == "Text Overlay"
    ensures c.startTime == startTime && c.duration == 3.0 && c.offset == 0.0
    ensures c.properties == ClipProperties(0.0, 0.0, 1.0, 1.0, 0.0)
  {
    Clip(id, trackId, Text, None, Some("New Text"), "Text Overlay",
         startTime, TEXT_CLIP_DURATION, 0.0, IdentityProperties)
  }

  /** `handleAddText` with a fresh clip id: with a text track, appends a
      TEXT clip "New Text" named "Text Overlay" at the playhead on the first
      text track for three seconds and selects it; otherwise nothing changes. */
  function TextAdded(p: ProjectState, id: string): (r: ProjectState)
    ensures !HasTrackOfKind(p.tracks, TextTrack) ==> r == p
    ensures HasTrackOfKind(p.tracks, TextTrack) ==>
              && |r.clips| == |p.clips| + 1
              && r.clips[..|p.clips|] == p.clips
              && r.selectedClipId == Some(id)
              && r.(clips := p.clips, selectedClipId := p.selectedClipId) == p
              && var c := r.clips[|p.clips|];
                 && c.id == id && c.kind == Text
                 && c.content == Some("New Text") && c.src.None? && c.name == "Text Overlay"
                 && c.startTime == p.currentTime && c.duration == 3.0 && c.offset == 0.0
                 && c.properties == ClipProperties(0.0, 0.0, 1.0, 1.0, 0.0)
                 && exists i :: FirstOfKindAt(p.tracks, TextTrack, i) && p.tracks[i].id == c.trackId
  {
    match TextTarget(p.tracks)
    case None => p
    case Some(track) =>
      p.(clips := p.clips + [NewTextClip(track.id, p.currentTime, id)], selectedClipId := Some(id))
  }

  // ---------------------------------------------------------------------
  // handleUpdateClip, handleDeleteClip, selectedClip

  /** `{ ...c, ...updates }`: every field the patch names takes the patch's
      value, every other field keeps the clip's own; the merge is shallow,
      a `properties` update replaces the whole record. */
  function ClipMerged(c: Clip, u: ClipPatch): (r: Clip)
    ensures (u.id.Some? ==> r.id == u.id.value) && (u.id.None? ==> r.id == c.id)
    ensures (u.trackId.Some? ==> r.trackId == u.trackId.value) && (u.trackId.None? ==> r.trackId == c.trackId)
    ensures (u.kind.Some? ==> r.kind == u.kind.value) && (u.kind.None? ==> r.kind == c.kind)
    ensures (u.src.Some? ==> r.src == u.src) && (u.src.None? ==> r.src == c.src)
    ensures (u.content.Some? ==> r.content == u.content) && (u.content.None? ==> r.content == c.content)
    ensures (u.name.Some? ==> r.name == u.name.value) && (u.name.None? ==> r.name == c.name)
    ensures (u.startTime.Some? ==> r.startTime == u.startTime.value) && (u.startTime.None? ==> r.startTime == c.startTime)
    ensures (u.duration.Some? ==> r.duration == u.duration.value) && (u.duration.None? ==> r.duration == c.duration)
    ensures (u.offset.Some? ==> r.offset == u.offset.value) && (u.offset.None? ==> r.offset == c.offset)
    ensures (u.properties.Some? ==> r.properties == u.properties.value) &&
            (u.properties.None? ==> r.properties == c.properties)
  {
    Clip(Pick(u.id, c.id), Pick(u.trackId, c.trackId), Pick(u.kind, c.kind),
         if u.src.Some? then u.src else c.src,
         if u.content.Some? then u.content else c.content,
         Pick(u.name, c.name), Pick(u.startTime, c.startTime), Pick(u.duration, c.duration),
         Pick(u.offset, c.offset), Pick(u.properties, c.properties))
  }

  /** `{}` changes nothing, and merging twice is merging once. */
  lemma ClipMergedLaws(c: Clip, u: ClipPatch)
    ensures ClipMerged(c, EmptyClipPatch) == c
    ensures ClipMerged(ClipMerged(c, u), u) == ClipMerged(c, u)
  {
  }

  /** `handleUpdateClip(id, updates)`: `clips.map(c => c.id === id ? {...c, ...updates} : c)`. */
  function ClipUpdated(p: ProjectState, id: string, u: ClipPatch): (r: ProjectState)
    ensures |r.clips| == |p.clips|
    ensures r.(clips := p.clips) == p
    ensures forall i :: 0 <= i < |p.clips| && p.clips[i].id != id ==> r.clips[i] == p.clips[i]
    ensures forall i :: 0 <= i < |p.clips| && p.clips[i].id == id ==> r.clips[i] == ClipMerged(p.clips[i], u)
  {
    p.(clips := seq(|p.clips|, i requires 0 <= i < |p.clips| =>
                      if p.clips[i].id == id then ClipMerged(p.clips[i], u) else p.clips[i]))
  }

  /** An update naming no clip leaves the project as it was. */
  lemma UpdateUnknownIdIsIdentity(p: ProjectState, id: string, u: ClipPatch)
    requires id !in ClipIds(p.clips)
    ensures ClipUpdated(p, id, u) == p
  {
    assert ClipUpdated(p, id, u).clips == p.clips;
  }

  /** `handleDeleteClip(id)`: removes every clip with that id, keeps the rest
      in order and each as often as before, and clears the selection
      whichever clip was selected. */
  function ClipDeleted(p: ProjectState, id: string): (r: ProjectState)
    ensures r.selectedClipId.None?
    ensures id !in ClipIds(r.clips)
    ensures forall i :: 0 <= i < |p.clips| && p.clips[i].id != id ==> p.clips[i] in r.clips
    ensures forall i :: 0 <= i < |r.clips| ==> r.clips[i] in p.clips
    ensures IsSubsequence(r.clips, p.clips)
    ensures multiset(r.clips) <= multiset(p.clips)
    ensures forall i :: 0 <= i < |p.clips| && p.clips[i].id != id ==>
              multiset(r.clips)[p.clips[i]] == multiset(p.clips)[p.clips[i]]
    ensures r.(clips := p.clips, selectedClipId := p.selectedClipId) == p
  {
    p.(clips := Filter(p.clips, (c: Clip) => c.id != id), selectedClipId := None)
  }

  /** `selectedClip`: the first clip whose id is the selected id; none when
      nothing is selected or the id is stale. */
  function SelectedClipOf(p: ProjectState): (r: Option<Clip>)
    ensures r.None? <==> p.selectedClipId.None? || p.selectedClipId.value !in ClipIds(p.clips)
    ensures r.Some? ==>
              && p.selectedClipId == Some(r.value.id)
              && exists i :: 0 <= i < |p.clips| && p.clips[i] == r.value &&
                             forall j :: 0 <= j < i ==> p.clips[j].id != r.value.id
  {
    match p.selectedClipId
    case None => None
    case Some(s) => Find(p.clips, (c: Clip) => c.id == s)
  }

  // ---------------------------------------------------------------------
  // Wiring of the panel and timeline callbacks

  /** `onUpdateClip` is `handleUpdateClip`, `onDeleteClip` is
      `handleDeleteClip`: only the clips and the selection can change; an
      update keeps the selection and merges the patch into the clips with
      that id, a delete removes them and clears the selection. */
  function PanelApplied(p: ProjectState, cb: PanelCallback): (r: ProjectState)
    ensures r.(clips := p.clips, selectedClipId := p.selectedClipId) == p
    ensures cb.UpdateClipCall? ==>
              && r.selectedClipId == p.selectedClipId && |r.clips| == |p.clips|
              && forall i :: 0 <= i < |p.clips| ==>
                   r.clips[i] == if p.clips[i].id == cb.clipId then ClipMerged(p.clips[i], cb.updates) else p.clips[i]
    ensures cb.DeleteClipCall? ==>
              && r.selectedClipId.None? && cb.clipId !in ClipIds(r.clips)
              && forall i :: 0 <= i < |p.clips| && p.clips[i].id != cb.clipId ==> p.clips[i] in r.clips
    ensures cb.UpdateClipCall? ==> r == ClipUpdated(p, cb.clipId, cb.updates)
    ensures cb.DeleteClipCall? ==> r == ClipDeleted(p, cb.clipId)
  {
    match cb
    case UpdateClipCall(id, u) => ClipUpdated(p, id, u)
    case DeleteClipCall(id) => ClipDeleted(p, id)
  }

  /** `onSeek` is `handleTimeUpdate`; `onSelectClip` is
      `updateProject({ selectedClipId })`: a seek changes only the playhead,
      a selection only the selected id. */
  function TimelineApplied(p: ProjectState, e: TimelineEvent): (r: ProjectState)
    ensures e.Seek? ==> r == p.(currentTime := e.time)
    ensures e.SelectClip? ==> r == p.(selectedClipId := e.id)
  {
    match e
    case Seek(t) => TimeUpdated(p, t)
    case SelectClip(id) => Selected(p, id)
  }

  /** A click on a clip box selects it and leaves the playhead alone; a
      click elsewhere moves the playhead to a non-negative time and leaves
      the selection alone. */
  lemma TimelineClickEffect(p: ProjectState, target: ClickTarget, x: real)
    requires p.zoom > 0.0
    ensures target.OnClip? ==>
              TimelineApplied(p, HandleClick(target, x, p.zoom)) == p.(selectedClipId := Some(target.clipId))
    ensures target.OnBackground? ==>
              var r := TimelineApplied(p, HandleClick(target, x, p.zoom));
              r.currentTime >= 0.0 && r == p.(currentTime := r.currentTime)
  {
  }

  /** Editing one property of the displayed clip changes that property of
      the stored clip and nothing else: the other transform fields, the
      other clip fields and the other clips stay as they were. */
  lemma PropertyEditIsolated(p: ProjectState, key: PropKey, v: real)
    requires ClipIdsDistinct(p.clips)
    requires SelectedClipOf(p).Some?
    ensures var c := SelectedClipOf(p).value;
            var r := PanelApplied(p, HandlePropChange(c, key, v));
            && |r.clips| == |p.clips|
            && forall i :: 0 <= i < |p.clips| ==>
                 if p.clips[i].id == c.id then
                   && r.clips[i] == p.clips[i].(properties := r.clips[i].properties)
                   && GetProp(r.clips[i].properties, key) == v
                   && forall k :: k != key ==> GetProp(r.clips[i].properties, k) == GetProp(p.clips[i].properties, k)
                 else r.clips[i] == p.clips[i]
  {
    var c := SelectedClipOf(p).value;
    forall i | 0 <= i < |p.clips| && p.clips[i].id == c.id
      ensures p.clips[i] == c
    {
      var j :| 0 <= j < |p.clips| && p.clips[j] == c;
      assert i == j;
    }
  }

  // ---------------------------------------------------------------------
  // Invariants the handlers keep

  lemma DeleteKeepsWellFormed(p: ProjectState, id: string)
    requires WellFormed(p)
    ensures WellFormed(ClipDeleted(p, id))
  {
    var r := ClipDeleted(p, id);
    forall i | 0 <= i < |r.clips| ensures ClipWellFormed(r.clips[i], r.tracks) {
      var j :| 0 <= j < |p.clips| && p.clips[j] == r.clips[i];
    }
  }

  /** Dropping an asset keeps the data-model invariants: in particular a
      dropped image or video lands on a video track, never on a text or
      audio track. */
  lemma DropKeepsWellFormed(p: ProjectState, data: Option<Asset>, id: string)
    requires WellFormed(p)
    ensures WellFormed(AssetDropped(p, data, id))
  {
    var r := AssetDropped(p, data, id);
    if r != p {
      var c := r.clips[|p.clips|];
      var i :| FirstOfKindAt(p.tracks, VideoTrack, i) && p.tracks[i].id == c.trackId;
      assert OnCompatibleTrack(c, p.tracks);
      forall k | 0 <= k < |r.clips| ensures ClipWellFormed(r.clips[k], r.tracks) {
        if k < |p.clips| {
          assert r.clips[k] == r.clips[..|p.clips|][k];
        }
      }
    }
  }

  lemma AddTextKeepsWellFormed(p: ProjectState, id: string)
    requires WellFormed(p)
    ensures WellFormed(TextAdded(p, id))
  {
    var r := TextAdded(p, id);
    if r != p {
      var c := r.clips[|p.clips|];
      var i :| FirstOfKindAt(p.tracks, TextTrack, i) && p.tracks[i].id == c.trackId;
      assert OnCompatibleTrack(c, p.tracks);
      forall k | 0 <= k < |r.clips| ensures ClipWellFormed(r.clips[k], r.tracks) {
        if k < |p.clips| {
          assert r.clips[k] == r.clips[..|p.clips|][k];
        }
      }
    }
  }

  /** A patch that leaves a clip's shape alone: identity, track, kind,
      media, duration and offset untouched, and text only on TEXT clips. */
  predicate KeepsShape(c: Clip, u: ClipPatch) {
    && u.id.None? && u.trackId.None? && u.kind.None? && u.src.None?
    && u.duration.None? && u.offset.None? && (u.content.Some? ==> c.kind == Text)
  }

  /** An update by id keeps the shape of every clip it touches. */
  predicate ShapePreserving(p: ProjectState, id: string, u: ClipPatch) {
    forall i :: 0 <= i < |p.clips| && p.clips[i].id == id ==> KeepsShape(p.clips[i], u)
  }

  lemma MergeKeepsClipWellFormed(c: Clip, tracks: seq<Track>, u: ClipPatch)
    requires ClipWellFormed(c, tracks) && KeepsShape(c, u)
    ensures ClipWellFormed(ClipMerged(c, u), tracks) && ClipMerged(c, u).id == c.id
  {
    var m := ClipMerged(c, u);
    assert m.trackId == c.trackId && m.kind == c.kind;
    var i :| 0 <= i < |tracks| && tracks[i].id == c.trackId && tracks[i].kind == LaneFor(c.kind);
    assert OnCompatibleTrack(m, tracks);
  }

  /** A shape-preserving update keeps the data-model invariants and the set
      of clip ids. */
  lemma UpdateKeepsWellFormed(p: ProjectState, id: string, u: ClipPatch)
    requires WellFormed(p) && ShapePreserving(p, id, u)
    ensures WellFormed(ClipUpdated(p, id, u))
    ensures forall i :: 0 <= i < |p.clips| ==> ClipUpdated(p, id, u).clips[i].id == p.clips[i].id
  {
    var r := ClipUpdated(p, id, u);
    forall i | 0 <= i < |r.clips|
      ensures ClipWellFormed(r.clips[i], r.tracks) && r.clips[i].id == p.clips[i].id
    {
      if p.clips[i].id == id {
        MergeKeepsClipWellFormed(p.clips[i], p.tracks, u);
      }
    }
  }

  /** Every callback the panel can fire on the selected clip keeps the
      data-model invariants and the distinctness of clip ids. */
  lemma PanelKeepsWellFormed(p: ProjectState, input: PanelInput)
    requires WellFormed(p) && ClipIdsDistinct(p.clips)
    ensures var cb := PanelEvent(SelectedClipOf(p), input);
            cb.Some? ==> WellFormed(PanelApplied(p, cb.value)) && ClipIdsDistinct(PanelApplied(p, cb.value).clips)
  {
    var sel := SelectedClipOf(p);
    var cb := PanelEvent(sel, input);
    if cb.Some? {
      var c := sel.value;
      assert c in p.clips;
      PanelPatchKeepsShape(c, input);
      CallbackKeepsWellFormed(p, c, cb.value);
    }
  }

  /** Every update the panel sends for its clip leaves the clip's shape alone. */
  lemma PanelPatchKeepsShape(c: Clip, input: PanelInput)
    ensures var cb := PanelEvent(Some(c), input);
            cb.Some? && cb.value.UpdateClipCall? ==> KeepsShape(c, cb.value.updates)
  {
  }

  /** A callback naming a clip of the project, whose update keeps that
      clip's shape, keeps the invariants and the distinct ids. */
  lemma CallbackKeepsWellFormed(p: ProjectState, c: Clip, cb: PanelCallback)
    requires WellFormed(p) && ClipIdsDistinct(p.clips) && c in p.clips
    requires cb.clipId == c.id
    requires cb.UpdateClipCall? ==> KeepsShape(c, cb.updates)
    ensures WellFormed(PanelApplied(p, cb)) && ClipIdsDistinct(PanelApplied(p, cb).clips)
  {
    match cb
    case UpdateClipCall(id, u) =>
      SelectedUpdateKeepsWellFormed(p, c, u);
    case DeleteClipCall(id) =>
      DeleteKeepsWellFormed(p, id);
      DeleteKeepsIdsDistinct(p, id);
  }

  lemma DeleteKeepsIdsDistinct(p: ProjectState, id: string)
    requires ClipIdsDistinct(p.clips)
    ensures ClipIdsDistinct(ClipDeleted(p, id).clips)
  {
    FilterKeepsIdsDistinct(p.clips, id);
  }

  /** An update of the one clip with a given id that leaves its shape alone
      keeps the invariants and the distinct ids. */
  lemma SelectedUpdateKeepsWellFormed(p: ProjectState, c: Clip, u: ClipPatch)
    requires WellFormed(p) && ClipIdsDistinct(p.clips) && c in p.clips && KeepsShape(c, u)
    ensures WellFormed(ClipUpdated(p, c.id, u)) && ClipIdsDistinct(ClipUpdated(p, c.id, u).clips)
  {
    forall i | 0 <= i < |p.clips| && p.clips[i].id == c.id
      ensures p.clips[i] == c
    {
      var j :| 0 <= j < |p.clips| && p.clips[j] == c;
      assert i == j;
    }
    UpdateKeepsWellFormed(p, c.id, u);
  }

  /** Removing clips by id keeps the remaining ids distinct. */
  lemma FilterKeepsIdsDistinct(clips: seq<Clip>, id: string)
    requires ClipIdsDistinct(clips)
    ensures ClipIdsDistinct(Filter(clips, (c: Clip) => c.id != id))
  {
    var key := (c: Clip) => c.id;
    assert DistinctKeys(clips, key);
    FilterKeepsDistinctKeys(clips, (c: Clip) => c.id != id, key);
  }

  /** With a fresh id, dropping an asset and adding text keep clip ids
      distinct. */
  lemma FreshIdKeepsIdsDistinct(p: ProjectState, data: Option<Asset>, id: string)
    requires ClipIdsDistinct(p.clips) && id !in ClipIds(p.clips)
    ensures ClipIdsDistinct(AssetDropped(p, data, id).clips)
    ensures ClipIdsDistinct(TextAdded(p, id).clips)
  {
    var r := AssetDropped(p, data, id);
    if r != p {
      assert r.clips == p.clips + [r.clips[|p.clips|]];
      AppendFreshKeepsIdsDistinct(p.clips, r.clips[|p.clips|]);
    }
    var s := TextAdded(p, id);
    if s != p {
      assert s.clips == p.clips + [s.clips[|p.clips|]];
      AppendFreshKeepsIdsDistinct(p.clips, s.clips[|p.clips|]);
    }
  }

  lemma AppendFreshKeepsIdsDistinct(clips: seq<Clip>, c: Clip)
    requires ClipIdsDistinct(clips) && c.id !in ClipIds(clips)
    ensures ClipIdsDistinct(clips + [c])
  {
    var r := clips + [c];
    forall i, j | 0 <= i < j < |r| ensures r[i].id != r[j].id {
      if j == |clips| {
        assert r[i] == clips[i];
      } else {
        assert r[i] == clips[i] && r[j] == clips[j];
      }
    }
  }

  // ---------------------------------------------------------------------
  // The held state

  /** The `App` component's state: the project and the asset library list. */
  class Editor {
    var project: ProjectState
    var assets: seq<Asset>

    constructor ()
      ensures project == InitialState() && assets == []
    {
      project := InitialState();
      assets := [];
    }

    method UpdateProject(u: ProjectPatch)
      modifies this
      ensures project == ProjectUpdated(old(project), u) && assets == old(assets)
      ensures u.zoom.None? ==> project.zoom == old(project.zoom)
    {
      project := ProjectUpdated(project, u);
    }

    method HandleTimeUpdate(time: real)
      modifies this
      ensures project == TimeUpdated(old(project), time) && assets == old(assets)
      ensures project.zoom == old(project.zoom)
    {
      project := TimeUpdated(project, time);
    }

    method HandleTogglePlay()
      modifies this
      ensures project == PlayToggled(old(project)) && assets == old(assets)
      ensures project.zoom == old(project.zoom)
    {
      project := PlayToggled(project);
    }

    /** `onAddAsset`: appends to the library list; the project is untouched. */
    method HandleAddAsset(asset: Asset)
      modifies this
      ensures assets == old(assets) + [asset] && project == old(project)
      ensures project.zoom == old(project.zoom)
    {
      assets := assets + [asset];
    }

    method HandleDropOnTimeline(data: Option<Asset>, freshId: string)
      modifies this
      ensures project == AssetDropped(old(project), data, freshId) && assets == old(assets)
      ensures project.zoom == old(project.zoom)
      ensures old(WellFormed(project)) ==> WellFormed(project)
    {
      if WellFormed(project) {
        DropKeepsWellFormed(project, data, freshId);
      }
      project := AssetDropped(project, data, freshId);
    }

    method HandleUpdateClip(id: string, updates: ClipPatch)
      modifies this
      ensures project == ClipUpdated(old(project), id, updates) && assets == old(assets)
      ensures project.zoom == old(project.zoom)
    {
      project := ClipUpdated(project, id, updates);
    }

    method HandleDeleteClip(id: string)
      modifies this
      ensures project == ClipDeleted(old(project), id) && assets == old(assets)
      ensures project.zoom == old(project.zoom)
      ensures old(WellFormed(project)) ==> WellFormed(project)
    {
      if WellFormed(project) {
        DeleteKeepsWellFormed(project, id);
      }
      project := ClipDeleted(project, id);
    }

    method HandleAddText(freshId: string)
      modifies this
      ensures project == TextAdded(old(project), freshId) && assets == old(assets)
      ensures project.zoom == old(project.zoom)
      ensures old(WellFormed(project)) ==> WellFormed(project)
    {
      if WellFormed(project) {
        AddTextKeepsWellFormed(project, freshId);
      }
      project := TextAdded(project, freshId);
    }

    /** `onSelectClip={(id) => updateProject({ selectedClipId: id })}`. */
    method SelectClip(id: Option<string>)
      modifies this
      ensures project == Selected(old(project), id) && assets == old(assets)
      ensures project.zoom == old(project.zoom)
    {
      UpdateProject(EmptyProjectPatch.(selectedClipId := Some(id)));
    }

    /** The clip handed to the properties panel: none when nothing is
      selected or the id is stale, otherwise the first clip of the project
      with the selected id. */
    function SelectedClip(): (r: Option<Clip>)
      reads this
      ensures r.None? <==> project.selectedClipId.None? || project.selectedClipId.value !in ClipIds(project.clips)
      ensures r.Some? ==>
                && project.selectedClipId == Some(r.value.id)
                && exists i :: 0 <= i < |project.clips| && project.clips[i] == r.value &&
                               forall j :: 0 <= j < i ==> project.clips[j].id != r.value.id
    {
      SelectedClipOf(project)
    }

    /** Runs a properties-panel callback. */
    method HandlePanelCallback(cb: PanelCallback)
      modifies this
      ensures project == PanelApplied(old(project), cb) && assets == old(assets)
      ensures project.zoom == old(project.zoom)
    {
      match cb
      case UpdateClipCall(id, u) => HandleUpdateClip(id, u);
      case DeleteClipCall(id) => HandleDeleteClip(id);
    }

    /** A click on the timeline. The pixel-to-time division needs a positive
      zoom: the editor starts at the default zoom of 20 and no handler but
      an `updateProject` that names `zoom` changes it. */
    method HandleTimelineClick(target: ClickTarget, x: real)
      requires project.zoom > 0.0
      modifies this
      ensures project == TimelineApplied(old(project), HandleClick(target, x, old(project.zoom)))
      ensures assets == old(assets) && project.zoom == old(project.zoom)
    {
      HandleTimelineEvent(HandleClick(target, x, project.zoom));
    }

    /** Runs a timeline callback. */
    method HandleTimelineEvent(e: TimelineEvent)
      modifies this
      ensures project == TimelineApplied(old(project), e) && assets == old(assets)
      ensures project.zoom == old(project.zoom)
    {
      match e
      case Seek(t) => HandleTimeUpdate(t);
      case SelectClip(id) => SelectClip(id);
    }
  }
}
