/** The editor's entity model: clips placed on tracks, the project that owns
    them, and the media assets the library holds. Times are seconds, `zoom`
    is pixels per second; all are `real`. The source's field `type` is
    called `kind` here, because `type` is a Dafny keyword. */
module Types {
  import opened Seqs

  /** The four kinds of clip (the `ClipType` enum). */
  datatype ClipType = Video | Image | Text | Audio

  /** The kind of a track lane: 'video' | 'audio' | 'text'. */
  datatype TrackType = VideoTrack | AudioTrack | TextTrack

  /** The kind of a library asset: 'video' | 'image'. */
  datatype AssetType = VideoAsset | ImageAsset

  /** The per-clip transform record. */
  datatype ClipProperties = ClipProperties(x: real, y: real, scale: real, opacity: real, rotation: real)

  /** A timed placement of media or text on a track. `src` is set for media
      clips, `content` for text clips; both are optional fields. */
  datatype Clip = Clip(
    id: string,
    trackId: string,
    kind: ClipType,
    src: Option<string>,
    content: Option<string>,
    name: string,
    startTime: real,
    duration: real,
    offset: real,
    properties: ClipProperties)

  datatype Track = Track(id: string, kind: TrackType, name: string, isMuted: bool, isHidden: bool)

  /** The aggregate root. `clips` is an ordered list; `selectedClipId` is a
      clip id or null. */
  datatype ProjectState = ProjectState(
    tracks: seq<Track>,
    clips: seq<Clip>,
    duration: real,
    currentTime: real,
    isPlaying: bool,
    selectedClipId: Option<string>,
    zoom: real)

  datatype Asset = Asset(id: string, kind: AssetType, url: string, name: string)

  /** `Partial<Clip>`: every field may be absent; a present field replaces
      the clip's own when the patch is spread over it. */
  datatype ClipPatch = ClipPatch(
    id: Option<string>,
    trackId: Option<string>,
    kind: Option<ClipType>,
    src: Option<string>,
    content: Option<string>,
    name: Option<string>,
    startTime: Option<real>,
    duration: Option<real>,
    offset: Option<real>,
    properties: Option<ClipProperties>)

  /** The patch with no fields, `{}`. */
  const EmptyClipPatch := ClipPatch(None, None, None, None, None, None, None, None, None, None)

  /** `Partial<ProjectState>`; `selectedClipId: Some(None)` sets the selection to null. */
  datatype ProjectPatch = ProjectPatch(
    tracks: Option<seq<Track>>,
    clips: Option<seq<Clip>>,
    duration: Option<real>,
    currentTime: Option<real>,
    isPlaying: Option<bool>,
    selectedClipId: Option<Option<string>>,
    zoom: Option<real>)

  const EmptyProjectPatch := ProjectPatch(None, None, None, None, None, None, None)

  /** The identity transform every new clip starts with. */
  const IdentityProperties := ClipProperties(0.0, 0.0, 1.0, 1.0, 0.0)

  /** VIDEO and IMAGE clips are drawn as the background layer. */
  predicate IsVisual(c: Clip) {
    c.kind == Video || c.kind == Image
  }

  /** Which lane kind a clip kind belongs on. */
  function LaneFor(k: ClipType): (t: TrackType)
    ensures t == VideoTrack <==> (k == Video || k == Image)
    ensures t == TextTrack <==> k == Text
    ensures t == AudioTrack <==> k == Audio
  {
    match k
    case Video => VideoTrack
    case Image => VideoTrack
    case Text => TextTrack
    case Audio => AudioTrack
  }

  /** `src` for media clips, `content` for text clips. */
  predicate PayloadMatchesKind(c: Clip) {
    if c.kind == Text then c.content.Some? && c.src.None?
    else c.src.Some? && c.content.None?
  }

  /** Exactly one track of the list has lane kind `k`. */
  predicate ExactlyOneOfKind(tracks: seq<Track>, k: TrackType) {
    exists i :: 0 <= i < |tracks| && tracks[i].kind == k &&
                forall j :: 0 <= j < |tracks| && tracks[j].kind == k ==> j == i
  }

  /** Track ids are pairwise distinct. */
  predicate TrackIdsDistinct(tracks: seq<Track>) {
    forall i, j :: 0 <= i < j < |tracks| ==> tracks[i].id != tracks[j].id
  }

  /** Clip ids are pairwise distinct. */
  predicate ClipIdsDistinct(clips: seq<Clip>) {
    forall i, j :: 0 <= i < j < |clips| ==> clips[i].id != clips[j].id
  }

  function ClipIds(clips: seq<Clip>): (ids: set<string>)
    ensures forall i :: 0 <= i < |clips| ==> clips[i].id in ids
    ensures forall id :: id in ids ==> exists i :: 0 <= i < |clips| && clips[i].id == id
  {
    set i | 0 <= i < |clips| :: clips[i].id
  }

  /** Some track in `tracks` has the clip's `trackId` and the lane kind its
      kind needs. */
  predicate OnCompatibleTrack(c: Clip, tracks: seq<Track>) {
    exists i :: 0 <= i < |tracks| && tracks[i].id == c.trackId && tracks[i].kind == LaneFor(c.kind)
  }

  /** A clip sits on a compatible existing track, carries the payload its
      kind calls for, and has a positive duration and a non-negative offset. */
  predicate ClipWellFormed(c: Clip, tracks: seq<Track>) {
    && OnCompatibleTrack(c, tracks)
    && PayloadMatchesKind(c)
    && c.duration > 0.0
    && c.offset >= 0.0
  }

  /** The data-model invariants the editor's operations keep: distinct track
      ids and well-formed clips. */
  predicate WellFormed(p: ProjectState) {
    && TrackIdsDistinct(p.tracks)
    && forall i :: 0 <= i < |p.clips| ==> ClipWellFormed(p.clips[i], p.tracks)
  }
}
