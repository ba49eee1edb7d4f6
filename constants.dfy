/** The editor's fixed configuration: the default zoom and the
    three tracks every project starts with. */
module Constants {
  import opened Types

  /** Pixels per second of timeline. */
  const TIMELINE_ZOOM_DEFAULT: real := 20.0

  const DEFAULT_TRACKS: seq<Track> := [
    Track("track-1", VideoTrack, "Video Track 1", false, false),
    Track("track-2", TextTrack, "Text Overlay", false, false),
    Track("track-3", AudioTrack, "Audio Track", false, false)
  ]

  /** Three tracks with distinct ids, one of each kind in the order video,
      text, audio, none muted or hidden. */
  lemma DefaultTracksShape()
    ensures |DEFAULT_TRACKS| == 3
    ensures TrackIdsDistinct(DEFAULT_TRACKS)
    ensures DEFAULT_TRACKS[0].kind == VideoTrack
    ensures DEFAULT_TRACKS[1].kind == TextTrack
    ensures DEFAULT_TRACKS[2].kind == AudioTrack
    ensures forall i :: 0 <= i < |DEFAULT_TRACKS| ==> !DEFAULT_TRACKS[i].isMuted && !DEFAULT_TRACKS[i].isHidden
    ensures forall k: TrackType :: ExactlyOneOfKind(DEFAULT_TRACKS, k)
  {
    var d := DEFAULT_TRACKS;
    assert d[0].id[6] == '1' && d[1].id[6] == '2' && d[2].id[6] == '3';
    forall k: TrackType ensures ExactlyOneOfKind(d, k) {
      var i := match k case VideoTrack => 0 case TextTrack => 1 case AudioTrack => 2;
      forall j | 0 <= j < |d| && d[j].kind == k ensures j == i {
        assert j == 0 || j == 1 || j == 2;
      }
    }
  }
}
