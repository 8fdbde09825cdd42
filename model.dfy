/**
 * The composition shared by every component of the sequencer: kits of
 * sample pads, the timeline grid of tracks and cells, and the settings.
 * The record types are declared identically in Timeline.tsx, Track.tsx and
 * DAW.tsx; they are declared once here.
 */
module Model {
  import opened Wrappers

  /** An opaque handle on a decoded audio sample (a Web Audio buffer). */
  datatype AudioBuffer = AudioBuffer(handle: nat)

  /**
   * One sample of a kit. The source calls `category` `type`: it names the
   * track the sample belongs to.
   */
  datatype Pad = Pad(id: int, category: string, path: string, color: string, name: string,
                     audio: Option<AudioBuffer>)

  type Kit = seq<Pad>

  /** One cell of the grid: which kit (1-based) supplied its sample, the cached sample and the playhead flag. */
  datatype TimelinePad = TimelinePad(kit: Option<int>, sound: Option<AudioBuffer>, playing: bool)

  datatype TrackState = TrackState(solo: bool, muted: bool, ignored: bool)

  datatype TrackAudio = TrackAudio(volume: real, panning: real)

  datatype TimelineTrack = TimelineTrack(name: string, pads: seq<TimelinePad>, state: TrackState,
                                         audio: TrackAudio)

  datatype Settings = Settings(BPM: real, masterVolume: real)

  /** The cell every resize appends and every new track is filled with. */
  const EmptyPad := TimelinePad(None, None, false)

  /** The timeline: the single mutable aggregate that every component edits in place. */
  class TimelineState {
    var settings: Settings
    var tracks: seq<TimelineTrack>

    constructor (settings: Settings, tracks: seq<TimelineTrack>)
      ensures this.settings == settings && this.tracks == tracks
    {
      this.settings := settings;
      this.tracks := tracks;
    }
  }

  predicate HasTrack(ts: seq<TimelineTrack>, name: string) {
    exists i :: 0 <= i < |ts| && ts[i].name == name
  }

  /** The index `findIndex(track => track.name === name)` returns; defined only when it is found. */
  function IndexOf(ts: seq<TimelineTrack>, name: string): (i: nat)
    requires HasTrack(ts, name)
    ensures i < |ts| && ts[i].name == name
    ensures forall j :: 0 <= j < i ==> ts[j].name != name
  {
    if ts[0].name == name then 0
    else
      var k :| 0 <= k < |ts| && ts[k].name == name;
      assert ts[1..][k - 1] == ts[k];
      IndexOf(ts[1..], name) + 1
  }

  predicate DistinctNames(ts: seq<TimelineTrack>) {
    forall i, j :: 0 <= i < j < |ts| ==> ts[i].name != ts[j].name
  }

  /** JavaScript truthiness of a cell's `kit` field (`number | null`): `null` and `0` are falsy. */
  predicate IsArmed(p: TimelinePad) {
    p.kit.Some? && p.kit.value != 0
  }

  /** The flag half of the play test in Timeline.tsx: `solo || (!ignored && !muted)`. */
  predicate Sounds(s: TrackState) {
    s.solo || (!s.ignored && !s.muted)
  }

  predicate AnySoloed(ts: seq<TimelineTrack>) {
    exists i :: 0 <= i < |ts| && ts[i].state.solo
  }

  /**
   * The relation soloTrack establishes between the flags: every track is
   * ignored while some track is soloed, and none is ignored otherwise.
   */
  predicate IgnoredMatchesSolo(ts: seq<TimelineTrack>) {
    (AnySoloed(ts) ==> forall i :: 0 <= i < |ts| ==> ts[i].state.ignored)
    && (!AnySoloed(ts) ==> forall i :: 0 <= i < |ts| ==> !ts[i].state.ignored)
  }

  /** The knob domains: volume in [0, 1], panning in [-1, 1]. */
  predicate AudioInRange(ts: seq<TimelineTrack>) {
    forall i :: 0 <= i < |ts| ==>
      0.0 <= ts[i].audio.volume <= 1.0 && -1.0 <= ts[i].audio.panning <= 1.0
  }

  /** The number of cells in the grid; bounds how many random draws a shuffle may take. */
  function TotalPads(ts: seq<TimelineTrack>): nat {
    if ts == [] then 0 else |ts[0].pads| + TotalPads(ts[1..])
  }
}
