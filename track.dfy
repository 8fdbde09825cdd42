/**
 * The per-track controls of Track.tsx: solo, mute and the volume and
 * panning knobs. Each edits the shared timeline in place, finding its
 * track by name.
 */
module Track {
  import opened Model

  /** First pass of soloTrack: tracks named differently lose their solo; every track becomes ignored. */
  function UnsoloOther(t: TimelineTrack, name: string): TimelineTrack {
    t.(state := t.state.(solo := if t.name != name then false else t.state.solo, ignored := true))
  }

  function FlipSolo(t: TimelineTrack): TimelineTrack {
    t.(state := t.state.(solo := !t.state.solo))
  }

  function ClearIgnored(t: TimelineTrack): TimelineTrack {
    t.(state := t.state.(ignored := false))
  }

  /** `tracks.filter(track => track.state.solo === true).length` */
  function SoloCount(ts: seq<TimelineTrack>): (n: nat)
    ensures n <= |ts|
    ensures n == 0 <==> !AnySoloed(ts)
  {
    if ts == [] then 0
    else
      assert forall j :: 1 <= j < |ts| ==> ts[1..][j - 1] == ts[j];
      (if ts[0].state.solo then 1 else 0) + SoloCount(ts[1..])
  }

  /**
   * The timeline soloTrack leaves: solo is taken from every track named
   * differently, every track is ignored, the first track with the name has its
   * solo flipped, and if no track is soloed afterwards no track stays ignored.
   */
  function SoloTracks(ts: seq<TimelineTrack>, name: string): (r: seq<TimelineTrack>)
    requires HasTrack(ts, name)
    ensures |r| == |ts|
    ensures forall j :: 0 <= j < |ts| ==>
      r[j].name == ts[j].name && r[j].pads == ts[j].pads && r[j].audio == ts[j].audio
      && r[j].state.muted == ts[j].state.muted
    ensures forall j :: 0 <= j < |ts| && ts[j].name != name ==> !r[j].state.solo
    ensures r[IndexOf(ts, name)].state.solo == !ts[IndexOf(ts, name)].state.solo
    ensures forall j :: 0 <= j < |ts| && j != IndexOf(ts, name) && ts[j].name == name ==>
      r[j].state.solo == ts[j].state.solo
    ensures IgnoredMatchesSolo(r)
  {
    var i := IndexOf(ts, name);
    var marked := seq(|ts|, j requires 0 <= j < |ts| => UnsoloOther(ts[j], name));
    var flipped := marked[i := FlipSolo(marked[i])];
    if SoloCount(flipped) == 0 then
      seq(|flipped|, j requires 0 <= j < |flipped| => ClearIgnored(flipped[j]))
    else
      flipped
  }

  /** Soloing a track that was not soloed: with unique names it becomes the only soloed track and every track is ignored. */
  lemma SoloOn(ts: seq<TimelineTrack>, name: string)
    requires HasTrack(ts, name) && DistinctNames(ts)
    requires !ts[IndexOf(ts, name)].state.solo
    ensures var r := SoloTracks(ts, name);
      (forall j :: 0 <= j < |r| ==> (r[j].state.solo <==> j == IndexOf(ts, name)))
      && (forall j :: 0 <= j < |r| ==> r[j].state.ignored)
  {
    var r := SoloTracks(ts, name);
    var i := IndexOf(ts, name);
    assert r[i].state.solo;
    assert AnySoloed(r);
    forall j | 0 <= j < |r| && j != i
      ensures ts[j].name != name
    {
      if j < i {} else { assert ts[i].name != ts[j].name; }
    }
  }

  /** Soloing the soloed track again: with unique names no track is soloed or ignored afterwards. */
  lemma SoloOff(ts: seq<TimelineTrack>, name: string)
    requires HasTrack(ts, name) && DistinctNames(ts)
    requires ts[IndexOf(ts, name)].state.solo
    ensures var r := SoloTracks(ts, name);
      forall j :: 0 <= j < |r| ==> !r[j].state.solo && !r[j].state.ignored
  {
    var r := SoloTracks(ts, name);
    var i := IndexOf(ts, name);
    forall j | 0 <= j < |r| && j != i
      ensures ts[j].name != name
    {
      if j < i {} else { assert ts[i].name != ts[j].name; }
    }
    assert !AnySoloed(r);
  }

  /** With unique names, soloTrack leaves at most one track soloed. */
  lemma AtMostOneSoloed(ts: seq<TimelineTrack>, name: string)
    requires HasTrack(ts, name) && DistinctNames(ts)
    ensures var r := SoloTracks(ts, name);
      forall j, k :: 0 <= j < |r| && 0 <= k < |r| && r[j].state.solo && r[k].state.solo ==> j == k
  {
    var r := SoloTracks(ts, name);
    var i := IndexOf(ts, name);
    forall j | 0 <= j < |r| && j != i
      ensures !r[j].state.solo
    {
      if j < i {} else { assert ts[i].name != ts[j].name; }
    }
  }

  /** While a track is soloed (and the flags are as soloTrack leaves them), exactly the soloed tracks sound; a muted soloed track sounds. */
  lemma SoloDecidesAudibility(ts: seq<TimelineTrack>)
    requires IgnoredMatchesSolo(ts) && AnySoloed(ts)
    ensures forall j :: 0 <= j < |ts| ==> (Sounds(ts[j].state) <==> ts[j].state.solo)
  {
  }

  /** With no track soloed (and the flags as soloTrack leaves them), a track sounds exactly when it is not muted. */
  lemma MuteDecidesAudibility(ts: seq<TimelineTrack>)
    requires IgnoredMatchesSolo(ts) && !AnySoloed(ts)
    ensures forall j :: 0 <= j < |ts| ==> (Sounds(ts[j].state) <==> !ts[j].state.muted)
  {
  }

  /** soloTrack, in place: the two forEach passes, the findIndex flip and the conditional reset of `ignored`. */
  method SoloTrack(tl: TimelineState, name: string)
    requires HasTrack(tl.tracks, name)
    modifies tl
    ensures tl.tracks == SoloTracks(old(tl.tracks), name)
    ensures tl.settings == old(tl.settings)
  {
    ghost var ts := tl.tracks;
    var n := |tl.tracks|;
    var j := 0;
    while j < n
      invariant 0 <= j <= n == |tl.tracks|
      invariant forall k :: 0 <= k < j ==> tl.tracks[k] == UnsoloOther(ts[k], name)
      invariant forall k :: j <= k < n ==> tl.tracks[k] == ts[k]
      invariant tl.settings == old(tl.settings)
    {
      var track := tl.tracks[j];
      if track.name != name {
        track := track.(state := track.state.(solo := false));
      }
      track := track.(state := track.state.(ignored := true));
      tl.tracks := tl.tracks[j := track];
      j := j + 1;
    }
    ghost var marked := tl.tracks;
    assert marked == seq(|ts|, k requires 0 <= k < |ts| => UnsoloOther(ts[k], name));
    var index := IndexOf(tl.tracks, name);
    assert index == IndexOf(ts, name) by {
      assert forall k :: 0 <= k < n ==> tl.tracks[k].name == ts[k].name;
      IndexOfByNames(tl.tracks, ts, name);
    }
    tl.tracks := tl.tracks[index := FlipSolo(tl.tracks[index])];
    ghost var flipped := tl.tracks;
    if SoloCount(tl.tracks) == 0 {
      j := 0;
      while j < n
        invariant 0 <= j <= n == |tl.tracks|
        invariant forall k :: 0 <= k < j ==> tl.tracks[k] == ClearIgnored(flipped[k])
        invariant forall k :: j <= k < n ==> tl.tracks[k] == flipped[k]
        invariant tl.settings == old(tl.settings)
      {
        tl.tracks := tl.tracks[j := ClearIgnored(tl.tracks[j])];
        j := j + 1;
      }
      assert tl.tracks == seq(|flipped|, k requires 0 <= k < |flipped| => ClearIgnored(flipped[k]));
    }
  }

  /** Two track lists with the same names in the same order give the same findIndex. */
  lemma IndexOfByNames(a: seq<TimelineTrack>, b: seq<TimelineTrack>, name: string)
    requires |a| == |b| && HasTrack(b, name)
    requires forall k :: 0 <= k < |a| ==> a[k].name == b[k].name
    ensures HasTrack(a, name) && IndexOf(a, name) == IndexOf(b, name)
  {
    var i := IndexOf(b, name);
    assert a[i].name == name;
    var ia := IndexOf(a, name);
    assert !(ia < i) && !(i < ia);
  }

  /** muteTrack: flips `muted` on the first track with the name and changes nothing else. */
  method MuteTrack(tl: TimelineState, name: string)
    requires HasTrack(tl.tracks, name)
    modifies tl
    ensures var i := IndexOf(old(tl.tracks), name);
      tl.tracks == old(tl.tracks)[i := old(tl.tracks)[i].(state := old(tl.tracks)[i].state.(muted := !old(tl.tracks)[i].state.muted))]
    ensures tl.settings == old(tl.settings)
    ensures IgnoredMatchesSolo(old(tl.tracks)) ==> IgnoredMatchesSolo(tl.tracks)
  {
    var index := IndexOf(tl.tracks, name);
    var track := tl.tracks[index];
    tl.tracks := tl.tracks[index := track.(state := track.state.(muted := !track.state.muted))];
    assert forall k :: 0 <= k < |tl.tracks| ==>
      tl.tracks[k].state.solo == old(tl.tracks)[k].state.solo
      && tl.tracks[k].state.ignored == old(tl.tracks)[k].state.ignored;
  }

  /** The volume knob's setter: `find(...)!.audio.volume = value`. */
  method SetVolume(tl: TimelineState, name: string, value: real)
    requires HasTrack(tl.tracks, name)
    modifies tl
    ensures var i := IndexOf(old(tl.tracks), name);
      tl.tracks == old(tl.tracks)[i := old(tl.tracks)[i].(audio := old(tl.tracks)[i].audio.(volume := value))]
    ensures tl.settings == old(tl.settings)
    ensures AudioInRange(old(tl.tracks)) && 0.0 <= value <= 1.0 ==> AudioInRange(tl.tracks)
  {
    var index := IndexOf(tl.tracks, name);
    var track := tl.tracks[index];
    tl.tracks := tl.tracks[index := track.(audio := track.audio.(volume := value))];
  }

  /** The panning knob's setter: `find(...)!.audio.panning = value`. */
  method SetPanning(tl: TimelineState, name: string, value: real)
    requires HasTrack(tl.tracks, name)
    modifies tl
    ensures var i := IndexOf(old(tl.tracks), name);
      tl.tracks == old(tl.tracks)[i := old(tl.tracks)[i].(audio := old(tl.tracks)[i].audio.(panning := value))]
    ensures tl.settings == old(tl.settings)
    ensures AudioInRange(old(tl.tracks)) && -1.0 <= value <= 1.0 ==> AudioInRange(tl.tracks)
  {
    var index := IndexOf(tl.tracks, name);
    var track := tl.tracks[index];
    tl.tracks := tl.tracks[index := track.(audio := track.audio.(panning := value))];
  }

  /** The cells the Track component renders: `find(track => track.name === self.name)!.pads`. */
  function TrackPads(ts: seq<TimelineTrack>, name: string): (pads: seq<TimelinePad>)
    requires HasTrack(ts, name)
    ensures exists i :: 0 <= i < |ts| && ts[i].name == name && pads == ts[i].pads
                     && forall j :: 0 <= j < i ==> ts[j].name != name
  {
    ts[IndexOf(ts, name)].pads
  }
}
