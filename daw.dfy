/**
 * The top-level component of DAW.tsx: the initial BPM, master volume and
 * step count, the table of kits (three built-in kits and the custom kit),
 * loading the built-in kits' samples through a decoder, and adding a custom
 * instrument, which appends a pad to the custom kit and a track to the
 * timeline.
 */
module Daw {
  import opened Wrappers
  import opened Model
  import opened Timeline

  /** The fetch-and-decode step `getSample`: a path decodes to a sample, or fails. */
  type Decoder = string -> Option<AudioBuffer>

  // ---------------------------------------------------------------------------
  // loadSounds: decode every path in order; the first failure rejects.

  /** Every path decodes. */
  predicate AllDecode(paths: seq<string>, decode: Decoder) {
    forall i :: 0 <= i < |paths| ==> decode(paths[i]).Some?
  }

  /**
   * What the awaited loadSounds(paths) settles to: the buffers, one per
   * path in path order, or the index of the first path whose decoding throws.
   */
  function DecodeAll(paths: seq<string>, decode: Decoder): (r: Result<seq<AudioBuffer>, nat>)
    ensures r.Success? <==> AllDecode(paths, decode)
    ensures r.Success? ==> |r.value| == |paths|
                           && forall i :: 0 <= i < |paths| ==> decode(paths[i]) == Some(r.value[i])
    ensures r.Failure? ==> r.error < |paths| && decode(paths[r.error]).None?
                           && forall j :: 0 <= j < r.error ==> decode(paths[j]).Some?
  {
    if paths == [] then Success([])
    else
      assert forall j :: 1 <= j < |paths| ==> paths[1..][j - 1] == paths[j];
      match decode(paths[0])
      case None => Failure(0)
      case Some(b) =>
        match DecodeAll(paths[1..], decode)
        case Success(bs) => Success([b] + bs)
        case Failure(i) => Failure(i + 1)
  }

  /** The for-of loop of loadSounds: push each decoded sample; a failing decode aborts the loop. */
  method LoadSounds(paths: seq<string>, decode: Decoder) returns (r: Result<seq<AudioBuffer>, nat>)
    ensures r == DecodeAll(paths, decode)
  {
    var audioBuffers: seq<AudioBuffer> := [];
    var i := 0;
    while i < |paths|
      invariant 0 <= i <= |paths| && |audioBuffers| == i
      invariant forall j :: 0 <= j < i ==> decode(paths[j]) == Some(audioBuffers[j])
    {
      var sample := decode(paths[i]);
      if sample.None? {
        return Failure(i);
      }
      audioBuffers := audioBuffers + [sample.value];
      i := i + 1;
    }
    var all := DecodeAll(paths, decode);
    assert all.value == audioBuffers by {
      assert forall j :: 0 <= j < |paths| ==> Some(all.value[j]) == Some(audioBuffers[j]);
    }
    return Success(audioBuffers);
  }

  // ---------------------------------------------------------------------------
  // loadKits: decode one built-in kit's paths and store the samples in its pads.

  /** `kit.map(sound => sound.path)`. */
  function Paths(kit: Kit): (r: seq<string>)
    ensures |r| == |kit| && forall i :: 0 <= i < |kit| ==> r[i] == kit[i].path
  {
    seq(|kit|, i requires 0 <= i < |kit| => kit[i].path)
  }

  /**
   * A kit after its load: when every path decodes, each pad holds its own
   * path's sample and is otherwise unchanged; when one fails, the kit is untouched.
   */
  function LoadedKit(kit: Kit, decode: Decoder): (r: Kit)
    ensures |r| == |kit|
    ensures AllDecode(Paths(kit), decode) ==>
      forall i :: 0 <= i < |kit| ==> r[i] == kit[i].(audio := decode(kit[i].path))
    ensures !AllDecode(Paths(kit), decode) ==> r == kit
  {
    match DecodeAll(Paths(kit), decode)
    case Success(bs) => seq(|kit|, i requires 0 <= i < |kit| => kit[i].(audio := Some(bs[i])))
    case Failure(_) => kit
  }

  /** One kit's share of loadKits: loadSounds over its paths, then the forEach storing buffer i in sound i. */
  method LoadKit(kit: Kit, decode: Decoder) returns (newKit: Kit, ok: bool)
    ensures ok <==> AllDecode(Paths(kit), decode)
    ensures newKit == LoadedKit(kit, decode)
  {
    var paths := Paths(kit);
    var audioBuffers := LoadSounds(paths, decode);
    if audioBuffers.Failure? {
      return kit, false;
    }
    newKit := kit;
    var i := 0;
    while i < |newKit|
      invariant 0 <= i <= |newKit| == |kit|
      invariant forall j :: 0 <= j < i ==> newKit[j] == kit[j].(audio := Some(audioBuffers.value[j]))
      invariant forall j :: i <= j < |kit| ==> newKit[j] == kit[j]
    {
      newKit := newKit[i := newKit[i].(audio := Some(audioBuffers.value[i]))];
      i := i + 1;
    }
    ok := true;
  }

  /** Loading never changes a pad's identity, only its sample. */
  lemma LoadedKitKeepsPads(kit: Kit, decode: Decoder)
    ensures var r := LoadedKit(kit, decode);
      forall i :: 0 <= i < |kit| ==>
        r[i].id == kit[i].id && r[i].category == kit[i].category && r[i].path == kit[i].path
        && r[i].color == kit[i].color && r[i].name == kit[i].name
  {
  }

  /** After a successful load every pad of the kit has a sample. */
  lemma LoadedKitHasAudio(kit: Kit, decode: Decoder)
    requires AllDecode(Paths(kit), decode)
    ensures forall i :: 0 <= i < |kit| ==> LoadedKit(kit, decode)[i].audio.Some?
  {
    forall i | 0 <= i < |kit| ensures LoadedKit(kit, decode)[i].audio.Some? {
      assert Paths(kit)[i] == kit[i].path;
    }
  }

  // ---------------------------------------------------------------------------
  // handleAddCustomInstrument.

  /** The track appended for a new instrument: `steps` empty cells, no flags, volume 0.5, centred. */
  function NewTrack(name: string, steps: nat): (t: TimelineTrack)
    ensures t.name == name && |t.pads| == steps
    ensures forall k :: 0 <= k < steps ==> t.pads[k] == TimelinePad(None, None, false)
    ensures t.state == TrackState(false, false, false) && t.audio == TrackAudio(0.5, 0.0)
  {
    TimelineTrack(name, seq(steps, _ => EmptyPad), TrackState(false, false, false), TrackAudio(0.5, 0.0))
  }

  /** The pad added to the custom kit: numbered after kit3's last id, its category and name both the instrument's name. */
  function NewInstrument(customKit: Kit, name: string, fileName: string, color: string,
                         audio: AudioBuffer): (p: Pad)
    ensures p.id == |customKit| + 31 && p.category == name && p.name == name
    ensures p.path == fileName && p.color == color && p.audio == Some(audio)
  {
    Pad(|customKit| + 31, name, fileName, color, name, Some(audio))
  }

  /** A new track has no armed cell, so it adds no playSound call to any column. */
  lemma NewTrackIsSilent(ts: seq<TimelineTrack>, name: string, steps: nat, column: nat, masterVolume: real)
    requires ColumnFits(ts, column) && column < steps
    ensures ColumnFits(ts + [NewTrack(name, steps)], column)
    ensures ColumnPlays(ts + [NewTrack(name, steps)], column, masterVolume) == ColumnPlays(ts, column, masterVolume)
  {
    var t := NewTrack(name, steps);
    assert ColumnFits([t], column);
    assert ColumnPlays([t], column, masterVolume) == [] by {
      assert [t][1..] == [];
      assert !PlaysAt(t, column);
    }
    ColumnPlaysAppend(ts, [t], column, masterVolume);
    assert ColumnPlays(ts, column, masterVolume) + [] == ColumnPlays(ts, column, masterVolume);
  }

  /**
   * The new track is neither ignored nor muted, so while another track is
   * soloed it breaks the solo flag relation and its cells sound despite the solo.
   */
  lemma NewTrackEscapesSolo(ts: seq<TimelineTrack>, name: string, steps: nat)
    requires AnySoloed(ts)
    ensures !IgnoredMatchesSolo(ts + [NewTrack(name, steps)])
    ensures Sounds(NewTrack(name, steps).state)
  {
    var r := ts + [NewTrack(name, steps)];
    var i :| 0 <= i < |ts| && ts[i].state.solo;
    assert r[i] == ts[i];
    assert AnySoloed(r);
    assert !r[|ts|].state.ignored;
  }

  /** Without a soloed track the new track keeps the flag relation and the knob domains. */
  lemma NewTrackKeepsInvariants(ts: seq<TimelineTrack>, name: string, steps: nat)
    requires !AnySoloed(ts) && IgnoredMatchesSolo(ts) && AudioInRange(ts)
    ensures IgnoredMatchesSolo(ts + [NewTrack(name, steps)]) && AudioInRange(ts + [NewTrack(name, steps)])
  {
    var r := ts + [NewTrack(name, steps)];
    assert forall i :: 0 <= i < |ts| ==> r[i] == ts[i];
    assert !AnySoloed(r) by {
      forall i | 0 <= i < |r| ensures !r[i].state.solo {
        if i < |ts| { assert r[i] == ts[i]; }
      }
    }
  }

  // ---------------------------------------------------------------------------
  // The shuffle only ever draws from the built-in kits.

  /**
   * Given the kit table, a sample the shuffle stores in a cell is the sample
   * of a pad of kit1, kit2 or kit3 whose category is the track's name --
   * never one of the custom kit's.
   */
  lemma ShuffleUsesBuiltInKits(kit1: Kit, kit2: Kit, kit3: Kit, customKit: Kit,
                               ts: seq<TimelineTrack>, draws: seq<real>)
    requires |draws| >= 2 * TotalPads(ts) && AllDraws(draws)
    ensures var r := ShuffleGrid(ts, KitTable(kit1, kit2, kit3, customKit), draws);
      |r| == |ts|
      && forall j, k :: 0 <= j < |ts| && 0 <= k < |r[j].pads| && r[j].pads[k].sound.Some? ==>
        exists p :: (p in kit1 || p in kit2 || p in kit3) && p.category == ts[j].name
                    && p.audio == r[j].pads[k].sound
  {
    var kits := KitTable(kit1, kit2, kit3, customKit);
    ShuffleGridCells(ts, kits, draws);
    var r := ShuffleGrid(ts, kits, draws);
    forall j, k | 0 <= j < |ts| && 0 <= k < |r[j].pads| && r[j].pads[k].sound.Some?
      ensures exists p :: (p in kit1 || p in kit2 || p in kit3) && p.category == ts[j].name
                          && p.audio == r[j].pads[k].sound
    {
      var m := r[j].pads[k].kit.value;
      var found := FindPad(kits[m - 1], ts[j].name);
      assert found.value in kits[m - 1];
    }
  }

  /** `[...[kit1, kit2, kit3], customKit]`: the built-in kits by number, then the custom kit. */
  function KitTable(kit1: Kit, kit2: Kit, kit3: Kit, customKit: Kit): (kits: seq<Kit>)
    ensures |kits| == 4 && kits[..3] == [kit1, kit2, kit3] && kits[3] == customKit
  {
    [kit1, kit2, kit3] + [customKit]
  }

  // ---------------------------------------------------------------------------
  // The component state.

  /**
   * The DAW component's state. The built-in kits are module-level JSON
   * objects whose pads loadKits writes in place; they are fields here.
   */
  class Daw {
    var BPM: real
    var masterVolume: real
    var steps: nat
    var kit1: Kit
    var kit2: Kit
    var kit3: Kit
    var customKit: Kit
    var showCustomInstrument: bool
    var showPiano: bool
    var lastAnalyzedSound: Option<AudioBuffer>
    var loaded: bool
    const timeline: TimelineState

    /** The initial state: 240 BPM, master volume 0.5, 16 steps, no custom instrument, the template timeline. */
    constructor (kit1: Kit, kit2: Kit, kit3: Kit, template: TimelineState)
      ensures BPM == 240.0 && masterVolume == 0.5 && steps == 16
      ensures this.kit1 == kit1 && this.kit2 == kit2 && this.kit3 == kit3 && customKit == []
      ensures !showCustomInstrument && !showPiano && lastAnalyzedSound == None && !loaded
      ensures timeline == template
    {
      BPM := 240.0;
      masterVolume := 0.5;
      steps := 16;
      this.kit1 := kit1;
      this.kit2 := kit2;
      this.kit3 := kit3;
      customKit := [];
      showCustomInstrument := false;
      showPiano := false;
      lastAnalyzedSound := None;
      loaded := false;
      timeline := template;
    }

    /** The memoised `kits` array handed to the timeline. */
    function Kits(): (kits: seq<Kit>)
      reads this
      ensures kits == KitTable(kit1, kit2, kit3, customKit)
    {
      [kit1, kit2, kit3, customKit]
    }

    /**
     * handleAddCustomInstrument(name, file): `decoded` is what getSample(file)
     * settles to and `color` the random colour. When decoding throws the
     * handler stops before any state change; otherwise the pad is appended
     * to the custom kit, a new track to the timeline, and the piano dialog
     * replaces the custom-instrument dialog.
     */
    method AddCustomInstrument(name: string, fileName: string, color: string, decoded: Option<AudioBuffer>)
      modifies this, timeline
      ensures decoded.None? ==> customKit == old(customKit) && timeline.tracks == old(timeline.tracks)
                                && lastAnalyzedSound == old(lastAnalyzedSound)
                                && showCustomInstrument == old(showCustomInstrument) && showPiano == old(showPiano)
      ensures decoded.Some? ==>
        customKit == old(customKit) + [NewInstrument(old(customKit), name, fileName, color, decoded.value)]
        && timeline.tracks == old(timeline.tracks) + [NewTrack(name, steps)]
        && lastAnalyzedSound == decoded
        && !showCustomInstrument && showPiano
      ensures BPM == old(BPM) && masterVolume == old(masterVolume) && steps == old(steps)
      ensures kit1 == old(kit1) && kit2 == old(kit2) && kit3 == old(kit3) && loaded == old(loaded)
      ensures timeline.settings == old(timeline.settings)
    {
      if decoded.None? {
        return;
      }
      var newInstrument := Pad(|customKit| + 31, name, fileName, color, name, None);
      newInstrument := newInstrument.(audio := decoded);
      lastAnalyzedSound := decoded;
      customKit := customKit + [newInstrument];
      var emptyPads := seq(steps, _ => TimelinePad(None, None, false));
      var newTrack := TimelineTrack(name, emptyPads, TrackState(false, false, false), TrackAudio(0.5, 0.0));
      timeline.tracks := timeline.tracks + [newTrack];
      showCustomInstrument := false;
      showPiano := true;
    }

    /**
     * The loadKits effect: each of the first three kits is loaded on its
     * own; a kit whose decoding fails is left as it was, and `loaded` is
     * set only when all three succeed. The custom kit is never loaded.
     */
    method LoadKits(decode: Decoder)
      modifies this
      ensures kit1 == LoadedKit(old(kit1), decode)
      ensures kit2 == LoadedKit(old(kit2), decode)
      ensures kit3 == LoadedKit(old(kit3), decode)
      ensures loaded == (old(loaded) || (AllDecode(Paths(old(kit1)), decode)
                                         && AllDecode(Paths(old(kit2)), decode)
                                         && AllDecode(Paths(old(kit3)), decode)))
      ensures customKit == old(customKit) && BPM == old(BPM) && masterVolume == old(masterVolume)
      ensures steps == old(steps) && lastAnalyzedSound == old(lastAnalyzedSound)
      ensures showCustomInstrument == old(showCustomInstrument) && showPiano == old(showPiano)
    {
      var newKit1, ok1 := LoadKit(kit1, decode);
      var newKit2, ok2 := LoadKit(kit2, decode);
      var newKit3, ok3 := LoadKit(kit3, decode);
      kit1, kit2, kit3 := newKit1, newKit2, newKit3;
      if ok1 && ok2 && ok3 {
        loaded := true;
      }
    }
  }
}
