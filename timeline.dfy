/**
 * The grid editor and the playback loop of Timeline.tsx: the steps and
 * settings effects, playColumn, clearTimeline, shuffleTimeline and the
 * `active`/`valid` scheduler driven by start, stop and the Space key.
 */
module Timeline {
  import opened Wrappers
  import opened Model

  /** The arguments of one `playSound(sound, panning, volume, masterVolume)` call. */
  datatype PlayEvent = PlayEvent(sound: Option<AudioBuffer>, panning: real, volume: real, masterVolume: real)

  // ---------------------------------------------------------------------------
  // Steps effect: every track is padded with empty cells or truncated.

  function ResizePads(pads: seq<TimelinePad>, steps: nat): (r: seq<TimelinePad>)
    ensures |r| == steps
    ensures forall j :: 0 <= j < |pads| && j < steps ==> r[j] == pads[j]
    ensures forall j :: |pads| <= j < steps ==> r[j] == EmptyPad
  {
    if |pads| < steps then pads + seq(steps - |pads|, _ => EmptyPad) else pads[..steps]
  }

  // ---------------------------------------------------------------------------
  // playColumn: move the playhead and decide which tracks sound.

  /** `(column - 1 < 0) ? (track.pads.length - 1) : (column - 1)`: the column before, cyclically. */
  function PrevColumn(len: nat, column: nat): (p: nat)
    requires column < len
    ensures p < len
    ensures if column == 0 then p == len - 1 else p + 1 == column
  {
    if column == 0 then len - 1 else column - 1
  }

  /** The cells of one track after playColumn(column). */
  function MarkColumn(pads: seq<TimelinePad>, column: nat): (r: seq<TimelinePad>)
    requires column < |pads|
    ensures |r| == |pads|
    ensures r[column].playing
    ensures PrevColumn(|pads|, column) != column ==> !r[PrevColumn(|pads|, column)].playing
    ensures forall j :: 0 <= j < |pads| && j != column && j != PrevColumn(|pads|, column) ==> r[j] == pads[j]
    ensures forall j :: 0 <= j < |pads| ==> r[j].kit == pads[j].kit && r[j].sound == pads[j].sound
  {
    var prev := PrevColumn(|pads|, column);
    var unmarked := pads[prev := pads[prev].(playing := false)];
    unmarked[column := unmarked[column].(playing := true)]
  }

  function MarkTrack(t: TimelineTrack, column: nat): TimelineTrack
    requires column < |t.pads|
  {
    t.(pads := MarkColumn(t.pads, column))
  }

  /** Every track has a cell at this column (a missing cell makes playColumn throw). */
  predicate ColumnFits(ts: seq<TimelineTrack>, column: nat) {
    forall j :: 0 <= j < |ts| ==> column < |ts[j].pads|
  }

  function MarkTracks(ts: seq<TimelineTrack>, column: nat): seq<TimelineTrack>
    requires ColumnFits(ts, column)
  {
    seq(|ts|, j requires 0 <= j < |ts| => MarkTrack(ts[j], column))
  }

  /** The play test of playColumn: the current cell's kit is truthy and the track's flags let it sound. */
  predicate PlaysAt(t: TimelineTrack, column: nat)
    requires column < |t.pads|
  {
    IsArmed(t.pads[column]) && Sounds(t.state)
  }

  function EventFor(t: TimelineTrack, column: nat, masterVolume: real): PlayEvent
    requires column < |t.pads|
  {
    PlayEvent(t.pads[column].sound, t.audio.panning, t.audio.volume, masterVolume)
  }

  /** The playSound calls of one column, in track order. */
  function ColumnPlays(ts: seq<TimelineTrack>, column: nat, masterVolume: real): (r: seq<PlayEvent>)
    requires ColumnFits(ts, column)
    ensures |r| <= |ts|
    ensures forall j :: 0 <= j < |ts| && PlaysAt(ts[j], column) ==> EventFor(ts[j], column, masterVolume) in r
    ensures forall e :: e in r ==>
              exists j :: 0 <= j < |ts| && PlaysAt(ts[j], column) && e == EventFor(ts[j], column, masterVolume)
  {
    if ts == [] then []
    else
      assert forall j :: 1 <= j < |ts| ==> ts[1..][j - 1] == ts[j];
      var rest := ColumnPlays(ts[1..], column, masterVolume);
      (if PlaysAt(ts[0], column) then [EventFor(ts[0], column, masterVolume)] else []) + rest
  }

  /** The calls of a column split along the tracks: the calls of the first tracks come first. */
  lemma {:induction false} ColumnPlaysAppend(a: seq<TimelineTrack>, b: seq<TimelineTrack>, column: nat, masterVolume: real)
    requires ColumnFits(a, column) && ColumnFits(b, column)
    ensures ColumnFits(a + b, column)
    ensures ColumnPlays(a + b, column, masterVolume) == ColumnPlays(a, column, masterVolume) + ColumnPlays(b, column, masterVolume)
  {
    assert ColumnFits(a + b, column) by {
      forall j | 0 <= j < |a + b| ensures column < |(a + b)[j].pads| {
        if j < |a| { assert (a + b)[j] == a[j]; } else { assert (a + b)[j] == b[j - |a|]; }
      }
    }
    if a != [] {
      assert (a + b)[1..] == a[1..] + b;
      assert ColumnFits(a[1..], column) by {
        forall j | 0 <= j < |a[1..]| ensures column < |a[1..][j].pads| { assert a[1..][j] == a[j + 1]; }
      }
      ColumnPlaysAppend(a[1..], b, column, masterVolume);
    } else {
      assert a + b == b;
    }
  }

  /** A prefix of tracks that fit a column fits it too. */
  lemma ColumnFitsPrefix(ts: seq<TimelineTrack>, i: nat, column: nat)
    requires ColumnFits(ts, column) && i <= |ts|
    ensures ColumnFits(ts[..i], column)
  {
    assert forall j :: 0 <= j < i ==> ts[..i][j] == ts[j];
  }

  /** The calls of one more track follow the calls of the tracks before it. */
  lemma ColumnPlaysSnoc(ts: seq<TimelineTrack>, i: nat, column: nat, masterVolume: real)
    requires ColumnFits(ts, column) && i < |ts|
    ensures ColumnFits(ts[..i], column) && ColumnFits(ts[..i + 1], column)
    ensures ColumnPlays(ts[..i + 1], column, masterVolume)
            == ColumnPlays(ts[..i], column, masterVolume)
               + (if PlaysAt(ts[i], column) then [EventFor(ts[i], column, masterVolume)] else [])
  {
    ColumnFitsPrefix(ts, i, column);
    ColumnFitsPrefix(ts, i + 1, column);
    assert ColumnPlays([ts[i]], column, masterVolume)
           == (if PlaysAt(ts[i], column) then [EventFor(ts[i], column, masterVolume)] else []) by {
      assert [ts[i]][1..] == [];
    }
    ColumnPlaysAppend(ts[..i], [ts[i]], column, masterVolume);
    assert ts[..i + 1] == ts[..i] + [ts[i]];
  }

  // ---------------------------------------------------------------------------
  // clearTimeline and the effect cleanup.

  function ClearPad(p: TimelinePad): TimelinePad {
    p.(kit := None, sound := None)
  }

  function ClearTrack(t: TimelineTrack): TimelineTrack {
    t.(pads := seq(|t.pads|, k requires 0 <= k < |t.pads| => ClearPad(t.pads[k])))
  }

  /** The grid clearTimeline leaves: every kit and sound emptied, nothing else touched. */
  function ClearTracks(ts: seq<TimelineTrack>): (r: seq<TimelineTrack>)
    ensures |r| == |ts|
    ensures forall j :: 0 <= j < |ts| ==>
      r[j].name == ts[j].name && r[j].state == ts[j].state && r[j].audio == ts[j].audio
      && |r[j].pads| == |ts[j].pads|
    ensures forall j, k :: 0 <= j < |ts| && 0 <= k < |ts[j].pads| ==>
      r[j].pads[k].kit.None? && r[j].pads[k].sound.None? && r[j].pads[k].playing == ts[j].pads[k].playing
  {
    seq(|ts|, j requires 0 <= j < |ts| => ClearTrack(ts[j]))
  }

  function StopPad(p: TimelinePad): TimelinePad {
    p.(playing := false)
  }

  function StopTrack(t: TimelineTrack): TimelineTrack {
    t.(pads := seq(|t.pads|, k requires 0 <= k < |t.pads| => StopPad(t.pads[k])))
  }

  /** The grid the scheduler's cleanup leaves: no cell playing, nothing else touched. */
  function StopTracks(ts: seq<TimelineTrack>): (r: seq<TimelineTrack>)
    ensures |r| == |ts|
    ensures forall j :: 0 <= j < |ts| ==>
      r[j].name == ts[j].name && r[j].state == ts[j].state && r[j].audio == ts[j].audio
      && |r[j].pads| == |ts[j].pads|
    ensures forall j, k :: 0 <= j < |ts| && 0 <= k < |ts[j].pads| ==>
      !r[j].pads[k].playing && r[j].pads[k].kit == ts[j].pads[k].kit && r[j].pads[k].sound == ts[j].pads[k].sound
  {
    seq(|ts|, j requires 0 <= j < |ts| => StopTrack(ts[j]))
  }

  // ---------------------------------------------------------------------------
  // shuffleTimeline, with Math.random's draws supplied as a sequence.

  /** A value Math.random can return. */
  predicate IsDraw(d: real) {
    0.0 <= d < 1.0
  }

  predicate AllDraws(draws: seq<real>) {
    forall i :: 0 <= i < |draws| ==> IsDraw(draws[i])
  }

  /** What a shuffle step produced and the draws it left unused. */
  datatype Shuffled<T> = Shuffled(result: T, rest: seq<real>)

  /** `Math.floor(Math.random() * 3) + 1`: one of the three built-in kits. */
  function DrawnKit(d: real): (k: int)
    requires IsDraw(d)
    ensures 1 <= k <= 3
  {
    (d * 3.0).Floor + 1
  }

  /** `kit.find(sound => sound.type === name)`: the first pad of the kit for this track. */
  function FindPad(kit: Kit, name: string): (r: Option<Pad>)
    ensures r.Some? ==> exists i :: 0 <= i < |kit| && kit[i] == r.value && r.value.category == name
                                    && forall j :: 0 <= j < i ==> kit[j].category != name
    ensures r.None? ==> forall j :: 0 <= j < |kit| ==> kit[j].category != name
  {
    if kit == [] then None
    else if kit[0].category == name then Some(kit[0])
    else
      assert forall j :: 1 <= j < |kit| ==> kit[1..][j - 1] == kit[j];
      var r := FindPad(kit[1..], name);
      assert r.Some? ==> exists i :: 1 <= i < |kit| && kit[i] == r.value && r.value.category == name
                                     && forall j :: 0 <= j < i ==> kit[j].category != name;
      r
  }

  /** The sound a cell armed with kit `k` gets: the matching pad's sample if it has one, else what it had. */
  function ShuffleSound(kits: seq<Kit>, k: int, name: string, current: Option<AudioBuffer>): Option<AudioBuffer>
    requires 1 <= k <= 3 <= |kits|
  {
    var found := FindPad(kits[k - 1], name);
    if found.Some? && found.value.audio.Some? then found.value.audio else current
  }

  /** The relation between a cell before and after the shuffle visits it. */
  predicate ShuffledFrom(before: TimelinePad, after: TimelinePad, name: string, kits: seq<Kit>)
    requires |kits| >= 3
  {
    after == before
    || (after.kit.Some? && 1 <= after.kit.value <= 3
        && after.sound == ShuffleSound(kits, after.kit.value, name, before.sound)
        && after.playing == before.playing)
  }

  /** One cell of the shuffle: one draw decides whether it is armed (`> 0.75`), a second picks the kit. */
  function ShuffleCell(pad: TimelinePad, name: string, kits: seq<Kit>, draws: seq<real>): (r: Shuffled<TimelinePad>)
    requires |kits| >= 3 && |draws| >= 2 && AllDraws(draws)
    ensures ShuffledFrom(pad, r.result, name, kits)
    ensures draws[0] > 0.75 ==>
      r.rest == draws[2..] && r.result.kit == Some(DrawnKit(draws[1]))
      && r.result.sound == ShuffleSound(kits, DrawnKit(draws[1]), name, pad.sound)
      && r.result.playing == pad.playing
    ensures draws[0] <= 0.75 ==> r.rest == draws[1..] && r.result == pad
  {
    if draws[0] > 0.75 then
      var k := DrawnKit(draws[1]);
      Shuffled(pad.(kit := Some(k), sound := ShuffleSound(kits, k, name, pad.sound)), draws[2..])
    else
      Shuffled(pad, draws[1..])
  }

  /** The cells of one track after the shuffle, consuming the draws in cell order. */
  function ShufflePads(pads: seq<TimelinePad>, name: string, kits: seq<Kit>, draws: seq<real>): (r: Shuffled<seq<TimelinePad>>)
    requires |kits| >= 3 && |draws| >= 2 * |pads| && AllDraws(draws)
    ensures |r.result| == |pads|
    ensures |draws| - 2 * |pads| <= |r.rest| && AllDraws(r.rest)
  {
    if pads == [] then Shuffled([], draws)
    else
      var c := ShuffleCell(pads[0], name, kits, draws);
      var tail := ShufflePads(pads[1..], name, kits, c.rest);
      Shuffled([c.result] + tail.result, tail.rest)
  }

  /** One step of ShufflePads: the first cell takes one or two draws, the others take what is left. */
  lemma ShufflePadsUnfold(pads: seq<TimelinePad>, name: string, kits: seq<Kit>, draws: seq<real>)
    requires pads != []
    requires |kits| >= 3 && |draws| >= 2 * |pads| && AllDraws(draws)
    ensures var c := ShuffleCell(pads[0], name, kits, draws);
      |c.rest| >= 2 * (|pads| - 1) && AllDraws(c.rest)
      && ShufflePads(pads, name, kits, draws)
         == Shuffled([c.result] + ShufflePads(pads[1..], name, kits, c.rest).result,
                     ShufflePads(pads[1..], name, kits, c.rest).rest)
  {
  }

  /** Each cell of the track changes as ShuffledFrom allows. */
  lemma {:induction false} ShufflePadsCells(pads: seq<TimelinePad>, name: string, kits: seq<Kit>, draws: seq<real>)
    requires |kits| >= 3 && |draws| >= 2 * |pads| && AllDraws(draws)
    ensures var r := ShufflePads(pads, name, kits, draws).result;
      forall k :: 0 <= k < |pads| ==> ShuffledFrom(pads[k], r[k], name, kits)
  {
    if pads != [] {
      ShufflePadsUnfold(pads, name, kits, draws);
      var c := ShuffleCell(pads[0], name, kits, draws);
      ShufflePadsCells(pads[1..], name, kits, c.rest);
      var r := ShufflePads(pads, name, kits, draws).result;
      var tail := ShufflePads(pads[1..], name, kits, c.rest).result;
      forall k | 1 <= k < |pads|
        ensures r[k] == tail[k - 1] && pads[1..][k - 1] == pads[k]
      {
      }
    }
  }

  /** The draws left when the shuffle of a track reaches its cell k: each earlier cell took one or two. */
  function PadDraws(pads: seq<TimelinePad>, name: string, kits: seq<Kit>, draws: seq<real>, k: nat): (d: seq<real>)
    requires k < |pads| && |kits| >= 3 && |draws| >= 2 * |pads| && AllDraws(draws)
    ensures |d| >= 2 * (|pads| - k) && AllDraws(d)
  {
    if k == 0 then draws
    else PadDraws(pads[1..], name, kits, ShuffleCell(pads[0], name, kits, draws).rest, k - 1)
  }

  /** Cell k of a shuffled track is what ShuffleCell makes of it with the draws the earlier cells left. */
  lemma {:induction false} ShufflePadsDraws(pads: seq<TimelinePad>, name: string, kits: seq<Kit>, draws: seq<real>)
    requires |kits| >= 3 && |draws| >= 2 * |pads| && AllDraws(draws)
    ensures var r := ShufflePads(pads, name, kits, draws).result;
      forall k :: 0 <= k < |pads| ==>
        r[k] == ShuffleCell(pads[k], name, kits, PadDraws(pads, name, kits, draws, k)).result
  {
    if pads != [] {
      ShufflePadsUnfold(pads, name, kits, draws);
      var c := ShuffleCell(pads[0], name, kits, draws);
      ShufflePadsDraws(pads[1..], name, kits, c.rest);
      var r := ShufflePads(pads, name, kits, draws).result;
      var tail := ShufflePads(pads[1..], name, kits, c.rest).result;
      forall k | 1 <= k < |pads|
        ensures r[k] == tail[k - 1] && pads[1..][k - 1] == pads[k]
      {
      }
    }
  }

  /** The grid after the shuffle, consuming the draws track by track. */
  function ShuffleTracks(ts: seq<TimelineTrack>, kits: seq<Kit>, draws: seq<real>): (r: Shuffled<seq<TimelineTrack>>)
    requires |kits| >= 3 && |draws| >= 2 * TotalPads(ts) && AllDraws(draws)
    ensures |r.result| == |ts|
  {
    if ts == [] then Shuffled([], draws)
    else
      var p := ShufflePads(ts[0].pads, ts[0].name, kits, draws);
      var tail := ShuffleTracks(ts[1..], kits, p.rest);
      Shuffled([ts[0].(pads := p.result)] + tail.result, tail.rest)
  }

  /** The shuffle changes only cells, and each cell as ShuffledFrom allows. */
  lemma {:induction false} ShuffleTracksCells(ts: seq<TimelineTrack>, kits: seq<Kit>, draws: seq<real>)
    requires |kits| >= 3 && |draws| >= 2 * TotalPads(ts) && AllDraws(draws)
    ensures var r := ShuffleTracks(ts, kits, draws).result;
      forall j :: 0 <= j < |ts| ==>
        r[j].name == ts[j].name && r[j].state == ts[j].state && r[j].audio == ts[j].audio
        && |r[j].pads| == |ts[j].pads|
        && forall k :: 0 <= k < |ts[j].pads| ==> ShuffledFrom(ts[j].pads[k], r[j].pads[k], ts[j].name, kits)
  {
    if ts != [] {
      ShuffleTracksUnfold(ts, kits, draws);
      var p := ShufflePads(ts[0].pads, ts[0].name, kits, draws);
      ShufflePadsCells(ts[0].pads, ts[0].name, kits, draws);
      ShuffleTracksCells(ts[1..], kits, p.rest);
      var r := ShuffleTracks(ts, kits, draws).result;
      var tail := ShuffleTracks(ts[1..], kits, p.rest).result;
      assert r == [ts[0].(pads := p.result)] + tail;
      forall j | 1 <= j < |ts|
        ensures r[j] == tail[j - 1] && ts[1..][j - 1] == ts[j]
      {
      }
    }
  }

  /** The draws left when the shuffle reaches track j: each earlier track took those of its cells. */
  function TrackDraws(ts: seq<TimelineTrack>, kits: seq<Kit>, draws: seq<real>, j: nat): (d: seq<real>)
    requires j < |ts| && |kits| >= 3 && |draws| >= 2 * TotalPads(ts) && AllDraws(draws)
    ensures |d| >= 2 * TotalPads(ts[j..]) && AllDraws(d)
  {
    if j == 0 then draws
    else
      ShuffleTracksUnfold(ts, kits, draws);
      var d := TrackDraws(ts[1..], kits, ShufflePads(ts[0].pads, ts[0].name, kits, draws).rest, j - 1);
      assert ts[1..][j - 1..] == ts[j..];
      d
  }

  /** Track j of the shuffled grid is track j with its cells shuffled by the draws the earlier tracks left. */
  lemma {:induction false} ShuffleTracksDraws(ts: seq<TimelineTrack>, kits: seq<Kit>, draws: seq<real>)
    requires |kits| >= 3 && |draws| >= 2 * TotalPads(ts) && AllDraws(draws)
    ensures var r := ShuffleTracks(ts, kits, draws).result;
      forall j :: 0 <= j < |ts| ==>
        |TrackDraws(ts, kits, draws, j)| >= 2 * |ts[j].pads|
        && r[j] == ts[j].(pads := ShufflePads(ts[j].pads, ts[j].name, kits, TrackDraws(ts, kits, draws, j)).result)
  {
    if ts != [] {
      ShuffleTracksUnfold(ts, kits, draws);
      var p := ShufflePads(ts[0].pads, ts[0].name, kits, draws);
      ShuffleTracksDraws(ts[1..], kits, p.rest);
      var r := ShuffleTracks(ts, kits, draws).result;
      var tail := ShuffleTracks(ts[1..], kits, p.rest).result;
      assert r == [ts[0].(pads := p.result)] + tail;
      forall j | 0 <= j < |ts|
        ensures |TrackDraws(ts, kits, draws, j)| >= 2 * |ts[j].pads|
      {
        var d := TrackDraws(ts, kits, draws, j);
        assert TotalPads(ts[j..]) == |ts[j].pads| + TotalPads(ts[j..][1..]);
      }
      forall j | 1 <= j < |ts|
        ensures r[j] == tail[j - 1] && ts[1..][j - 1] == ts[j]
      {
      }
    }
  }

  /** One step of ShuffleTracks: the first track takes its draws, the rest of the grid takes what is left. */
  lemma ShuffleTracksUnfold(ts: seq<TimelineTrack>, kits: seq<Kit>, draws: seq<real>)
    requires ts != []
    requires |kits| >= 3 && |draws| >= 2 * TotalPads(ts) && AllDraws(draws)
    ensures |draws| >= 2 * |ts[0].pads|
    ensures var p := ShufflePads(ts[0].pads, ts[0].name, kits, draws);
      |p.rest| >= 2 * TotalPads(ts[1..]) && AllDraws(p.rest)
      && ShuffleTracks(ts, kits, draws)
         == Shuffled([ts[0].(pads := p.result)] + ShuffleTracks(ts[1..], kits, p.rest).result,
                     ShuffleTracks(ts[1..], kits, p.rest).rest)
  {
  }

  /** The loop of ShuffleTimeline keeps its invariant across one track. */
  lemma ShuffleTracksStep(ts: seq<TimelineTrack>, i: nat, kits: seq<Kit>, draws: seq<real>,
                          done: seq<TimelineTrack>, rest: seq<real>)
    requires i < |ts| && |kits| >= 3 && |draws| >= 2 * TotalPads(ts) && AllDraws(draws)
    requires |rest| >= 2 * TotalPads(ts[i..]) && AllDraws(rest)
    requires done + ShuffleTracks(ts[i..], kits, rest).result == ShuffleTracks(ts, kits, draws).result
    ensures |rest| >= 2 * |ts[i].pads|
    ensures var p := ShufflePads(ts[i].pads, ts[i].name, kits, rest);
      |p.rest| >= 2 * TotalPads(ts[i + 1..]) && AllDraws(p.rest)
      && (done + [ts[i].(pads := p.result)]) + ShuffleTracks(ts[i + 1..], kits, p.rest).result
         == ShuffleTracks(ts, kits, draws).result
  {
    ShuffleTracksUnfold(ts[i..], kits, rest);
    assert ts[i..][0] == ts[i] && ts[i..][1..] == ts[i + 1..];
    var p := ShufflePads(ts[i].pads, ts[i].name, kits, rest);
    var tail := ShuffleTracks(ts[i + 1..], kits, p.rest).result;
    assert (done + [ts[i].(pads := p.result)]) + tail == done + ([ts[i].(pads := p.result)] + tail);
  }

  /** Overwriting the first element of the unprocessed part moves it to the processed part. */
  lemma UpdateAtBoundary<T>(done: seq<T>, todo: seq<T>, x: T)
    requires todo != []
    ensures (done + todo)[|done| := x] == (done + [x]) + todo[1..]
  {
    assert forall j :: 0 <= j < |done| + |todo| ==> ((done + todo)[|done| := x])[j] == ((done + [x]) + todo[1..])[j];
  }

  /** shuffleTimeline's effect on the grid: clear every cell, then shuffle. */
  function ShuffleGrid(ts: seq<TimelineTrack>, kits: seq<Kit>, draws: seq<real>): (r: seq<TimelineTrack>)
    requires |kits| >= 3 && |draws| >= 2 * TotalPads(ts) && AllDraws(draws)
    ensures |r| == |ts|
    ensures forall j :: 0 <= j < |ts| ==>
      r[j].name == ts[j].name && r[j].state == ts[j].state && r[j].audio == ts[j].audio
      && |r[j].pads| == |ts[j].pads|
  {
    TotalPadsCleared(ts);
    ShuffleTracksCells(ClearTracks(ts), kits, draws);
    ShuffleTracks(ClearTracks(ts), kits, draws).result
  }

  /**
   * What shuffleTimeline leaves in every cell: no kit, or one of the three
   * built-in kits; no sound without a kit; and any sound is the sample of the
   * first pad of that kit whose category is the track's name. Names, flags,
   * audio, lengths and the playhead stay as they were.
   */
  lemma ShuffleGridCells(ts: seq<TimelineTrack>, kits: seq<Kit>, draws: seq<real>)
    requires |kits| >= 3 && |draws| >= 2 * TotalPads(ts) && AllDraws(draws)
    ensures var r := ShuffleGrid(ts, kits, draws);
      |r| == |ts|
      && forall j :: 0 <= j < |ts| ==>
        r[j].name == ts[j].name && r[j].state == ts[j].state && r[j].audio == ts[j].audio
        && |r[j].pads| == |ts[j].pads|
        && forall k :: 0 <= k < |ts[j].pads| ==>
          var p := r[j].pads[k];
          (p.kit.None? || 1 <= p.kit.value <= 3)
          && (p.kit.None? ==> p.sound.None?)
          && (p.sound.Some? ==> FindPad(kits[p.kit.value - 1], ts[j].name).Some?
                                && FindPad(kits[p.kit.value - 1], ts[j].name).value.audio == p.sound)
          && p.playing == ts[j].pads[k].playing
  {
    TotalPadsCleared(ts);
    var cleared := ClearTracks(ts);
    ShuffleTracksCells(cleared, kits, draws);
  }

  /** The draws left when shuffleTimeline reaches cell k of track j: those the cells before it in grid order left. */
  function CellDraws(ts: seq<TimelineTrack>, kits: seq<Kit>, draws: seq<real>, j: nat, k: nat): (d: seq<real>)
    requires |kits| >= 3 && |draws| >= 2 * TotalPads(ts) && AllDraws(draws)
    requires j < |ts| && k < |ts[j].pads|
    ensures |d| >= 2 && AllDraws(d)
  {
    TotalPadsCleared(ts);
    var cleared := ClearTracks(ts);
    var td := TrackDraws(cleared, kits, draws, j);
    assert TotalPads(cleared[j..]) == |cleared[j].pads| + TotalPads(cleared[j..][1..]);
    PadDraws(cleared[j].pads, ts[j].name, kits, td, k)
  }

  /**
   * How the draws decide a cell: it is armed exactly when its first draw
   * exceeds 0.75, then with the kit its second draw picks and that kit's
   * matching sample; otherwise it stays cleared. Its playhead is kept.
   */
  lemma ShuffleGridDecides(ts: seq<TimelineTrack>, kits: seq<Kit>, draws: seq<real>, j: nat, k: nat)
    requires |kits| >= 3 && |draws| >= 2 * TotalPads(ts) && AllDraws(draws)
    requires j < |ts| && k < |ts[j].pads|
    ensures var d := CellDraws(ts, kits, draws, j, k);
      var p := ShuffleGrid(ts, kits, draws)[j].pads[k];
      (p.kit.Some? <==> d[0] > 0.75)
      && (d[0] > 0.75 ==> p.kit == Some(DrawnKit(d[1])) && p.sound == ShuffleSound(kits, DrawnKit(d[1]), ts[j].name, None))
      && (d[0] <= 0.75 ==> p.sound.None?)
      && p.playing == ts[j].pads[k].playing
  {
    TotalPadsCleared(ts);
    var cleared := ClearTracks(ts);
    ShuffleTracksDraws(cleared, kits, draws);
    var td := TrackDraws(cleared, kits, draws, j);
    ShufflePadsDraws(cleared[j].pads, ts[j].name, kits, td);
  }

  /**
   * The shuffle can arm a cell without a sound: a track whose name no pad of
   * the drawn kit carries (a custom instrument's track) gets a kit and keeps a
   * null sound.
   */
  lemma ShuffleCanArmSilentCell()
    ensures var t := TimelineTrack("Custom", [EmptyPad], TrackState(false, false, false), TrackAudio(0.5, 0.0));
      var r := ShuffleTracks([t], [[], [], []], [0.9, 0.0]).result;
      r[0].pads[0].kit == Some(1) && r[0].pads[0].sound.None?
  {
    var t := TimelineTrack("Custom", [EmptyPad], TrackState(false, false, false), TrackAudio(0.5, 0.0));
    assert TotalPads([t]) == 1 by { assert [t][1..] == []; }
    assert DrawnKit(0.0) == 1;
    var p := ShufflePads(t.pads, t.name, [[], [], []], [0.9, 0.0]);
    assert p.result == [ShuffleCell(EmptyPad, t.name, [[], [], []], [0.9, 0.0]).result];
  }

  /** Clearing keeps every track's cell count, so it needs no more draws than before. */
  lemma {:induction false} TotalPadsCleared(ts: seq<TimelineTrack>)
    ensures TotalPads(ClearTracks(ts)) == TotalPads(ts)
  {
    if ts != [] {
      assert ClearTracks(ts)[1..] == ClearTracks(ts[1..]);
      TotalPadsCleared(ts[1..]);
    }
  }

  /** The loop of ShufflePadsLoop keeps its invariant across one cell. */
  lemma ShufflePadsStep(pads: seq<TimelinePad>, k: nat, name: string, kits: seq<Kit>, draws: seq<real>,
                        newPads: seq<TimelinePad>, rest: seq<real>)
    requires k < |pads| && |kits| >= 3 && |draws| >= 2 * |pads| && AllDraws(draws)
    requires |rest| >= 2 * (|pads| - k) && AllDraws(rest)
    requires newPads + ShufflePads(pads[k..], name, kits, rest).result == ShufflePads(pads, name, kits, draws).result
    requires ShufflePads(pads[k..], name, kits, rest).rest == ShufflePads(pads, name, kits, draws).rest
    ensures var c := ShuffleCell(pads[k], name, kits, rest);
      |c.rest| >= 2 * (|pads| - (k + 1)) && AllDraws(c.rest)
      && (newPads + [c.result]) + ShufflePads(pads[k + 1..], name, kits, c.rest).result
         == ShufflePads(pads, name, kits, draws).result
      && ShufflePads(pads[k + 1..], name, kits, c.rest).rest == ShufflePads(pads, name, kits, draws).rest
  {
    ShufflePadsUnfold(pads[k..], name, kits, rest);
    assert pads[k..][0] == pads[k] && pads[k..][1..] == pads[k + 1..];
    var c := ShuffleCell(pads[k], name, kits, rest);
    var tail := ShufflePads(pads[k + 1..], name, kits, c.rest).result;
    assert (newPads + [c.result]) + tail == newPads + ([c.result] + tail);
  }

  /** The inner forEach of shuffleTimeline over one track's cells. */
  method ShufflePadsLoop(pads: seq<TimelinePad>, name: string, kits: seq<Kit>, draws: seq<real>)
    returns (newPads: seq<TimelinePad>, rest: seq<real>)
    requires |kits| >= 3 && |draws| >= 2 * |pads| && AllDraws(draws)
    ensures Shuffled(newPads, rest) == ShufflePads(pads, name, kits, draws)
  {
    newPads := [];
    rest := draws;
    var k := 0;
    assert pads[k..] == pads;
    while k < |pads|
      invariant 0 <= k <= |pads| && |newPads| == k
      invariant |rest| >= 2 * (|pads| - k) && AllDraws(rest)
      invariant newPads + ShufflePads(pads[k..], name, kits, rest).result == ShufflePads(pads, name, kits, draws).result
      invariant ShufflePads(pads[k..], name, kits, rest).rest == ShufflePads(pads, name, kits, draws).rest
    {
      ShufflePadsStep(pads, k, name, kits, draws, newPads, rest);
      var pad := pads[k];
      ghost var cell := ShuffleCell(pad, name, kits, rest);
      var isActive := rest[0] > 0.75;
      if isActive {
        var kit := DrawnKit(rest[1]);
        pad := pad.(kit := Some(kit));
        var soundData := FindPad(kits[kit - 1], name);
        if soundData.Some? && soundData.value.audio.Some? {
          pad := pad.(sound := soundData.value.audio);
        }
        rest := rest[2..];
      } else {
        rest := rest[1..];
      }
      assert cell == Shuffled(pad, rest);
      newPads := newPads + [pad];
      k := k + 1;
    }
    assert pads[k..] == [];
    assert newPads + [] == newPads;
  }

  // ---------------------------------------------------------------------------
  // The scheduler's column counter.

  /** The column a tick plays: the for-loop's counter, or 0 once it has run past the live length. */
  function ColumnToPlay(counter: nat, len: nat): (c: nat)
    ensures counter < len ==> c == counter
    ensures len <= counter ==> c == 0
    ensures len > 0 ==> c < len
  {
    if counter < len then counter else 0
  }

  /** The for-loop's counter after `ticks` ticks since the loop started. */
  function CounterAfter(ticks: nat, len: nat): nat {
    if ticks == 0 then 0 else ColumnToPlay(CounterAfter(ticks - 1, len), len) + 1
  }

  /** A nonzero multiple of a positive length is at least that length away from zero. */
  lemma MultipleBounds(m: int, len: int)
    requires len > 0
    ensures m >= 1 ==> m * len >= len
    ensures m <= -1 ==> m * len <= -len
  {
    if m >= 1 {
      assert m * len == (m - 1) * len + len;
      assert (m - 1) * len >= 0;
    } else if m <= -1 {
      assert m * len == (m + 1) * len - len;
      assert (m + 1) * len <= 0;
    }
  }

  /** A multiple of a positive length strictly between -len and len is zero. */
  lemma SmallMultiple(m: int, len: int)
    requires len > 0 && -len < m * len < len
    ensures m == 0
  {
    MultipleBounds(m, len);
  }

  /** Stepping a counter by one steps its remainder by one, wrapping at len. */
  lemma ModSucc(x: nat, len: nat)
    requires len > 0
    ensures (x + 1) % len == if x % len + 1 < len then x % len + 1 else 0
  {
    var q, r := x / len, x % len;
    var q', r' := (x + 1) / len, (x + 1) % len;
    assert x == q * len + r && x + 1 == q' * len + r';
    if r + 1 < len {
      assert (q' - q) * len == r + 1 - r';
      SmallMultiple(q' - q, len);
    } else {
      assert (q' - q - 1) * len == -r';
      SmallMultiple(q' - q - 1, len);
    }
  }

  /** With the length fixed, the n-th tick since start plays column n mod len: 0, 1, ..., len-1, 0, ... */
  lemma {:induction false} TicksVisitColumnsInOrder(ticks: nat, len: nat)
    requires len > 0
    ensures ColumnToPlay(CounterAfter(ticks, len), len) == ticks % len
  {
    if ticks > 0 {
      TicksVisitColumnsInOrder(ticks - 1, len);
      var r := (ticks - 1) % len;
      assert CounterAfter(ticks, len) == r + 1;
      ModSucc(ticks - 1, len);
    }
  }

  /** The for-loop's counter after `ticks` ticks: one past the column the last tick played. */
  lemma CounterAfterValue(ticks: nat, len: nat)
    requires len > 0
    ensures CounterAfter(ticks, len) == if ticks == 0 then 0 else (ticks - 1) % len + 1
  {
    if ticks > 0 {
      TicksVisitColumnsInOrder(ticks - 1, len);
    }
  }

  // ---------------------------------------------------------------------------
  // The component state.

  /**
   * The Timeline component: the `active` flag, the running play loop's
   * liveness flag `valid` and for-loop counter `column`, the playSound calls
   * issued so far, and the shared timeline it edits.
   */
  class Timeline {
    var active: bool
    var valid: bool
    var column: nat
    var log: seq<PlayEvent>
    const state: TimelineState

    /** A play loop runs exactly while the timeline is active. */
    ghost predicate Valid()
      reads this
    {
      valid == active
    }

    constructor (state: TimelineState)
      ensures Valid() && !active && column == 0 && log == [] && this.state == state
    {
      active := false;
      valid := false;
      column := 0;
      log := [];
      this.state := state;
    }

    /** The effect on [BPM, masterVolume]: copy both into the timeline's settings. */
    method OnSettingsChange(BPM: real, masterVolume: real)
      modifies state
      ensures state.settings == Settings(BPM, masterVolume)
      ensures state.tracks == old(state.tracks)
    {
      state.settings := state.settings.(BPM := BPM, masterVolume := masterVolume);
    }

    /** The effect on [steps]: push empty cells onto short tracks, slice long ones. */
    method OnStepsChange(steps: nat)
      modifies state
      ensures |state.tracks| == |old(state.tracks)|
      ensures forall j :: 0 <= j < |state.tracks| ==>
        state.tracks[j] == old(state.tracks)[j].(pads := ResizePads(old(state.tracks)[j].pads, steps))
      ensures forall c :: 0 <= c < steps ==> ColumnFits(state.tracks, c)
      ensures state.settings == old(state.settings)
    {
      ghost var ts := state.tracks;
      var i := 0;
      while i < |state.tracks|
        invariant 0 <= i <= |state.tracks| == |ts|
        invariant forall j :: 0 <= j < i ==> state.tracks[j] == ts[j].(pads := ResizePads(ts[j].pads, steps))
        invariant forall j :: i <= j < |ts| ==> state.tracks[j] == ts[j]
        invariant state.settings == old(state.settings)
      {
        var resized := ResizeTrack(state.tracks[i], steps);
        state.tracks := state.tracks[i := resized];
        i := i + 1;
      }
    }

    /** One track's share of the steps effect: push empty cells while short, slice when long. */
    static method ResizeTrack(track: TimelineTrack, steps: nat) returns (resized: TimelineTrack)
      ensures resized == track.(pads := ResizePads(track.pads, steps))
    {
      var pads := track.pads;
      var currentPads := |pads|;
      if currentPads < steps {
        var k := currentPads;
        while k < steps
          invariant currentPads <= k <= steps && |pads| == k
          invariant forall m :: 0 <= m < currentPads ==> pads[m] == track.pads[m]
          invariant forall m :: currentPads <= m < k ==> pads[m] == EmptyPad
        {
          pads := pads + [TimelinePad(None, None, false)];
          k := k + 1;
        }
      } else if currentPads > steps {
        pads := pads[..steps];
      }
      resized := track.(pads := pads);
    }

    /** The forEach callback of playColumn for one track: move its playhead, and the call it makes, if any. */
    static method PlayTrack(track: TimelineTrack, c: nat, masterVolume: real)
      returns (marked: TimelineTrack, single: seq<PlayEvent>)
      requires c < |track.pads|
      ensures marked == MarkTrack(track, c)
      ensures single == if PlaysAt(track, c) then [EventFor(track, c, masterVolume)] else []
    {
      var pads := track.pads;
      var prevColumn := if c == 0 then |pads| - 1 else c - 1;
      pads := pads[prevColumn := pads[prevColumn].(playing := false)];
      pads := pads[c := pads[c].(playing := true)];
      marked := track.(pads := pads);
      single := if IsArmed(pads[c]) && Sounds(track.state)
                then [PlayEvent(pads[c].sound, track.audio.panning, track.audio.volume, masterVolume)]
                else [];
    }

    /** playColumn(column) without its sleep: marks the playhead and returns the playSound calls. */
    method PlayColumn(c: nat) returns (events: seq<PlayEvent>)
      requires ColumnFits(state.tracks, c)
      modifies state
      ensures state.tracks == MarkTracks(old(state.tracks), c)
      ensures events == ColumnPlays(old(state.tracks), c, state.settings.masterVolume)
      ensures state.settings == old(state.settings)
    {
      ghost var ts := state.tracks;
      var masterVolume := state.settings.masterVolume;
      events := [];
      var i := 0;
      ColumnFitsPrefix(ts, 0, c);
      assert ts[..0] == [];
      while i < |state.tracks|
        invariant 0 <= i <= |state.tracks| == |ts|
        invariant forall j :: 0 <= j < i ==> state.tracks[j] == MarkTrack(ts[j], c)
        invariant forall j :: i <= j < |ts| ==> state.tracks[j] == ts[j]
        invariant ColumnFits(ts[..i], c)
        invariant events == ColumnPlays(ts[..i], c, masterVolume)
        invariant state.settings == old(state.settings)
      {
        var track := state.tracks[i];
        ColumnPlaysSnoc(ts, i, c, masterVolume);
        var marked, single := PlayTrack(track, c, masterVolume);
        state.tracks := state.tracks[i := marked];
        events := events + single;
        i := i + 1;
      }
      assert ts[..i] == ts;
      assert state.tracks == MarkTracks(ts, c);
    }

    /** The forEach of clearTimeline: empty every cell's kit and sound. */
    method ClearGrid()
      modifies state
      ensures state.tracks == ClearTracks(old(state.tracks))
      ensures state.settings == old(state.settings)
    {
      ghost var ts := state.tracks;
      var i := 0;
      while i < |state.tracks|
        invariant 0 <= i <= |state.tracks| == |ts|
        invariant forall j :: 0 <= j < i ==> state.tracks[j] == ClearTrack(ts[j])
        invariant forall j :: i <= j < |ts| ==> state.tracks[j] == ts[j]
        invariant state.settings == old(state.settings)
      {
        var track := state.tracks[i];
        var pads := track.pads;
        var k := 0;
        while k < |pads|
          invariant 0 <= k <= |pads| == |track.pads|
          invariant forall m :: 0 <= m < k ==> pads[m] == ClearPad(track.pads[m])
          invariant forall m :: k <= m < |pads| ==> pads[m] == track.pads[m]
        {
          pads := pads[k := pads[k].(kit := None, sound := None)];
          k := k + 1;
        }
        assert pads == ClearTrack(track).pads;
        state.tracks := state.tracks[i := track.(pads := pads)];
        i := i + 1;
      }
      assert state.tracks == ClearTracks(ts);
    }

    /** The forEach of the scheduler effect's cleanup: no cell is playing. */
    method ResetPlaying()
      modifies state
      ensures state.tracks == StopTracks(old(state.tracks))
      ensures state.settings == old(state.settings)
    {
      ghost var ts := state.tracks;
      var i := 0;
      while i < |state.tracks|
        invariant 0 <= i <= |state.tracks| == |ts|
        invariant forall j :: 0 <= j < i ==> state.tracks[j] == StopTrack(ts[j])
        invariant forall j :: i <= j < |ts| ==> state.tracks[j] == ts[j]
        invariant state.settings == old(state.settings)
      {
        var track := state.tracks[i];
        var pads := track.pads;
        var k := 0;
        while k < |pads|
          invariant 0 <= k <= |pads| == |track.pads|
          invariant forall m :: 0 <= m < k ==> pads[m] == StopPad(track.pads[m])
          invariant forall m :: k <= m < |pads| ==> pads[m] == track.pads[m]
        {
          pads := pads[k := pads[k].(playing := false)];
          k := k + 1;
        }
        assert pads == StopTrack(track).pads;
        state.tracks := state.tracks[i := track.(pads := pads)];
        i := i + 1;
      }
      assert state.tracks == StopTracks(ts);
    }

    /**
     * setActive(b) followed by the effect on [active]: when the value
     * changes, the old run's cleanup stops its loop and resets the playhead,
     * and a new run starts a loop at column 0 if the timeline is now active.
     */
    method SetActive(b: bool)
      requires Valid()
      modifies this, state
      ensures Valid() && active == b
      ensures state.tracks == if old(active) != b then StopTracks(old(state.tracks)) else old(state.tracks)
      ensures column == if old(active) != b && b then 0 else old(column)
      ensures state.settings == old(state.settings) && log == old(log)
    {
      if active != b {
        valid := false;
        ResetPlaying();
        active := b;
        if b {
          valid := true;
          column := 0;
        }
      }
    }

    /** The play button. */
    method Start()
      requires Valid()
      modifies this, state
      ensures Valid() && active
      ensures state.tracks == if !old(active) then StopTracks(old(state.tracks)) else old(state.tracks)
      ensures column == if !old(active) then 0 else old(column)
      ensures state.settings == old(state.settings) && log == old(log)
    {
      SetActive(true);
    }

    /** The stop button: afterwards no cell is playing. */
    method Stop()
      requires Valid()
      modifies this, state
      ensures Valid() && !active
      ensures state.tracks == if old(active) then StopTracks(old(state.tracks)) else old(state.tracks)
      ensures old(active) ==> forall j, k :: 0 <= j < |state.tracks| && 0 <= k < |state.tracks[j].pads| ==>
                                !state.tracks[j].pads[k].playing
      ensures column == old(column)
      ensures state.settings == old(state.settings) && log == old(log)
    {
      SetActive(false);
    }

    /** The Space key: `setActive(active => !active)`. */
    method ToggleSpace()
      requires Valid()
      modifies this, state
      ensures Valid() && active == !old(active)
      ensures state.tracks == StopTracks(old(state.tracks))
      ensures column == if active then 0 else old(column)
      ensures state.settings == old(state.settings) && log == old(log)
    {
      SetActive(!active);
    }

    /** The first step of importTimeline, before the file is read: stop playback. */
    method BeginImport()
      requires Valid()
      modifies this, state
      ensures Valid() && !active
      ensures state.tracks == if old(active) then StopTracks(old(state.tracks)) else old(state.tracks)
      ensures column == old(column)
      ensures state.settings == old(state.settings) && log == old(log)
    {
      SetActive(false);
    }

    /** Unmounting the component runs the effect's cleanup: the loop ends and no cell is playing. */
    method Unmount()
      modifies this, state
      ensures !valid && active == old(active)
      ensures state.tracks == StopTracks(old(state.tracks))
      ensures state.settings == old(state.settings) && log == old(log)
    {
      valid := false;
      ResetPlaying();
    }

    /** clearTimeline: empty every cell and stop playback. */
    method ClearTimeline()
      requires Valid()
      modifies this, state
      ensures Valid() && !active
      ensures state.tracks == if old(active) then StopTracks(ClearTracks(old(state.tracks)))
                              else ClearTracks(old(state.tracks))
      ensures column == old(column)
      ensures state.settings == old(state.settings) && log == old(log)
    {
      ClearGrid();
      SetActive(false);
    }

    /** shuffleTimeline: clear, arm about a quarter of the cells from a random built-in kit, stop playback. */
    method ShuffleTimeline(kits: seq<Kit>, draws: seq<real>)
      requires Valid()
      requires |kits| >= 3
      requires |draws| >= 2 * TotalPads(state.tracks) && AllDraws(draws)
      modifies this, state
      ensures Valid() && !active
      ensures var shuffled := ShuffleGrid(old(state.tracks), kits, draws);
        state.tracks == if old(active) then StopTracks(shuffled) else shuffled
      ensures column == old(column)
      ensures state.settings == old(state.settings) && log == old(log)
    {
      TotalPadsCleared(state.tracks);
      ClearGrid();
      ghost var cleared := state.tracks;
      ghost var done: seq<TimelineTrack> := [];
      var rest := draws;
      var i := 0;
      assert cleared[i..] == cleared;
      while i < |state.tracks|
        invariant 0 <= i <= |cleared| && |done| == i
        invariant state.tracks == done + cleared[i..]
        invariant |rest| >= 2 * TotalPads(cleared[i..]) && AllDraws(rest)
        invariant done + ShuffleTracks(cleared[i..], kits, rest).result == ShuffleTracks(cleared, kits, draws).result
        invariant state.settings == old(state.settings)
        invariant Valid() && active == old(active) && log == old(log) && column == old(column)
      {
        var track := state.tracks[i];
        assert track == cleared[i];
        ShuffleTracksStep(cleared, i, kits, draws, done, rest);
        var pads, rest' := ShufflePadsLoop(track.pads, track.name, kits, rest);
        UpdateAtBoundary(done, cleared[i..], track.(pads := pads));
        assert cleared[i..][1..] == cleared[i + 1..];
        state.tracks := state.tracks[i := track.(pads := pads)];
        done := done + [track.(pads := pads)];
        rest := rest';
        i := i + 1;
      }
      assert cleared[i..] == [];
      assert state.tracks == done;
      SetActive(false);
    }

    /**
     * One tick of the running loop, without its sleep: the for-loop's live
     * bound is the first track's length; past it, `while (valid)` restarts the
     * loop at column 0; the column is played and the counter advances.
     */
    method Tick() returns (played: nat)
      requires Valid() && active
      requires |state.tracks| > 0
      requires ColumnFits(state.tracks, ColumnToPlay(column, |state.tracks[0].pads|))
      modifies this, state
      ensures played == ColumnToPlay(old(column), |old(state.tracks)[0].pads|)
      ensures column == played + 1
      ensures state.tracks == MarkTracks(old(state.tracks), played)
      ensures log == old(log) + ColumnPlays(old(state.tracks), played, old(state.settings).masterVolume)
      ensures Valid() && active && state.settings == old(state.settings)
    {
      var len := |state.tracks[0].pads|;
      if column >= len {
        column := 0;
      }
      played := column;
      var events := PlayColumn(column);
      log := log + events;
      column := column + 1;
    }
  }
}
