/**
 * The keyboard logic of Piano.tsx: the white and black key lists of the
 * visible octave window, the window's up/down moves, the computer-keyboard
 * key map, the note-to-sample map and the choice of what a pressed note plays.
 */
module Piano {
  import opened Wrappers
  import opened Model

  datatype PianoKey = PianoKey(note: string, octave: int)

  /** The visible octaves, both bounds included. */
  datatype OctaveRange = OctaveRange(start: int, end: int)

  const Notes: seq<string> := ["C", "D", "E", "F", "G", "A", "B"]

  /** The black key after each white key; after E and B there is none (the empty placeholder). */
  const BlackNotes: seq<string> := ["C#", "D#", "", "F#", "G#", "A#", ""]

  // ---------------------------------------------------------------------------
  // generateKeys.

  /** How many octaves the for-loop visits: none when the bounds are crossed. */
  function OctaveCount(range: OctaveRange): (n: nat)
    ensures range.start <= range.end ==> n == range.end - range.start + 1
    ensures range.start > range.end ==> n == 0
  {
    if range.start <= range.end then range.end - range.start + 1 else 0
  }

  /** The keys of `count` octaves from `start`: the seven names repeated, octave by octave. */
  function Keys(names: seq<string>, start: int, count: nat): (r: seq<PianoKey>)
    requires |names| == 7
    ensures |r| == 7 * count
  {
    seq(7 * count, i requires 0 <= i < 7 * count => PianoKey(names[i % 7], start + i / 7))
  }

  /** One more octave appends the seven names at the next octave number. */
  lemma KeysStep(names: seq<string>, start: int, count: nat)
    requires |names| == 7
    ensures Keys(names, start, count + 1)
            == Keys(names, start, count) + seq(7, m requires 0 <= m < 7 => PianoKey(names[m], start + count))
  {
    var a := Keys(names, start, count + 1);
    var b := Keys(names, start, count) + seq(7, m requires 0 <= m < 7 => PianoKey(names[m], start + count));
    forall i | 0 <= i < 7 * (count + 1) ensures a[i] == b[i] {
      if i >= 7 * count {
        assert i / 7 == count && i % 7 == i - 7 * count;
      }
    }
  }

  /** generateKeys: for each octave of the window, push the seven white and the seven black entries. */
  method GenerateKeys(range: OctaveRange) returns (whiteKeys: seq<PianoKey>, blackKeys: seq<PianoKey>)
    ensures whiteKeys == Keys(Notes, range.start, OctaveCount(range))
    ensures blackKeys == Keys(BlackNotes, range.start, OctaveCount(range))
  {
    whiteKeys := [];
    blackKeys := [];
    var octave := range.start;
    while octave <= range.end
      invariant range.start <= octave && octave - range.start <= OctaveCount(range)
      invariant octave > range.end ==> octave - range.start == OctaveCount(range)
      invariant whiteKeys == Keys(Notes, range.start, octave - range.start)
      invariant blackKeys == Keys(BlackNotes, range.start, octave - range.start)
      decreases range.end - octave
    {
      ghost var before := octave - range.start;
      KeysStep(Notes, range.start, before);
      KeysStep(BlackNotes, range.start, before);
      for n := 0 to |Notes|
        invariant whiteKeys == Keys(Notes, range.start, before)
                               + seq(n, m requires 0 <= m < n => PianoKey(Notes[m], octave))
      {
        whiteKeys := whiteKeys + [PianoKey(Notes[n], octave)];
      }
      for n := 0 to |BlackNotes|
        invariant blackKeys == Keys(BlackNotes, range.start, before)
                               + seq(n, m requires 0 <= m < n => PianoKey(BlackNotes[m], octave))
      {
        blackKeys := blackKeys + [PianoKey(BlackNotes[n], octave)];
      }
      octave := octave + 1;
    }
  }

  /** Position m of octave block b holds name m at octave start + b. */
  lemma KeysBlock(names: seq<string>, start: int, count: nat, b: nat, m: nat)
    requires |names| == 7 && b < count && m < 7
    ensures Keys(names, start, count)[7 * b + m] == PianoKey(names[m], start + b)
  {
    assert (7 * b + m) / 7 == b && (7 * b + m) % 7 == m;
  }

  /** Every octave block of the white keys reads C, D, E, F, G, A, B. */
  lemma WhiteKeysInOrder(start: int, count: nat)
    ensures var w := Keys(Notes, start, count);
      forall b :: 0 <= b < count ==>
        w[7 * b].note == "C" && w[7 * b + 1].note == "D" && w[7 * b + 2].note == "E" && w[7 * b + 3].note == "F"
        && w[7 * b + 4].note == "G" && w[7 * b + 5].note == "A" && w[7 * b + 6].note == "B"
  {
    forall b | 0 <= b < count
      ensures var w := Keys(Notes, start, count);
        w[7 * b].note == "C" && w[7 * b + 1].note == "D" && w[7 * b + 2].note == "E" && w[7 * b + 3].note == "F"
        && w[7 * b + 4].note == "G" && w[7 * b + 5].note == "A" && w[7 * b + 6].note == "B"
    {
      KeysBlock(Notes, start, count, b, 0);
      KeysBlock(Notes, start, count, b, 1);
      KeysBlock(Notes, start, count, b, 2);
      KeysBlock(Notes, start, count, b, 3);
      KeysBlock(Notes, start, count, b, 4);
      KeysBlock(Notes, start, count, b, 5);
      KeysBlock(Notes, start, count, b, 6);
    }
  }

  /** The keys list the octaves in ascending order. */
  lemma KeysAscend(names: seq<string>, start: int, count: nat)
    requires |names| == 7
    ensures var w := Keys(names, start, count);
      forall i, j :: 0 <= i <= j < |w| ==> w[i].octave <= w[j].octave
  {
    var w := Keys(names, start, count);
    forall i, j | 0 <= i <= j < |w| ensures w[i].octave <= w[j].octave {
      DivMonotone(i, j);
    }
  }

  lemma DivMonotone(i: nat, j: nat)
    requires i <= j
    ensures i / 7 <= j / 7
  {
  }

  /** The black keys line up with the white keys: a placeholder exactly at positions 2 and 6 of each octave. */
  lemma BlackKeysAlign(start: int, count: nat)
    ensures var w := Keys(Notes, start, count);
      var bk := Keys(BlackNotes, start, count);
      |bk| == |w|
      && (forall i :: 0 <= i < |bk| ==> bk[i].octave == w[i].octave)
      && (forall i :: 0 <= i < |bk| ==> (bk[i].note == "" <==> i % 7 == 2 || i % 7 == 6))
      && forall i :: 0 <= i < |bk| && bk[i].note != "" ==> bk[i].note == w[i].note + "#"
  {
  }

  // ---------------------------------------------------------------------------
  // handleOctaveChange.

  datatype Direction = Up | Down

  /** The window moves up while its top is below 7 and down while its bottom is above 0; otherwise it stays. */
  function OctaveChange(prev: OctaveRange, direction: Direction): (r: OctaveRange)
    ensures r.end - r.start == prev.end - prev.start
    ensures r != prev <==> (direction == Up && prev.end < 7) || (direction == Down && prev.start > 0)
    ensures direction == Up ==> r.start >= prev.start
    ensures direction == Down ==> r.start <= prev.start
    ensures r.start - prev.start in {-1, 0, 1}
  {
    if direction == Up && prev.end < 7 then OctaveRange(prev.start + 1, prev.end + 1)
    else if direction == Down && prev.start > 0 then OctaveRange(prev.start - 1, prev.end - 1)
    else prev
  }

  const InitialRange := OctaveRange(3, 5)

  /** The window is three octaves wide and lies within octaves 0 to 7. */
  predicate WindowOk(r: OctaveRange) {
    r.end - r.start == 2 && 0 <= r.start && r.end <= 7
  }

  lemma OctaveChangeKeepsWindow(prev: OctaveRange, direction: Direction)
    requires WindowOk(prev)
    ensures WindowOk(OctaveChange(prev, direction))
  {
  }

  /** Down undoes a move up, and up undoes a move down. */
  lemma OctaveChangeUndo(prev: OctaveRange)
    requires WindowOk(prev)
    ensures prev.end < 7 ==> OctaveChange(OctaveChange(prev, Up), Down) == prev
    ensures prev.start > 0 ==> OctaveChange(OctaveChange(prev, Down), Up) == prev
  {
  }

  /** The window after a sequence of presses, starting from any window. */
  function OctaveChanges(r: OctaveRange, presses: seq<Direction>): OctaveRange
    decreases |presses|
  {
    if presses == [] then r else OctaveChanges(OctaveChange(r, presses[0]), presses[1..])
  }

  /** Whatever the presses, the window keeps its invariant. */
  lemma {:induction false} OctaveChangesKeepWindow(r: OctaveRange, presses: seq<Direction>)
    requires WindowOk(r)
    ensures WindowOk(OctaveChanges(r, presses))
    decreases |presses|
  {
    if presses != [] {
      OctaveChangeKeepsWindow(r, presses[0]);
      OctaveChangesKeepWindow(OctaveChange(r, presses[0]), presses[1..]);
    }
  }

  /** From the initial window 3..5 every reachable window is three octaves within 0..7. */
  lemma ReachableWindows(presses: seq<Direction>)
    ensures var r := OctaveChanges(InitialRange, presses);
      r.end - r.start == 2 && 0 <= r.start && r.end <= 7
  {
    OctaveChangesKeepWindow(InitialRange, presses);
  }

  // ---------------------------------------------------------------------------
  // keyMap and handleKeyDown.

  /** The twelve note names of an octave. */
  const Chromatic: set<string> := {"C", "C#", "D", "D#", "E", "F", "F#", "G", "G#", "A", "A#", "B"}

  /**
   * The computer-keyboard map of the window starting at `start`: the home
   * row and the row above it, one key per note from C to B, one octave above
   * the window's bottom.
   */
  function KeyMap(start: int): map<string, PianoKey> {
    var o := start + 1;
    map["a" := PianoKey("C", o), "w" := PianoKey("C#", o), "s" := PianoKey("D", o),
        "e" := PianoKey("D#", o), "d" := PianoKey("E", o), "f" := PianoKey("F", o),
        "t" := PianoKey("F#", o), "g" := PianoKey("G", o), "y" := PianoKey("G#", o),
        "h" := PianoKey("A", o), "u" := PianoKey("A#", o), "j" := PianoKey("B", o)]
  }

  /** Each key of the map display is new when it is added, so the map has twelve entries. */
  lemma KeyMapSize(start: int)
    ensures |KeyMap(start)| == 12
  {
    var o := start + 1;
    var m: map<string, PianoKey> := map[];
    assert "a" !in m;
    m := m["a" := PianoKey("C", o)];
    assert "w" !in m;
    m := m["w" := PianoKey("C#", o)];
    assert "s" !in m;
    m := m["s" := PianoKey("D", o)];
    assert "e" !in m;
    m := m["e" := PianoKey("D#", o)];
    assert "d" !in m;
    m := m["d" := PianoKey("E", o)];
    assert "f" !in m;
    m := m["f" := PianoKey("F", o)];
    assert "t" !in m;
    m := m["t" := PianoKey("F#", o)];
    assert "g" !in m;
    m := m["g" := PianoKey("G", o)];
    assert "y" !in m;
    m := m["y" := PianoKey("G#", o)];
    assert "h" !in m;
    m := m["h" := PianoKey("A", o)];
    assert "u" !in m;
    m := m["u" := PianoKey("A#", o)];
    assert "j" !in m;
    m := m["j" := PianoKey("B", o)];
    assert m == KeyMap(start);
  }

  /** The key that plays a note name of the octave: the inverse of the key map. */
  function KeyFor(note: string): string {
    if note == "C" then "a" else if note == "C#" then "w" else if note == "D" then "s"
    else if note == "D#" then "e" else if note == "E" then "d" else if note == "F" then "f"
    else if note == "F#" then "t" else if note == "G" then "g" else if note == "G#" then "y"
    else if note == "A" then "h" else if note == "A#" then "u" else "j"
  }

  /** Every note name of the octave has its key, and that key plays it one octave above the window's bottom. */
  lemma KeyForFindsNote(start: int)
    ensures forall n :: n in Chromatic ==> KeyFor(n) in KeyMap(start) && KeyMap(start)[KeyFor(n)] == PianoKey(n, start + 1)
  {
    forall n | n in Chromatic ensures KeyFor(n) in KeyMap(start) && KeyMap(start)[KeyFor(n)] == PianoKey(n, start + 1) {
      assert n == "C" || n == "C#" || n == "D" || n == "D#" || n == "E" || n == "F"
             || n == "F#" || n == "G" || n == "G#" || n == "A" || n == "A#" || n == "B";
    }
  }

  /** KeyFor recovers every key from the note it plays. */
  lemma KeyForInvertsKeyMap(start: int)
    ensures forall k :: k in KeyMap(start) ==> KeyFor(KeyMap(start)[k].note) == k && KeyMap(start)[k].octave == start + 1
  {
    var m := KeyMap(start);
    forall k | k in m ensures KeyFor(m[k].note) == k && m[k].octave == start + 1 {
      assert k == "a" || k == "w" || k == "s" || k == "e" || k == "d" || k == "f"
             || k == "t" || k == "g" || k == "y" || k == "h" || k == "u" || k == "j";
    }
  }

  /** Every key plays a note name of the octave. */
  lemma KeyMapNotesChromatic(start: int)
    ensures forall k :: k in KeyMap(start) ==> KeyMap(start)[k].note in Chromatic
  {
    var m := KeyMap(start);
    forall k | k in m ensures m[k].note in Chromatic {
      var n := m[k].note;
      assert n == "C" || n == "C#" || n == "D" || n == "D#" || n == "E" || n == "F"
             || n == "F#" || n == "G" || n == "G#" || n == "A" || n == "A#" || n == "B";
    }
  }

  /** The key map covers twelve keys, which play the twelve distinct notes of one octave. */
  lemma KeyMapIsChromatic(start: int)
    ensures |KeyMap(start)| == 12
    ensures forall k :: k in KeyMap(start) ==> KeyMap(start)[k].octave == start + 1 && KeyMap(start)[k].note in Chromatic
    ensures forall k1, k2 :: k1 in KeyMap(start) && k2 in KeyMap(start) && k1 != k2 ==>
              KeyMap(start)[k1].note != KeyMap(start)[k2].note
    ensures forall n :: n in Chromatic ==> exists k :: k in KeyMap(start) && KeyMap(start)[k].note == n
  {
    var m := KeyMap(start);
    KeyMapSize(start);
    KeyForFindsNote(start);
    KeyForInvertsKeyMap(start);
    KeyMapNotesChromatic(start);
    forall k1, k2 | k1 in m && k2 in m && k1 != k2 ensures m[k1].note != m[k2].note {
      assert KeyFor(m[k1].note) == k1 && KeyFor(m[k2].note) == k2;
    }
    forall n | n in Chromatic ensures exists k :: k in m && m[k].note == n {
      assert KeyFor(n) in m && m[KeyFor(n)].note == n;
    }
  }

  /** ASCII lower-casing, the part of `toLowerCase` a keyboard key name needs. */
  function ToLower(s: string): (r: string)
    ensures |r| == |s|
    ensures forall i :: 0 <= i < |s| ==> r[i] == if 'A' <= s[i] <= 'Z' then (s[i] - 'A' + 'a') as char else s[i]
  {
    seq(|s|, i requires 0 <= i < |s| => if 'A' <= s[i] <= 'Z' then (s[i] - 'A' + 'a') as char else s[i])
  }

  /** handleKeyDown: the note a key press plays, if the key is mapped and the press is not a repeat. */
  function KeyDown(keyMap: map<string, PianoKey>, key: string, repeat: bool): (r: Option<PianoKey>)
    ensures r.Some? <==> ToLower(key) in keyMap && !repeat
    ensures r.Some? ==> r.value == keyMap[ToLower(key)]
  {
    var lower := ToLower(key);
    if lower in keyMap && !repeat then Some(keyMap[lower]) else None
  }

  /** Lower-casing twice is lower-casing once. */
  lemma ToLowerIdempotent(s: string)
    ensures ToLower(ToLower(s)) == ToLower(s)
  {
    var l := ToLower(s);
    forall i | 0 <= i < |s| ensures ToLower(l)[i] == l[i] {
      assert !('A' <= l[i] <= 'Z');
    }
  }

  /** Shift or caps lock does not matter: a key plays what its lower-case form plays, in any key map. */
  lemma KeyDownIgnoresCase(keyMap: map<string, PianoKey>, key: string, repeat: bool)
    ensures KeyDown(keyMap, key, repeat) == KeyDown(keyMap, ToLower(key), repeat)
  {
    ToLowerIdempotent(key);
  }

  /** The home row's first key: "A" and "a" both play C one octave above the window's bottom; a repeat plays nothing. */
  lemma KeyAPlaysC(start: int, repeat: bool)
    ensures KeyDown(KeyMap(start), "A", false) == Some(PianoKey("C", start + 1))
    ensures KeyDown(KeyMap(start), "a", false) == Some(PianoKey("C", start + 1))
    ensures KeyDown(KeyMap(start), "A", true) == None
  {
    assert ToLower("A") == "a";
    assert ToLower("a") == "a";
  }

  // ---------------------------------------------------------------------------
  // The sample map and playNote.

  /** The number a string of decimal digits denotes, most significant first. */
  function DecimalValue(s: string): int {
    if s == [] then 0 else DecimalValue(s[..|s| - 1]) * 10 + (s[|s| - 1] as int - '0' as int)
  }

  /** The number a string denotes: decimal digits, negated behind a leading minus sign. */
  function IntValue(s: string): int {
    if |s| > 0 && s[0] == '-' then -DecimalValue(s[1..]) else DecimalValue(s)
  }

  predicate IsDigit(c: char) {
    '0' <= c <= '9'
  }

  /** The decimal digits of a natural number, most significant first. */
  function NatToString(n: nat): (s: string)
    ensures |s| >= 1 && forall i :: 0 <= i < |s| ==> IsDigit(s[i])
    ensures DecimalValue(s) == n
    decreases n
  {
    if n < 10 then [('0' as int + n) as char]
    else
      var prefix := NatToString(n / 10);
      var s := prefix + [('0' as int + n % 10) as char];
      assert s[..|s| - 1] == prefix;
      s
  }

  /** `${octave}`: an integer in base 10, with a minus sign when negative. */
  function IntToString(i: int): (s: string)
    ensures |s| >= 1 && (s[0] == '-' || IsDigit(s[0])) && forall k :: 1 <= k < |s| ==> IsDigit(s[k])
    ensures (s[0] == '-') <==> i < 0
    ensures IntValue(s) == i
  {
    if i >= 0 then NatToString(i)
    else
      var digits := NatToString(-i);
      assert ("-" + digits)[1..] == digits;
      "-" + digits
  }

  /** Distinct octaves print differently. */
  lemma IntToStringInjective(a: int, b: int)
    ensures IntToString(a) == IntToString(b) <==> a == b
  {
  }

  /** A note name: no digit and no minus sign, so it cannot run into the octave after it. */
  predicate NoteName(n: string) {
    forall i :: 0 <= i < |n| ==> n[i] != '-' && !IsDigit(n[i])
  }

  /** The leading characters of a string up to the first digit or minus sign. */
  function NotePart(s: string): string {
    if s == [] || s[0] == '-' || IsDigit(s[0]) then [] else [s[0]] + NotePart(s[1..])
  }

  /** A note name followed by a printed octave splits back at the octave's first character. */
  lemma {:induction false} NotePartOfFull(n: string, t: string)
    requires NoteName(n) && |t| >= 1 && (t[0] == '-' || IsDigit(t[0]))
    ensures NotePart(n + t) == n
  {
    if n != [] {
      assert (n + t)[1..] == n[1..] + t;
      NotePartOfFull(n[1..], t);
    } else {
      assert n + t == t;
    }
  }

  /** The note's name followed by its octave, e.g. "C#4": the key of the sample map and of the instrument. */
  function FullNote(note: string, octave: int): (full: string)
    ensures |full| > |note|
    ensures NoteName(note) ==> NotePart(full) == note && IntValue(full[|note|..]) == octave
  {
    var full := note + IntToString(octave);
    if NoteName(note) then
      NotePartOfFull(note, IntToString(octave));
      assert full[|note|..] == IntToString(octave);
      full
    else full
  }

  /** Two different keys of the piano name different samples: FullNote is one-to-one on note names. */
  lemma FullNoteInjective(n1: string, o1: int, n2: string, o2: int)
    requires NoteName(n1) && NoteName(n2)
    ensures FullNote(n1, o1) == FullNote(n2, o2) <==> n1 == n2 && o1 == o2
  {
  }

  /** The note names of the keyboard contain no digit and no minus sign. */
  lemma ChromaticNoteNames()
    ensures forall n :: n in Chromatic ==> NoteName(n)
    ensures forall i :: 0 <= i < |BlackNotes| ==> NoteName(BlackNotes[i])
  {
    forall n | n in Chromatic ensures NoteName(n) {
      assert n == "C" || n == "C#" || n == "D" || n == "D#" || n == "E" || n == "F"
             || n == "F#" || n == "G" || n == "G#" || n == "A" || n == "A#" || n == "B";
    }
    forall i | 0 <= i < |BlackNotes| ensures NoteName(BlackNotes[i]) {
      assert BlackNotes[i] == "C#" || BlackNotes[i] == "D#" || BlackNotes[i] == "" || BlackNotes[i] == "F#"
             || BlackNotes[i] == "G#" || BlackNotes[i] == "A#";
    }
  }

  /**
   * The Piano component's state that playNote reads: the note-to-sample
   * map, the uploaded or analysed sound, the detected note (empty when none)
   * and whether the soundfont instrument has loaded.
   */
  datatype PianoState = PianoState(soundMap: map<string, AudioBuffer>, currentSound: Option<AudioBuffer>,
                                   detectedNote: string, instrumentLoaded: bool)

  /** mapSoundToNote(note): without a current sound nothing happens; otherwise only `note`'s entry is set. */
  function MapSoundToNote(s: PianoState, note: string): (r: PianoState)
    ensures s.currentSound.None? ==> r == s
    ensures s.currentSound.Some? ==>
      note in r.soundMap && r.soundMap[note] == s.currentSound.value
      && (forall k :: k != note ==> (k in r.soundMap <==> k in s.soundMap))
      && (forall k :: k != note && k in s.soundMap ==> r.soundMap[k] == s.soundMap[k])
      && r.currentSound == s.currentSound && r.detectedNote == s.detectedNote
      && r.instrumentLoaded == s.instrumentLoaded
  {
    if s.currentSound.None? then s
    else s.(soundMap := s.soundMap[note := s.currentSound.value])
  }

  /**
   * analyzeSound's update after the detector named a note: the sound
   * becomes current (as the effect on analyzedSound or the file input set
   * it), the note is recorded and the sound is mapped to it. When detection
   * throws, only the current sound changes.
   */
  function AnalyzeSound(s: PianoState, sound: AudioBuffer, detected: Option<string>): (r: PianoState)
    ensures r.currentSound == Some(sound) && r.instrumentLoaded == s.instrumentLoaded
    ensures detected.None? ==> r.soundMap == s.soundMap && r.detectedNote == s.detectedNote
    ensures detected.Some? ==> r.detectedNote == detected.value && r.soundMap == s.soundMap[detected.value := sound]
  {
    var withSound := s.(currentSound := Some(sound));
    match detected
    case None => withSound
    case Some(note) => withSound.(detectedNote := note, soundMap := s.soundMap[note := sound])
  }

  /** What playNote does with a note. */
  datatype NotePlay =
    | MappedSample(buffer: AudioBuffer)
    | PitchShifted(buffer: AudioBuffer, from: string, to: string)
    | PianoInstrument(fullNote: string)
    | NoSound

  /**
   * playNote(note, octave): a sample mapped to the full note wins; then the
   * current sound pitch-shifted from the detected note; then the soundfont
   * piano; otherwise nothing plays.
   */
  function PlayNote(s: PianoState, note: string, octave: int): (r: NotePlay)
    ensures var full := FullNote(note, octave);
      (r.MappedSample? <==> full in s.soundMap)
      && (r.MappedSample? ==> r.buffer == s.soundMap[full])
      && (r.PitchShifted? <==> full !in s.soundMap && s.currentSound.Some? && s.detectedNote != "")
      && (r.PitchShifted? ==> Some(r.buffer) == s.currentSound && r.from == s.detectedNote && r.to == full)
      && (r.PianoInstrument? ==> r.fullNote == full && s.instrumentLoaded)
      && (r.NoSound? <==> full !in s.soundMap && !(s.currentSound.Some? && s.detectedNote != "")
                          && !s.instrumentLoaded)
  {
    var full := FullNote(note, octave);
    if full in s.soundMap then MappedSample(s.soundMap[full])
    else if s.currentSound.Some? && s.detectedNote != "" then PitchShifted(s.currentSound.value, s.detectedNote, full)
    else if s.instrumentLoaded then PianoInstrument(full)
    else NoSound
  }

  /** Once the current sound is mapped to a note, that note plays the sample itself, never a pitch-shifted copy. */
  lemma MappedNoteWins(s: PianoState, note: string, octave: int)
    requires s.currentSound.Some?
    ensures PlayNote(MapSoundToNote(s, FullNote(note, octave)), note, octave) == MappedSample(s.currentSound.value)
  {
  }

  /** Mapping one note leaves what every other note plays unchanged. */
  lemma MapSoundKeepsOtherNotes(s: PianoState, mapped: string, note: string, octave: int)
    requires FullNote(note, octave) != mapped
    ensures PlayNote(MapSoundToNote(s, mapped), note, octave) == PlayNote(s, note, octave)
  {
  }

  /** Mapping the current sound to one key leaves what every other key plays unchanged. */
  lemma MapSoundKeepsOtherKeys(s: PianoState, mappedNote: string, mappedOctave: int, note: string, octave: int)
    requires NoteName(note) && NoteName(mappedNote)
    requires note != mappedNote || octave != mappedOctave
    ensures PlayNote(MapSoundToNote(s, FullNote(mappedNote, mappedOctave)), note, octave) == PlayNote(s, note, octave)
  {
    FullNoteInjective(note, octave, mappedNote, mappedOctave);
    MapSoundKeepsOtherNotes(s, FullNote(mappedNote, mappedOctave), note, octave);
  }

  /** An analysed sound plays unshifted on the note it was detected as. */
  lemma AnalyzedNotePlaysSample(s: PianoState, sound: AudioBuffer, note: string, octave: int)
    ensures PlayNote(AnalyzeSound(s, sound, Some(FullNote(note, octave))), note, octave) == MappedSample(sound)
  {
  }
}
