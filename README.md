# A verified model of a browser step sequencer's editing and playback core

The sequencer is a drum machine with a piano overlay, built as React components. Its state has three parts:

- A **composition**: the settings (BPM, master volume) and a list of tracks. Each track is a row of cells, each holding a kit number, a cached sample and a playhead flag. Each track also carries solo/mute/ignored flags and a volume and panning.
- A **kit table**: three built-in kits plus a user-built custom kit. Each kit is a list of sample pads whose category names the track it belongs to.
- The **piano**: an octave window, a computer-keyboard map and a note-to-sample map.

This project models the core that edits this state, in Dafny, and proves what the code promises about it. It has five modules:

- `Model`: the shared records, plus the timeline as a class whose `tracks` sequence every component edits in place.
- `Track`: solo/mute and the volume/panning knobs.
- `Timeline`: the steps and settings effects, `playColumn`, clear, shuffle, and the `active`/`valid` scheduler.
- `Daw`: initial state, the kit table, sample loading through an abstract decoder, and adding a custom instrument.
- `Piano`: key generation, the octave window, the key map, the sample map and the choice `playNote` makes.

`Wrappers` holds the `Option`/`Result` types.

Code that mutates in place is modelled imperatively. Each such method (`SoloTrack`, `PlayColumn`, `ClearGrid`, `ShuffleTimeline`, `OnStepsChange`, `LoadSounds`, `LoadKit`, `GenerateKeys`, …) updates a class field or a local sequence with loops. Its postcondition ties the result to a specification function, and the properties are proved about that function.

Main results:
- Audibility:
  - After soloing, at most one track is soloed (with distinct names).
  - Every track is ignored while something is soloed, and none is otherwise.
  - Under that flag relation, a track sounds exactly when it is soloed, or, with nothing soloed, exactly when it is not muted.
- A tick plays exactly the tracks whose current cell has a truthy kit and whose flags let it sound. The calls come in track order and carry (sample, panning, volume, master volume).
- Successive ticks play columns 0, 1, …, len−1, 0, …
- The shuffle consumes the draws cell by cell in grid order. A cell is armed exactly when its first draw exceeds 0.75, and its kit is then the one the second draw picks (`Timeline.ShuffleGridDecides`).
- After a shuffle every kit is empty or one of 1–3. A sample only appears with a kit, and any sample is the sample of the first pad of the drawn *built-in* kit whose category matches the track's name. The custom kit is never drawn.
- Appending a new custom track adds no play call until one of its cells is armed (`Daw.NewTrackIsSilent`). A shuffle can arm it, and if its name is a built-in category it then gets that kit's sample. If another track is soloed, the new one is not ignored, so once its cells are armed it sounds despite the solo (`Daw.NewTrackEscapesSolo`).
- The piano window always stays three octaves wide inside 0..7. The key map binds 12 keys to the 12 distinct notes of one octave. A key press ignores case.
- The sample map's keys, note name followed by octave, parse back to the note and the octave. So mapping a sample to one key changes what no other key plays.

Two behaviours of the code worth knowing:
- **Unknown track names throw.** `findIndex` returns −1, or `find(...)!` yields `undefined`, and the next property access throws. So the track operations require the name to be present.
- **The shuffle can arm a cell without a sample.** It sets a kit even when the drawn kit has no pad for the track, or that pad has no sample. The cell then has a kit but no sample. `Timeline.ShuffleCanArmSilentCell` exhibits this.

## Model

| member | source | states |
|---|---|---|
| Model.IsArmed | src/components/Timeline.tsx:103 | the truthiness of `currPad.kit`: a kit that is neither null nor 0 |
| Model.Sounds | src/components/Timeline.tsx:103 | the flag half of the play test: soloed, or neither ignored nor muted |
| Model.IndexOf | src/components/Track.tsx:66 | the index `findIndex` returns: it has the name and no earlier track does |
| Track.SoloCount | src/components/Track.tsx:70 | the count of soloed tracks is zero exactly when no track is soloed |
| Track.SoloTracks | src/components/Track.tsx:53-78 | soloTrack's result: names, cells, audio and muted unchanged; differently named tracks unsoloed; the found track's solo flipped; ignored set on all tracks iff some track is soloed |
| Track.SoloOn | src/components/Track.tsx:58-67 | soloing an unsoloed track (distinct names) leaves it the only soloed track and every track, itself included, ignored |
| Track.SoloOff | src/components/Track.tsx:67-75 | soloing the soloed track (distinct names) leaves no track soloed or ignored |
| Track.AtMostOneSoloed | src/components/Track.tsx:58-67 | with distinct names at most one track is soloed after soloTrack |
| Track.SoloDecidesAudibility | src/components/Timeline.tsx:103 | while some track is soloed, a track passes the play test iff it is soloed, muted or not |
| Track.MuteDecidesAudibility | src/components/Timeline.tsx:103 | with nothing soloed, a track passes the play test iff it is not muted |
| Track.SoloTrack | src/components/Track.tsx:53-78 | the in-place loops leave exactly SoloTracks of the old tracks; settings untouched |
| Track.MuteTrack | src/components/Track.tsx:81-90 | only the found track's muted flag flips; the solo/ignored relation is kept |
| Track.SetVolume | src/components/Track.tsx:137-141 | only the found track's volume changes; values in [0,1] keep the knob domains |
| Track.SetPanning | src/components/Track.tsx:151-155 | only the found track's panning changes; values in [-1,1] keep the knob domains |
| Track.TrackPads | src/components/Track.tsx:50 | the cells of the first track with the name |
| Timeline.ResizePads | src/components/Timeline.tsx:278-287 | exactly `steps` cells; cells below min(old, steps) kept; appended cells empty |
| Timeline.Timeline.ResizeTrack | src/components/Timeline.tsx:276-288 | the push loop or slice leaves the track with ResizePads of its cells |
| Timeline.Timeline.OnStepsChange | src/components/Timeline.tsx:274-290 | every track resized to `steps` and nothing else changed; every column below `steps` then exists on every track |
| Timeline.PrevColumn | src/components/Timeline.tsx:96 | the cyclic predecessor: column−1, or the last cell for column 0 |
| Timeline.MarkColumn | src/components/Timeline.tsx:95-100 | the current cell playing, the previous one not (unless it is the current one), every other cell and every kit and sample unchanged |
| Timeline.MarkTracks | src/components/Timeline.tsx:94-100 | the forEach's marking applied to every track, as MarkColumn describes for one |
| Timeline.ColumnPlays | src/components/Timeline.tsx:102-104 | a play call for exactly the tracks whose current kit is truthy and whose flags sound, with that track's sample, panning, volume and the master volume |
| Timeline.ColumnPlaysAppend | src/components/Timeline.tsx:94-113 | the calls of a column follow track order: those of the first tracks come first |
| Timeline.ColumnPlaysSnoc | src/components/Timeline.tsx:94-113 | one more track adds its own call, if any, after the calls of the earlier tracks |
| Timeline.Timeline.PlayTrack | src/components/Timeline.tsx:95-104 | the forEach callback moves the track's playhead and yields its call when the play test passes |
| Timeline.Timeline.PlayColumn | src/components/Timeline.tsx:92-114 | the grid becomes MarkTracks of the old grid and the calls are ColumnPlays, in track order |
| Timeline.ClearTracks | src/components/Timeline.tsx:127-132 | every kit and sample emptied; playing flags, names, flags and audio untouched |
| Timeline.Timeline.ClearGrid | src/components/Timeline.tsx:126-133 | the nested forEach leaves exactly ClearTracks of the old grid |
| Timeline.Timeline.ClearTimeline | src/components/Timeline.tsx:125-135 | the grid cleared, the timeline inactive, and playheads reset if it was running |
| Timeline.StopTracks | src/components/Timeline.tsx:310-314 | no cell playing; everything else untouched |
| Timeline.Timeline.ResetPlaying | src/components/Timeline.tsx:309-315 | the cleanup's loops leave exactly StopTracks of the old grid |
| Timeline.DrawnKit | src/components/Timeline.tsx:145 | a draw in [0,1) picks a kit number in 1..3 |
| Timeline.FindPad | src/components/Timeline.tsx:147 | `find`: the first pad whose category is the name, or none when no pad has it |
| Timeline.ShuffleCell | src/components/Timeline.tsx:143-150 | a first draw above 0.75 arms the cell with the kit the second draw picks and that kit's matching sample (else the cell keeps its own), using two draws; otherwise the cell is untouched and one draw is used |
| Timeline.ShufflePads | src/components/Timeline.tsx:142-152 | the track keeps its length and uses at most two draws per cell |
| Timeline.ShufflePadsCells | src/components/Timeline.tsx:142-152 | each cell of the track changes only as ShuffleCell allows |
| Timeline.PadDraws | src/components/Timeline.tsx:142-143 | the draws left when the shuffle reaches cell k: at least two per remaining cell, all in [0,1) |
| Timeline.ShufflePadsDraws | src/components/Timeline.tsx:142-152 | cell k of a shuffled track is ShuffleCell applied to it with the draws the earlier cells left |
| Timeline.ShufflePadsLoop | src/components/Timeline.tsx:142-152 | the inner forEach, consuming draws left to right, yields exactly ShufflePads |
| Timeline.ShuffleTracks | src/components/Timeline.tsx:141-153 | the grid keeps its number of tracks |
| Timeline.ShuffleTracksCells | src/components/Timeline.tsx:141-153 | names, flags, audio and lengths kept; each cell changes only as ShuffleCell allows |
| Timeline.TrackDraws | src/components/Timeline.tsx:141-142 | the draws left when the shuffle reaches track j: enough for every cell from there on |
| Timeline.ShuffleTracksDraws | src/components/Timeline.tsx:141-153 | track j of the shuffled grid is track j with its cells shuffled by the draws the earlier tracks left |
| Timeline.ShuffleGrid | src/components/Timeline.tsx:139-153 | clear then shuffle: names, flags, audio and cell counts of every track are kept |
| Timeline.CellDraws | src/components/Timeline.tsx:141-143 | the draws left when the shuffle reaches cell k of track j, in grid order |
| Timeline.ShuffleGridDecides | src/components/Timeline.tsx:139-150 | a cell is armed exactly when its first draw exceeds 0.75, then with the kit its second draw picks and that kit's sample for the track; unarmed cells stay without a sample; the playhead is kept |
| Timeline.ShuffleGridCells | src/components/Timeline.tsx:138-156 | after clear-then-shuffle every kit is empty or in 1..3, no sample without a kit, any sample is the audio of the first pad of that kit matching the track name, playing flags kept |
| Timeline.ShuffleCanArmSilentCell | src/components/Timeline.tsx:144-150 | a track no built-in kit has a pad for can get a kit and no sample |
| Timeline.Timeline.ShuffleTimeline | src/components/Timeline.tsx:138-156 | the grid becomes ShuffleGrid of the old grid (playheads reset if it was running) and the timeline ends inactive |
| Timeline.TicksVisitColumnsInOrder | src/components/Timeline.tsx:299-301 | with a fixed length, the n-th tick since start plays column n mod len |
| Timeline.ColumnToPlay | src/components/Timeline.tsx:299-300 | the counter while it is below the live first-track length, 0 once it has run past it |
| Timeline.CounterAfterValue | src/components/Timeline.tsx:300 | the for-loop counter after n ticks is ((n−1) mod len)+1 |
| Timeline.Timeline.constructor | src/components/Timeline.tsx:60 | the timeline starts inactive with no loop running |
| Timeline.Timeline.OnSettingsChange | src/components/Timeline.tsx:266-271 | settings become the given BPM and master volume; tracks unchanged |
| Timeline.Timeline.SetActive | src/components/Timeline.tsx:293-317 | a change of `active` ends the old loop and resets every playhead, and starting runs a loop from column 0; no change does nothing |
| Timeline.Timeline.Start | src/components/Timeline.tsx:120 | the timeline is active; a stopped one restarts from column 0 with playheads reset |
| Timeline.Timeline.Stop | src/components/Timeline.tsx:122 | the timeline is inactive; if it was running, no cell is playing |
| Timeline.Timeline.ToggleSpace | src/components/Timeline.tsx:251-253 | Space flips `active` and resets every playhead |
| Timeline.Timeline.BeginImport | src/components/Timeline.tsx:170-171 | import stops playback first |
| Timeline.Timeline.Unmount | src/components/Timeline.tsx:307-316 | the cleanup ends the loop and resets every playhead |
| Timeline.Timeline.Tick | src/components/Timeline.tsx:299-301 | a tick plays the counter's column, or 0 past the live first-track length; marks the grid, appends that column's calls and advances the counter; it needs only that column to exist on every track |
| Daw.DecodeAll | src/components/DAW.tsx:89-98 | loadSounds succeeds iff every path decodes, giving one buffer per path in path order; otherwise it fails at the first failing path |
| Daw.LoadSounds | src/components/DAW.tsx:89-98 | the push loop settles to exactly DecodeAll |
| Daw.Paths | src/components/DAW.tsx:177 | one path per pad, in pad order |
| Daw.LoadedKit | src/components/DAW.tsx:176-181 | when all of a kit's paths decode, pad i gets the sample of its own path; otherwise the kit is untouched |
| Daw.LoadKit | src/components/DAW.tsx:176-181 | loadSounds then the forEach yield LoadedKit, reporting success iff every path decodes |
| Daw.LoadedKitKeepsPads | src/components/DAW.tsx:179-181 | loading changes no pad's id, category, path, colour or name |
| Daw.LoadedKitHasAudio | src/components/DAW.tsx:179-181 | after a successful load every pad has a sample |
| Daw.NewTrack | src/components/DAW.tsx:119-138 | the new track: `steps` empty cells, solo, muted and ignored false, volume 0.5, panning 0 |
| Daw.NewInstrument | src/components/DAW.tsx:102-112 | the new pad: id = custom kit length + 31, category and name the given name, the file's name as path, the decoded sample |
| Daw.NewTrackIsSilent | src/components/DAW.tsx:119-144 | appending the new track changes no column's play calls |
| Daw.NewTrackEscapesSolo | src/components/DAW.tsx:126-144 | while a track is soloed, the appended track breaks the ignored/solo relation and passes the flag test |
| Daw.NewTrackKeepsInvariants | src/components/DAW.tsx:126-144 | with nothing soloed, appending keeps the ignored/solo relation and the knob domains |
| Daw.ShuffleUsesBuiltInKits | src/components/Timeline.tsx:145-149 | with the kit table, any shuffled sample belongs to a pad of kit1, kit2 or kit3 whose category is the track name |
| Daw.KitTable | src/components/DAW.tsx:169 | the kit list is kit1, kit2, kit3, then the custom kit |
| Daw.Daw.Kits | src/components/DAW.tsx:169 | the component's kit list is the kit table of its kits |
| Daw.Daw.constructor | src/components/DAW.tsx:58-73 | initial state: 240 BPM, master volume 0.5, 16 steps, empty custom kit, dialogs closed, nothing analysed, not loaded |
| Daw.Daw.AddCustomInstrument | src/components/DAW.tsx:101-148 | on a failed decode nothing changes; otherwise exactly one pad is appended to the custom kit and one new track to the end of the timeline, the sound becomes the analysed sound, and the piano replaces the custom dialog |
| Daw.Daw.LoadKits | src/components/DAW.tsx:172-191 | each built-in kit becomes its LoadedKit, the custom kit is untouched, and `loaded` is set iff all three loads succeed |
| Piano.OctaveCount | src/components/Piano.tsx:32 | the for-loop visits end−start+1 octaves, none when the bounds cross |
| Piano.KeysStep | src/components/Piano.tsx:32-35 | one more octave appends the seven names at the next octave |
| Piano.GenerateKeys | src/components/Piano.tsx:26-38 | both lists have 7 entries per octave: position i holds name i mod 7 at octave start + i div 7 |
| Piano.WhiteKeysInOrder | src/components/Piano.tsx:29-33 | every 7-key block of the white keys reads C, D, E, F, G, A, B |
| Piano.KeysAscend | src/components/Piano.tsx:32-35 | octaves never decrease along the lists |
| Piano.BlackKeysAlign | src/components/Piano.tsx:29-34 | black and white lists have the same length and octaves; the placeholder is at positions 2 and 6 of each block, and each other black key is its white key's sharp |
| Piano.OctaveChange | src/components/Piano.tsx:214-223 | the window's width is kept; it moves up only when end < 7 and down only when start > 0, by one; otherwise it is returned unchanged |
| Piano.OctaveChangeKeepsWindow | src/components/Piano.tsx:214-223 | a three-octave window inside 0..7 stays one |
| Piano.OctaveChangeUndo | src/components/Piano.tsx:216-219 | down undoes a successful up, and up undoes a successful down |
| Piano.OctaveChangesKeepWindow | src/components/Piano.tsx:214-223 | any sequence of presses keeps the window invariant |
| Piano.ReachableWindows | src/components/Piano.tsx:23 | from 3..5 every reachable window has end − start = 2, start ≥ 0 and end ≤ 7 |
| Piano.KeyMap | src/components/Piano.tsx:187-200 | the twelve keys a, w, s, e, d, f, t, g, y, h, u, j bound to C..B one octave above the window's bottom (its properties are the lemmas below) |
| Piano.KeyMapSize | src/components/Piano.tsx:187-200 | the key map has twelve entries |
| Piano.KeyForFindsNote | src/components/Piano.tsx:187-200 | each of the twelve note names has a key that plays it one octave above the window's bottom |
| Piano.KeyForInvertsKeyMap | src/components/Piano.tsx:187-200 | every key plays at octave start+1, and its note gives the key back |
| Piano.KeyMapNotesChromatic | src/components/Piano.tsx:187-200 | every key plays one of the twelve note names |
| Piano.KeyMapIsChromatic | src/components/Piano.tsx:187-200 | twelve keys, all at octave start+1, with pairwise distinct notes covering the chromatic octave |
| Piano.ToLower | src/components/Piano.tsx:203 | same length; ASCII capitals lowered, other characters kept |
| Piano.KeyDown | src/components/Piano.tsx:202-207 | a press plays the mapped note of the lower-cased key iff the key is mapped and the press is not a repeat |
| Piano.ToLowerIdempotent | src/components/Piano.tsx:203 | lower-casing twice is lower-casing once |
| Piano.KeyDownIgnoresCase | src/components/Piano.tsx:203-205 | in any key map, a key plays exactly what its lower-case form plays |
| Piano.KeyAPlaysC | src/components/Piano.tsx:188-205 | "A" and "a" play C at start+1, and a repeated press plays nothing |
| Piano.NatToString | src/components/Piano.tsx:165 | a non-empty string of decimal digits whose value is n |
| Piano.IntToString | src/components/Piano.tsx:165 | digits after an optional minus sign, present exactly for negative numbers, whose value read back is the integer |
| Piano.IntToStringInjective | src/components/Piano.tsx:165 | different octaves print differently |
| Piano.FullNote | src/components/Piano.tsx:165 | for a note name, the full note splits back into that name and the octave |
| Piano.FullNoteInjective | src/components/Piano.tsx:165 | on note names, two full notes are equal exactly when note and octave are |
| Piano.ChromaticNoteNames | src/components/Piano.tsx:29-30 | every note name of the keyboard is free of digits and minus signs |
| Piano.MapSoundToNote | src/components/Piano.tsx:90-96 | no current sound: nothing changes; otherwise only the note's entry is set to the current sound |
| Piano.AnalyzeSound | src/components/Piano.tsx:113-118 | the sound becomes current; a detected note is recorded and mapped to the sound; a failed detection maps nothing |
| Piano.PlayNote | src/components/Piano.tsx:164-183 | the mapped sample if there is one; else the pitch-shifted current sound when a note was detected; else the piano; else nothing, each case exactly when its predecessors fail |
| Piano.MappedNoteWins | src/components/Piano.tsx:164-173 | after mapping the current sound to a note, that note plays the sample itself |
| Piano.MapSoundKeepsOtherNotes | src/components/Piano.tsx:93-94 | mapping one note leaves what every other note plays unchanged |
| Piano.MapSoundKeepsOtherKeys | src/components/Piano.tsx:90-96 | mapping the current sound to one key (note and octave) leaves what every other key plays unchanged |
| Piano.AnalyzedNotePlaysSample | src/components/Piano.tsx:116-118 | an analysed sound plays unshifted on the note it was detected as |

## Left out

- Rendering, DOM scrolling and arrows, the soundboard animation and the modals are UI. They are not modelled.
- Web Audio: `playSound`'s gain and panner graph and `playCurrentSound` are not modelled. A play call is recorded as an event carrying its arguments (`Timeline.PlayEvent`), or as a `Piano.NotePlay` choice.
- The sleep of `60_000 / BPM` and `setTimeout` are not modelled. The scheduler advances by explicit `Tick` calls, so the latency of cooperative cancellation is not captured.
- Daw.Daw.AddCustomInstrument: the stale closure of a running play loop is not modelled. The loop captures the render's `timeline` object, and appending a track creates a new `tracks` array. Each tick's `setTimeline({...timeline})` (Timeline.tsx:114) and the stop cleanup (Timeline.tsx:307-315) write the old array back. So a custom track added while playing is removed from the timeline again. The model has a single shared timeline object, in which the appended track stays.
- Concurrent handlers are not modelled: two custom instruments added before a re-render would read the same `customKit.length` and `steps`. The kit loads run concurrently under `Promise.all`; the model runs the built-in kits one after another, which is equivalent because each kit is written independently.
- Export and import are left out because they are library I/O: `JSON.stringify`/`JSON.parse`, `Blob`, `FileReader` and the download anchor. Only import's first step, stopping playback, is modelled.
- Sample fetching and decoding are an abstract `Decoder` parameter. A decode that throws is `None`.
- `Math.random` is a parameter: the shuffle receives its draws as a sequence of reals in [0,1), at least two per cell. The custom instrument's colour is passed in.
- Pitch detection (`pitchy`), `frequencyToNote`, `getPitchRatio` and Soundfont loading are floating-point numerics and foreign libraries. The detected note is an input of `Piano.AnalyzeSound`, `PitchShifted` records the note names instead of a ratio, and the instrument is a loaded-or-not flag.
- Display-only Piano state is not modelled (`isProcessing`, the file input).
- `CustomInstrument.tsx`, `TopControls.tsx`, `TimelineSteps.tsx`, `About.tsx`, `WelcomeScreen.tsx` and the styling configuration are presentation. They are not modelled.
- `TimelinePad.tsx` (cell toggling) and `Knob.tsx` (knob clamping) are not part of this model, so the knob domains appear only as the hypothesis `Model.AudioInRange`.
- The template `timeline.json` and the kit files `kit1.json`–`kit3.json` are not part of this model. They are constructor parameters of `Daw.Daw`.
- Errors the code throws become preconditions, not modelled error paths:
  - an unknown track name (`Track.SoloTrack`, `Track.MuteTrack`, `Track.SetVolume`, `Track.SetPanning`);
  - a column past a shorter track (`Timeline.Timeline.PlayColumn`, `Timeline.Timeline.Tick`). Tracks can differ in length: after importing a file with more steps than the current setting, a custom track gets only `steps` cells. The loop's bound is the first track's length. When that column is missing on another track, `currPad.playing` throws, the play loop dies and `active` stays true. The model's Tick does not cover that step.
- Timeline.Timeline.Tick: requires at least one track, and the played column on every track. With no tracks, or an empty first track, the code's `while (valid)` loop spins without awaiting, and that is not modelled.
- Piano.ToLower: lowers ASCII letters only, not the full Unicode case mapping of `toLowerCase`.
- JavaScript numbers for BPM, volume, panning and random draws are modelled as exact reals, with no floating-point rounding.
