# MidiGenPlay core, modelled in Dafny

MidiGenPlay is a Unity package that writes music procedurally as MIDI. A
song configuration names parts, and each part has a tonality, a root note, a
tempo range, a time signature, a length in measures and a list of tracks. The
structure then plays the parts in some order. Every track has a role:

- Rhythm tracks play a drum template written in PianoRoll text.
- Backing tracks play a chord-progression template.
- Lead tracks play a melody template.

The generator tiles each template over the part's measures. It picks chord
degrees, melody degrees and octaves at random, and turns the result into
track chunks through the DryWetMidi pattern builder. It then adds Bank Select
(controllers 0 and 32) and Program Change events at the head of every chunk,
rewrites the channel of every channel event, shifts each part to its place
on a tick cursor, and merges everything into one song file.

This project models the integer and symbolic logic of that pipeline. The
modules are listed roughly in dependency order.

- **Outcomes, Search, Weighting.** Exceptions as `Result` values, the random
  draw as a seed, and first-match search and filtering. Weighting holds the
  cumulative-weight pick used by the tonality and time-signature tables.
- **Tonalities, TimeSignatures.** The interval table, the time-signature
  table, their weight tables and the random picks over them.
- **MusicTheory.** Scales from tonalities, scale walks with octave wrap, and
  chords built by index offsets. Also the degree-to-chord map, chord
  resolution and tempo selection.
- **Percussion.** A percussion instrument's voice-to-note table and its
  first-match lookup.
- **Midi.** A track chunk as a list of (delta, event) pairs, its absolute-time
  view, time shifts, channel rewriting and the bank/program preamble. It also
  has the `MidiFile` class, whose chunk list is updated in place.
- **Patterns.** The pattern builder as a class: a time cursor and the
  actions added so far.
- **DrumLines.** The rewriting of PianoRoll drum lines: tag, symbol, voice,
  note (with its range check) and a dictionary of lines keyed by note name.
- **UnityMath, TrackEdits, TrackBuilders.**
  - UnityMath: `Mathf.Clamp` and the ceiling division that tiles templates.
  - TrackEdits: the in-place edits of a track file.
  - TrackBuilders: the three template builders, the metronome and the role
    dispatch.
- **SongGenerator.** The song loop: the structure's entries, their
  repetitions and their tracks, with the tick cursor and channel numbering.
- **GeneratorManager, SongPart.** The manager's post-processing, which uses
  preamble deltas of 10, and its file-name formula. The song part's track
  list, per-track files, silent "dummy" file and the rule that picks the
  role of a new track.
- **Catalogues, SoundFonts, SequenceCodec.**
  - Catalogues: the template catalogues and their fallback queries.
  - SoundFonts: the sound-font cache getters.
  - SequenceCodec: the song-structure text of the sample panel.

Modelling conventions:

- **Randomness.**
  - A call to `Random.Range(lo, hi)` is `Outcomes.Range(lo, hi, seed)` for a
    free `seed`. It gives `lo + seed % (hi - lo)`, which covers the whole
    range. Equal bounds give `lo`. When `hi < lo`, Unity swaps the bounds, and
    the draw lies in `(hi, lo]`.
  - The generators take an `Oracle`, a function from a draw's label to a
    seed. The labels are the structure entry, repetition, track, slot and
    draw.
- **Exceptions.** An exception is a `Fail` value naming its .NET class.
  Exceptions are raised in the order the code reaches them.
- **Foreign library.**
  - `Pattern.ToFile` is a `render` parameter.
  - The pattern builder records actions.
  - DryWetMidi's scale walk and `Chord.ResolveNotes` are modelled concretely
    on note numbers, with octave 4 holding note 60.
  - The library's range checks are modelled. A note outside 0..127
    (`MusicTheory.InMidiRange`) or an octave outside -1..9 throws
    ArgumentOutOfRange in `Note.Get`, `Octave.Get` and the chord and scale
    walks. The walk itself (`ScaleWalk`) and `ResolveNotes` are unbounded.
    The range conditions sit in `NotesFromScale`, `GetNoteAtInterval`,
    `PlayableChordNotes` and, for a percussion voice's mapped note,
    `Percussion.ToNote`. An instrument may be given octaves 1 to 9 and a
    percussion mapping any octave, so these failures are reachable
    (`TopOctaveOverflows`, `HighChordOverflows`, `TopOctaveMappingThrows`).
- **Constants.** The number of ticks per quarter note is a parameter.

The triads follow the code, not the repository's documentation.
`GetTonalityDiatonicTriads` passes the steps {3, 5} to a 0-based lookup. So
the tonic chord of C major comes out as C-F-A, not C-E-G (lemma
`MusicTheory.CMajorTriadsAsWritten`).

## Model

| member | source | states |
|---|---|---|
| Outcomes.Range | Runtime/CoreScripts/MusicTheory/MusicTheory.Tonality.cs:178 | Random.Range on integers: a draw from [lo, hi) when lo < hi, lo when the bounds are equal, and from (hi, lo] when they are swapped |
| Outcomes.RangeCoversAll | Runtime/CoreScripts/MusicTheory/MusicTheory.Tonality.cs:178 | every value of the range, in either order of the bounds, is drawn by some seed |
| Search.FirstIndex | Runtime/CoreScripts/ScriptableObjects/MIDIPercussionInstrumentSO.cs:46-53 | the index found matches the test, and no earlier index does; the length when nothing matches |
| Search.Filter | Runtime/CoreScripts/Data/ChordProgressionsList.cs:19-21 | every kept element is a matching member, every matching element is kept, and nothing is kept when nothing matches |
| Search.FirstIndexCons | Runtime/CoreScripts/ScriptableObjects/MIDIPercussionInstrumentSO.cs:46-53 | putting an element in front moves a search that skips it by one |
| Search.FilterAppend | Runtime/CoreScripts/Data/ChordProgressionsList.cs:19-21 | filtering distributes over concatenation |
| Weighting.FirstAbove | Runtime/CoreScripts/MusicTheory/MusicTheory.Tonality.cs:150-159 | the cumulative walk stops at the first key whose running weight exceeds the draw |
| Weighting.SelectByWeight | Runtime/CoreScripts/MusicTheory/MusicTheory.Tonality.cs:141-163 | InvalidOperation when the total weight is not positive; otherwise a draw from [0, total) and the first key whose running sum exceeds it (the loop is proved against that walk) |
| Weighting.PickFromList | Runtime/CoreScripts/MusicTheory/MusicTheory.Tonality.cs:170-180 | ArgumentException exactly for an empty list, otherwise a member of it |
| Weighting.PrefixMonotone | Runtime/CoreScripts/MusicTheory/MusicTheory.Tonality.cs:150-155 | with non-negative weights the running sum never decreases |
| Weighting.ChoiceHasPositiveWeight | Runtime/CoreScripts/MusicTheory/MusicTheory.Tonality.cs:149-159 | a draw below the total always stops inside the table, on a key of positive weight |
| Weighting.PositiveWeightReachable | Runtime/CoreScripts/MusicTheory/MusicTheory.Tonality.cs:149-159 | every key of positive weight is chosen by some draw |
| Weighting.PrefixBeyond | Runtime/CoreScripts/MusicTheory/MusicTheory.Tonality.cs:95-135 | zero weights after a point leave the running sum unchanged |
| Tonalities.GetRandomTonalityByWeight | Runtime/CoreScripts/MusicTheory/MusicTheory.Tonality.cs:141-163 | with the shipped weights, draw 0 gives Major and draw 1 gives Minor; no exception |
| Tonalities.ShippedTonalityWeights | Runtime/CoreScripts/MusicTheory/MusicTheory.Tonality.cs:95-135 | the shipped weights are non-negative and total 2, and the walk yields only Major or Minor |
| Tonalities.GetRandomTonalityFromList | Runtime/CoreScripts/MusicTheory/MusicTheory.Tonality.cs:170-180 | ArgumentException exactly for an empty list, otherwise a member |
| Tonalities.IntervalTableShape | Runtime/CoreScripts/MusicTheory/MusicTheory.Tonality.cs:48-93 | only Ionian lacks an entry; every non-empty table spans 12 semitones; only Microtonal and Atonal are empty |
| TimeSignatures.BeatsPerMeasure | Runtime/CoreScripts/MusicTheory/MusicTheory.TimeSignature.cs:83-94 | the beats per measure are the table's numerator, between 2 and 12, whatever the tempo |
| TimeSignatures.GetRandomTimeSignatureByWeight | Runtime/CoreScripts/MusicTheory/MusicTheory.TimeSignature.cs:47-69 | with the shipped weights the pick is always FourFour |
| TimeSignatures.ShippedTimeSignatureWeights | Runtime/CoreScripts/MusicTheory/MusicTheory.TimeSignature.cs:35-45 | the shipped weights are non-negative and total 1, and every draw yields FourFour |
| TimeSignatures.GetRandomTimeSignatureFromList | Runtime/CoreScripts/MusicTheory/MusicTheory.TimeSignature.cs:71-81 | ArgumentException exactly for an empty list, otherwise a member |
| MusicTheory.NoteAt | Runtime/CoreScripts/MusicTheory/MusicTheory.cs:152 | the note built for a note number has that number |
| MusicTheory.NoteAtNumber | Runtime/CoreScripts/MusicTheory/MusicTheory.cs:152 | note and note number convert back and forth without loss |
| MusicTheory.DegreeIndex | Runtime/CoreScripts/MusicTheory/MusicTheory.cs:163 | a scale degree's index is below 7 |
| MusicTheory.GetScaleFromTonality | Runtime/CoreScripts/MusicTheory/MusicTheory.cs:39-45 | ArgumentException exactly for Ionian; otherwise the scale of the tonality's intervals from the root |
| MusicTheory.ScaleNoteNames | Runtime/CoreScripts/MusicTheory/MusicTheory.cs:52-55 | one name per interval, name i being scale step i |
| MusicTheory.GetTonalityNoteNames | Runtime/CoreScripts/MusicTheory/MusicTheory.cs:47-57 | ArgumentException for Ionian; otherwise the names of the scale's steps, one per interval |
| MusicTheory.TonalityChord | Runtime/CoreScripts/MusicTheory/MusicTheory.cs:64-72 | chord n is rooted at names[n] and its s-th upper note is names[(n + steps[s]) % count] |
| MusicTheory.BuildTonalityChord | Runtime/CoreScripts/MusicTheory/MusicTheory.cs:64-72 | the inner loop fills the chord that TonalityChord describes |
| MusicTheory.TonalityChordList | Runtime/CoreScripts/MusicTheory/MusicTheory.cs:59-81 | Fail exactly for Ionian; otherwise one chord per scale note, each of 1 + |steps| names |
| MusicTheory.GetTonalityChords | Runtime/CoreScripts/MusicTheory/MusicTheory.cs:59-76 | ArgumentException for Ionian; otherwise exactly one chord per note, chord n equal to TonalityChord for n |
| MusicTheory.NotesFromScale | Runtime/CoreScripts/MusicTheory/MusicTheory.cs:136-158 | ArgumentOutOfRange for a start note outside 0..127; for no intervals, DivideByZero when a note is asked for and an empty list otherwise; else success exactly when every walked note is a MIDI note, giving count notes (none for a negative count), each in 0..127 |
| MusicTheory.GetNotesFromScale | Runtime/CoreScripts/MusicTheory/MusicTheory.cs:136-158 | the loop, with its range checks, computes NotesFromScale: note i is ascending note i % n raised by i / n octaves |
| MusicTheory.ScaleWalkOctaves | Runtime/CoreScripts/MusicTheory/MusicTheory.cs:145-153 | note i of the walk lies 12 * (i / n) semitones above ascending note i % n |
| MusicTheory.WalkStops | Runtime/CoreScripts/MusicTheory/MusicTheory.cs:145-153 | a walked note outside 0..127 before the count means the walk throws |
| MusicTheory.ScaleWalkAscends | Runtime/CoreScripts/MusicTheory/MusicTheory.cs:136-158 | for a one-octave scale, note i of the walk is i cyclic steps above the start, and the notes strictly ascend when every step is positive |
| MusicTheory.WalkSplits | Runtime/CoreScripts/MusicTheory/MusicTheory.cs:147-151 | i cyclic steps are i / n whole octaves of the scale plus the first i % n steps |
| MusicTheory.WalkPeriods | Runtime/CoreScripts/MusicTheory/MusicTheory.cs:147-151 | q rounds of the scale plus m steps span q scale spans plus the first m steps |
| MusicTheory.StepSumIsStepsBefore | Runtime/CoreScripts/MusicTheory/MusicTheory.Tonality.cs:48-90 | the span of a table, summed from either end, is the same |
| MusicTheory.AscendingNoteName | Runtime/CoreScripts/MusicTheory/MusicTheory.cs:140 | the name of ascending note k is the start's name moved up k steps, modulo 12 |
| MusicTheory.GetNoteFromScale | Runtime/CoreScripts/MusicTheory/MusicTheory.cs:160-177 | no note exactly when the degree is at or beyond the interval count; ArgumentOutOfRange exactly when the degree is in the scale and the one-octave walk from the root leaves 0..127; otherwise a MIDI note the degree's steps above the root |
| MusicTheory.WalkWithinRound | Runtime/CoreScripts/MusicTheory/MusicTheory.cs:171-174 | the first n notes of the walk are the ascending notes, the degree's steps above the start |
| MusicTheory.GetNoteAtInterval | Runtime/CoreScripts/MusicTheory/MusicTheory.cs:225-237 | ArgumentOutOfRange exactly when index (start + interval) % n is beyond the notes given or the note raised by (start + interval) / n octaves leaves 0..127; otherwise that raised note, 12 semitones per octave above the note read |
| MusicTheory.GetDiatonicChordsFromScale | Runtime/CoreScripts/MusicTheory/MusicTheory.cs:193-223 | ArgumentOutOfRange for a root outside 0..127, DivideByZero for no intervals; otherwise success exactly for at most 8 degrees whose eight notes and chord notes are MIDI notes, with one chord per degree from offsets 0, 2, 4, 6 |
| MusicTheory.ScaleNoteName | Runtime/CoreScripts/MusicTheory/MusicTheory.cs:198 | note k of the eight generated notes is named after scale degree k |
| MusicTheory.DiatonicChordDegrees | Runtime/CoreScripts/MusicTheory/MusicTheory.cs:201-219 | chord i holds the names of degrees i, i+2, i+4, i+6 modulo n; the octave shifts do not reach the chord |
| MusicTheory.GetChordsFromTonality | Runtime/CoreScripts/MusicTheory/MusicTheory.cs:97-104 | ArgumentException for Ionian; otherwise success exactly for 1 to 8 intervals whose chords stay in 0..127 from the octave, the failures being ArgumentOutOfRange or DivideByZero, and the chords those of the walk |
| MusicTheory.ChordsFromTonalityFailures | Runtime/CoreScripts/MusicTheory/MusicTheory.cs:97-104 | of the declared tonalities only Microtonal, Atonal and Chromatic fail besides Ionian |
| MusicTheory.StepsBeforeMonotone | Runtime/CoreScripts/MusicTheory/MusicTheory.cs:140 | the distance to a later degree is never smaller |
| MusicTheory.OneOctaveWalkFits | Runtime/CoreScripts/MusicTheory/MusicTheory.cs:136-177 | a one-octave scale walked from octaves -1 to 7 stays in 0..127, so GetNoteFromScale does not throw there |
| MusicTheory.TopOctaveOverflows | Runtime/CoreScripts/MusicTheory/MusicTheory.cs:160-177 | from octave 9, which an instrument may be given, the C major walk passes note 127 and GetNoteFromScale throws ArgumentOutOfRange even for the tonic |
| MusicTheory.ScaleWalkBound | Runtime/CoreScripts/MusicTheory/MusicTheory.cs:136-158 | the eight notes of a one-octave scale of 5 to 8 degrees lie at most two octaves above the start, the first n within one |
| MusicTheory.IntervalNoteFits | Runtime/CoreScripts/MusicTheory/MusicTheory.cs:225-237 | from octaves -1 to 5 a note up to six degrees above a scale note can be read |
| MusicTheory.MiddleOctavesFit | Runtime/CoreScripts/MusicTheory/MusicTheory.cs:193-223 | one-octave scales of 5 to 8 degrees pass every range check of GetDiatonicChordsFromScale from octaves -1 to 5 |
| MusicTheory.TableScalesFit | Runtime/CoreScripts/MusicTheory/MusicTheory.cs:97-104 | every tonality of the table with 1 to 8 intervals passes the range checks from octaves -1 to 5 |
| MusicTheory.GetChordsDegreeDictionary | Runtime/CoreScripts/MusicTheory/MusicTheory.cs:263-280 | succeeds exactly for 7 or more chords, mapping Tonic..LeadingTone to chords[0..6]; ArgumentOutOfRange otherwise |
| MusicTheory.DegreeMapEntries | Runtime/CoreScripts/MusicTheory/MusicTheory.cs:267-277 | the literal dictionary maps each degree to the chord at its index |
| MusicTheory.CMajorTriadsAsWritten | Runtime/CoreScripts/MusicTheory/MusicTheory.cs:78-81 | with steps {3, 5} the C major tonic chord is C-F-A and the dominant G-C-E |
| MusicTheory.UpTo | Runtime/CoreScripts/MidiGenerator.cs:514 | the smallest upward move of 1 to 12 semitones reaching the name |
| MusicTheory.ResolveNotes | Runtime/CoreScripts/MidiGenerator.cs:514 | the chord's names are kept in order, the root in the given octave, every note 1 to 12 semitones above the one before |
| MusicTheory.GetBPMFromRange | Runtime/CoreScripts/MusicTheory/MusicTheory.cs:106-134 | the tempo lies in the range's inclusive window and satisfies the rule; the only failure is InvalidOperation |
| MusicTheory.GetBPMFromRangePicksFromList | Runtime/CoreScripts/MusicTheory/MusicTheory.cs:113-133 | the result is the drawn element of the filtered window list, or InvalidOperation for an empty list |
| MusicTheory.RuleValuesAreValidBpms | Runtime/CoreScripts/MusicTheory/MusicTheory.cs:113-125 | the closed-form list of every step-th value equals the filtered window |
| MusicTheory.RuleValuesSound | Runtime/CoreScripts/MusicTheory/MusicTheory.cs:113-125 | every value of the closed form lies in the window and follows the rule |
| MusicTheory.ValidBpmsSound | Runtime/CoreScripts/MusicTheory/MusicTheory.cs:113-125 | every listed value lies in the window and follows the rule |
| MusicTheory.ValidBpmsComplete | Runtime/CoreScripts/MusicTheory/MusicTheory.cs:113-125 | every value of the window that follows the rule is listed |
| MusicTheory.BpmAlwaysAvailable | Runtime/CoreScripts/MusicTheory/MusicTheory.cs:30-37 | for every range and rule of the table some tempo exists: the InvalidOperation branch is never taken |
| MusicTheory.BpmOutcomesCovered | Runtime/CoreScripts/MusicTheory/MusicTheory.cs:106-134 | every tempo of the window that follows the rule is returned for some draw |
| Percussion.ToNote | Runtime/CoreScripts/ScriptableObjects/MIDIPercussionInstrumentSO.cs:20-23 | the stored name one octave above the stored octave, or ArgumentOutOfRange exactly when that note is outside 0..127 |
| Percussion.TryGetMappedNote | Runtime/CoreScripts/ScriptableObjects/MIDIPercussionInstrumentSO.cs:43-58 | ArgumentOutOfRange exactly when the first mapping for the voice has a note outside 0..127; otherwise found exactly when some mapping has the voice, with the first such mapping's note, or false with C in octave 0 |
| Percussion.DefaultTableDistinct | Runtime/CoreScripts/ScriptableObjects/MIDIPercussionInstrumentSO.cs:28-38 | the default table has 8 entries for pairwise distinct voices, each with a playable note found by the lookup |
| Percussion.FirstMatchWins | Runtime/CoreScripts/ScriptableObjects/MIDIPercussionInstrumentSO.cs:46-53 | a mapping in front decides its voice, throwing exactly when its own note is out of range, and leaves every other voice's lookup unchanged |
| Percussion.PlayableOctavesNeverThrow | Runtime/CoreScripts/ScriptableObjects/MIDIPercussionInstrumentSO.cs:20-23 | a table whose stored octaves lie in -2..7 never makes the lookup throw |
| Midi.WithChannel | Runtime/CoreScripts/MidiGenerator.cs:374-377 | setting the channel keeps an event a channel event or not |
| Midi.MidiFile.constructor | Runtime/CoreScripts/MIDISongPart.cs:117 | a new file has no chunks |
| Midi.MidiFile.FromChunks | Runtime/CoreScripts/MidiGenerator.cs:92 | the file holds the rendered chunks |
| Midi.ToAbsolute | Runtime/CoreScripts/MidiGenerator.cs:487-491 | the absolute view keeps the events in order, one time per event |
| Midi.FromAbsolute | Runtime/CoreScripts/MidiGenerator.cs:492-494 | rewriting deltas from ascending absolute times keeps the events |
| Midi.AbsoluteRoundTrip | Runtime/CoreScripts/MidiGenerator.cs:487-494 | deltas to absolute times and back give the chunk again |
| Midi.RelativeRoundTrip | Runtime/CoreScripts/MidiGenerator.cs:487-494 | ascending absolute times to deltas and back give them again |
| Midi.ToAbsoluteInjective | Runtime/CoreScripts/MidiGenerator.cs:487-494 | chunks with the same absolute view are equal |
| Midi.ToAbsoluteBase | Runtime/CoreScripts/MidiGenerator.cs:487-494 | starting later by an offset shifts every absolute time by it |
| Midi.ToAbsoluteAppend | Runtime/CoreScripts/MidiGenerator.cs:487-494 | the absolute view of a concatenation continues at the first part's total delta |
| Midi.Shifted | Runtime/CoreScripts/MidiGenerator.cs:490-491 | every absolute time moves by the offset, events unchanged |
| Midi.ShiftChunk | Runtime/CoreScripts/MidiGenerator.cs:482-496 | the shifted chunk's absolute view is the original's with every time moved by the offset |
| Midi.ShiftChunkFirstDelta | Runtime/CoreScripts/MidiGenerator.cs:482-496 | shifting changes only the first delta, by the offset |
| Midi.ShiftChunkCompose | Runtime/CoreScripts/MidiGenerator.cs:482-496 | shifting by a then by b equals shifting by a + b, and shifting by 0 changes nothing |
| Midi.RechannelChunk | Runtime/CoreScripts/MidiGenerator.cs:370-379 | every channel event gets the channel; deltas and other events are kept |
| Midi.RechannelChunkFacts | Runtime/CoreScripts/MidiGenerator.cs:370-379 | channel events carry the channel afterwards, others are untouched, and rewriting twice equals once |
| Midi.BankMsb | Runtime/CoreScripts/MidiGenerator.cs:337 | (bank >> 7) & 0x7F is a seven-bit number |
| Midi.BankLsb | Runtime/CoreScripts/MidiGenerator.cs:338 | bank & 0x7F is a seven-bit number |
| Midi.BankSplitRoundTrip | Runtime/CoreScripts/MidiGenerator.cs:337-338 | MSB * 128 + LSB gives back every bank from 0 to 16383 |
| Midi.Preamble | Runtime/CoreScripts/MidiGenerator.cs:341-366 | CC0 with the MSB, CC32 with the LSB and the program change on the channel, with the given deltas |
| Midi.PreambleDelays | Runtime/CoreScripts/MidiGenerator.cs:341-366 | after a preamble the original events keep their order, each delayed by the preamble's total delta |
| Midi.PrefixDelays | Runtime/CoreScripts/MidiGenerator.cs:341-366 | events put in front delay the rest by their total delta |
| Midi.Insert | Runtime/CoreScripts/MidiGenerator.cs:341 | List.Insert: the element at the index, everything else in order around it |
| Patterns.PatternBuilder.constructor | Runtime/CoreScripts/MidiGenerator.cs:43 | a new builder is at time 0 with no actions |
| Patterns.PatternBuilder.MoveToStart | Runtime/CoreScripts/MidiGenerator.cs:129 | the cursor goes to 0, actions unchanged |
| Patterns.PatternBuilder.MoveToTime | Runtime/CoreScripts/MidiGenerator.cs:79 | the cursor goes to the time, actions unchanged |
| Patterns.PatternBuilder.AddNote | Runtime/CoreScripts/MidiGenerator.cs:267-268 | the note is appended at the old time and the cursor advances by its length |
| Patterns.PatternBuilder.AddChord | Runtime/CoreScripts/MidiGenerator.cs:80-85 | the chord is appended at the old time and the cursor advances by its length |
| Patterns.PatternBuilder.AddPianoRoll | Runtime/CoreScripts/MidiGenerator.cs:190-191 | the PianoRoll text is appended at the cursor |
| DrumLines.NoteNameText | Runtime/CoreScripts/MidiGenerator.cs:175 | a note name prints as a non-empty word of letters, six letters exactly for sharps |
| DrumLines.NoteNameTextInjective | Runtime/CoreScripts/MidiGenerator.cs:175 | different note names print differently |
| DrumLines.NoteStringInjective | Runtime/CoreScripts/MidiGenerator.cs:175 | the note string names one note: equal strings mean equal notes |
| DrumLines.Tag | Runtime/CoreScripts/MidiGenerator.cs:134-144 | no tag exactly when a brace is missing or the first '}' is not after the first '{'; otherwise the text from the first '{' to the first '}' |
| DrumLines.Symbol | Runtime/CoreScripts/MidiGenerator.cs:145 | the symbol neither starts nor ends with a brace |
| DrumLines.FindDrum | Runtime/CoreScripts/MidiGenerator.cs:148-165 | the voice of the first drum mapping with the symbol; none exactly when no mapping has it |
| DrumLines.ProcessLine | Runtime/CoreScripts/MidiGenerator.cs:132-179 | ArgumentOutOfRange exactly when the line's voice has a mapped note outside 0..127; otherwise a line is kept exactly when it has a tag, a mapping for its symbol and a note for that voice, and it then becomes the line with every tag occurrence replaced by the note string, keyed by that string |
| DrumLines.Keys | Runtime/CoreScripts/MidiGenerator.cs:125 | the keys of the dictionary in insertion order |
| DrumLines.Values | Runtime/CoreScripts/MidiGenerator.cs:183 | the values of the dictionary in insertion order |
| DrumLines.Lookup | Runtime/CoreScripts/MidiGenerator.cs:179 | absent exactly when the key is not in the dictionary |
| DrumLines.Upsert | Runtime/CoreScripts/MidiGenerator.cs:179 | an existing key keeps its place, a new key goes at the end |
| DrumLines.UpsertLookup | Runtime/CoreScripts/MidiGenerator.cs:179 | after an assignment the key holds the new value, the others their old values, and keys stay distinct |
| DrumLines.ProcessedIsLastWins | Runtime/CoreScripts/MidiGenerator.cs:132-180 | when no line throws, the dictionary has distinct keys, and each key holds the line the last matching template line produced |
| DrumLines.PreprocessPattern | Runtime/CoreScripts/MidiGenerator.cs:118-183 | the loop yields the dictionary's values joined by newlines, or stops with the exception of the first line that throws |
| DrumLines.ProcessedStep | Runtime/CoreScripts/MidiGenerator.cs:132-180 | one more template line throws, is skipped or upserts its entry |
| DrumLines.Processed | Runtime/CoreScripts/MidiGenerator.cs:132-180 | succeeds exactly when no line throws, and then has at most one entry per line and no key twice; the only failure is ArgumentOutOfRange |
| DrumLines.PlayableOctavesFit | Runtime/CoreScripts/MidiGenerator.cs:166-172 | with stored octaves in -2..7 no template line throws |
| UnityMath.Clamp | Runtime/CoreScripts/MidiGenerator.cs:522 | Mathf.Clamp: the value when inside [min, max], min below it, max above it |
| UnityMath.CeilDiv | Runtime/CoreScripts/MidiGenerator.cs:41 | the smallest q with q * length >= measures |
| UnityMath.TilingCovers | Runtime/CoreScripts/MidiGenerator.cs:40-41 | the tiles cover the measures and overshoot by less than one template, exactly covering multiples |
| UnityMath.MulSign | Runtime/CoreScripts/MidiGenerator.cs:189 | a product with a positive factor keeps the other's sign |
| TrackEdits.WithBankAndPatch | Runtime/CoreScripts/MidiGenerator.cs:331-368 | the preamble with deltas 0, 0, 1 in front of the chunk |
| TrackEdits.FinishTrack | Runtime/CoreScripts/MidiGenerator.cs:202-203 | every chunk gets the preamble and then the channel |
| TrackEdits.SetBankAndPatchEvents | Runtime/CoreScripts/MidiGenerator.cs:331-368 | every chunk of the file gets CC0, CC32 and the program change at positions 0, 1, 2 |
| TrackEdits.SetChannel | Runtime/CoreScripts/MidiGenerator.cs:370-379 | every chunk of the file is rewritten to the channel |
| TrackEdits.ShiftTrackChunk | Runtime/CoreScripts/MidiGenerator.cs:487-494 | the loop over absolute times yields the shifted chunk |
| TrackEdits.ShiftAll | Runtime/CoreScripts/MidiGenerator.cs:482-496 | every chunk is shifted by the offset |
| TrackEdits.ShiftFile | Runtime/CoreScripts/MidiGenerator.cs:482-496 | the file's chunks are replaced by their shifted versions |
| TrackEdits.MergeInto | Runtime/CoreScripts/MidiGenerator.cs:499-503 | the source's chunks are appended to the target's, nothing else changes |
| TrackEdits.FinishFile | Runtime/CoreScripts/MidiGenerator.cs:200-203 | bank/program preamble, then channel rewrite |
| TrackEdits.FinishedTrackLayout | Runtime/CoreScripts/MidiGenerator.cs:331-379 | a finished chunk starts with CC0, CC32 and the program change, all on the channel, and the original events follow in order, one tick later |
| TrackEdits.FinishTrackOnChannel | Runtime/CoreScripts/MidiGenerator.cs:370-379 | a finished file is on its channel |
| TrackEdits.ShiftKeepsEvents | Runtime/CoreScripts/MidiGenerator.cs:487-494 | shifting keeps every event and its position |
| TrackEdits.ShiftAllOnChannel | Runtime/CoreScripts/MidiGenerator.cs:482-496 | shifting keeps a file on its channel |
| TrackBuilders.PlayableChordNotes | Runtime/CoreScripts/MidiGenerator.cs:505-523 | ArgumentOutOfRange exactly when the drawn octave or a resolved or clamped note leaves the library's range; otherwise the chord's names in order, every note in 0..127 and clamped into [octaveMin - 1, octaveMax - 1] |
| TrackBuilders.ChordVoicing | Runtime/CoreScripts/MidiGenerator.cs:509-523 | the names and count of the chord are kept and every octave lies in [octaveMin - 1, octaveMax - 1] |
| TrackBuilders.ClampKeepsVoicing | Runtime/CoreScripts/MidiGenerator.cs:519-523 | a voicing already inside the octaves is left as resolved |
| TrackBuilders.Finished | Runtime/CoreScripts/MidiGenerator.cs:90-97 | succeeds exactly when the bank name parses (else Format or Overflow), one chunk per rendered chunk, all on the channel |
| TrackBuilders.RenderAndFinish | Runtime/CoreScripts/MidiGenerator.cs:90-97 | a new file delivering Finished |
| TrackBuilders.ChordDegree | Runtime/CoreScripts/MidiGenerator.cs:57-60 | the drawn degree is one of the slot's possible degrees |
| TrackBuilders.ChordRep | Runtime/CoreScripts/MidiGenerator.cs:51-85 | one action per slot |
| TrackBuilders.ChordActions | Runtime/CoreScripts/MidiGenerator.cs:49-87 | succeeds exactly when nothing is played, or every slot offers a degree and every drawn voicing passes the range checks; ArgumentOutOfRange otherwise |
| TrackBuilders.ChordTrack | Runtime/CoreScripts/MidiGenerator.cs:19-99 | NullReference without a template, ArgumentException for Ionian, ArgumentOutOfRange for fewer than seven chords; success exactly when the template, tonality, slots, voicings and bank name allow; the result is on the channel |
| TrackBuilders.ChordSlotFacts | Runtime/CoreScripts/MidiGenerator.cs:57-85 | a slot plays a possible degree's chord in the instrument's octaves, for its duration and velocity, rep * measures * beatsPerBar quarters after repetition 0; when the slot passes the range checks every note is in 0..127 |
| TrackBuilders.HighChordOverflows | Runtime/CoreScripts/MidiGenerator.cs:505-523 | with the default octaves 1 to 9 and the octave draw 8, GetPlayableChordNotes throws ArgumentOutOfRange on B-E-G# |
| TrackBuilders.ChordPlanLength | Runtime/CoreScripts/MidiGenerator.cs:49-87 | one action per slot and repetition |
| TrackBuilders.ChordPlanLast | Runtime/CoreScripts/MidiGenerator.cs:49-87 | repetition rep follows the earlier ones slot by slot |
| TrackBuilders.ChordPlanStable | Runtime/CoreScripts/MidiGenerator.cs:49-87 | later repetitions only append |
| TrackBuilders.ChordPlanGrows | Runtime/CoreScripts/MidiGenerator.cs:49-87 | one more repetition keeps every earlier action |
| TrackBuilders.ChordPlanLayout | Runtime/CoreScripts/MidiGenerator.cs:49-87 | slot s of repetition r sits at |plan(r)| + s in the whole plan |
| TrackBuilders.AddChordSlot | Runtime/CoreScripts/MidiGenerator.cs:51-85 | reports whether the voicing passes the range checks, and then appends the slot's action; otherwise nothing is added |
| TrackBuilders.AddNextChordSlot | Runtime/CoreScripts/MidiGenerator.cs:51-85 | one slot further through ChordRep, the range checks passed so far |
| TrackBuilders.AddChordRepetition | Runtime/CoreScripts/MidiGenerator.cs:49-86 | appends one repetition exactly when every slot offers a degree and passes the range checks |
| TrackBuilders.ChordFitsGrow | Runtime/CoreScripts/MidiGenerator.cs:49-87 | a repetition that passes the range checks extends the run of repetitions that do |
| TrackBuilders.PlayChordTemplate | Runtime/CoreScripts/MidiGenerator.cs:43-87 | the nested loops produce ChordActions |
| TrackBuilders.GenerateChordProgressionMidiTrackFile | Runtime/CoreScripts/MidiGenerator.cs:19-99 | a new file delivering ChordTrack |
| TrackBuilders.MelodyDraw | Runtime/CoreScripts/MidiGenerator.cs:247-250 | the degree is one of the slot's options and the octave lies in [octaveMin, octaveMax], or in (octaveMax, octaveMin] when they are swapped |
| TrackBuilders.MelodySlotFacts | Runtime/CoreScripts/MidiGenerator.cs:244-269 | a slot that passes the range checks is skipped exactly when the degree is outside the scale; otherwise it plays that degree's note, a MIDI note in the drawn octave, at the slot's start, rep template lengths later, for its duration and velocity |
| TrackBuilders.LowOctavesMelodyFits | Runtime/CoreScripts/MidiGenerator.cs:239-270 | an instrument whose octaves lie within -1..7 never meets the range failure on a one-octave scale |
| TrackBuilders.MelodyRep | Runtime/CoreScripts/MidiGenerator.cs:244-269 | at most one note per slot |
| TrackBuilders.MelodyRepComplete | Runtime/CoreScripts/MidiGenerator.cs:244-269 | with seven or more scale notes no slot is skipped: a repetition has one note per slot, note s being slot s's note |
| TrackBuilders.MelodyRepLast | Runtime/CoreScripts/MidiGenerator.cs:244-269 | with seven or more scale notes the last slot of a repetition plays, after the slots before it |
| TrackBuilders.MelodyPlanStep | Runtime/CoreScripts/MidiGenerator.cs:239-270 | the plan of reps repetitions is that of one fewer followed by the last |
| TrackBuilders.MelodyFitsGrow | Runtime/CoreScripts/MidiGenerator.cs:239-270 | a repetition that passes the range checks extends the run of repetitions that do |
| TrackBuilders.MelodyPlanComplete | Runtime/CoreScripts/MidiGenerator.cs:239-270 | with seven or more scale notes, one note per slot and repetition |
| TrackBuilders.MelodyActions | Runtime/CoreScripts/MidiGenerator.cs:239-270 | succeeds exactly when nothing is played, or every slot offers a degree and every drawn note passes the range checks; ArgumentOutOfRange otherwise |
| TrackBuilders.MelodyTrack | Runtime/CoreScripts/MidiGenerator.cs:209-284 | NullReference without a template, ArgumentException for Ionian; success exactly when the slots, the drawn notes and the bank name allow; on the channel |
| TrackBuilders.AddMelodySlot | Runtime/CoreScripts/MidiGenerator.cs:244-269 | reports whether GetNoteFromScale succeeds for the draw, and then appends the note when the degree is in the scale; otherwise nothing is added |
| TrackBuilders.AddNextMelodySlot | Runtime/CoreScripts/MidiGenerator.cs:244-269 | one slot further through MelodyRep |
| TrackBuilders.AddMelodyRepetition | Runtime/CoreScripts/MidiGenerator.cs:239-270 | appends one repetition exactly when every slot offers a degree and passes the range checks |
| TrackBuilders.AddNextMelodyRepetition | Runtime/CoreScripts/MidiGenerator.cs:239-270 | one repetition further through MelodyPlan |
| TrackBuilders.AddMelodyRepetitions | Runtime/CoreScripts/MidiGenerator.cs:239-270 | the repetition loop builds MelodyPlan |
| TrackBuilders.PlayMelodyTemplate | Runtime/CoreScripts/MidiGenerator.cs:232-270 | the loops produce MelodyActions |
| TrackBuilders.GenerateMelodyTrackWithPattern | Runtime/CoreScripts/MidiGenerator.cs:209-284 | a new file delivering MelodyTrack |
| TrackBuilders.DrumPlan | Runtime/CoreScripts/MidiGenerator.cs:187-192 | repetition k plays the processed text at k * patternLength * beatsPerBar quarters |
| TrackBuilders.DrumTrack | Runtime/CoreScripts/MidiGenerator.cs:102-206 | NullReference without a template; ArgumentOutOfRange when a template line reaches a percussion note outside 0..127; success exactly with a template, no such line and a parsing bank name; on the channel |
| TrackBuilders.PlayDrumTemplate | Runtime/CoreScripts/MidiGenerator.cs:128-192 | the loop produces DrumPlan |
| TrackBuilders.GenerateRhythmTrackWithPattern | Runtime/CoreScripts/MidiGenerator.cs:102-206 | a new file delivering DrumTrack, or its exception, the percussion range failure included |
| TrackBuilders.MetronomeMeasure | Runtime/CoreScripts/MidiGenerator.cs:300-315 | beatsPerBar quarter notes, a tic on the first beat and a tac on the others |
| TrackBuilders.MetronomePlan | Runtime/CoreScripts/MidiGenerator.cs:300-315 | measures * beatsPerBar notes |
| TrackBuilders.MetronomeClosedForm | Runtime/CoreScripts/MidiGenerator.cs:300-315 | note k is on beat k, a tic exactly when k is a multiple of beatsPerBar |
| TrackBuilders.PlayMetronome | Runtime/CoreScripts/MidiGenerator.cs:297-315 | the nested loops produce MetronomePlan |
| TrackBuilders.GenerateMetronomeTrackFile | Runtime/CoreScripts/MidiGenerator.cs:287-329 | the metronome, finished with bank 128, program 0 and channel 15 |
| TrackBuilders.TrackChunks | Runtime/CoreScripts/MidiGenerator.cs:436-479 | NotSupported for an undeclared role; any success is on the channel |
| TrackBuilders.GenerateTrack | Runtime/CoreScripts/MidiGenerator.cs:436-479 | a new file delivering TrackChunks; InvalidCast for a template of another kind |
| SongGenerator.PartBpm | Runtime/CoreScripts/MidiGenerator.cs:389 | the part's tempo lies in its range's window and is a multiple of ten |
| SongGenerator.TrackOutcomes | Runtime/CoreScripts/MidiGenerator.cs:401-410 | one outcome per track |
| SongGenerator.EntryTempos | Runtime/CoreScripts/MidiGenerator.cs:389 | entry e plays at the tempo drawn for its part at [e] |
| SongGenerator.JoinOutcome | Runtime/CoreScripts/MidiGenerator.cs:401-410 | the join succeeds exactly when every track does, and fails with the first failure |
| SongGenerator.JoinFailureStays | Runtime/CoreScripts/MidiGenerator.cs:401-410 | a failure stops the repetition |
| SongGenerator.EntryRepsFailureStays | Runtime/CoreScripts/MidiGenerator.cs:394-430 | a failure stops the entry |
| SongGenerator.SongUpToStep | Runtime/CoreScripts/MidiGenerator.cs:386-431 | one entry further continues from the song so far |
| SongGenerator.SongUpToFailureStays | Runtime/CoreScripts/MidiGenerator.cs:386-431 | a failure stops the song |
| SongGenerator.AddPartTrack | Runtime/CoreScripts/MidiGenerator.cs:401-410 | track t is generated, shifted to the cursor and its chunks appended, or its exception returned |
| SongGenerator.PlayPartRepetition | Runtime/CoreScripts/MidiGenerator.cs:399-411 | every track of a repetition in order, the song extended by their chunks |
| SongGenerator.CursorAdvance | Runtime/CoreScripts/MidiGenerator.cs:414-425 | the cursor moves by ticksPerQuarter * beatsPerMeasure * measures whatever tempo is drawn |
| SongGenerator.PlayRepetition | Runtime/CoreScripts/MidiGenerator.cs:396-426 | a repetition appends its tracks at the cursor and advances the cursor by the part's length |
| SongGenerator.PlayEntry | Runtime/CoreScripts/MidiGenerator.cs:394-430 | all repetitions of an entry as EntryReps |
| SongGenerator.PlayStructureEntry | Runtime/CoreScripts/MidiGenerator.cs:386-431 | entry e as SongUpTo describes; ArgumentOutOfRange for a part index outside the list |
| SongGenerator.PlayStructure | Runtime/CoreScripts/MidiGenerator.cs:386-431 | every entry in order from tick 0 |
| SongGenerator.GenerateSong | Runtime/CoreScripts/MidiGenerator.cs:381-434 | a new file delivering SongChunks |
| SongGenerator.SongChunks | Runtime/CoreScripts/MidiGenerator.cs:381-434 | an empty structure gives an empty song; a song that succeeds never met an entry naming no part |
| SongGenerator.SongNamesParts | Runtime/CoreScripts/MidiGenerator.cs:386-388 | a song that got through every entry has every part index inside the part list |
| SongGenerator.TrackOnItsChannel | Runtime/CoreScripts/MidiGenerator.cs:402-407 | track t of a part is generated on channel t and shifted by the current cursor |
| SongGenerator.EntryRepsProgress | Runtime/CoreScripts/MidiGenerator.cs:394-430 | repetitions only append chunks, and the cursor moves by count times the part's length |
| SongGenerator.SongUpToLast | Runtime/CoreScripts/MidiGenerator.cs:386-431 | a song that got through m entries got through m - 1 and played entry m - 1's repetitions after them |
| SongGenerator.SongUpToPrefix | Runtime/CoreScripts/MidiGenerator.cs:386-431 | chunks are only appended: the song after n entries is a prefix of the song after m >= n |
| SongGenerator.SongUpToCursor | Runtime/CoreScripts/MidiGenerator.cs:386-431 | the cursor starts at 0 and equals the sum of the played entries' lengths |
| SongGenerator.TrackBuilderBuilds | Runtime/CoreScripts/MidiGenerator.cs:436-496 | GenerateTrack followed by ShiftFile is a track builder |
| GeneratorManager.WithManagerPreamble | Runtime/CoreScripts/MIDIGeneratorManager.cs:56-84 | the preamble with deltas 10, 10, 10 in front of the chunk |
| GeneratorManager.ManagedChunks | Runtime/CoreScripts/MIDIGeneratorManager.cs:56-97 | every chunk gets the preamble and then the channel |
| GeneratorManager.InsertBankAndPreset | Runtime/CoreScripts/MIDIGeneratorManager.cs:56-84 | every chunk of the file gets CC0, CC32 and the program change at positions 0, 1, 2 |
| GeneratorManager.GenerateMidiFile | Runtime/CoreScripts/MIDIGeneratorManager.cs:24-100 | a new file holding ManagedChunks of the rendered pattern |
| GeneratorManager.ManagedTrackLayout | Runtime/CoreScripts/MIDIGeneratorManager.cs:56-97 | a processed chunk starts with the three preamble events at delta 10, all on the channel, and the originals follow in order, 30 ticks later |
| GeneratorManager.ManagedChunksOnChannel | Runtime/CoreScripts/MIDIGeneratorManager.cs:56-97 | every channel event of the result is on the channel, and every chunk starts with the bank selects and the program change |
| GeneratorManager.SaveMidiFile | Runtime/CoreScripts/MIDIGeneratorManager.cs:102-104 | always null, nothing written |
| GeneratorManager.LastIndexOf | Runtime/CoreScripts/MIDIGeneratorManager.cs:123-124 | the last position of the character, or -1 |
| GeneratorManager.FileName | Runtime/CoreScripts/MIDIGeneratorManager.cs:123-124 | the part of the path after its last separator, which holds none |
| GeneratorManager.NameWithoutExtension | Runtime/CoreScripts/MIDIGeneratorManager.cs:123 | the file name up to its last period, or all of it without one; a period in a directory does not count |
| GeneratorManager.Extension | Runtime/CoreScripts/MIDIGeneratorManager.cs:124 | empty exactly when the file name has no period or ends with one; otherwise the file name's last period and what follows |
| GeneratorManager.UniqueFileName | Runtime/CoreScripts/MIDIGeneratorManager.cs:116-132 | begins with the base name and "_", ends with the extension, and holds no separator |
| GeneratorManager.FileNameSplits | Runtime/CoreScripts/MIDIGeneratorManager.cs:123-124 | name without extension plus extension is the file name, after the last separator |
| GeneratorManager.UniqueFileNameShape | Runtime/CoreScripts/MIDIGeneratorManager.cs:123-128 | the digits between base and extension read back as count + 1, and different counts give different names |
| SongPart.Instruments | Runtime/CoreScripts/MIDISongPart.cs:120-125 | the tracks' instruments in order |
| SongPart.FirstDummyFailure | Runtime/CoreScripts/MIDISongPart.cs:120-147 | the first track that fails, and none before it |
| SongPart.DummyNotes | Runtime/CoreScripts/MIDISongPart.cs:150-162 | count NoteOn/NoteOff pairs of key 60 (velocity 1, then 0), every event after the given delta |
| SongPart.DummyChunks | Runtime/CoreScripts/MIDISongPart.cs:115-170 | fails exactly when some track fails; otherwise one chunk per track, chunk i on channel i |
| SongPart.DummyChunksOutcome | Runtime/CoreScripts/MIDISongPart.cs:125-147 | succeeds exactly for no tracks, or a non-zero note count with every bank parsing; a zero count divides by zero |
| SongPart.DummyChunksFail | Runtime/CoreScripts/MIDISongPart.cs:120-165 | the first failing track's exception ends the call |
| SongPart.DummyChunksOk | Runtime/CoreScripts/MIDISongPart.cs:120-165 | the chunks written for all tracks are the result |
| SongPart.DummyChunkLayout | Runtime/CoreScripts/MIDISongPart.cs:124-162 | chunk i starts with track i's bank select and program change on channel i at delta 0, then 2 * count note events, all on channel i |
| SongPart.DummyChunkFacts | Runtime/CoreScripts/MIDISongPart.cs:124-162 | one dummy chunk: the preamble at delta 0, then the notes, all on the channel |
| SongPart.DummyHeadIsPreamble | Runtime/CoreScripts/MIDISongPart.cs:126-142 | for a bank below 16384 the unmasked MSB bank >> 7 equals the generators' masked one |
| SongPart.DummyNotesLength | Runtime/CoreScripts/MIDISongPart.cs:150-162 | the notes take 2 * count * ticksPerNote ticks |
| SongPart.DummyDuration | Runtime/CoreScripts/MIDISongPart.cs:145-162 | the last event sits at 2 * count * (totalTicks / count), at most twice the duration and under 2 * count ticks short of it |
| SongPart.BuildDummyChunk | Runtime/CoreScripts/MIDISongPart.cs:122-162 | the loop builds DummyChunk |
| SongPart.DummyTrackChunk | Runtime/CoreScripts/MIDISongPart.cs:122-162 | the parse error or DivideByZero of one track, or its chunk |
| SongPart.WriteDummyChunks | Runtime/CoreScripts/MIDISongPart.cs:118-166 | the loop appends chunk i on channel i, stopping at the first failure |
| SongPart.MidiSongPart.constructor | Runtime/CoreScripts/MIDISongPart.cs:24-35 | the given name, tempo, tonality and root; no tracks and no files |
| SongPart.MidiSongPart.AddTrack | Runtime/CoreScripts/MIDISongPart.cs:42-45 | the track is appended at the end, nothing else changes |
| SongPart.MidiSongPart.GenerateDummyMidiFile | Runtime/CoreScripts/MIDISongPart.cs:115-170 | a new file delivering DummyChunks, kept in the DummyMidiFile field; nothing else changes |
| SongPart.MidiSongPart.GenerateTracks | Runtime/CoreScripts/MIDISongPart.cs:47-78 | only the tracks' data changes, and on failure the dummy file is kept; succeeds exactly when the chords exist and every bank parses; then track i holds the manager's file on channel i and the dummy file has one note per track; when a bank fails, the tracks before the first failing one hold their files, the rest are unchanged, and the exception is that bank's parse error |
| SongPart.GenerateTrackFiles | Runtime/CoreScripts/MIDISongPart.cs:53-66 | tracks get their files in list order, track i on channel i; on failure exactly the tracks before the first bank that does not parse hold their files, and the exception is that bank's parse error |
| SongPart.TrackFileFor | Runtime/CoreScripts/MIDISongPart.cs:63-72 | the parsed bank and the manager's file on the channel |
| SongPart.TrackFile | Runtime/CoreScripts/MIDISongPart.cs:63-72 | Format or Overflow exactly when the bank name does not parse; otherwise one chunk per rendered chunk, three events longer, starting with the bank selects and the program change, all on the channel |
| SongPart.ChordsAtOctaveFour | Runtime/CoreScripts/MIDISongPart.cs:50 | GetChordsFromTonality at octave 4 succeeds exactly for the tonalities ChordsAvailable admits |
| SongPart.TonalityChordsStep | Runtime/CoreScripts/MIDISongPart.cs:50 | the chord call fails exactly when ChordsAvailable does not hold |
| SongPart.TrackFilesPrefixStep | Runtime/CoreScripts/MIDISongPart.cs:53-66 | one more track with its file extends the loop's state |
| SongPart.SameButDataInstruments | Runtime/CoreScripts/MIDISongPart.cs:53-66 | changing only the tracks' data keeps their instruments |
| SongPart.GetTrackRole | Runtime/CoreScripts/MIDISongPart.cs:179-206 | never Undeclared; a drum kit takes Rhythm when none exists, otherwise a missing Lead then a missing Backing comes first, and only a full set draws among the three |
| SongPart.TrackRoleRepeatsAny | Runtime/CoreScripts/MIDISongPart.cs:198-205 | once every role is taken, each of the three can come next |
| Catalogues.RandomPick | Runtime/CoreScripts/Data/ChordProgressionsList.cs:89-97 | null exactly for an empty list, otherwise a member |
| Catalogues.RandomPickCoversAll | Runtime/CoreScripts/Data/ChordProgressionsList.cs:89-97 | every element is picked by some draw |
| Catalogues.CompletelyRandomProgression | Runtime/CoreScripts/Data/ChordProgressionsList.cs:89-97 | null exactly for an empty list, otherwise a member |
| Catalogues.ProgressionByTimeSignature | Runtime/CoreScripts/Data/ChordProgressionsList.cs:16-30 | a member with the time signature when one exists; otherwise any member; null only for an empty list |
| Catalogues.ProgressionByTonality | Runtime/CoreScripts/Data/ChordProgressionsList.cs:37-50 | a member listing the tonality when one exists; otherwise any member; null only for an empty list |
| Catalogues.ProgressionByTimeSignatureAndTonality | Runtime/CoreScripts/Data/ChordProgressionsList.cs:58-83 | a member matching both when one exists, otherwise one with the time signature when one exists; null only for an empty list |
| Catalogues.CombinedFallsBackToTimeSignature | Runtime/CoreScripts/Data/ChordProgressionsList.cs:66-79 | without a double match the combined query equals the time-signature query, so its tonality fallback never decides |
| Catalogues.CombinedReachesEveryMatch | Runtime/CoreScripts/Data/ChordProgressionsList.cs:58-65 | every double match is returned for some draw |
| Catalogues.DrumPatternByTimeSignature | Runtime/CoreScripts/Data/DrumPatternsList.cs:16-33 | null exactly when no pattern has the time signature; otherwise a member with it |
| Catalogues.MelodyPatternByTimeSignature | Runtime/CoreScripts/Data/MelodyPatternsList.cs:15-32 | null exactly when no pattern has the time signature; otherwise a member with it |
| SoundFonts.FindSoundFont | Runtime/CoreScripts/SoundFontUtility.cs:43 | the first sound font with the name; none exactly when no font has it |
| SoundFonts.FindBank | Runtime/CoreScripts/SoundFontUtility.cs:72 | the first bank with the number; none exactly when no bank has it |
| SoundFonts.GetSoundFontNames | Runtime/CoreScripts/SoundFontUtility.cs:23-35 | the cached names in cache order; empty without a cache |
| SoundFonts.GetBanksForSoundFont | Runtime/CoreScripts/SoundFontUtility.cs:37-59 | the first matching font's bank numbers in order, each formatted "D3"; empty for an unknown font |
| SoundFonts.GetPatchesDataForBank | Runtime/CoreScripts/SoundFontUtility.cs:61-92 | the patches of the first matching bank of the first matching font, in order; empty when either is missing |
| SoundFonts.BankLabelRoundTrip | Runtime/CoreScripts/SoundFontUtility.cs:50 | a bank label parses back to the bank, has at least three characters, and exactly three digits for banks 0 to 999 |
| SoundFonts.BankLabelsDistinct | Runtime/CoreScripts/SoundFontUtility.cs:50 | different banks get different labels |
| Text.IntToString | Samples/GenerateMidiSongPanel.cs:797 | Int32.ToString: the decimal digits, with a minus sign for negatives |
| Text.NatToString | Samples/GenerateMidiSongPanel.cs:797 | digits whose decimal value is the number |
| Text.NatToStringInjective | Samples/GenerateMidiSongPanel.cs:797 | different numbers print differently |
| Text.IntToStringParses | Samples/GenerateMidiSongPanel.cs:760 | a printed integer parses back to itself |
| Text.FormatD | Runtime/CoreScripts/SoundFontUtility.cs:50 | ToString("D3"): at least the width in characters |
| Text.FormatDParses | Runtime/CoreScripts/SoundFontUtility.cs:50 | a zero-padded number parses back to itself |
| Text.Int32TryParse | Samples/GenerateMidiSongPanel.cs:760 | int.TryParse: a value only for an optional sign and digits whose value fits 32 bits |
| Text.Int32Parse | Runtime/CoreScripts/MidiGenerator.cs:200 | int.Parse succeeds exactly when TryParse does, with the same value |
| Text.TrimStart | Samples/GenerateMidiSongPanel.cs:759 | the removed prefix is stripped characters and the rest starts with a kept one |
| Text.TrimEnd | Samples/GenerateMidiSongPanel.cs:759 | the removed suffix is stripped characters and the rest ends with a kept one |
| Text.TrimKeeps | Samples/GenerateMidiSongPanel.cs:759 | trimming a string with no stripped ends leaves it unchanged |
| Text.IndexOf | Runtime/CoreScripts/MidiGenerator.cs:134-135 | the first position of the character, or -1 when it is absent |
| Text.Split | Samples/GenerateMidiSongPanel.cs:756 | at least one part, none holding the separator |
| Text.SplitJoin | Samples/GenerateMidiSongPanel.cs:756-797 | splitting a join of separator-free parts gives the parts back |
| SequenceCodec.PartIndexOf | Samples/GenerateMidiSongPanel.cs:767-778 | a valid part number n gives n - 1; others are clamped into [1, count] first |
| SequenceCodec.TokenEntry | Samples/GenerateMidiSongPanel.cs:759-785 | one entry exactly when the trimmed token is an integer, with repeat count 1 |
| SequenceCodec.TokenEntries | Samples/GenerateMidiSongPanel.cs:757-786 | at most one entry per token, each played once and naming a part |
| SequenceCodec.ParsedStructure | Samples/GenerateMidiSongPanel.cs:743-787 | blank text gives an empty structure; every entry is played once and names a part |
| SequenceCodec.ParseSequence | Samples/GenerateMidiSongPanel.cs:743-787 | the structure is replaced by the parsed entries; the parts are unchanged |
| SequenceCodec.ParseTokens | Samples/GenerateMidiSongPanel.cs:757-786 | the loop collects TokenEntries |
| SequenceCodec.ParseToken | Samples/GenerateMidiSongPanel.cs:759-785 | one loop pass yields TokenEntry |
| SequenceCodec.EntryTexts | Samples/GenerateMidiSongPanel.cs:795-797 | text i is part index i plus one in unchecked 32-bit arithmetic, so int.MaxValue prints as int.MinValue; exactly index plus one whenever that fits an Int32 |
| Text.Wrap32 | Samples/GenerateMidiSongPanel.cs:797 | unchecked int arithmetic: the result is an Int32, congruent to the value modulo 2^32, and equal to it when it fits |
| SequenceCodec.SerializeStructure | Samples/GenerateMidiSongPanel.cs:793-798 | empty for an empty structure; otherwise splitting on commas gives back the entries' texts |
| SequenceCodec.EntryTextsWithoutComma | Samples/GenerateMidiSongPanel.cs:795-797 | no entry text holds a comma |
| SequenceCodec.SerializeParseRoundTrip | Samples/GenerateMidiSongPanel.cs:743-798 | parsing the serialised text of a structure whose indexes name parts gives the same indexes, each with repeat count 1 |
| SequenceCodec.TokenEntriesOfTexts | Samples/GenerateMidiSongPanel.cs:757-797 | each printed part number reads back as its entry |
| SequenceCodec.TokenReadsBack | Samples/GenerateMidiSongPanel.cs:759-785 | a printed valid part number names that part again |
| SongData.SongConfig.constructor | Runtime/CoreScripts/Data/SongConfig.cs:9-12 | a configuration with the given parts and structure |

## Left out

- User interface and editor code are not modelled. This covers the sample
  panel except `ParseSequence` and `SerializeStructure`, the tab buttons, the
  piano keys and the emotion panel. It also covers the playground panel and
  the inspector drawers.
- Playback and binary I/O are not modelled:
  - `MIDIMusicSystem` and `IPlayMidi`;
  - `MidiFile.Write` and `Read`;
  - `MIDITrack.SetMidiData`;
  - `MIDISongPart.GenerateMidiFileFromTracks`;
  - the `MIDISongPart(MidiFile)` constructor and `GetMidiFile`;
  - the directory calls of `GetUniqueFilePathInPersistentDataPath`. Its
    count of matching files is a parameter.
  - The bytes of a Standard MIDI File are written inside the MIDI library,
    which is not part of this model.
- `SoundFontUtility.LoadCache` and `Resources.Load` are not modelled. The
  cache list is a parameter, and None stands for a missing asset.
- The asynchronous refresh of the sound-font cache is a polling loop on an
  external flag. It is not modelled.
- Floating-point values are not modelled: `BeatUnitDuration`,
  `GetPartDuration` and `MIDISong.GetSongDuration`. The dummy file's
  duration is taken in ticks (`totalTicks`). The default half second is 240
  ticks, `DefaultDummyTicks`.
  - `Mathf.CeilToInt((float)measures / patternLength)` is integer ceiling
    division.
- The tick conversions of `TimeConverter` are not modelled. The number of
  ticks per quarter note is a parameter.
- The MIDI library is abstracted:
  - `Pattern.ToFile` is a `render` parameter;
  - `PatternBuilder` records the actions it is given;
  - the PianoRoll grammar, tempo maps and the bytes of the rendered events
    are not interpreted.
- `EnhancedPatternBuilder` is not modelled. It produces the pattern that
  `MIDIGeneratorManager.GenerateMidiFile` renders, and that pattern enters
  as the rendered chunks.
- `EmotionMusicalData` holds asset data without logic and is not modelled.
- The following MusicTheory helpers are not modelled because no modelled
  operation reaches them:
  - `GetTonalitySeventhChords`;
  - `GetNotesFromTonality`;
  - `GetOctaveFromScale`;
  - `GetRandomNote` and `ChooseFromEnumUniform`;
  - `GetChordFromString` and `GetChordFromQuality`.
- Randomness is an explicit seed, or an oracle of seeds, for every draw.
  Every value the source can draw is reachable.
- The seven-bit and four-bit casts are library conversions that throw on
  values out of range. The model takes them as preconditions:
  - channel < 16 and a program in 0..127 (`SongPart.TrackFile` asks for a
    patch index that is not negative);
  - at most sixteen tracks in a part or song part;
  - chord and melody velocities below 128;
  - for the dummy file, banks in 0..16383, because its MSB is not masked.
  - Template lengths are positive, which the float ceiling needs.
- `MIDITrack` and the configuration records are values. The model does not
  capture aliasing between tracks shared by several parts.
- Trim and blank tests treat the ASCII white-space characters as white
  space. The full Unicode set of `char.IsWhiteSpace` is not modelled.
- Debug logging is not modelled.
- The catalogues are values. Their queries never modify them.
- Two branches of the source are unreachable:
  - The `ArgumentException` of `GetTimeSignatureDetails` for a signature
    missing from the table cannot occur, because every declared signature
    has an entry. `TimeSignatures.BeatsPerMeasure` therefore has no error
    case.
  - The `?? 4` fallback for a missing chord template in
    `GenerateChordProgressionMidiTrackFile` cannot occur. An earlier line
    already dereferences the template, so a missing template is
    NullReference.
- The unknown-rule and unknown-range exceptions of `GetBPMFromRange` cannot
  occur, because both enums are closed.
- The sound-font cache entries keep only the fields the getters read: the
  names, the bank numbers and the patches.
- `ScaleUtilities.GetAscendingNotes` on a scale without intervals (line 140
  of `MusicTheory.cs`) is taken to return an empty list. Its enumeration
  over an empty interval list is not part of this model. So
  `NotesFromScale` then fails only on the division by zero of line 146 and
  succeeds for a count of zero or less.
- SongData.ChordData: startMeasure, startBeat, durationBeats and velocity
  are `nat`, where the templates hold C# `int`. A negative value makes
  `MusicalTimeSpan` multiplication or the seven-bit cast throw, and that
  error path is not modelled.
- SongData.MelodyNoteData: the same four fields are `nat` for the same
  reason.
- TrackBuilders.ChordSlotAction, TrackBuilders.MelodySlotAction: the slot
  start times are unbounded integers. C#'s unchecked 32-bit wrap-around of
  `(startMeasure + repeat * patternLength) * beatsPerBar` (lines 66-68 of
  `MidiGenerator.cs`) and of `startMeasure * beatsPerBar + measureOffset`
  (lines 261-264) is not modelled. SequenceCodec.EntryTexts does model the
  wrap of its `PartIndex + 1`.
- SongData.DrumPatternData: velocity is `nat`. No generator reads this
  field, so it has no cast and no error path to model.
- SongGenerator.GenerateSong: requires `SongReady`, and so through
  `PartReady` a part length that is not negative. With a negative
  `Measures` the source moves the tick cursor backwards, and `ShiftFile`
  would then give later events negative times, which DryWetMidi refuses.
  That path is not modelled. `SongGenerator.SongChunks` has the same
  precondition.
- GeneratorManager.FileName: only '/' separates directories, as on Unix.
  The Windows separators '\\' and ':' are not modelled.
