/** The track builders of the generator: a chord progression, a melody or a
    drum pattern repeated over a song part, the metronome, and the dispatch
    on a track's role. Each builder drives a PatternBuilder, renders it with
    the MIDI library (a parameter here), and finishes the file with the
    instrument's bank and program on the track's channel. Random draws come
    from an oracle, slot `slot` of repetition `rep` drawing at [rep, slot, 0]
    and [rep, slot, 1]. */
module TrackBuilders {
  import opened Outcomes
  import opened Arithmetic
  import opened Text
  import opened Tonalities
  import opened TimeSignatures
  import opened MusicTheory
  import opened UnityMath
  import opened Midi
  import opened Percussion
  import opened SongData
  import opened Patterns
  import opened DrumLines
  import opened TrackEdits

  // ---------------------------------------------------------------------------
  // Chord voicing

  /** The notes GetPlayableChordNotes computes from a drawn octave: the chord
      resolved upwards from a random octave of [octaveMin - 1, octaveMax - 1],
      every note then clamped into that range; the library's range checks
      are left to PlayableChordNotes. */
  function ChordVoicing(chord: Chord, octaveMin: int, octaveMax: int, seed: nat): (notes: seq<Note>)
    requires |chord.noteNames| > 0
    ensures |notes| == |chord.noteNames|
    ensures forall i :: 0 <= i < |notes| ==> notes[i].name == chord.noteNames[i]
    ensures octaveMin <= octaveMax ==>
      forall i :: 0 <= i < |notes| ==> octaveMin - 1 <= notes[i].octave <= octaveMax - 1
  {
    var minOct, maxOct := octaveMin - 1, octaveMax - 1;
    var raw := ResolveNotes(chord, Range(minOct, maxOct + 1, seed));
    seq(|raw|, i requires 0 <= i < |raw| => Note(raw[i].name, Clamp(raw[i].octave, minOct, maxOct)))
  }

  /** The library accepts the voicing: Octave.Get takes the drawn octave
      (-1 to 9), Chord.ResolveNotes keeps every note in the MIDI range, and so
      does Note.Get for every clamped note. */
  predicate VoicingFits(chord: Chord, octaveMin: int, octaveMax: int, seed: nat)
    requires |chord.noteNames| > 0
  {
    var startOctave := Range(octaveMin - 1, octaveMax, seed);
    var raw := ResolveNotes(chord, startOctave);
    var notes := ChordVoicing(chord, octaveMin, octaveMax, seed);
    -1 <= startOctave <= 9 &&
    (forall i :: 0 <= i < |raw| ==> InMidiRange(raw[i])) &&
    (forall i :: 0 <= i < |notes| ==> InMidiRange(notes[i]))
  }

  /** GetPlayableChordNotes: ArgumentOutOfRange when the drawn octave or a
      note of the voicing leaves the library's range, otherwise the voiced
      chord: its names in order, in the instrument's octaves shifted one
      down, every note a MIDI note. */
  function PlayableChordNotes(chord: Chord, octaveMin: int, octaveMax: int, seed: nat): (r: Result<seq<Note>>)
    requires |chord.noteNames| > 0
    ensures r.Fail? <==> !VoicingFits(chord, octaveMin, octaveMax, seed)
    ensures r.Fail? ==> r.error == ArgumentOutOfRange
    ensures r.Ok? ==>
      |r.value| == |chord.noteNames| &&
      (forall i :: 0 <= i < |r.value| ==> r.value[i].name == chord.noteNames[i] && InMidiRange(r.value[i])) &&
      (octaveMin <= octaveMax ==>
         forall i :: 0 <= i < |r.value| ==> octaveMin - 1 <= r.value[i].octave <= octaveMax - 1)
  {
    if !VoicingFits(chord, octaveMin, octaveMax, seed) then Fail(ArgumentOutOfRange)
    else Ok(ChordVoicing(chord, octaveMin, octaveMax, seed))
  }

  // ---------------------------------------------------------------------------
  // Rendering and finishing

  /** The file of a builder's actions: rendered at the tempo, the bank parsed
      from its name (Format or Overflow when it is not a 32-bit integer), the
      bank and patch events added and the channel set. */
  function Finished(actions: seq<PatternAction>, bpm: int, render: Renderer, bankName: string,
                    preset: nat, channel: nat): (r: Result<seq<Chunk>>)
    ensures r.Ok? <==> Int32TryParse(bankName).Some?
    ensures r.Fail? ==> r.error == Format || r.error == Overflow
    ensures r.Ok? ==> |r.value| == |render(actions, bpm)| && OnChannel(r.value, channel)
  {
    var bank :- Int32Parse(bankName);
    FinishTrackOnChannel(render(actions, bpm), bank, preset, channel);
    Ok(FinishTrack(render(actions, bpm), bank, preset, channel))
  }

  method RenderAndFinish(actions: seq<PatternAction>, bpm: int, render: Renderer, bankName: string,
                         preset: nat, channel: nat) returns (r: Result<MidiFile>)
    requires preset < 128 && channel < 16
    ensures Delivers(r, Finished(actions, bpm, render, bankName, preset, channel))
    ensures r.Ok? ==> fresh(r.value)
  {
    var file := new MidiFile.FromChunks(render(actions, bpm));
    var bank :- Int32Parse(bankName);
    FinishFile(file, bank, preset, channel);
    return Ok(file);
  }

  // ---------------------------------------------------------------------------
  // Chord progressions

  /** Every scale degree has a chord, and every chord has a note. */
  predicate DegreeChords(byDegree: map<ScaleDegree, Chord>) {
    forall d: ScaleDegree :: d in byDegree && |byDegree[d].noteNames| > 0
  }

  /** A template the builder can play: a positive length, and velocities
      that fit a SevenBitNumber. */
  predicate ChordTemplateReady(p: ChordProgressionData) {
    p.measures > 0 && forall i :: 0 <= i < |p.chords| ==> p.chords[i].velocity < 128
  }

  /** Every one of the first `count` slots offers a degree to draw from. */
  predicate ChordSlotsOffer(p: ChordProgressionData, count: nat) {
    count <= |p.chords| && forall i :: 0 <= i < count ==> |p.chords[i].possibleDegrees| > 0
  }

  /** The degree slot `slot` of repetition `rep` draws. */
  function ChordDegree(p: ChordProgressionData, rep: nat, slot: nat, oracle: Oracle): (d: ScaleDegree)
    requires slot < |p.chords| && |p.chords[slot].possibleDegrees| > 0
    ensures d in p.chords[slot].possibleDegrees
  {
    var options := p.chords[slot].possibleDegrees;
    options[Range(0, |options|, oracle([rep, slot, 0]))]
  }

  /** The chord slot `slot` of repetition `rep` plays: the drawn degree's
      chord, voiced for the instrument, at the slot's start moved by `rep`
      template lengths. */
  function ChordSlotAction(p: ChordProgressionData, byDegree: map<ScaleDegree, Chord>, instrument: Instrument,
                           bpb: nat, rep: nat, slot: nat, oracle: Oracle): PatternAction
    requires DegreeChords(byDegree)
    requires slot < |p.chords| && |p.chords[slot].possibleDegrees| > 0
  {
    var data := p.chords[slot];
    var chord := byDegree[ChordDegree(p, rep, slot, oracle)];
    ChordAction((data.startMeasure + rep * p.measures) * bpb + data.startBeat,
                ChordVoicing(chord, instrument.octaveMin, instrument.octaveMax, oracle([rep, slot, 1])),
                data.durationBeats, Some(data.velocity))
  }

  /** The voicing slot `slot` of repetition `rep` draws passes the library's
      range checks. */
  predicate ChordSlotFits(p: ChordProgressionData, byDegree: map<ScaleDegree, Chord>, instrument: Instrument,
                          rep: nat, slot: nat, oracle: Oracle)
    requires DegreeChords(byDegree)
    requires slot < |p.chords| && |p.chords[slot].possibleDegrees| > 0
  {
    VoicingFits(byDegree[ChordDegree(p, rep, slot, oracle)], instrument.octaveMin, instrument.octaveMax,
                oracle([rep, slot, 1]))
  }

  /** The first `count` slots of repetition `rep` pass the range checks. */
  predicate ChordRepFits(p: ChordProgressionData, byDegree: map<ScaleDegree, Chord>, instrument: Instrument,
                         rep: nat, count: nat, oracle: Oracle)
    requires DegreeChords(byDegree) && ChordSlotsOffer(p, count)
  {
    forall slot: nat :: slot < count ==> ChordSlotFits(p, byDegree, instrument, rep, slot, oracle)
  }

  /** The first `reps` repetitions can be played: every slot offers a degree
      and every voicing passes the range checks. */
  predicate ChordFits(p: ChordProgressionData, byDegree: map<ScaleDegree, Chord>, instrument: Instrument,
                      reps: nat, oracle: Oracle)
    requires DegreeChords(byDegree)
  {
    ChordSlotsOffer(p, |p.chords|) &&
    forall rep: nat :: rep < reps ==> ChordRepFits(p, byDegree, instrument, rep, |p.chords|, oracle)
  }

  /** The first `count` slots of repetition `rep`. */
  function ChordRep(p: ChordProgressionData, byDegree: map<ScaleDegree, Chord>, instrument: Instrument,
                    bpb: nat, rep: nat, count: nat, oracle: Oracle): (r: seq<PatternAction>)
    requires DegreeChords(byDegree) && ChordSlotsOffer(p, count)
    ensures |r| == count
  {
    seq(count, slot requires 0 <= slot < count => ChordSlotAction(p, byDegree, instrument, bpb, rep, slot, oracle))
  }

  /** The actions of `reps` whole repetitions, in the order they are added. */
  function ChordPlan(p: ChordProgressionData, byDegree: map<ScaleDegree, Chord>, instrument: Instrument,
                     bpb: nat, reps: nat, oracle: Oracle): (r: seq<PatternAction>)
    requires DegreeChords(byDegree) && (reps > 0 ==> ChordSlotsOffer(p, |p.chords|))
  {
    if reps == 0 then []
    else ChordPlan(p, byDegree, instrument, bpb, reps - 1, oracle)
         + ChordRep(p, byDegree, instrument, bpb, reps - 1, |p.chords|, oracle)
  }

  /** The actions of `reps` repetitions, or ArgumentOutOfRange when the
      template is played at all and a slot offers no degree or a voicing
      leaves the MIDI range. */
  function ChordActions(p: ChordProgressionData, byDegree: map<ScaleDegree, Chord>, instrument: Instrument,
                        bpb: nat, reps: int, oracle: Oracle): (r: Result<seq<PatternAction>>)
    requires DegreeChords(byDegree)
    ensures r.Ok? <==> reps <= 0 || ChordFits(p, byDegree, instrument, reps, oracle)
    ensures r.Fail? ==> r.error == ArgumentOutOfRange
  {
    if reps <= 0 then Ok([])
    else if !ChordFits(p, byDegree, instrument, reps, oracle) then Fail(ArgumentOutOfRange)
    else Ok(ChordPlan(p, byDegree, instrument, bpb, reps, oracle))
  }

  /** The chords GetTonalityDiatonicTriads and GetChordsDegreeDictionary give
      the degrees of a tonality of at least seven intervals. */
  function DegreeTriads(tonality: Tonality, root: PitchClass): (byDegree: map<ScaleDegree, Chord>)
    requires tonality != Ionian && |TonalityIntervals(tonality).value| >= 7
    ensures DegreeChords(byDegree)
  {
    GetChordsDegreeDictionary(TonalityChordList(tonality, root, TriadSteps).value).value
  }

  /** The chunks GenerateChordProgressionMidiTrackFile returns, or the
      exception it throws: NullReference without a template,
      ArgumentException for Ionian, ArgumentOutOfRange for a tonality of
      fewer than seven chords, a slot without degrees or a voicing outside
      the MIDI range, Format or Overflow for a bank name that is not a
      32-bit integer. */
  function ChordTrack(instrument: Instrument, tonality: Tonality, root: PitchClass, bpm: int, ts: TimeSignature,
                      measures: int, channel: nat, progression: Option<ChordProgressionData>,
                      oracle: Oracle, render: Renderer): (r: Result<seq<Chunk>>)
    requires 0 <= instrument.patchIndex && (progression.Some? ==> progression.value.measures > 0)
    ensures progression.None? ==> r == Fail(NullReference)
    ensures progression.Some? && tonality == Ionian ==> r == Fail(ArgumentException)
    ensures progression.Some? && tonality != Ionian && |TonalityIntervals(tonality).value| < 7 ==>
      r == Fail(ArgumentOutOfRange)
    ensures r.Ok? <==>
      progression.Some? && tonality != Ionian && |TonalityIntervals(tonality).value| >= 7 &&
      (var reps := CeilDiv(measures, progression.value.measures);
       reps > 0 ==> ChordFits(progression.value, DegreeTriads(tonality, root), instrument, reps, oracle)) &&
      Int32TryParse(instrument.bankName).Some?
    ensures r.Ok? ==> OnChannel(r.value, channel)
  {
    if progression.None? then Fail(NullReference)
    else
      var chords :- TonalityChordList(tonality, root, TriadSteps);
      var byDegree :- GetChordsDegreeDictionary(chords);
      var p := progression.value;
      var actions :- ChordActions(p, byDegree, instrument, BeatsPerMeasure(ts, bpm), CeilDiv(measures, p.measures), oracle);
      Finished(actions, bpm, render, instrument.bankName, instrument.patchIndex, channel)
  }

  /** One slot: draw a degree and an octave, move to the slot's start and
      add the voiced chord; false, with nothing added, when the voicing
      leaves the MIDI range. */
  method AddChordSlot(builder: PatternBuilder, p: ChordProgressionData, byDegree: map<ScaleDegree, Chord>,
                      instrument: Instrument, beatsPerBar: nat, rep: nat, slot: nat, oracle: Oracle)
    returns (ok: bool)
    requires DegreeChords(byDegree)
    requires slot < |p.chords| && |p.chords[slot].possibleDegrees| > 0
    modifies builder
    ensures ok == ChordSlotFits(p, byDegree, instrument, rep, slot, oracle)
    ensures ok ==> builder.actions == old(builder.actions) + [ChordSlotAction(p, byDegree, instrument, beatsPerBar, rep, slot, oracle)]
    ensures !ok ==> builder.actions == old(builder.actions)
  {
    var data := p.chords[slot];
    var selected := byDegree[data.possibleDegrees[Range(0, |data.possibleDegrees|, oracle([rep, slot, 0]))]];
    var startTime := (data.startMeasure + rep * p.measures) * beatsPerBar + data.startBeat;
    var playable := PlayableChordNotes(selected, instrument.octaveMin, instrument.octaveMax, oracle([rep, slot, 1]));
    if playable.Fail? {
      return false;
    }
    builder.MoveToTime(startTime);
    builder.AddChord(playable.value, data.durationBeats, Some(data.velocity));
    return true;
  }

  /** Slot `slot` after the slots before it in repetition `rep`. */
  method AddNextChordSlot(builder: PatternBuilder, p: ChordProgressionData, byDegree: map<ScaleDegree, Chord>,
                          instrument: Instrument, beatsPerBar: nat, rep: nat, slot: nat, oracle: Oracle,
                          ghost before: seq<PatternAction>)
    returns (ok: bool)
    requires DegreeChords(byDegree)
    requires ChordSlotsOffer(p, slot + 1) && ChordRepFits(p, byDegree, instrument, rep, slot, oracle)
    requires builder.actions == before + ChordRep(p, byDegree, instrument, beatsPerBar, rep, slot, oracle)
    modifies builder
    ensures ok == ChordSlotFits(p, byDegree, instrument, rep, slot, oracle)
    ensures ok ==>
      ChordRepFits(p, byDegree, instrument, rep, slot + 1, oracle) &&
      builder.actions == before + ChordRep(p, byDegree, instrument, beatsPerBar, rep, slot + 1, oracle)
  {
    ok := AddChordSlot(builder, p, byDegree, instrument, beatsPerBar, rep, slot, oracle);
    assert ChordRep(p, byDegree, instrument, beatsPerBar, rep, slot + 1, oracle)
        == ChordRep(p, byDegree, instrument, beatsPerBar, rep, slot, oracle)
           + [ChordSlotAction(p, byDegree, instrument, beatsPerBar, rep, slot, oracle)];
  }

  /** One repetition of the template, slot by slot; false at the first slot
      without degrees or with a voicing outside the MIDI range. */
  method AddChordRepetition(builder: PatternBuilder, p: ChordProgressionData, byDegree: map<ScaleDegree, Chord>,
                            instrument: Instrument, beatsPerBar: nat, rep: nat, oracle: Oracle) returns (ok: bool)
    requires DegreeChords(byDegree)
    modifies builder
    ensures ok == (ChordSlotsOffer(p, |p.chords|) && ChordRepFits(p, byDegree, instrument, rep, |p.chords|, oracle))
    ensures ok ==> builder.actions == old(builder.actions) + ChordRep(p, byDegree, instrument, beatsPerBar, rep, |p.chords|, oracle)
  {
    ghost var before := builder.actions;
    var slot := 0;
    while slot < |p.chords|
      invariant 0 <= slot <= |p.chords|
      invariant ChordSlotsOffer(p, slot) && ChordRepFits(p, byDegree, instrument, rep, slot, oracle)
      invariant builder.actions == before + ChordRep(p, byDegree, instrument, beatsPerBar, rep, slot, oracle)
    {
      if |p.chords[slot].possibleDegrees| == 0 {
        assert !ChordSlotsOffer(p, |p.chords|);
        return false;
      }
      assert ChordSlotsOffer(p, slot + 1);
      var added := AddNextChordSlot(builder, p, byDegree, instrument, beatsPerBar, rep, slot, oracle, before);
      if !added {
        assert !ChordSlotsOffer(p, |p.chords|) ||
               !ChordRepFits(p, byDegree, instrument, rep, |p.chords|, oracle);
        return false;
      }
      slot := slot + 1;
    }
    return true;
  }

  /** The repetitions of the template on a new builder, in order. */
  method PlayChordTemplate(p: ChordProgressionData, byDegree: map<ScaleDegree, Chord>, instrument: Instrument,
                           beatsPerBar: nat, numRepeats: int, oracle: Oracle) returns (r: Result<seq<PatternAction>>)
    requires DegreeChords(byDegree)
    ensures r == ChordActions(p, byDegree, instrument, beatsPerBar, numRepeats, oracle)
  {
    var builder := new PatternBuilder();
    var rep := 0;
    while rep < numRepeats
      invariant 0 <= rep <= (if numRepeats > 0 then numRepeats else 0)
      invariant rep > 0 ==> ChordFits(p, byDegree, instrument, rep, oracle)
      invariant builder.actions == ChordPlan(p, byDegree, instrument, beatsPerBar, rep, oracle)
    {
      var ok := AddChordRepetition(builder, p, byDegree, instrument, beatsPerBar, rep, oracle);
      if !ok {
        assert !ChordFits(p, byDegree, instrument, numRepeats, oracle);
        return Fail(ArgumentOutOfRange);
      }
      ChordFitsGrow(p, byDegree, instrument, rep, oracle);
      assert ChordPlan(p, byDegree, instrument, beatsPerBar, rep + 1, oracle)
          == ChordPlan(p, byDegree, instrument, beatsPerBar, rep, oracle)
             + ChordRep(p, byDegree, instrument, beatsPerBar, rep, |p.chords|, oracle);
      rep := rep + 1;
    }
    return Ok(builder.actions);
  }

  method GenerateChordProgressionMidiTrackFile(instrument: Instrument, tonality: Tonality, root: PitchClass, bpm: int,
                                               ts: TimeSignature, measures: int, channel: nat,
                                               progression: Option<ChordProgressionData>,
                                               oracle: Oracle, render: Renderer) returns (r: Result<MidiFile>)
    requires channel < 16 && 0 <= instrument.patchIndex < 128
    requires progression.Some? ==> ChordTemplateReady(progression.value)
    ensures Delivers(r, ChordTrack(instrument, tonality, root, bpm, ts, measures, channel, progression, oracle, render))
    ensures r.Ok? ==> fresh(r.value)
  {
    if progression.None? {
      return Fail(NullReference);
    }
    var p := progression.value;
    var chords :- GetTonalityChords(tonality, root, TriadSteps);
    var byDegree :- GetChordsDegreeDictionary(chords);
    var beatsPerBar := BeatsPerMeasure(ts, bpm);
    var numRepeats := CeilDiv(measures, p.measures);
    var actions :- PlayChordTemplate(p, byDegree, instrument, beatsPerBar, numRepeats, oracle);
    assert ChordTrack(instrument, tonality, root, bpm, ts, measures, channel, progression, oracle, render)
        == Finished(actions, bpm, render, instrument.bankName, instrument.patchIndex, channel);
    r := RenderAndFinish(actions, bpm, render, instrument.bankName, instrument.patchIndex, channel);
  }

  // ---------------------------------------------------------------------------
  // Melodies

  predicate MelodyTemplateReady(m: MelodyPatternData) {
    m.measures > 0 && forall i :: 0 <= i < |m.melodyNotes| ==> m.melodyNotes[i].velocity < 128
  }

  predicate MelodySlotsOffer(m: MelodyPatternData, count: nat) {
    count <= |m.melodyNotes| && forall i :: 0 <= i < count ==> |m.melodyNotes[i].possibleDegrees| > 0
  }

  /** The degree and the octave slot `slot` of repetition `rep` draws. */
  function MelodyDraw(m: MelodyPatternData, instrument: Instrument, rep: nat, slot: nat, oracle: Oracle): (r: (ScaleDegree, int))
    requires slot < |m.melodyNotes| && |m.melodyNotes[slot].possibleDegrees| > 0
    ensures r.0 in m.melodyNotes[slot].possibleDegrees
    ensures instrument.octaveMin <= instrument.octaveMax ==> instrument.octaveMin <= r.1 <= instrument.octaveMax
    ensures instrument.octaveMin > instrument.octaveMax ==> instrument.octaveMax < r.1 <= instrument.octaveMin
  {
    var options := m.melodyNotes[slot].possibleDegrees;
    (options[Range(0, |options|, oracle([rep, slot, 0]))],
     Range(instrument.octaveMin, instrument.octaveMax + 1, oracle([rep, slot, 1])))
  }

  /** GetNoteFromScale does not throw for the draw of slot `slot` in
      repetition `rep`. */
  predicate MelodySlotFits(m: MelodyPatternData, scale: Scale, root: PitchClass, instrument: Instrument,
                           rep: nat, slot: nat, oracle: Oracle)
    requires slot < |m.melodyNotes| && |m.melodyNotes[slot].possibleDegrees| > 0
  {
    var draw := MelodyDraw(m, instrument, rep, slot, oracle);
    GetNoteFromScale(scale, draw.0, root, draw.1).Ok?
  }

  /** The first `count` slots of repetition `rep` pass the range checks. */
  predicate MelodyRepFits(m: MelodyPatternData, scale: Scale, root: PitchClass, instrument: Instrument,
                          rep: nat, count: nat, oracle: Oracle)
    requires MelodySlotsOffer(m, count)
  {
    forall slot: nat :: slot < count ==> MelodySlotFits(m, scale, root, instrument, rep, slot, oracle)
  }

  /** The first `reps` repetitions can be played: every slot offers a degree
      and every drawn note passes the range checks. */
  predicate MelodyFits(m: MelodyPatternData, scale: Scale, root: PitchClass, instrument: Instrument,
                       reps: nat, oracle: Oracle)
  {
    MelodySlotsOffer(m, |m.melodyNotes|) &&
    forall rep: nat :: rep < reps ==> MelodyRepFits(m, scale, root, instrument, rep, |m.melodyNotes|, oracle)
  }

  /** The note slot `slot` of repetition `rep` plays, or None when the drawn
      degree is outside the scale (the slot is skipped). */
  function MelodySlotAction(m: MelodyPatternData, scale: Scale, root: PitchClass, instrument: Instrument,
                            bpb: nat, rep: nat, slot: nat, oracle: Oracle): Option<PatternAction>
    requires slot < |m.melodyNotes| && |m.melodyNotes[slot].possibleDegrees| > 0
    requires MelodySlotFits(m, scale, root, instrument, rep, slot, oracle)
  {
    var data := m.melodyNotes[slot];
    var (degree, octave) := MelodyDraw(m, instrument, rep, slot, oracle);
    match GetNoteFromScale(scale, degree, root, octave).value
    case None => None
    case Some(note) =>
      Some(NoteAction(data.startMeasure * bpb + rep * m.measures * bpb + data.startBeat,
                      note, data.durationBeats, Some(data.velocity)))
  }

  /** The notes the first `count` slots of repetition `rep` add. */
  function MelodyRep(m: MelodyPatternData, scale: Scale, root: PitchClass, instrument: Instrument,
                     bpb: nat, rep: nat, count: nat, oracle: Oracle): (r: seq<PatternAction>)
    requires MelodySlotsOffer(m, count) && MelodyRepFits(m, scale, root, instrument, rep, count, oracle)
    ensures |r| <= count
  {
    if count == 0 then []
    else
      var before := MelodyRep(m, scale, root, instrument, bpb, rep, count - 1, oracle);
      match MelodySlotAction(m, scale, root, instrument, bpb, rep, count - 1, oracle)
      case None => before
      case Some(a) => before + [a]
  }

  function MelodyPlan(m: MelodyPatternData, scale: Scale, root: PitchClass, instrument: Instrument,
                      bpb: nat, reps: nat, oracle: Oracle): (r: seq<PatternAction>)
    requires reps > 0 ==> MelodyFits(m, scale, root, instrument, reps, oracle)
  {
    if reps == 0 then []
    else MelodyPlan(m, scale, root, instrument, bpb, reps - 1, oracle)
         + MelodyRep(m, scale, root, instrument, bpb, reps - 1, |m.melodyNotes|, oracle)
  }

  /** The actions of `reps` repetitions, or ArgumentOutOfRange when the
      template is played at all and a slot offers no degree or a drawn note
      leaves the MIDI range. */
  function MelodyActions(m: MelodyPatternData, scale: Scale, root: PitchClass, instrument: Instrument,
                         bpb: nat, reps: int, oracle: Oracle): (r: Result<seq<PatternAction>>)
    ensures r.Ok? <==> reps <= 0 || MelodyFits(m, scale, root, instrument, reps, oracle)
    ensures r.Fail? ==> r.error == ArgumentOutOfRange
  {
    if reps <= 0 then Ok([])
    else if !MelodyFits(m, scale, root, instrument, reps, oracle) then Fail(ArgumentOutOfRange)
    else Ok(MelodyPlan(m, scale, root, instrument, bpb, reps, oracle))
  }

  /** The chunks GenerateMelodyTrackWithPattern returns, or the exception it
      throws: NullReference without a template, ArgumentException for Ionian,
      ArgumentOutOfRange for a slot without degrees or a note outside the
      MIDI range, Format or Overflow for a bank name that is not a 32-bit
      integer. */
  function MelodyTrack(instrument: Instrument, pattern: Option<MelodyPatternData>, tonality: Tonality,
                       root: PitchClass, bpm: int, ts: TimeSignature, measures: int, channel: nat,
                       oracle: Oracle, render: Renderer): (r: Result<seq<Chunk>>)
    requires 0 <= instrument.patchIndex && (pattern.Some? ==> pattern.value.measures > 0)
    ensures pattern.None? ==> r == Fail(NullReference)
    ensures pattern.Some? && tonality == Ionian ==> r == Fail(ArgumentException)
    ensures r.Ok? <==>
      pattern.Some? && tonality != Ionian &&
      (var reps := CeilDiv(measures, pattern.value.measures);
       reps > 0 ==> MelodyFits(pattern.value, GetScaleFromTonality(tonality, root).value, root, instrument, reps, oracle)) &&
      Int32TryParse(instrument.bankName).Some?
    ensures r.Ok? ==> OnChannel(r.value, channel)
  {
    if pattern.None? then Fail(NullReference)
    else
      var scale :- GetScaleFromTonality(tonality, root);
      var m := pattern.value;
      var actions :- MelodyActions(m, scale, root, instrument, BeatsPerMeasure(ts, bpm), CeilDiv(measures, m.measures), oracle);
      Finished(actions, bpm, render, instrument.bankName, instrument.patchIndex, channel)
  }

  /** One slot: draw a degree and an octave; when the degree is in the
      scale, move to the slot's start and add the note; false, with nothing
      added, when GetNoteFromScale throws. */
  method AddMelodySlot(builder: PatternBuilder, m: MelodyPatternData, scale: Scale, root: PitchClass,
                       instrument: Instrument, beatsPerBar: nat, rep: nat, slot: nat, oracle: Oracle)
    returns (ok: bool)
    requires slot < |m.melodyNotes| && |m.melodyNotes[slot].possibleDegrees| > 0
    modifies builder
    ensures ok == MelodySlotFits(m, scale, root, instrument, rep, slot, oracle)
    ensures ok ==>
      builder.actions == old(builder.actions) +
        match MelodySlotAction(m, scale, root, instrument, beatsPerBar, rep, slot, oracle)
        case None => []
        case Some(a) => [a]
    ensures !ok ==> builder.actions == old(builder.actions)
  {
    var measureOffset := rep * m.measures * beatsPerBar;
    var data := m.melodyNotes[slot];
    var selected := data.possibleDegrees[Range(0, |data.possibleDegrees|, oracle([rep, slot, 0]))];
    var octave := Range(instrument.octaveMin, instrument.octaveMax + 1, oracle([rep, slot, 1]));
    var note := GetNoteFromScale(scale, selected, root, octave);
    if note.Fail? {
      return false;
    }
    if note.value.Some? {
      builder.MoveToTime(data.startMeasure * beatsPerBar + measureOffset + data.startBeat);
      builder.AddNote(note.value.value, data.durationBeats, Some(data.velocity));
    }
    return true;
  }

  /** Slot `slot` after the slots before it in repetition `rep`. */
  method AddNextMelodySlot(builder: PatternBuilder, m: MelodyPatternData, scale: Scale, root: PitchClass,
                           instrument: Instrument, beatsPerBar: nat, rep: nat, slot: nat, oracle: Oracle,
                           ghost before: seq<PatternAction>)
    returns (ok: bool)
    requires MelodySlotsOffer(m, slot + 1) && MelodyRepFits(m, scale, root, instrument, rep, slot, oracle)
    requires builder.actions == before + MelodyRep(m, scale, root, instrument, beatsPerBar, rep, slot, oracle)
    modifies builder
    ensures ok == MelodySlotFits(m, scale, root, instrument, rep, slot, oracle)
    ensures ok ==>
      MelodyRepFits(m, scale, root, instrument, rep, slot + 1, oracle) &&
      builder.actions == before + MelodyRep(m, scale, root, instrument, beatsPerBar, rep, slot + 1, oracle)
  {
    ok := AddMelodySlot(builder, m, scale, root, instrument, beatsPerBar, rep, slot, oracle);
  }

  /** One repetition of the template, slot by slot; false at the first slot
      without degrees or whose note leaves the MIDI range. */
  method AddMelodyRepetition(builder: PatternBuilder, m: MelodyPatternData, scale: Scale, root: PitchClass,
                             instrument: Instrument, beatsPerBar: nat, rep: nat, oracle: Oracle) returns (ok: bool)
    modifies builder
    ensures ok == (MelodySlotsOffer(m, |m.melodyNotes|) &&
                   MelodyRepFits(m, scale, root, instrument, rep, |m.melodyNotes|, oracle))
    ensures ok ==> builder.actions == old(builder.actions) + MelodyRep(m, scale, root, instrument, beatsPerBar, rep, |m.melodyNotes|, oracle)
  {
    ghost var before := builder.actions;
    var slot := 0;
    while slot < |m.melodyNotes|
      invariant 0 <= slot <= |m.melodyNotes|
      invariant MelodySlotsOffer(m, slot) && MelodyRepFits(m, scale, root, instrument, rep, slot, oracle)
      invariant builder.actions == before + MelodyRep(m, scale, root, instrument, beatsPerBar, rep, slot, oracle)
    {
      if |m.melodyNotes[slot].possibleDegrees| == 0 {
        MelodyRepStops(m, scale, root, instrument, rep, slot, oracle);
        return false;
      }
      var added := AddNextMelodySlot(builder, m, scale, root, instrument, beatsPerBar, rep, slot, oracle, before);
      if !added {
        MelodyRepStops(m, scale, root, instrument, rep, slot, oracle);
        return false;
      }
      slot := slot + 1;
    }
    return true;
  }

  /** Repetition `rep` after the ones before it; false when a slot has no
      degrees or a note leaves the MIDI range. */
  method AddNextMelodyRepetition(builder: PatternBuilder, m: MelodyPatternData, scale: Scale, root: PitchClass,
                                 instrument: Instrument, beatsPerBar: nat, rep: nat, oracle: Oracle)
    returns (ok: bool)
    requires rep > 0 ==> MelodyFits(m, scale, root, instrument, rep, oracle)
    requires builder.actions == MelodyPlan(m, scale, root, instrument, beatsPerBar, rep, oracle)
    modifies builder
    ensures ok == (MelodySlotsOffer(m, |m.melodyNotes|) &&
                   MelodyRepFits(m, scale, root, instrument, rep, |m.melodyNotes|, oracle))
    ensures ok ==>
      MelodyFits(m, scale, root, instrument, rep + 1, oracle) &&
      builder.actions == MelodyPlan(m, scale, root, instrument, beatsPerBar, rep + 1, oracle)
  {
    ok := AddMelodyRepetition(builder, m, scale, root, instrument, beatsPerBar, rep, oracle);
    if ok {
      MelodyFitsGrow(m, scale, root, instrument, rep, oracle);
    }
  }

  /** The repetitions of the template, in order; false at the first
      repetition that meets a slot without degrees or a note outside the
      MIDI range. */
  method AddMelodyRepetitions(builder: PatternBuilder, m: MelodyPatternData, scale: Scale, root: PitchClass,
                              instrument: Instrument, beatsPerBar: nat, reps: nat, oracle: Oracle)
    returns (ok: bool)
    requires builder.actions == []
    modifies builder
    ensures ok == (reps == 0 || MelodyFits(m, scale, root, instrument, reps, oracle))
    ensures ok ==> builder.actions == MelodyPlan(m, scale, root, instrument, beatsPerBar, reps, oracle)
  {
    var rep := 0;
    while rep < reps
      invariant 0 <= rep <= reps
      invariant rep > 0 ==> MelodyFits(m, scale, root, instrument, rep, oracle)
      invariant builder.actions == MelodyPlan(m, scale, root, instrument, beatsPerBar, rep, oracle)
    {
      ok := AddNextMelodyRepetition(builder, m, scale, root, instrument, beatsPerBar, rep, oracle);
      if !ok {
        return;
      }
      rep := rep + 1;
    }
    return true;
  }

  /** The repetitions of the template on a new builder, in order. */
  method PlayMelodyTemplate(m: MelodyPatternData, scale: Scale, root: PitchClass, instrument: Instrument,
                            beatsPerBar: nat, numRepeats: int, oracle: Oracle) returns (r: Result<seq<PatternAction>>)
    ensures r == MelodyActions(m, scale, root, instrument, beatsPerBar, numRepeats, oracle)
  {
    var builder := new PatternBuilder();
    builder.MoveToStart();
    var ok := AddMelodyRepetitions(builder, m, scale, root, instrument, beatsPerBar,
                                   if numRepeats > 0 then numRepeats else 0, oracle);
    if !ok {
      return Fail(ArgumentOutOfRange);
    }
    return Ok(builder.actions);
  }

  method GenerateMelodyTrackWithPattern(instrument: Instrument, pattern: Option<MelodyPatternData>, tonality: Tonality,
                                        root: PitchClass, bpm: int, ts: TimeSignature, measures: int, channel: nat,
                                        oracle: Oracle, render: Renderer) returns (r: Result<MidiFile>)
    requires channel < 16 && 0 <= instrument.patchIndex < 128
    requires pattern.Some? ==> MelodyTemplateReady(pattern.value)
    ensures Delivers(r, MelodyTrack(instrument, pattern, tonality, root, bpm, ts, measures, channel, oracle, render))
    ensures r.Ok? ==> fresh(r.value)
  {
    if pattern.None? {
      return Fail(NullReference);
    }
    var m := pattern.value;
    var scale :- GetScaleFromTonality(tonality, root);
    var beatsPerBar := BeatsPerMeasure(ts, bpm);
    var numRepeats := CeilDiv(measures, m.measures);
    var actions :- PlayMelodyTemplate(m, scale, root, instrument, beatsPerBar, numRepeats, oracle);
    assert MelodyTrack(instrument, pattern, tonality, root, bpm, ts, measures, channel, oracle, render)
        == Finished(actions, bpm, render, instrument.bankName, instrument.patchIndex, channel);
    r := RenderAndFinish(actions, bpm, render, instrument.bankName, instrument.patchIndex, channel);
  }

  // ---------------------------------------------------------------------------
  // Drum patterns

  /** The processed PianoRoll text played once per repetition, repetition r
      starting r template lengths into the part. */
  function DrumPlan(text: string, patternLength: int, bpb: nat, reps: nat): (r: seq<PatternAction>)
    ensures |r| == reps
    ensures forall k :: 0 <= k < reps ==> r[k] == PianoRollAction(k * patternLength * bpb, text)
  {
    seq(reps, k requires 0 <= k < reps => PianoRollAction(k * patternLength * bpb, text))
  }

  /** The chunks GenerateRhythmTrackWithPattern returns, or the exception it
      throws: NullReference without a template, ArgumentOutOfRange when a
      template line reaches a percussion note outside the MIDI range, then
      Format or Overflow for a bank name that is not a 32-bit integer. */
  function DrumTrack(percussion: PercussionInstrument, pattern: Option<DrumPatternData>, bpm: int, ts: TimeSignature,
                     measures: int, channel: nat, render: Renderer): (r: Result<seq<Chunk>>)
    requires 0 <= percussion.instrument.patchIndex && (pattern.Some? ==> pattern.value.measures > 0)
    ensures pattern.None? ==> r == Fail(NullReference)
    ensures pattern.Some? &&
            !LinesFit(Split(pattern.value.pianoRollPattern, '\n'), pattern.value.drumMappings, percussion.percussionMappings)
            ==> r == Fail(ArgumentOutOfRange)
    ensures r.Ok? <==>
      pattern.Some? &&
      LinesFit(Split(pattern.value.pianoRollPattern, '\n'), pattern.value.drumMappings, percussion.percussionMappings) &&
      Int32TryParse(percussion.instrument.bankName).Some?
    ensures r.Ok? ==> OnChannel(r.value, channel)
  {
    if pattern.None? then Fail(NullReference)
    else
      var d := pattern.value;
      var reps := CeilDiv(measures, d.measures);
      var lines := Split(d.pianoRollPattern, '\n');
      match Processed(lines, d.drumMappings, percussion.percussionMappings)
      case Fail(e) => Fail(e)
      case Ok(entries) =>
        var text := Join("\n", Values(entries));
        var actions := DrumPlan(text, d.measures, BeatsPerMeasure(ts, bpm), if reps > 0 then reps else 0);
        Finished(actions, bpm, render, percussion.instrument.bankName, percussion.instrument.patchIndex, channel)
  }

  /** The processed text played once per repetition on a new builder. */
  method PlayDrumTemplate(text: string, patternLength: int, beatsPerBar: nat, numRepeats: int)
    returns (actions: seq<PatternAction>)
    ensures actions == DrumPlan(text, patternLength, beatsPerBar, if numRepeats > 0 then numRepeats else 0)
  {
    var builder := new PatternBuilder();
    builder.MoveToStart();
    var rep := 0;
    while rep < numRepeats
      invariant 0 <= rep <= (if numRepeats > 0 then numRepeats else 0)
      invariant builder.actions == DrumPlan(text, patternLength, beatsPerBar, rep)
    {
      builder.MoveToTime(rep * patternLength * beatsPerBar);
      builder.AddPianoRoll(text);
      assert DrumPlan(text, patternLength, beatsPerBar, rep + 1)
          == DrumPlan(text, patternLength, beatsPerBar, rep) + [PianoRollAction(rep * patternLength * beatsPerBar, text)];
      rep := rep + 1;
    }
    return builder.actions;
  }

  method GenerateRhythmTrackWithPattern(percussion: PercussionInstrument, pattern: Option<DrumPatternData>, bpm: int,
                                        ts: TimeSignature, measures: int, channel: nat, render: Renderer)
    returns (r: Result<MidiFile>)
    requires channel < 16 && 0 <= percussion.instrument.patchIndex < 128
    requires pattern.Some? ==> pattern.value.measures > 0
    ensures Delivers(r, DrumTrack(percussion, pattern, bpm, ts, measures, channel, render))
    ensures r.Ok? ==> fresh(r.value)
  {
    if pattern.None? {
      return Fail(NullReference);
    }
    var d := pattern.value;
    var beatsPerBar := BeatsPerMeasure(ts, bpm);
    var numRepeats := CeilDiv(measures, d.measures);
    var processed :- PreprocessPattern(d.pianoRollPattern, d.drumMappings, percussion.percussionMappings);
    var actions := PlayDrumTemplate(processed, d.measures, beatsPerBar, numRepeats);
    assert DrumTrack(percussion, pattern, bpm, ts, measures, channel, render)
        == Finished(actions, bpm, render, percussion.instrument.bankName, percussion.instrument.patchIndex, channel);
    r := RenderAndFinish(actions, bpm, render, percussion.instrument.bankName,
                         percussion.instrument.patchIndex, channel);
  }

  // ---------------------------------------------------------------------------
  // Metronome

  /** Notes.D5 and Notes.DSharp5. */
  const MetronomeTic: Note := Note(2, 5)
  const MetronomeTac: Note := Note(3, 5)

  /** Measure i of the metronome: a quarter-note tic on its first beat and a
      tac on every other, at the builder's default velocity. */
  function MetronomeMeasure(i: nat, bpb: nat): (r: seq<PatternAction>)
    ensures |r| == bpb
    ensures forall b :: 0 <= b < bpb ==>
      r[b] == NoteAction(i * bpb + b, if b == 0 then MetronomeTic else MetronomeTac, 1, None)
  {
    seq(bpb, b requires 0 <= b < bpb => NoteAction(i * bpb + b, if b == 0 then MetronomeTic else MetronomeTac, 1, None))
  }

  function MetronomePlan(measures: nat, bpb: nat): (r: seq<PatternAction>)
    ensures |r| == measures * bpb
  {
    if measures == 0 then []
    else MetronomePlan(measures - 1, bpb) + MetronomeMeasure(measures - 1, bpb)
  }

  /** The metronome loop on a new builder: `measures` measures of
      `beatsPerMeasure` quarter notes, one after the other. */
  method PlayMetronome(measures: int, beatsPerMeasure: nat) returns (actions: seq<PatternAction>)
    ensures actions == MetronomePlan(if measures > 0 then measures else 0, beatsPerMeasure)
  {
    var builder := new PatternBuilder();
    builder.MoveToStart();
    var i := 0;
    while i < measures
      invariant 0 <= i <= (if measures > 0 then measures else 0)
      invariant builder.time == i * beatsPerMeasure
      invariant builder.actions == MetronomePlan(i, beatsPerMeasure)
    {
      var beat := 0;
      while beat < beatsPerMeasure
        invariant 0 <= beat <= beatsPerMeasure
        invariant builder.time == i * beatsPerMeasure + beat
        invariant builder.actions == MetronomePlan(i, beatsPerMeasure) + MetronomeMeasure(i, beatsPerMeasure)[..beat]
      {
        if beat == 0 {
          builder.AddNote(MetronomeTic, 1, None);
        } else {
          builder.AddNote(MetronomeTac, 1, None);
        }
        assert MetronomeMeasure(i, beatsPerMeasure)[..beat + 1]
            == MetronomeMeasure(i, beatsPerMeasure)[..beat] + [MetronomeMeasure(i, beatsPerMeasure)[beat]];
        beat := beat + 1;
      }
      assert MetronomeMeasure(i, beatsPerMeasure)[..beatsPerMeasure] == MetronomeMeasure(i, beatsPerMeasure);
      assert (i + 1) * beatsPerMeasure == i * beatsPerMeasure + beatsPerMeasure;
      i := i + 1;
    }
    return builder.actions;
  }

  /** GenerateMetronomeTrackFile: the metronome notes, with bank 128,
      program 0 and channel 15. */
  method GenerateMetronomeTrackFile(ts: TimeSignature, bpm: int, measures: int, render: Renderer) returns (file: MidiFile)
    ensures fresh(file)
    ensures file.chunks ==
      FinishTrack(render(MetronomePlan(if measures > 0 then measures else 0, BeatsPerMeasure(ts, bpm)), bpm), 128, 0, 15)
  {
    var actions := PlayMetronome(measures, BeatsPerMeasure(ts, bpm));
    file := new MidiFile.FromChunks(render(actions, bpm));
    FinishFile(file, 128, 0, 15);
  }

  // ---------------------------------------------------------------------------
  // Dispatch on the role

  /** What a track needs for its builder not to fail a cast to a seven- or
      four-bit number, nor to divide by a zero pattern length. */
  predicate TrackReady(cfg: TrackConfig) {
    match cfg.role
    case Rhythm =>
      0 <= cfg.percussionInstrument.instrument.patchIndex < 128 &&
      (cfg.pattern.DrumPattern? ==> cfg.pattern.drum.measures > 0)
    case Backing =>
      0 <= cfg.instrument.patchIndex < 128 &&
      (cfg.pattern.ChordPattern? ==> ChordTemplateReady(cfg.pattern.progression))
    case Lead =>
      0 <= cfg.instrument.patchIndex < 128 &&
      (cfg.pattern.MelodyPattern? ==> MelodyTemplateReady(cfg.pattern.melody))
    case Undeclared(_) => true
  }

  /** The chunks GenerateTrack returns, or the exception it throws: the
      template is cast to the role's kind (InvalidCast for another kind, a
      missing one reaching the builder as null), and a role outside the enum
      is NotSupported. */
  function TrackChunks(cfg: TrackConfig, part: PartConfig, channel: nat, bpm: int,
                       oracle: Oracle, render: Renderer): (r: Result<seq<Chunk>>)
    requires TrackReady(cfg)
    ensures cfg.role.Undeclared? ==> r == Fail(NotSupported)
    ensures r.Ok? ==> OnChannel(r.value, channel)
  {
    match cfg.role
    case Rhythm =>
      (match cfg.pattern
       case NoPattern => DrumTrack(cfg.percussionInstrument, None, bpm, part.timeSignature, part.measures, channel, render)
       case DrumPattern(d) => DrumTrack(cfg.percussionInstrument, Some(d), bpm, part.timeSignature, part.measures, channel, render)
       case _ => Fail(InvalidCast))
    case Backing =>
      (match cfg.pattern
       case NoPattern =>
         ChordTrack(cfg.instrument, part.tonality, part.rootNote, bpm, part.timeSignature, part.measures, channel,
                    None, oracle, render)
       case ChordPattern(p) =>
         ChordTrack(cfg.instrument, part.tonality, part.rootNote, bpm, part.timeSignature, part.measures, channel,
                    Some(p), oracle, render)
       case _ => Fail(InvalidCast))
    case Lead =>
      (match cfg.pattern
       case NoPattern =>
         MelodyTrack(cfg.instrument, None, part.tonality, part.rootNote, bpm, part.timeSignature, part.measures,
                     channel, oracle, render)
       case MelodyPattern(m) =>
         MelodyTrack(cfg.instrument, Some(m), part.tonality, part.rootNote, bpm, part.timeSignature, part.measures,
                     channel, oracle, render)
       case _ => Fail(InvalidCast))
    case Undeclared(_) => Fail(NotSupported)
  }

  method GenerateTrack(cfg: TrackConfig, part: PartConfig, channel: nat, bpm: int, oracle: Oracle, render: Renderer)
    returns (r: Result<MidiFile>)
    requires channel < 16 && TrackReady(cfg)
    ensures Delivers(r, TrackChunks(cfg, part, channel, bpm, oracle, render))
    ensures r.Ok? ==> fresh(r.value)
  {
    match cfg.role
    case Rhythm =>
      var pattern: Option<DrumPatternData>;
      match cfg.pattern {
        case NoPattern => pattern := None;
        case DrumPattern(d) => pattern := Some(d);
        case _ => return Fail(InvalidCast);
      }
      r := GenerateRhythmTrackWithPattern(cfg.percussionInstrument, pattern, bpm, part.timeSignature, part.measures,
                                          channel, render);
    case Backing =>
      var progression: Option<ChordProgressionData>;
      match cfg.pattern {
        case NoPattern => progression := None;
        case ChordPattern(p) => progression := Some(p);
        case _ => return Fail(InvalidCast);
      }
      r := GenerateChordProgressionMidiTrackFile(cfg.instrument, part.tonality, part.rootNote, bpm, part.timeSignature,
                                                 part.measures, channel, progression, oracle, render);
    case Lead =>
      var melody: Option<MelodyPatternData>;
      match cfg.pattern {
        case NoPattern => melody := None;
        case MelodyPattern(m) => melody := Some(m);
        case _ => return Fail(InvalidCast);
      }
      r := GenerateMelodyTrackWithPattern(cfg.instrument, melody, part.tonality, part.rootNote, bpm, part.timeSignature,
                                          part.measures, channel, oracle, render);
    case Undeclared(_) =>
      r := Fail(NotSupported);
  }

  // ---------------------------------------------------------------------------
  // Lemmas

  /** When the resolved chord already lies in the octaves the instrument
      allows, clamping leaves the voicing as resolved. */
  lemma {:induction false} ClampKeepsVoicing(chord: Chord, octaveMin: int, octaveMax: int, seed: nat)
    requires |chord.noteNames| > 0
    requires var raw := ResolveNotes(chord, Range(octaveMin - 1, octaveMax, seed));
      forall i :: 0 <= i < |raw| ==> octaveMin - 1 <= raw[i].octave <= octaveMax - 1
    ensures ChordVoicing(chord, octaveMin, octaveMax, seed) == ResolveNotes(chord, Range(octaveMin - 1, octaveMax, seed))
  {
  }

  /** The chord plan holds one action per slot and repetition. */
  lemma {:induction false} ChordPlanLength(p: ChordProgressionData, byDegree: map<ScaleDegree, Chord>, instrument: Instrument,
                                           bpb: nat, reps: nat, oracle: Oracle)
    requires DegreeChords(byDegree) && ChordSlotsOffer(p, |p.chords|)
    ensures |ChordPlan(p, byDegree, instrument, bpb, reps, oracle)| == reps * |p.chords|
  {
    if reps > 0 {
      ChordPlanLength(p, byDegree, instrument, bpb, reps - 1, oracle);
      assert (reps - 1) * |p.chords| + |p.chords| == reps * |p.chords|;
    }
  }

  /** Repetition `rep` follows the repetitions before it, slot by slot. */
  lemma {:induction false} ChordPlanLast(p: ChordProgressionData, byDegree: map<ScaleDegree, Chord>, instrument: Instrument,
                      bpb: nat, oracle: Oracle, rep: nat, slot: nat)
    requires DegreeChords(byDegree) && ChordSlotsOffer(p, |p.chords|) && slot < |p.chords|
    ensures |ChordPlan(p, byDegree, instrument, bpb, rep, oracle)| + slot < |ChordPlan(p, byDegree, instrument, bpb, rep + 1, oracle)|
    ensures ChordPlan(p, byDegree, instrument, bpb, rep + 1, oracle)[|ChordPlan(p, byDegree, instrument, bpb, rep, oracle)| + slot]
         == ChordSlotAction(p, byDegree, instrument, bpb, rep, slot, oracle)
  {
    var before := ChordPlan(p, byDegree, instrument, bpb, rep, oracle);
    var last := ChordRep(p, byDegree, instrument, bpb, rep, |p.chords|, oracle);
    var all := ChordPlan(p, byDegree, instrument, bpb, rep + 1, oracle);
    assert all == before + last;
    assert all[|before| + slot] == last[slot];
  }

  /** Later repetitions only append: an action of the plan of n repetitions
      keeps its place in the plan of more. */
  lemma {:induction false} ChordPlanStable(p: ChordProgressionData, byDegree: map<ScaleDegree, Chord>, instrument: Instrument,
                                           bpb: nat, oracle: Oracle, n: nat, reps: nat, k: nat)
    requires DegreeChords(byDegree) && ChordSlotsOffer(p, |p.chords|)
    requires n <= reps && k < |ChordPlan(p, byDegree, instrument, bpb, n, oracle)|
    ensures k < |ChordPlan(p, byDegree, instrument, bpb, reps, oracle)|
    ensures ChordPlan(p, byDegree, instrument, bpb, reps, oracle)[k] == ChordPlan(p, byDegree, instrument, bpb, n, oracle)[k]
    decreases reps
  {
    if n < reps {
      ChordPlanStable(p, byDegree, instrument, bpb, oracle, n, reps - 1, k);
      ChordPlanGrows(p, byDegree, instrument, bpb, oracle, reps, k);
    }
  }

  lemma {:induction false} ChordPlanGrows(p: ChordProgressionData, byDegree: map<ScaleDegree, Chord>, instrument: Instrument,
                       bpb: nat, oracle: Oracle, reps: nat, k: nat)
    requires DegreeChords(byDegree) && ChordSlotsOffer(p, |p.chords|)
    requires reps > 0 && k < |ChordPlan(p, byDegree, instrument, bpb, reps - 1, oracle)|
    ensures k < |ChordPlan(p, byDegree, instrument, bpb, reps, oracle)|
    ensures ChordPlan(p, byDegree, instrument, bpb, reps, oracle)[k] == ChordPlan(p, byDegree, instrument, bpb, reps - 1, oracle)[k]
  {
    var shorter := ChordPlan(p, byDegree, instrument, bpb, reps - 1, oracle);
    var last := ChordRep(p, byDegree, instrument, bpb, reps - 1, |p.chords|, oracle);
    assert ChordPlan(p, byDegree, instrument, bpb, reps, oracle) == shorter + last;
  }

  /** Slot `slot` of repetition `rep` stays where ChordPlanLast puts it
      however many repetitions follow. */
  lemma {:induction false} ChordPlanLayout(p: ChordProgressionData, byDegree: map<ScaleDegree, Chord>, instrument: Instrument,
                        bpb: nat, reps: nat, oracle: Oracle, rep: nat, slot: nat)
    requires DegreeChords(byDegree) && ChordSlotsOffer(p, |p.chords|)
    requires rep < reps && slot < |p.chords|
    ensures |ChordPlan(p, byDegree, instrument, bpb, rep, oracle)| + slot < |ChordPlan(p, byDegree, instrument, bpb, reps, oracle)|
    ensures ChordPlan(p, byDegree, instrument, bpb, reps, oracle)[|ChordPlan(p, byDegree, instrument, bpb, rep, oracle)| + slot]
         == ChordSlotAction(p, byDegree, instrument, bpb, rep, slot, oracle)
    decreases reps
  {
    var k := |ChordPlan(p, byDegree, instrument, bpb, rep, oracle)| + slot;
    var a := ChordSlotAction(p, byDegree, instrument, bpb, rep, slot, oracle);
    if reps == rep + 1 {
      ChordPlanLast(p, byDegree, instrument, bpb, oracle, rep, slot);
    } else {
      var shorter := ChordPlan(p, byDegree, instrument, bpb, reps - 1, oracle);
      assert k < |shorter| && shorter[k] == a by {
        ChordPlanLayout(p, byDegree, instrument, bpb, reps - 1, oracle, rep, slot);
      }
      ChordPlanGrows(p, byDegree, instrument, bpb, oracle, reps, k);
    }
  }

  /** A repetition that fits extends the repetitions that fit before it. */
  lemma {:induction false} ChordFitsGrow(p: ChordProgressionData, byDegree: map<ScaleDegree, Chord>, instrument: Instrument,
                                         rep: nat, oracle: Oracle)
    requires DegreeChords(byDegree)
    requires rep > 0 ==> ChordFits(p, byDegree, instrument, rep, oracle)
    requires ChordSlotsOffer(p, |p.chords|) && ChordRepFits(p, byDegree, instrument, rep, |p.chords|, oracle)
    ensures ChordFits(p, byDegree, instrument, rep + 1, oracle)
  {
    forall r: nat | r < rep + 1
      ensures ChordRepFits(p, byDegree, instrument, r, |p.chords|, oracle)
    {
      if r < rep {
        assert ChordFits(p, byDegree, instrument, rep, oracle);
      }
    }
  }

  /** A chord slot plays the chord of one of the slot's possible degrees,
      voiced in the instrument's octaves (one below its range), for the
      slot's duration and velocity; repetition `rep` plays it `rep` template
      lengths after the first; when the slot passes the range checks every
      note is a MIDI note. */
  lemma {:induction false} ChordSlotFacts(p: ChordProgressionData, byDegree: map<ScaleDegree, Chord>, instrument: Instrument,
                       bpb: nat, rep: nat, slot: nat, oracle: Oracle)
    requires DegreeChords(byDegree)
    requires slot < |p.chords| && |p.chords[slot].possibleDegrees| > 0
    ensures var a := ChordSlotAction(p, byDegree, instrument, bpb, rep, slot, oracle);
      var data := p.chords[slot];
      a.ChordAction? &&
      a.start == ChordSlotAction(p, byDegree, instrument, bpb, 0, slot, oracle).start + rep * (p.measures * bpb) &&
      a.length == data.durationBeats && a.velocity == Some(data.velocity) &&
      (exists d :: d in data.possibleDegrees && |a.notes| == |byDegree[d].noteNames| &&
         forall i :: 0 <= i < |a.notes| ==> a.notes[i].name == byDegree[d].noteNames[i]) &&
      (instrument.octaveMin <= instrument.octaveMax ==>
         forall i :: 0 <= i < |a.notes| ==> instrument.octaveMin - 1 <= a.notes[i].octave <= instrument.octaveMax - 1) &&
      (ChordSlotFits(p, byDegree, instrument, rep, slot, oracle) ==>
         forall i :: 0 <= i < |a.notes| ==> InMidiRange(a.notes[i]))
  {
    var data := p.chords[slot];
    var d := ChordDegree(p, rep, slot, oracle);
    var a := ChordSlotAction(p, byDegree, instrument, bpb, rep, slot, oracle);
    var notes := ChordVoicing(byDegree[d], instrument.octaveMin, instrument.octaveMax, oracle([rep, slot, 1]));
    assert a.notes == notes;
    ShiftedStart(data.startMeasure, rep, p.measures, bpb);
    ShiftedStart(data.startMeasure, 0, p.measures, bpb);
    assert d in data.possibleDegrees && |a.notes| == |byDegree[d].noteNames|;
  }

  /** Resolved from octave 8, B-E puts E at note 124. */
  lemma {:induction false} HighIntervalResolves()
    ensures ResolveNotes(Chord([11, 4]), 8)[1] == Note(4, 9)
  {
    assert Chord([11, 4]).noteNames[..1] == [11];
    assert ResolveNotes(Chord([11]), 8)[0] == Note(11, 8);
    assert UpTo(119, 4) == 5;
  }

  /** Resolved from octave 8, the B-E-G# chord puts G# at note 128. */
  lemma {:induction false} HighChordResolves()
    ensures ResolveNotes(Chord([11, 4, 8]), 8)[2] == Note(8, 9)
  {
    HighIntervalResolves();
    assert Chord([11, 4, 8]).noteNames[..2] == [11, 4];
    assert UpTo(124, 8) == 4;
  }

  /** An instrument with the default octaves 1 to 9 whose octave draw gives
      8 makes GetPlayableChordNotes throw on the B-E-G# chord. */
  lemma {:induction false} HighChordOverflows()
    ensures Range(0, 9, 8) == 8
    ensures PlayableChordNotes(Chord([11, 4, 8]), 1, 9, 8) == Fail(ArgumentOutOfRange)
  {
    HighChordResolves();
    assert !InMidiRange(ResolveNotes(Chord([11, 4, 8]), 8)[2]);
    assert !VoicingFits(Chord([11, 4, 8]), 1, 9, 8);
  }

  /** A melody slot is skipped exactly when the drawn degree lies outside the
      scale; otherwise it plays the drawn degree's note in the drawn octave
      (an octave of the instrument's range), a MIDI note, for the slot's
      duration and velocity, `rep` template lengths after the first
      repetition. */
  lemma {:induction false} MelodySlotFacts(m: MelodyPatternData, scale: Scale, root: PitchClass, instrument: Instrument,
                        bpb: nat, rep: nat, slot: nat, oracle: Oracle)
    requires slot < |m.melodyNotes| && |m.melodyNotes[slot].possibleDegrees| > 0
    requires MelodySlotFits(m, scale, root, instrument, rep, slot, oracle)
    ensures var r := MelodySlotAction(m, scale, root, instrument, bpb, rep, slot, oracle);
      var draw := MelodyDraw(m, instrument, rep, slot, oracle);
      var data := m.melodyNotes[slot];
      draw.0 in data.possibleDegrees &&
      (instrument.octaveMin <= instrument.octaveMax ==> instrument.octaveMin <= draw.1 <= instrument.octaveMax) &&
      (r.None? <==> DegreeIndex(draw.0) >= |scale.steps|) &&
      (r.Some? ==>
         r.value.NoteAction? &&
         r.value.start == data.startMeasure * bpb + data.startBeat + rep * (m.measures * bpb) &&
         r.value.length == data.durationBeats && r.value.velocity == Some(data.velocity) &&
         InMidiRange(r.value.note) &&
         NoteNumber(r.value.note) == NoteNumber(Note(root, draw.1)) + StepsBefore(scale.steps, DegreeIndex(draw.0)))
  {
    var data := m.melodyNotes[slot];
    var draw := MelodyDraw(m, instrument, rep, slot, oracle);
    var r := MelodySlotAction(m, scale, root, instrument, bpb, rep, slot, oracle);
    var note := GetNoteFromScale(scale, draw.0, root, draw.1).value;
    assert r.None? <==> note.None?;
    if note.Some? {
      assert r == Some(NoteAction(data.startMeasure * bpb + rep * m.measures * bpb + data.startBeat,
                                  note.value, data.durationBeats, Some(data.velocity)));
      MulRegroup(rep, m.measures, bpb);
    }
  }

  /** An instrument whose octaves lie between -1 and 7 never meets the range
      failure on a scale spanning one octave: every slot that offers a degree
      can be played, in every repetition. */
  lemma {:induction false} LowOctavesMelodyFits(m: MelodyPatternData, scale: Scale, root: PitchClass,
                                                instrument: Instrument, reps: nat, oracle: Oracle)
    requires MelodySlotsOffer(m, |m.melodyNotes|)
    requires 0 < |scale.steps| && StepSum(scale.steps) == 12
    requires -1 <= instrument.octaveMin <= instrument.octaveMax <= 7
    ensures MelodyFits(m, scale, root, instrument, reps, oracle)
  {
    forall rep: nat, slot: nat | rep < reps && slot < |m.melodyNotes|
      ensures MelodySlotFits(m, scale, root, instrument, rep, slot, oracle)
    {
      var draw := MelodyDraw(m, instrument, rep, slot, oracle);
      OneOctaveWalkFits(scale.steps, root, draw.1);
    }
  }

  /** In a scale of at least seven notes no melody slot is skipped: a
      repetition plays every slot, in order. */
  lemma {:induction false} MelodyRepComplete(m: MelodyPatternData, scale: Scale, root: PitchClass, instrument: Instrument,
                                             bpb: nat, rep: nat, count: nat, oracle: Oracle)
    requires MelodySlotsOffer(m, count) && MelodyRepFits(m, scale, root, instrument, rep, count, oracle)
    requires |scale.steps| >= 7
    ensures |MelodyRep(m, scale, root, instrument, bpb, rep, count, oracle)| == count
    ensures forall slot :: 0 <= slot < count ==>
      MelodySlotAction(m, scale, root, instrument, bpb, rep, slot, oracle)
        == Some(MelodyRep(m, scale, root, instrument, bpb, rep, count, oracle)[slot])
  {
    if count > 0 {
      var before := MelodyRep(m, scale, root, instrument, bpb, rep, count - 1, oracle);
      MelodyRepComplete(m, scale, root, instrument, bpb, rep, count - 1, oracle);
      MelodyRepLast(m, scale, root, instrument, bpb, rep, count, oracle);
      var a := MelodySlotAction(m, scale, root, instrument, bpb, rep, count - 1, oracle);
      var all := MelodyRep(m, scale, root, instrument, bpb, rep, count, oracle);
      forall slot | 0 <= slot < count
        ensures MelodySlotAction(m, scale, root, instrument, bpb, rep, slot, oracle) == Some(all[slot])
      {
        if slot < count - 1 {
          assert all[slot] == before[slot];
        } else {
          assert slot == count - 1 && all[slot] == a.value;
        }
      }
    }
  }

  /** In a scale of at least seven notes the last slot of a repetition
      plays its note after the slots before it. */
  lemma {:induction false} MelodyRepLast(m: MelodyPatternData, scale: Scale, root: PitchClass, instrument: Instrument,
                                         bpb: nat, rep: nat, count: nat, oracle: Oracle)
    requires count > 0 && MelodySlotsOffer(m, count) && MelodyRepFits(m, scale, root, instrument, rep, count, oracle)
    requires |scale.steps| >= 7
    ensures MelodySlotAction(m, scale, root, instrument, bpb, rep, count - 1, oracle).Some?
    ensures MelodyRep(m, scale, root, instrument, bpb, rep, count, oracle)
         == MelodyRep(m, scale, root, instrument, bpb, rep, count - 1, oracle)
            + [MelodySlotAction(m, scale, root, instrument, bpb, rep, count - 1, oracle).value]
  {
    MelodySlotFacts(m, scale, root, instrument, bpb, rep, count - 1, oracle);
  }

  /** The plan of `reps` repetitions is the plan of one fewer followed by
      the last repetition. */
  lemma {:induction false} MelodyPlanStep(m: MelodyPatternData, scale: Scale, root: PitchClass, instrument: Instrument,
                                          bpb: nat, reps: nat, oracle: Oracle)
    requires reps > 0 && MelodyFits(m, scale, root, instrument, reps, oracle)
    ensures MelodyFits(m, scale, root, instrument, reps - 1, oracle)
    ensures MelodyRepFits(m, scale, root, instrument, reps - 1, |m.melodyNotes|, oracle)
    ensures MelodyPlan(m, scale, root, instrument, bpb, reps, oracle)
         == MelodyPlan(m, scale, root, instrument, bpb, reps - 1, oracle)
            + MelodyRep(m, scale, root, instrument, bpb, reps - 1, |m.melodyNotes|, oracle)
  {
  }

  /** A slot without degrees, or whose note leaves the MIDI range, keeps its
      repetition from being played. */
  lemma {:induction false} MelodyRepStops(m: MelodyPatternData, scale: Scale, root: PitchClass, instrument: Instrument,
                                          rep: nat, slot: nat, oracle: Oracle)
    requires slot < |m.melodyNotes|
    requires |m.melodyNotes[slot].possibleDegrees| > 0 ==>
      !MelodySlotFits(m, scale, root, instrument, rep, slot, oracle)
    ensures !(MelodySlotsOffer(m, |m.melodyNotes|) &&
              MelodyRepFits(m, scale, root, instrument, rep, |m.melodyNotes|, oracle))
  {
  }

  /** A repetition that fits extends the repetitions that fit before it. */
  lemma {:induction false} MelodyFitsGrow(m: MelodyPatternData, scale: Scale, root: PitchClass, instrument: Instrument,
                                          rep: nat, oracle: Oracle)
    requires rep > 0 ==> MelodyFits(m, scale, root, instrument, rep, oracle)
    requires MelodySlotsOffer(m, |m.melodyNotes|)
    requires MelodyRepFits(m, scale, root, instrument, rep, |m.melodyNotes|, oracle)
    ensures MelodyFits(m, scale, root, instrument, rep + 1, oracle)
  {
    forall r: nat | r < rep + 1
      ensures MelodyRepFits(m, scale, root, instrument, r, |m.melodyNotes|, oracle)
    {
      if r < rep {
        assert MelodyFits(m, scale, root, instrument, rep, oracle);
      }
    }
  }

  /** In a scale of at least seven notes the melody plan holds one note per
      slot and repetition. */
  lemma {:induction false} MelodyPlanComplete(m: MelodyPatternData, scale: Scale, root: PitchClass, instrument: Instrument,
                                              bpb: nat, reps: nat, oracle: Oracle)
    requires MelodyFits(m, scale, root, instrument, reps, oracle) && |scale.steps| >= 7
    ensures |MelodyPlan(m, scale, root, instrument, bpb, reps, oracle)| == reps * |m.melodyNotes|
  {
    if reps > 0 {
      var n := |m.melodyNotes|;
      MelodyPlanStep(m, scale, root, instrument, bpb, reps, oracle);
      var before := MelodyPlan(m, scale, root, instrument, bpb, reps - 1, oracle);
      var last := MelodyRep(m, scale, root, instrument, bpb, reps - 1, n, oracle);
      MelodyPlanComplete(m, scale, root, instrument, bpb, reps - 1, oracle);
      MelodyRepComplete(m, scale, root, instrument, bpb, reps - 1, n, oracle);
      assert |before| == (reps - 1) * n && |last| == n;
      MulSucc(reps, n);
    }
  }

  /** The metronome's k-th note is a quarter note on beat k, a tic on the
      first beat of every measure and a tac on the others. */
  lemma {:induction false} MetronomeClosedForm(measures: nat, bpb: nat, k: nat)
    requires k < measures * bpb
    ensures MetronomePlan(measures, bpb)[k]
         == NoteAction(k, if k % bpb == 0 then MetronomeTic else MetronomeTac, 1, None)
  {
    var before := MetronomePlan(measures - 1, bpb);
    assert (measures - 1) * bpb + bpb == measures * bpb;
    if k < (measures - 1) * bpb {
      MetronomeClosedForm(measures - 1, bpb, k);
    } else {
      var b := k - (measures - 1) * bpb;
      DivModUnique(k, bpb, measures - 1, b);
    }
  }
}
