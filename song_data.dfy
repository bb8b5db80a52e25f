/** The data records the generators read: instruments, the three kinds of
    pattern template, and the song configuration (parts, their tracks and the
    order in which parts are played). */
module SongData {
  import opened Tonalities
  import opened TimeSignatures
  import opened MusicTheory
  import opened Percussion

  /** The instrument families of MIDIInstrumentSO. */
  datatype InstrumentType = Guitar | Bass | Drums | Vocals | Piano | AcousticGuitar | Strings | BrassAndWoodwind

  /** MIDIInstrumentSO: the bank is kept as text (a sound-font bank name such
      as "000"), the program as a number, and the octave range the generators
      may use. */
  datatype Instrument = Instrument(
    instrumentName: string,
    instrumentType: InstrumentType,
    selectedSoundFont: string,
    bankName: string,
    patchName: string,
    patchIndex: int,
    octaveMin: int,
    octaveMax: int)

  /** MIDIPercussionInstrumentSO: an instrument with a voice-to-note table. */
  datatype PercussionInstrument = PercussionInstrument(instrument: Instrument, percussionMappings: seq<PercussionMapping>)

  /** The role of a track. A C# enum variable can hold a number that names
      no member; `Undeclared` stands for such a value. */
  datatype TrackRole = Rhythm | Backing | Lead | Undeclared(value: int)

  /** One slot of a chord-progression template. Start and duration are in
      quarter notes (measures for startMeasure). */
  datatype ChordData = ChordData(possibleDegrees: seq<ScaleDegree>, startMeasure: nat, startBeat: nat,
                                 durationBeats: nat, velocity: nat)

  /** A chord-progression template, with the fields the chord builder reads. */
  datatype ChordProgressionData = ChordProgressionData(progressionName: string, measures: int,
                                                       timeSignature: TimeSignature, tonalities: seq<Tonality>,
                                                       chords: seq<ChordData>)

  /** One slot of a melody template. */
  datatype MelodyNoteData = MelodyNoteData(possibleDegrees: seq<ScaleDegree>, startMeasure: nat, startBeat: nat,
                                           durationBeats: nat, velocity: nat)

  /** A melody template (a PatternDataSO). */
  datatype MelodyPatternData = MelodyPatternData(displayName: string, timeSignature: TimeSignature, measures: int,
                                                 melodyNotes: seq<MelodyNoteData>)

  /** A PianoRoll symbol and the percussion voice it stands for. */
  datatype DrumMapping = DrumMapping(drumSymbol: string, drumNote: GeneralMidiPercussion)

  /** A drum template (a PatternDataSO): a PianoRoll text whose lines carry a
      `{symbol}` tag. */
  datatype DrumPatternData = DrumPatternData(displayName: string, timeSignature: TimeSignature, measures: int,
                                             velocity: nat, drumMappings: seq<DrumMapping>,
                                             pianoRollPattern: string)

  /** TrackParameters.Pattern: a null reference or one of the template kinds.
      The generators cast it to the kind their role needs. */
  datatype PatternRef =
    | NoPattern
    | DrumPattern(drum: DrumPatternData)
    | MelodyPattern(melody: MelodyPatternData)
    | ChordPattern(progression: ChordProgressionData)

  datatype TrackConfig = TrackConfig(instrument: Instrument, percussionInstrument: PercussionInstrument,
                                     role: TrackRole, pattern: PatternRef)

  datatype PartConfig = PartConfig(name: string, tracks: seq<TrackConfig>, tonality: Tonality, rootNote: PitchClass,
                                   tempoRange: TempoRange, timeSignature: TimeSignature, measures: int)

  datatype PartSequenceEntry = PartSequenceEntry(partIndex: int, repeatCount: int)

  /** SongConfig: the parts, and the order in which they are played. The
      structure list is replaced when the sequence text is parsed. */
  class SongConfig {
    var parts: seq<PartConfig>
    var structure: seq<PartSequenceEntry>

    constructor (parts: seq<PartConfig>, structure: seq<PartSequenceEntry>)
      ensures this.parts == parts && this.structure == structure
    {
      this.parts := parts;
      this.structure := structure;
    }
  }
}
