/** The percussion instrument's voice-to-note table: each General MIDI
    percussion voice is mapped to a note name and an octave, and a lookup
    finds the note of a voice. */
module Percussion {
  import opened Outcomes
  import opened MusicTheory
  import opened Search

  /** A General MIDI percussion voice, named by its key number in the
      General MIDI Level 1 percussion key map (35 to 81). */
  type GeneralMidiPercussion = k: int | 35 <= k <= 81 witness 35

  const AcousticBassDrum: GeneralMidiPercussion := 35
  const AcousticSnare: GeneralMidiPercussion := 38
  const ClosedHiHat: GeneralMidiPercussion := 42
  const LowTom: GeneralMidiPercussion := 45
  const OpenHiHat: GeneralMidiPercussion := 46
  const CrashCymbal1: GeneralMidiPercussion := 49
  const HighTom: GeneralMidiPercussion := 50
  const RideCymbal1: GeneralMidiPercussion := 51

  /** One entry of the table: a voice, a note name and the octave as stored
      in the table. */
  datatype PercussionMapping = PercussionMapping(percussionType: GeneralMidiPercussion, noteName: PitchClass, octave: int)

  /** PercussionMapping.ToNote: Note.Get of the stored name one octave above
      the stored octave, which throws ArgumentOutOfRange for a note outside
      the MIDI range. */
  function ToNote(m: PercussionMapping): (r: Result<Note>)
    ensures r.Ok? <==> 0 <= (m.octave + 2) * 12 + m.noteName <= 127
    ensures r.Ok? ==> r.value.name == m.noteName && r.value.octave == m.octave + 1 &&
                      NoteNumber(r.value) == (m.octave + 2) * 12 + m.noteName
    ensures r.Fail? ==> r.error == ArgumentOutOfRange
  {
    var n := Note(m.noteName, m.octave + 1);
    if InMidiRange(n) then Ok(n) else Fail(ArgumentOutOfRange)
  }

  /** The table a new percussion instrument starts with. */
  const DefaultPercussionMappings: seq<PercussionMapping> := [
    PercussionMapping(AcousticBassDrum, 0, 1),  // C, octave 1
    PercussionMapping(AcousticSnare, 2, 1),     // D, octave 1
    PercussionMapping(ClosedHiHat, 6, 1),       // F#, octave 1
    PercussionMapping(OpenHiHat, 10, 1),        // A#, octave 1
    PercussionMapping(CrashCymbal1, 1, 2),      // C#, octave 2
    PercussionMapping(RideCymbal1, 3, 2),       // D#, octave 2
    PercussionMapping(LowTom, 9, 2),            // A, octave 2
    PercussionMapping(HighTom, 11, 2)           // B, octave 2
  ]

  /** The test "this mapping is for that voice". */
  function ForVoice(percussion: GeneralMidiPercussion): PercussionMapping -> bool
  {
    (m: PercussionMapping) => m.percussionType == percussion
  }

  /** The mapping for a voice is the one at index i: the first of the table
      with that voice. */
  predicate FirstFor(mappings: seq<PercussionMapping>, percussion: GeneralMidiPercussion, i: int) {
    0 <= i < |mappings| && mappings[i].percussionType == percussion &&
    forall j :: 0 <= j < i ==> mappings[j].percussionType != percussion
  }

  /** TryGetMappedNote: true with the note of the first mapping for the
      voice, or false with C in octave 0 when the table has none; the note
      of the first mapping throws ArgumentOutOfRange when it is outside the
      MIDI range. */
  function TryGetMappedNote(mappings: seq<PercussionMapping>, percussion: GeneralMidiPercussion): (r: Result<(bool, Note)>)
    ensures r.Fail? ==> r.error == ArgumentOutOfRange
    ensures r.Fail? <==> exists i :: FirstFor(mappings, percussion, i) && ToNote(mappings[i]).Fail?
    ensures r.Ok? ==> (r.value.0 <==> exists i :: 0 <= i < |mappings| && mappings[i].percussionType == percussion)
    ensures r.Ok? && r.value.0 ==>
      exists i :: FirstFor(mappings, percussion, i) && ToNote(mappings[i]) == Ok(r.value.1)
    ensures r.Ok? && !r.value.0 ==> r.value.1 == Note(0, 0)
  {
    var k := FirstIndex(mappings, ForVoice(percussion), 0);
    if k < |mappings| then
      assert FirstFor(mappings, percussion, k);
      match ToNote(mappings[k])
      case Ok(n) => Ok((true, n))
      case Fail(e) => Fail(e)
    else Ok((false, Note(0, 0)))
  }

  // ---------------------------------------------------------------------------
  // Lemmas

  /** The default table has eight entries for eight different voices, so
      every one of them is found, and each of its notes is playable. */
  lemma {:induction false} DefaultTableDistinct()
    ensures |DefaultPercussionMappings| == 8
    ensures forall i, j :: 0 <= i < j < |DefaultPercussionMappings| ==>
      DefaultPercussionMappings[i].percussionType != DefaultPercussionMappings[j].percussionType
    ensures forall i :: 0 <= i < |DefaultPercussionMappings| ==>
      ToNote(DefaultPercussionMappings[i]).Ok? &&
      TryGetMappedNote(DefaultPercussionMappings, DefaultPercussionMappings[i].percussionType)
      == Ok((true, ToNote(DefaultPercussionMappings[i]).value))
  {
    var d := DefaultPercussionMappings;
    forall i | 0 <= i < |d|
      ensures ToNote(d[i]).Ok? && TryGetMappedNote(d, d[i].percussionType) == Ok((true, ToNote(d[i]).value))
    {
      var k := FirstIndex(d, ForVoice(d[i].percussionType), 0);
      assert k <= i;
    }
  }

  /** Mappings before the first one for a voice do not change the lookup:
      a table with an earlier entry for a voice shadows any later one, and
      the lookup of that voice stands or falls with the entry's note. */
  lemma {:induction false} FirstMatchWins(mappings: seq<PercussionMapping>, m: PercussionMapping)
    ensures TryGetMappedNote([m] + mappings, m.percussionType) ==
      if ToNote(m).Ok? then Ok((true, ToNote(m).value)) else Fail(ArgumentOutOfRange)
    ensures forall p: GeneralMidiPercussion :: p != m.percussionType ==>
      TryGetMappedNote([m] + mappings, p) == TryGetMappedNote(mappings, p)
  {
    assert FirstIndex([m] + mappings, ForVoice(m.percussionType), 0) == 0;
    forall p: GeneralMidiPercussion | p != m.percussionType
      ensures TryGetMappedNote([m] + mappings, p) == TryGetMappedNote(mappings, p)
    {
      ShadowedLookup(mappings, m, p);
    }
  }

  /** A front entry for another voice moves the lookup of p by one place. */
  lemma {:induction false} ShadowedLookup(mappings: seq<PercussionMapping>, m: PercussionMapping, p: GeneralMidiPercussion)
    requires p != m.percussionType
    ensures TryGetMappedNote([m] + mappings, p) == TryGetMappedNote(mappings, p)
  {
    var k := FirstIndex(mappings, ForVoice(p), 0);
    FirstIndexCons(m, mappings, ForVoice(p), 0);
    assert FirstIndex([m] + mappings, ForVoice(p), 0) == k + 1;
    if k < |mappings| {
      assert ([m] + mappings)[k + 1] == mappings[k];
    }
  }

  /** A table whose stored octaves lie in -2..7 never makes the lookup
      throw: its highest note, B in stored octave 7, is MIDI note 119. */
  lemma {:induction false} PlayableOctavesNeverThrow(mappings: seq<PercussionMapping>, percussion: GeneralMidiPercussion)
    requires forall i :: 0 <= i < |mappings| ==> -2 <= mappings[i].octave <= 7
    ensures TryGetMappedNote(mappings, percussion).Ok?
  {
    var k := FirstIndex(mappings, ForVoice(percussion), 0);
    if k < |mappings| {
      var m := mappings[k];
      assert 0 <= (m.octave + 2) * 12 + m.noteName <= 127;
    }
  }

  /** Stored octave 9 puts even C at note 132, so its voice throws. */
  lemma {:induction false} TopOctaveMappingThrows()
    ensures TryGetMappedNote([PercussionMapping(AcousticBassDrum, 0, 9)], AcousticBassDrum) == Fail(ArgumentOutOfRange)
  {
    var k := FirstIndex([PercussionMapping(AcousticBassDrum, 0, 9)], ForVoice(AcousticBassDrum), 0);
    assert k == 0;
  }
}
