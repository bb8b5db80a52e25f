/** Notes, scales and chords, and the music-theory operations the generator
    builds its material from: scale walks with octave wrap, chords built by
    index offsets into a scale, the degree-to-chord map and tempo selection. */
module MusicTheory {
  import opened Outcomes
  import opened Tonalities
  import opened Arithmetic

  /** A note name without octave (C = 0, C# = 1, ..., B = 11). */
  type PitchClass = x: int | 0 <= x < 12

  /** A note name in an octave; octave 4 holds middle C (note number 60). */
  datatype Note = Note(name: PitchClass, octave: int)

  function NoteNumber(n: Note): int {
    (n.octave + 1) * 12 + n.name
  }

  /** The note with a given note number. */
  function NoteAt(number: int): (n: Note)
    ensures NoteNumber(n) == number
  {
    Note(number % 12, number / 12 - 1)
  }

  /** A chord as its note names, root first. */
  datatype Chord = Chord(noteNames: seq<PitchClass>)

  /** The seven scale degrees, Tonic (0) to LeadingTone (6). */
  datatype ScaleDegree = Tonic | Supertonic | Mediant | Subdominant | Dominant | Submediant | LeadingTone

  function DegreeIndex(d: ScaleDegree): (i: nat)
    ensures i < 7
  {
    match d
    case Tonic => 0
    case Supertonic => 1
    case Mediant => 2
    case Subdominant => 3
    case Dominant => 4
    case Submediant => 5
    case LeadingTone => 6
  }

  /** A scale: its steps in semitones, from a root note name. */
  datatype Scale = Scale(steps: seq<nat>, root: PitchClass)

  /** The distance in semitones from the first degree of a scale to degree i. */
  function StepsBefore(steps: seq<nat>, i: nat): nat
    requires i <= |steps|
  {
    if i == 0 then 0 else StepsBefore(steps, i - 1) + steps[i - 1]
  }

  // ---------------------------------------------------------------------------
  // Scales from tonalities

  /** GetScaleFromTonality: ArgumentException for a tonality without an
      interval entry (only Ionian), otherwise the scale of its intervals. */
  function GetScaleFromTonality(t: Tonality, root: PitchClass): (r: Result<Scale>)
    ensures r.Fail? <==> t == Ionian
    ensures r.Fail? ==> r.error == ArgumentException
    ensures r.Ok? ==> r.value.root == root && TonalityIntervals(t) == Some(r.value.steps)
  {
    IntervalTableShape(t);
    match TonalityIntervals(t)
    case None => Fail(ArgumentException)
    case Some(steps) => Ok(Scale(steps, root))
  }

  /** Scale.GetStep(i): the name of degree i, i semitone steps above the root,
      taken modulo the octave. */
  function GetStep(scale: Scale, i: nat): PitchClass
    requires i <= |scale.steps|
  {
    (scale.root + StepsBefore(scale.steps, i)) % 12
  }

  /** The names of the degrees of a scale, one per interval. */
  function ScaleNoteNames(scale: Scale): (names: seq<PitchClass>)
    ensures |names| == |scale.steps|
    ensures forall i :: 0 <= i < |names| ==> names[i] == GetStep(scale, i)
  {
    seq(|scale.steps|, i requires 0 <= i < |scale.steps| => GetStep(scale, i))
  }

  /** GetTonalityNoteNames: one name per interval of the tonality, degree i
      being GetStep(i); ArgumentException for Ionian. */
  method GetTonalityNoteNames(t: Tonality, root: PitchClass) returns (r: Result<seq<PitchClass>>)
    ensures r.Fail? <==> t == Ionian
    ensures r.Fail? ==> r.error == ArgumentException
    ensures r.Ok? ==> r.value == ScaleNoteNames(GetScaleFromTonality(t, root).value)
  {
    var scale :- GetScaleFromTonality(t, root);
    var notes: seq<PitchClass> := [];
    var i := 0;
    while i < |scale.steps|
      invariant 0 <= i <= |scale.steps|
      invariant notes == ScaleNoteNames(scale)[..i]
    {
      notes := notes + [GetStep(scale, i)];
      i := i + 1;
    }
    return Ok(notes);
  }

  /** The chord GetTonalityChords builds on degree n: rooted at names[n], its
      s-th upper note being names[(n + steps[s]) % |names|]. */
  function TonalityChord(names: seq<PitchClass>, steps: seq<nat>, n: nat): (c: Chord)
    requires n < |names|
    ensures |c.noteNames| == |steps| + 1 && c.noteNames[0] == names[n]
    ensures forall s :: 0 <= s < |steps| ==> c.noteNames[s + 1] == names[(n + steps[s]) % |names|]
  {
    Chord([names[n]] + seq(|steps|, s requires 0 <= s < |steps| => names[(n + steps[s]) % |names|]))
  }

  /** The chords of a tonality: one per scale note, chord n rooted on note n;
      ArgumentException for Ionian. */
  function TonalityChordList(t: Tonality, root: PitchClass, steps: seq<nat>): (r: Result<seq<Chord>>)
    ensures r.Fail? <==> t == Ionian
    ensures r.Ok? ==> |r.value| == |TonalityIntervals(t).value|
    ensures r.Ok? ==> forall c :: c in r.value ==> |c.noteNames| == |steps| + 1
  {
    var scale :- GetScaleFromTonality(t, root);
    var names := ScaleNoteNames(scale);
    Ok(seq(|names|, n requires 0 <= n < |names| => TonalityChord(names, steps, n)))
  }

  /** GetTonalityChords: exactly one chord per scale note, chord n being
      TonalityChord(names, steps, n); ArgumentException for Ionian. */
  method GetTonalityChords(t: Tonality, root: PitchClass, steps: seq<nat>) returns (r: Result<seq<Chord>>)
    ensures r.Fail? <==> t == Ionian
    ensures r.Fail? ==> r.error == ArgumentException
    ensures r.Ok? ==>
      var names := ScaleNoteNames(GetScaleFromTonality(t, root).value);
      |r.value| == |names| &&
      forall n :: 0 <= n < |names| ==> r.value[n] == TonalityChord(names, steps, n)
    ensures r == TonalityChordList(t, root, steps)
  {
    var names :- GetTonalityNoteNames(t, root);
    var chords: seq<Chord> := [];
    var n := 0;
    while n < |names|
      invariant 0 <= n <= |names|
      invariant |chords| == n
      invariant forall k :: 0 <= k < n ==> chords[k] == TonalityChord(names, steps, k)
    {
      var chord := BuildTonalityChord(names, steps, n);
      chords := chords + [chord];
      n := n + 1;
    }
    TonalityChordListShape(t, root, steps);
    assert chords == TonalityChordList(t, root, steps).value;
    return Ok(chords);
  }

  /** TonalityChordList, chord by chord. */
  lemma {:induction false} TonalityChordListShape(t: Tonality, root: PitchClass, steps: seq<nat>)
    ensures t != Ionian ==>
      var names := ScaleNoteNames(GetScaleFromTonality(t, root).value);
      var r := TonalityChordList(t, root, steps);
      r.Ok? && |r.value| == |names| &&
      forall k :: 0 <= k < |names| ==> r.value[k] == TonalityChord(names, steps, k)
  {
  }

  /** The body of the GetTonalityChords loop for degree n: the upper notes
      are filled in one step at a time. */
  method BuildTonalityChord(names: seq<PitchClass>, steps: seq<nat>, n: nat) returns (c: Chord)
    requires n < |names|
    ensures c == TonalityChord(names, steps, n)
  {
    var above: seq<PitchClass> := [];
    var s := 0;
    while s < |steps|
      invariant 0 <= s <= |steps|
      invariant |above| == s
      invariant forall j :: 0 <= j < s ==> above[j] == names[(n + steps[j]) % |names|]
    {
      above := above + [names[(n + steps[s]) % |names|]];
      s := s + 1;
    }
    c := Chord([names[n]] + above);
  }

  /** GetTonalityDiatonicTriads passes the steps {3, 5}. */
  const TriadSteps: seq<nat> := [3, 5]

  // ---------------------------------------------------------------------------
  // Scale walks

  /** The note numbers DryWetMidi accepts, those of a SevenBitNumber: Note.Get
      and the scale and chord walks throw ArgumentOutOfRangeException for a
      note outside 0 to 127. */
  predicate InMidiRange(n: Note) {
    0 <= NoteNumber(n) <= 127
  }

  /** Note k of ScaleUtilities.GetAscendingNotes from `start`: k steps of the
      scale above it. The library's list stops at note 127, so entry k exists
      exactly when this note is in the MIDI range. */
  function AscendingNote(steps: seq<nat>, start: Note, k: nat): Note
    requires k <= |steps|
  {
    NoteAt(NoteNumber(start) + StepsBefore(steps, k))
  }

  /** Note i of the scale walk: ascending note i % n, raised by i / n
      octaves. */
  function ScaleWalkNote(steps: seq<nat>, start: Note, i: nat): Note
    requires |steps| > 0
  {
    var base := AscendingNote(steps, start, i % |steps|);
    Note(base.name, base.octave + i / |steps|)
  }

  /** The first `count` notes of the scale walk (none for a negative count),
      without the library's range checks. */
  function ScaleWalk(scale: Scale, startName: PitchClass, startOctave: int, count: int): (notes: seq<Note>)
    requires |scale.steps| > 0
    ensures |notes| == if count < 0 then 0 else count
  {
    seq(if count < 0 then 0 else count,
        i requires 0 <= i => ScaleWalkNote(scale.steps, Note(startName, startOctave), i))
  }

  /** Every note GetNotesFromScale touches is a MIDI note: the start, and the
      first `count` notes of the walk (each at or above the ascending note it
      is read from). */
  predicate WalkFits(steps: seq<nat>, start: Note, count: int)
    requires |steps| > 0
  {
    InMidiRange(start) && forall i: nat :: i < count ==> InMidiRange(ScaleWalkNote(steps, start, i))
  }

  /** The outcome of GetNotesFromScale: ArgumentOutOfRange for a start note
      outside the MIDI range; for a scale without intervals, DivideByZero as
      soon as one note is asked for; otherwise the first `count` notes of the
      walk, or ArgumentOutOfRange when one of them leaves the MIDI range. */
  function NotesFromScale(scale: Scale, startName: PitchClass, startOctave: int, count: int): (r: Result<seq<Note>>)
    ensures !InMidiRange(Note(startName, startOctave)) ==> r == Fail(ArgumentOutOfRange)
    ensures InMidiRange(Note(startName, startOctave)) && |scale.steps| == 0 ==>
      r == if count > 0 then Fail(DivideByZero) else Ok([])
    ensures |scale.steps| > 0 ==> (r.Ok? <==> WalkFits(scale.steps, Note(startName, startOctave), count))
    ensures |scale.steps| > 0 && r.Fail? ==> r.error == ArgumentOutOfRange
    ensures r.Ok? ==>
      (|r.value| == if count < 0 then 0 else count) &&
      forall i :: 0 <= i < |r.value| ==> InMidiRange(r.value[i])
    ensures r.Ok? && |scale.steps| > 0 ==> r.value == ScaleWalk(scale, startName, startOctave, count)
  {
    var start := Note(startName, startOctave);
    if !InMidiRange(start) then Fail(ArgumentOutOfRange)
    else if |scale.steps| == 0 then (if count > 0 then Fail(DivideByZero) else Ok([]))
    else if !WalkFits(scale.steps, start, count) then Fail(ArgumentOutOfRange)
    else Ok(ScaleWalk(scale, startName, startOctave, count))
  }

  /** GetNotesFromScale: the start note, then note i read from ascending
      entry i % n and raised by i / n octaves, each through the library's
      range checks. */
  method GetNotesFromScale(scale: Scale, startName: PitchClass, startOctave: int, count: int)
    returns (r: Result<seq<Note>>)
    ensures r == NotesFromScale(scale, startName, startOctave, count)
  {
    var start := Note(startName, startOctave);
    if !InMidiRange(start) {
      return Fail(ArgumentOutOfRange);
    }
    var n := |scale.steps|;
    if n == 0 {
      if count > 0 {
        return Fail(DivideByZero);
      }
      return Ok([]);
    }
    var notes: seq<Note> := [];
    var i := 0;
    while i < count
      invariant 0 <= i && (count >= 0 ==> i <= count) && (count < 0 ==> i == 0)
      invariant |notes| == i
      invariant forall j :: 0 <= j < i ==> notes[j] == ScaleWalkNote(scale.steps, start, j)
      invariant forall j: nat :: j < i ==> InMidiRange(ScaleWalkNote(scale.steps, start, j))
    {
      var current := AscendingNote(scale.steps, start, i % n);
      WalkAboveAscending(scale.steps, start, i);
      if !InMidiRange(current) {
        WalkStops(scale.steps, start, count, i);
        return Fail(ArgumentOutOfRange);
      }
      var next := Note(current.name, current.octave + i / n);
      if !InMidiRange(next) {
        WalkStops(scale.steps, start, count, i);
        return Fail(ArgumentOutOfRange);
      }
      notes := notes + [next];
      i := i + 1;
    }
    assert notes == ScaleWalk(scale, startName, startOctave, count);
    assert WalkFits(scale.steps, start, count);
    return Ok(notes);
  }

  /** GetNoteFromScale: no note for a degree outside the scale's interval
      count; otherwise the degree's entry of the one-octave walk
      GetNotesFromScale builds from the root, which fails with
      ArgumentOutOfRange when any note of that walk leaves the MIDI range. */
  function GetNoteFromScale(scale: Scale, degree: ScaleDegree, root: PitchClass, octave: int): (r: Result<Option<Note>>)
    ensures r == Ok(None) <==> DegreeIndex(degree) >= |scale.steps|
    ensures r.Fail? <==> DegreeIndex(degree) < |scale.steps| && !WalkFits(scale.steps, Note(root, octave), |scale.steps|)
    ensures r.Fail? ==> r.error == ArgumentOutOfRange
    ensures r.Ok? && r.value.Some? ==>
      InMidiRange(r.value.value) &&
      NoteNumber(r.value.value) == NoteNumber(Note(root, octave)) + StepsBefore(scale.steps, DegreeIndex(degree))
  {
    var i := DegreeIndex(degree);
    if i >= |scale.steps| then Ok(None)
    else
      var notes :- NotesFromScale(scale, root, octave, |scale.steps|);
      WalkWithinRound(scale.steps, Note(root, octave), i);
      Ok(Some(notes[i]))
  }

  /** The first n notes of the walk are the ascending notes themselves. */
  lemma {:induction false} WalkWithinRound(steps: seq<nat>, start: Note, i: nat)
    requires i < |steps|
    ensures ScaleWalkNote(steps, start, i) == AscendingNote(steps, start, i)
    ensures NoteNumber(ScaleWalkNote(steps, start, i)) == NoteNumber(start) + StepsBefore(steps, i)
  {
    DivModUnique(i, |steps|, 0, i);
  }

  /** GetNoteAtInterval: the note `interval` degrees above position
      `startIndex`, read from `scaleNotes` at (startIndex + interval) % n and
      raised by (startIndex + interval) / n octaves; ArgumentOutOfRange when
      that position is past the end of `scaleNotes` or the raised note leaves
      the MIDI range. */
  function GetNoteAtInterval(scale: Scale, scaleNotes: seq<Note>, startIndex: nat, interval: nat): (r: Result<Note>)
    requires |scale.steps| > 0
    ensures var n := |scale.steps|; var t := (startIndex + interval) % n;
      r.Fail? <==> (t >= |scaleNotes| ||
                    !InMidiRange(Note(scaleNotes[t].name, scaleNotes[t].octave + (startIndex + interval) / n)))
    ensures r.Fail? ==> r.error == ArgumentOutOfRange
    ensures r.Ok? ==> var n := |scale.steps|; var t := (startIndex + interval) % n;
      t < |scaleNotes| && InMidiRange(r.value) &&
      r.value == Note(scaleNotes[t].name, scaleNotes[t].octave + (startIndex + interval) / n) &&
      NoteNumber(r.value) == NoteNumber(scaleNotes[t]) + 12 * ((startIndex + interval) / n)
  {
    var n := |scale.steps|;
    var target := (startIndex + interval) % n;
    if target >= |scaleNotes| then Fail(ArgumentOutOfRange)
    else
      var note := Note(scaleNotes[target].name, scaleNotes[target].octave + (startIndex + interval) / n);
      if !InMidiRange(note) then Fail(ArgumentOutOfRange) else Ok(note)
  }

  /** The four-note chord GetDiatonicChordsFromScale builds on degree i from
      eight scale notes: offsets 0, 2, 4 and 6, wrapped modulo n. */
  function DiatonicChord(scaleNotes: seq<Note>, n: nat, i: nat): Chord
    requires 0 < n <= |scaleNotes| && i < n
  {
    Chord([scaleNotes[i].name, scaleNotes[(i + 2) % n].name,
           scaleNotes[(i + 4) % n].name, scaleNotes[(i + 6) % n].name])
  }

  /** The third, fifth and seventh above position i can all be read. */
  predicate ChordIntervalsFit(scale: Scale, scaleNotes: seq<Note>, i: nat)
    requires |scale.steps| > 0
  {
    GetNoteAtInterval(scale, scaleNotes, i, 2).Ok? && GetNoteAtInterval(scale, scaleNotes, i, 4).Ok? &&
    GetNoteAtInterval(scale, scaleNotes, i, 6).Ok?
  }

  /** Every note GetDiatonicChordsFromScale builds is a MIDI note: the eight
      scale notes, and the third, fifth and seventh above each of the first n
      of them. */
  predicate DiatonicFits(scale: Scale, octave: int)
    requires |scale.steps| > 0
  {
    var notes := NotesFromScale(scale, scale.root, octave, 8);
    notes.Ok? && forall i: nat :: i < |scale.steps| && i < 8 ==> ChordIntervalsFit(scale, notes.value, i)
  }

  /** GetDiatonicChordsFromScale: eight scale notes are generated from the
      root, then one chord per degree. A root outside the MIDI range fails
      first; a scale without intervals cannot be walked (DivideByZero); a
      scale of more than eight degrees reads past the eight notes, and a note
      leaving the MIDI range is refused (both ArgumentOutOfRange). */
  method GetDiatonicChordsFromScale(scale: Scale, startingOctave: int) returns (r: Result<seq<Chord>>)
    ensures !InMidiRange(Note(scale.root, startingOctave)) ==> r == Fail(ArgumentOutOfRange)
    ensures InMidiRange(Note(scale.root, startingOctave)) && |scale.steps| == 0 ==> r == Fail(DivideByZero)
    ensures |scale.steps| > 0 ==> (r.Ok? <==> |scale.steps| <= 8 && DiatonicFits(scale, startingOctave))
    ensures |scale.steps| > 0 && r.Fail? ==> r.error == ArgumentOutOfRange
    ensures r.Ok? ==>
      var sn := ScaleWalk(scale, scale.root, startingOctave, 8);
      |r.value| == |scale.steps| &&
      forall i :: 0 <= i < |r.value| ==> r.value[i] == DiatonicChord(sn, |scale.steps|, i)
  {
    var scaleNotes :- GetNotesFromScale(scale, scale.root, startingOctave, 8);
    var n := |scale.steps|;
    var chords: seq<Chord> := [];
    var i := 0;
    while i < n
      invariant 0 <= i <= n && i <= 8
      invariant |chords| == i
      invariant forall k: nat :: k < i ==> ChordIntervalsFit(scale, scaleNotes, k)
      invariant n <= 8 ==> forall k :: 0 <= k < i ==> chords[k] == DiatonicChord(scaleNotes, n, k)
    {
      if i >= |scaleNotes| {
        return Fail(ArgumentOutOfRange);
      }
      var rootNote := scaleNotes[i];
      var third := GetNoteAtInterval(scale, scaleNotes, i, 2);
      var fifth := GetNoteAtInterval(scale, scaleNotes, i, 4);
      var seventh := GetNoteAtInterval(scale, scaleNotes, i, 6);
      if third.Fail? || fifth.Fail? || seventh.Fail? {
        assert !ChordIntervalsFit(scale, scaleNotes, i);
        return Fail(ArgumentOutOfRange);
      }
      chords := chords + [Chord([rootNote.name, third.value.name, fifth.value.name, seventh.value.name])];
      i := i + 1;
    }
    return Ok(chords);
  }

  /** GetChordsFromTonality: ArgumentException for Ionian, otherwise the
      diatonic chords of the tonality's scale. */
  method GetChordsFromTonality(t: Tonality, root: PitchClass, startingOctave: int) returns (r: Result<seq<Chord>>)
    ensures t == Ionian ==> r == Fail(ArgumentException)
    ensures t != Ionian ==>
      (r.Ok? <==> 0 < |TonalityIntervals(t).value| <= 8 && DiatonicFits(Scale(TonalityIntervals(t).value, root), startingOctave))
    ensures t != Ionian && r.Fail? ==> r.error == ArgumentOutOfRange || r.error == DivideByZero
    ensures r.Ok? ==> var steps := TonalityIntervals(t).value;
      |r.value| == |steps| &&
      forall i :: 0 <= i < |r.value| ==> r.value[i] == DiatonicChord(ScaleWalk(Scale(steps, root), root, startingOctave, 8), |steps|, i)
  {
    IntervalTableShape(t);
    var scale :- GetScaleFromTonality(t, root);
    r := GetDiatonicChordsFromScale(scale, startingOctave);
  }

  /** GetChordsDegreeDictionary: Tonic..LeadingTone mapped to chords[0..6];
      fewer than seven chords make the indexing fail. */
  function GetChordsDegreeDictionary(chords: seq<Chord>): (r: Result<map<ScaleDegree, Chord>>)
    ensures r.Ok? <==> |chords| >= 7
    ensures r.Fail? ==> r.error == ArgumentOutOfRange
    ensures r.Ok? ==> forall d: ScaleDegree :: d in r.value && r.value[d] == chords[DegreeIndex(d)]
  {
    if |chords| < 7 then Fail(ArgumentOutOfRange)
    else
      var m := map[Tonic := chords[0], Supertonic := chords[1], Mediant := chords[2],
                   Subdominant := chords[3], Dominant := chords[4], Submediant := chords[5],
                   LeadingTone := chords[6]];
      DegreeMapEntries(chords, m);
      Ok(m)
  }

  lemma {:induction false} DegreeMapEntries(chords: seq<Chord>, m: map<ScaleDegree, Chord>)
    requires |chords| >= 7
    requires m == map[Tonic := chords[0], Supertonic := chords[1], Mediant := chords[2],
                      Subdominant := chords[3], Dominant := chords[4], Submediant := chords[5],
                      LeadingTone := chords[6]]
    ensures forall d: ScaleDegree :: d in m && m[d] == chords[DegreeIndex(d)]
  {
    forall d: ScaleDegree ensures d in m && m[d] == chords[DegreeIndex(d)] {
      match d
      case Tonic =>
      case Supertonic =>
      case Mediant =>
      case Subdominant =>
      case Dominant =>
      case Submediant =>
      case LeadingTone =>
    }
  }

  // ---------------------------------------------------------------------------
  // Chord voicing

  /** The smallest upward move, 1 to 12 semitones, from `from` to a note named
      `name`. */
  function UpTo(from: int, name: PitchClass): (d: int)
    ensures 1 <= d <= 12 && (from + d) % 12 == name
  {
    var d := (name - from) % 12;
    if d == 0 then 12 else d
  }

  /** Chord.ResolveNotes(octave): the root in the given octave, then every
      further name in the lowest octave that puts it above the previous note. */
  function ResolveNotes(chord: Chord, octave: int): (notes: seq<Note>)
    requires |chord.noteNames| > 0
    ensures |notes| == |chord.noteNames|
    ensures forall i :: 0 <= i < |notes| ==> notes[i].name == chord.noteNames[i]
    ensures notes[0] == Note(chord.noteNames[0], octave)
    ensures forall i, j {:trigger notes[i], notes[j]} :: 0 <= i && j == i + 1 && j < |notes| ==>
      0 < NoteNumber(notes[j]) - NoteNumber(notes[i]) <= 12
    decreases |chord.noteNames|
  {
    var names := chord.noteNames;
    if |names| == 1 then [Note(names[0], octave)]
    else
      var init := ResolveNotes(Chord(names[..|names| - 1]), octave);
      var last := init[|init| - 1];
      init + [NoteAt(NoteNumber(last) + UpTo(NoteNumber(last), names[|names| - 1]))]
  }

  // ---------------------------------------------------------------------------
  // Tempo

  datatype TempoRange = VerySlow | Slow | Moderate | Fast | VeryFast

  datatype TempoRule = Any | MultiplesOfTen | MultiplesOfFive | OnlyEven

  /** The inclusive BPM window of each tempo range. */
  function TempoRanges(range: TempoRange): (int, int) {
    match range
    case VerySlow => (40, 60)
    case Slow => (61, 90)
    case Moderate => (91, 120)
    case Fast => (121, 160)
    case VeryFast => (161, 200)
  }

  predicate FollowsRule(rule: TempoRule, bpm: int) {
    match rule
    case MultiplesOfTen => bpm % 10 == 0
    case MultiplesOfFive => bpm % 5 == 0
    case OnlyEven => bpm % 2 == 0
    case Any => true
  }

  /** The values of [lo, hi] that follow the rule, in increasing order
      (Enumerable.Range filtered by the rule). */
  function ValidBpms(lo: int, hi: int, rule: TempoRule): (bpms: seq<int>)
    decreases hi - lo + 1
  {
    if lo > hi then []
    else (if FollowsRule(rule, lo) then [lo] else []) + ValidBpms(lo + 1, hi, rule)
  }

  /** The distance between consecutive values a rule admits. */
  function RuleStep(rule: TempoRule): (m: nat)
    ensures m > 0
  {
    match rule
    case MultiplesOfTen => 10
    case MultiplesOfFive => 5
    case OnlyEven => 2
    case Any => 1
  }

  /** The list ValidBpms describes, in closed form: every RuleStep-th value
      from the first multiple of the step at or above lo, up to hi. */
  function RuleValues(lo: int, hi: int, rule: TempoRule): (bpms: seq<int>)
  {
    var m := RuleStep(rule);
    var first := FirstMultiple(lo, m);
    if first > hi then []
    else seq((hi - first) / m + 1, k requires 0 <= k <= (hi - first) / m => first + k * m)
  }

  /** GetBPMFromRange: a value of the range's window that follows the rule,
      picked uniformly; InvalidOperationException when there is none. */
  function GetBPMFromRange(range: TempoRange, rule: TempoRule, seed: nat): (r: Result<int>)
    ensures r.Fail? ==> r.error == InvalidOperation
    ensures r.Ok? ==> TempoRanges(range).0 <= r.value <= TempoRanges(range).1
    ensures r.Ok? ==> FollowsRule(rule, r.value)
  {
    var (lo, hi) := TempoRanges(range);
    var valid := RuleValues(lo, hi, rule);
    if |valid| == 0 then Fail(InvalidOperation)
    else
      var k := Range(0, |valid|, seed);
      RuleValuesSound(lo, hi, rule, k);
      Ok(valid[k])
  }

  /** Every value of the closed form lies in the window and follows the
      rule. */
  lemma {:induction false} RuleValuesSound(lo: int, hi: int, rule: TempoRule, k: int)
    requires 0 <= k < |RuleValues(lo, hi, rule)|
    ensures lo <= RuleValues(lo, hi, rule)[k] <= hi && FollowsRule(rule, RuleValues(lo, hi, rule)[k])
  {
    var m := RuleStep(rule);
    var first := FirstMultiple(lo, m);
    var v := RuleValues(lo, hi, rule)[k];
    assert v == first + k * m;
    StepValueSound(lo, hi, m, k);
    assert FollowsRule(rule, v) <==> v % m == 0;
  }

  /** The k-th multiple of m from FirstMultiple is in the window and a
      multiple of m. */
  lemma {:induction false} StepValueSound(lo: int, hi: int, m: nat, k: int)
    requires m == 10 || m == 5 || m == 2 || m == 1
    requires FirstMultiple(lo, m) <= hi && 0 <= k <= (hi - FirstMultiple(lo, m)) / m
    ensures lo <= FirstMultiple(lo, m) + k * m <= hi && (FirstMultiple(lo, m) + k * m) % m == 0
  {
    var first := FirstMultiple(lo, m);
    var n := (hi - first) / m;
    FirstMultipleBelow(lo, m);
    FirstMultipleDivides(lo, m);
    MulMonotone(k, n, m);
    assert n * m <= hi - first;
    assert k * m >= 0;
    DivModUnique(first + k * m, m, first / m + k, 0);
  }

  /** The closed form takes one value off the front the way the filter does:
      lo itself when it follows the rule, then the values above it. */
  lemma {:induction false} RuleValuesStep(lo: int, hi: int, rule: TempoRule)
    requires lo <= hi
    ensures RuleValues(lo, hi, rule)
         == (if FollowsRule(rule, lo) then [lo] else []) + RuleValues(lo + 1, hi, rule)
  {
    match rule
    case MultiplesOfTen => StepWithin(lo, hi, rule, 10);
    case MultiplesOfFive => StepWithin(lo, hi, rule, 5);
    case OnlyEven => StepWithin(lo, hi, rule, 2);
    case Any => StepWithin(lo, hi, rule, 1);
  }

  lemma {:induction false} StepWithin(lo: int, hi: int, rule: TempoRule, m: nat)
    requires lo <= hi && m == RuleStep(rule)
    requires m == 10 || m == 5 || m == 2 || m == 1
    ensures RuleValues(lo, hi, rule)
         == (if FollowsRule(rule, lo) then [lo] else []) + RuleValues(lo + 1, hi, rule)
  {
    var a, b := RuleValues(lo, hi, rule), RuleValues(lo + 1, hi, rule);
    var first, next := FirstMultiple(lo, m), FirstMultiple(lo + 1, m);
    assert FollowsRule(rule, lo) <==> lo % m == 0;
    if lo % m == 0 {
      FirstMultipleAfter(lo, m);
      assert |a| == (hi - lo) / m + 1;
      NextCount(hi - lo, m);
      assert |a| == |b| + 1;
      forall k | 0 <= k < |b|
        ensures a[k + 1] == b[k]
      {
        assert a[k + 1] == lo + (k + 1) * m == lo + m + k * m;
      }
      assert a == [lo] + b;
    } else {
      FirstMultipleSkips(lo, m);
    }
  }

  /** The first multiple of m at or above lo, as RuleValues computes it. */
  function FirstMultiple(lo: int, m: nat): int
    requires m > 0
  {
    lo + (m - lo % m) % m
  }

  lemma {:induction false} FirstMultipleAfter(lo: int, m: nat)
    requires m == 10 || m == 5 || m == 2 || m == 1
    requires lo % m == 0
    ensures FirstMultiple(lo, m) == lo && FirstMultiple(lo + 1, m) == lo + m
  {
  }

  lemma {:induction false} FirstMultipleSkips(lo: int, m: nat)
    requires m == 10 || m == 5 || m == 2 || m == 1
    requires lo % m != 0
    ensures FirstMultiple(lo, m) == FirstMultiple(lo + 1, m)
  {
  }

  lemma {:induction false} NextCount(d: nat, m: nat)
    requires m == 10 || m == 5 || m == 2 || m == 1
    ensures d >= m ==> (d - m) / m + 1 == d / m
    ensures d < m ==> d / m == 0
  {
  }

  /** The closed form is the list GetBPMFromRange filters out of the
      window. */
  lemma {:induction false} RuleValuesAreValidBpms(lo: int, hi: int, rule: TempoRule)
    ensures RuleValues(lo, hi, rule) == ValidBpms(lo, hi, rule)
    decreases hi - lo + 1
  {
    if lo <= hi {
      RuleValuesStep(lo, hi, rule);
      RuleValuesAreValidBpms(lo + 1, hi, rule);
    } else {
      var m := RuleStep(rule);
      assert FirstMultiple(lo, m) >= lo;
    }
  }

  /** GetBPMFromRange as written: the list of the window's values that
      follow the rule, InvalidOperationException when it is empty, otherwise
      the element at Random.Range(0, count). */
  lemma {:induction false} GetBPMFromRangePicksFromList(range: TempoRange, rule: TempoRule, seed: nat)
    ensures var valid := ValidBpms(TempoRanges(range).0, TempoRanges(range).1, rule);
      GetBPMFromRange(range, rule, seed)
        == if valid == [] then Fail(InvalidOperation) else Ok(valid[Range(0, |valid|, seed)])
  {
    RuleValuesAreValidBpms(TempoRanges(range).0, TempoRanges(range).1, rule);
  }

  /** Every listed value lies in the window and follows the rule. */
  lemma {:induction false} ValidBpmsSound(lo: int, hi: int, rule: TempoRule, k: int)
    requires 0 <= k < |ValidBpms(lo, hi, rule)|
    ensures lo <= ValidBpms(lo, hi, rule)[k] <= hi && FollowsRule(rule, ValidBpms(lo, hi, rule)[k])
    decreases hi - lo + 1
  {
    var head := if FollowsRule(rule, lo) then [lo] else [];
    assert ValidBpms(lo, hi, rule) == head + ValidBpms(lo + 1, hi, rule);
    if k >= |head| {
      ValidBpmsSound(lo + 1, hi, rule, k - |head|);
    }
  }

  // ---------------------------------------------------------------------------
  // Lemmas

  lemma {:induction false} NoteAtNumber(n: Note)
    ensures NoteAt(NoteNumber(n)) == n
  {
    var k := NoteNumber(n);
    assert k == (n.octave + 1) * 12 + n.name;
    assert k / 12 == n.octave + 1 && k % 12 == n.name;
  }

  /** For every tempo range and rule of the table some BPM qualifies (every
      window is wider than the largest step), so the
      InvalidOperationException is never raised. */
  lemma {:induction false} BpmAlwaysAvailable(range: TempoRange, rule: TempoRule, seed: nat)
    ensures GetBPMFromRange(range, rule, seed).Ok?
  {
    var m := RuleStep(rule);
    FirstMultipleBelow(TempoRanges(range).0, m);
  }

  lemma {:induction false} FirstMultipleBelow(lo: int, m: nat)
    requires m == 10 || m == 5 || m == 2 || m == 1
    ensures lo <= FirstMultiple(lo, m) < lo + m
  {
  }

  lemma {:induction false} FirstMultipleDivides(lo: int, m: nat)
    requires m > 0
    ensures FirstMultiple(lo, m) % m == 0 && FirstMultiple(lo, m) == (FirstMultiple(lo, m) / m) * m
  {
    var q, r := lo / m, lo % m;
    if r == 0 {
      DivModUnique(m, m, 1, 0);
      DivModUnique(lo, m, q, 0);
    } else {
      DivModUnique(m - r, m, 0, m - r);
      assert FirstMultiple(lo, m) == q * m + m == (q + 1) * m;
      DivModUnique((q + 1) * m, m, q + 1, 0);
    }
  }

  /** Every value of the window that follows the rule is listed. */
  lemma {:induction false} ValidBpmsComplete(lo: int, hi: int, rule: TempoRule, v: int)
    requires lo <= v <= hi && FollowsRule(rule, v)
    ensures v in ValidBpms(lo, hi, rule)
    decreases hi - lo
  {
    if v > lo {
      ValidBpmsComplete(lo + 1, hi, rule, v);
    }
  }

  /** Every qualifying BPM of the window is the outcome of some draw. */
  lemma {:induction false} BpmOutcomesCovered(range: TempoRange, rule: TempoRule, v: int)
    requires TempoRanges(range).0 <= v <= TempoRanges(range).1 && FollowsRule(rule, v)
    ensures exists seed: nat :: GetBPMFromRange(range, rule, seed) == Ok(v)
  {
    var lo, hi := TempoRanges(range).0, TempoRanges(range).1;
    var valid := ValidBpms(lo, hi, rule);
    ValidBpmsComplete(lo, hi, rule, v);
    var k :| 0 <= k < |valid| && valid[k] == v;
    RangeCoversAll(0, |valid|, k);
    GetBPMFromRangePicksFromList(range, rule, k);
    assert GetBPMFromRange(range, rule, k) == Ok(v);
  }

  /** The ascending walk over the whole scale returns to the root name one
      span higher. */
  lemma {:induction false} StepSumIsStepsBefore(steps: seq<nat>)
    ensures StepSum(steps) == StepsBefore(steps, |steps|)
  {
    StepSumFromSplit(steps, |steps|);
  }

  lemma {:induction false} StepSumFromSplit(steps: seq<nat>, i: nat)
    requires i <= |steps|
    ensures StepSumFrom(steps, 0) == StepsBefore(steps, i) + StepSumFrom(steps, i)
    decreases i
  {
    if i > 0 {
      StepSumFromSplit(steps, i - 1);
    }
  }

  /** Note i of GetNotesFromScale lies i / n octaves above ascending note
      i % n. */
  lemma {:induction false} ScaleWalkOctaves(steps: seq<nat>, start: Note, i: nat)
    requires |steps| > 0
    ensures NoteNumber(ScaleWalkNote(steps, start, i))
         == NoteNumber(AscendingNote(steps, start, i % |steps|)) + 12 * (i / |steps|)
  {
  }

  /** Note i of the walk is the note built from ascending note i % n, at or
      above it, and at or above the start. */
  lemma {:induction false} WalkAboveAscending(steps: seq<nat>, start: Note, i: nat)
    requires |steps| > 0
    ensures var current := AscendingNote(steps, start, i % |steps|);
      ScaleWalkNote(steps, start, i) == Note(current.name, current.octave + i / |steps|) &&
      NoteNumber(start) <= NoteNumber(current) <= NoteNumber(ScaleWalkNote(steps, start, i))
  {
    ScaleWalkOctaves(steps, start, i);
  }

  /** A walked note outside the MIDI range before `count` means the walk
      does not fit. */
  lemma {:induction false} WalkStops(steps: seq<nat>, start: Note, count: int, i: nat)
    requires |steps| > 0 && i < count && !InMidiRange(ScaleWalkNote(steps, start, i))
    ensures !WalkFits(steps, start, count)
  {
  }

  /** The unbounded walk: i steps of the scale, taken cyclically. */
  function Walk(steps: seq<nat>, i: nat): nat
    requires |steps| > 0
  {
    if i == 0 then 0 else Walk(steps, i - 1) + steps[(i - 1) % |steps|]
  }

  lemma {:induction false} WalkSplits(steps: seq<nat>, i: nat)
    requires |steps| > 0
    ensures Walk(steps, i) == (i / |steps|) * StepsBefore(steps, |steps|) + StepsBefore(steps, i % |steps|)
  {
    var n := |steps|;
    var q, m := i / n, i % n;
    assert i == q * n + m;
    WalkPeriods(steps, q, m);
  }

  /** q whole rounds of the scale and then m more steps. */
  lemma {:induction false} WalkPeriods(steps: seq<nat>, q: nat, m: nat)
    requires 0 < |steps| && m <= |steps|
    ensures Walk(steps, q * |steps| + m) == q * StepsBefore(steps, |steps|) + StepsBefore(steps, m)
    decreases q, m
  {
    var n := |steps|;
    if m > 0 {
      WalkPeriods(steps, q, m - 1);
      DivModUnique(q * n + m - 1, n, q, m - 1);
    } else if q > 0 {
      WalkPeriods(steps, q - 1, n);
      assert (q - 1) * n + n == q * n;
      assert (q - 1) * StepsBefore(steps, n) + StepsBefore(steps, n) == q * StepsBefore(steps, n);
    }
  }

  /** For a scale spanning one octave, GetNotesFromScale is the scale's
      unbounded ascending walk: note i is i steps above the start, so the
      notes strictly ascend when every step is positive. */
  lemma {:induction false} ScaleWalkAscends(steps: seq<nat>, start: Note, i: nat)
    requires |steps| > 0 && StepSum(steps) == 12
    ensures NoteNumber(ScaleWalkNote(steps, start, i)) == NoteNumber(start) + Walk(steps, i)
    ensures (forall k :: 0 <= k < |steps| ==> steps[k] > 0) ==>
      NoteNumber(ScaleWalkNote(steps, start, i)) < NoteNumber(ScaleWalkNote(steps, start, i + 1))
  {
    StepSumIsStepsBefore(steps);
    WalkSplits(steps, i);
    WalkSplits(steps, i + 1);
    ScaleWalkOctaves(steps, start, i);
    ScaleWalkOctaves(steps, start, i + 1);
  }

  /** The name of ascending note k is k steps above the start's name, taken
      modulo the octave. */
  lemma {:induction false} AscendingNoteName(steps: seq<nat>, start: Note, k: nat)
    requires k <= |steps|
    ensures AscendingNote(steps, start, k).name == (start.name + StepsBefore(steps, k)) % 12
  {
    var b := start.name + StepsBefore(steps, k);
    var num := NoteNumber(start) + StepsBefore(steps, k);
    assert num == (start.octave + 1) * 12 + b;
    DivModUnique(num, 12, start.octave + 1 + b / 12, b % 12);
  }

  /** Within the first n of the eight notes GetDiatonicChordsFromScale
      generates, note k is named after scale degree k. */
  lemma {:induction false} ScaleNoteName(scale: Scale, octave: int, k: nat)
    requires 0 < |scale.steps| && k < |scale.steps| && k < 8
    ensures ScaleWalk(scale, scale.root, octave, 8)[k].name == GetStep(scale, k)
  {
    var start := Note(scale.root, octave);
    DivModUnique(k, |scale.steps|, 0, k);
    assert ScaleWalk(scale, scale.root, octave, 8)[k] == ScaleWalkNote(scale.steps, start, k);
    AscendingNoteName(scale.steps, start, k);
  }

  /** Degree i of a GetDiatonicChordsFromScale chord list holds the names of
      scale degrees i, i + 2, i + 4 and i + 6, wrapped modulo n: the octave
      shifts of GetNoteAtInterval do not reach the chord. */
  lemma {:induction false} DiatonicChordDegrees(scale: Scale, octave: int, i: nat)
    requires 0 < |scale.steps| <= 8 && i < |scale.steps|
    ensures var n := |scale.steps|;
      DiatonicChord(ScaleWalk(scale, scale.root, octave, 8), n, i).noteNames
      == [GetStep(scale, i), GetStep(scale, (i + 2) % n), GetStep(scale, (i + 4) % n), GetStep(scale, (i + 6) % n)]
  {
    var n := |scale.steps|;
    ScaleNoteName(scale, octave, i);
    ScaleNoteName(scale, octave, (i + 2) % n);
    ScaleNoteName(scale, octave, (i + 4) % n);
    ScaleNoteName(scale, octave, (i + 6) % n);
  }

  /** With the steps {3, 5} of GetTonalityDiatonicTriads and its 0-based
      lookup, the tonic chord of C major is C-F-A (degrees 1, 4 and 6), and
      its dominant chord is G-C-E. */
  lemma {:induction false} CMajorTriadsAsWritten()
    ensures var names := ScaleNoteNames(Scale([2, 2, 1, 2, 2, 2, 1], 0));
      names == [0, 2, 4, 5, 7, 9, 11] &&
      TonalityChord(names, TriadSteps, 0) == Chord([0, 5, 9]) &&
      TonalityChord(names, TriadSteps, 4) == Chord([7, 0, 4])
  {
    CMajorNoteNames();
    CMajorTriadLookups();
  }

  /** The note names of the C major scale. */
  lemma {:induction false} CMajorNoteNames()
    ensures ScaleNoteNames(Scale([2, 2, 1, 2, 2, 2, 1], 0)) == [0, 2, 4, 5, 7, 9, 11]
  {
    var scale := Scale([2, 2, 1, 2, 2, 2, 1], 0);
    assert StepsBefore(scale.steps, 1) == 2;
    assert StepsBefore(scale.steps, 2) == 4;
    assert StepsBefore(scale.steps, 3) == 5;
    assert StepsBefore(scale.steps, 4) == 7;
    assert StepsBefore(scale.steps, 5) == 9;
    assert StepsBefore(scale.steps, 6) == 11;
  }

  lemma {:induction false} CMajorTriadLookups()
    ensures TonalityChord([0, 2, 4, 5, 7, 9, 11], TriadSteps, 0) == Chord([0, 5, 9])
    ensures TonalityChord([0, 2, 4, 5, 7, 9, 11], TriadSteps, 4) == Chord([7, 0, 4])
  {
  }

  /** Of the tonalities, GetChordsFromTonality fails for Ionian (no entry),
      Microtonal and Atonal (no intervals) and Chromatic (twelve degrees), and
      for no other. */
  lemma {:induction false} ChordsFromTonalityFailures(t: Tonality)
    ensures t != Ionian ==>
      (0 < |TonalityIntervals(t).value| <= 8 <==> t !in {Microtonal, Atonal, Chromatic})
  {
    IntervalTableShape(t);
  }

  // ---------------------------------------------------------------------------
  // The MIDI range

  /** The distance to a later degree is never smaller. */
  lemma {:induction false} StepsBeforeMonotone(steps: seq<nat>, i: nat, j: nat)
    requires i <= j <= |steps|
    ensures StepsBefore(steps, i) <= StepsBefore(steps, j)
    decreases j
  {
    if i < j {
      StepsBeforeMonotone(steps, i, j - 1);
    }
  }

  /** A scale spanning one octave, walked from an octave between -1 and 7,
      stays in the MIDI range: GetNoteFromScale cannot throw there. */
  lemma {:induction false} OneOctaveWalkFits(steps: seq<nat>, root: PitchClass, octave: int)
    requires |steps| > 0 && StepSum(steps) == 12 && -1 <= octave <= 7
    ensures WalkFits(steps, Note(root, octave), |steps|)
  {
    var start := Note(root, octave);
    StepSumIsStepsBefore(steps);
    forall i: nat | i < |steps|
      ensures InMidiRange(ScaleWalkNote(steps, start, i))
    {
      WalkWithinRound(steps, start, i);
      StepsBeforeMonotone(steps, i, |steps|);
    }
  }

  /** From octave 9, the highest an instrument may be given, the one-octave
      walk of C major passes note 127, so GetNoteFromScale throws even for the
      tonic. */
  lemma {:induction false} TopOctaveOverflows()
    ensures GetNoteFromScale(Scale([2, 2, 1, 2, 2, 2, 1], 0), Tonic, 0, 9) == Fail(ArgumentOutOfRange)
  {
    var steps: seq<nat> := [2, 2, 1, 2, 2, 2, 1];
    var start := Note(0, 9);
    assert StepsBefore(steps, 6) == 11 by {
      assert StepsBefore(steps, 1) == 2;
      assert StepsBefore(steps, 2) == 4;
      assert StepsBefore(steps, 3) == 5;
      assert StepsBefore(steps, 4) == 7;
      assert StepsBefore(steps, 5) == 9;
    }
    WalkWithinRound(steps, start, 6);
    assert !WalkFits(steps, start, |steps|);
  }

  /** Within the eight notes of a scale of five to eight degrees spanning one
      octave, note i lies at most two octaves above the start, and the first n
      lie within one octave of it. */
  lemma {:induction false} ScaleWalkBound(steps: seq<nat>, start: Note, i: nat)
    requires 5 <= |steps| && StepSum(steps) == 12 && i < 8
    ensures NoteNumber(start) <= NoteNumber(ScaleWalkNote(steps, start, i)) <= NoteNumber(start) + 24
    ensures i < |steps| ==> NoteNumber(ScaleWalkNote(steps, start, i)) <= NoteNumber(start) + 12
  {
    var n := |steps|;
    StepSumIsStepsBefore(steps);
    ScaleWalkOctaves(steps, start, i);
    if i < n {
      DivModUnique(i, n, 0, i);
    } else {
      DivModUnique(i, n, 1, i - n);
    }
    StepsBeforeMonotone(steps, i % n, n);
  }

  /** From a middle octave, the note `interval` (at most six) degrees above
      position i of the eight scale notes is a MIDI note. */
  lemma {:induction false} IntervalNoteFits(scale: Scale, octave: int, i: nat, interval: nat)
    requires 5 <= |scale.steps| <= 8 && StepSum(scale.steps) == 12 && -1 <= octave <= 5
    requires i < |scale.steps| && interval <= 6
    ensures GetNoteAtInterval(scale, ScaleWalk(scale, scale.root, octave, 8), i, interval).Ok?
  {
    var n, start := |scale.steps|, Note(scale.root, octave);
    var notes := ScaleWalk(scale, scale.root, octave, 8);
    var t, q := (i + interval) % n, (i + interval) / n;
    assert 0 <= q <= 2 by {
      DivModSplit(i + interval, n);
      if q >= 3 {
        MulMonotone(3, q, n);
      }
    }
    ScaleWalkBound(scale.steps, start, t);
    assert notes[t] == ScaleWalkNote(scale.steps, start, t);
    var m := Note(notes[t].name, notes[t].octave + q);
    assert NoteNumber(m) == NoteNumber(notes[t]) + 12 * q;
    assert NoteNumber(start) <= 83;
  }

  /** Scales of five to eight degrees spanning one octave fit from octaves -1
      to 5: GetDiatonicChordsFromScale does not throw there. */
  lemma {:induction false} MiddleOctavesFit(scale: Scale, octave: int)
    requires 5 <= |scale.steps| <= 8 && StepSum(scale.steps) == 12 && -1 <= octave <= 5
    ensures DiatonicFits(scale, octave)
  {
    var start := Note(scale.root, octave);
    forall i: nat | i < 8
      ensures InMidiRange(ScaleWalkNote(scale.steps, start, i))
    {
      ScaleWalkBound(scale.steps, start, i);
    }
    assert WalkFits(scale.steps, start, 8);
    var notes := NotesFromScale(scale, scale.root, octave, 8).value;
    forall i: nat | i < |scale.steps| && i < 8
      ensures ChordIntervalsFit(scale, notes, i)
    {
      IntervalNoteFits(scale, octave, i, 2);
      IntervalNoteFits(scale, octave, i, 4);
      IntervalNoteFits(scale, octave, i, 6);
    }
  }

  /** Every tonality of at most eight intervals fits from octaves -1 to 5:
      GetChordsFromTonality(t, root, 4), the call MIDISongPart makes, fails
      only for Ionian, Microtonal, Atonal and Chromatic. */
  lemma {:induction false} TableScalesFit(t: Tonality, root: PitchClass, octave: int)
    requires t != Ionian && 0 < |TonalityIntervals(t).value| <= 8 && -1 <= octave <= 5
    ensures DiatonicFits(Scale(TonalityIntervals(t).value, root), octave)
  {
    IntervalTableShape(t);
    IntervalTableSizes(t);
    MiddleOctavesFit(Scale(TonalityIntervals(t).value, root), octave);
  }
}
