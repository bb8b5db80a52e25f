/** The rewriting the drum builder applies to a PianoRoll template before it
    plays it: the `{symbol}` tag of every line is replaced by the name of the
    note the percussion instrument plays for that symbol, and the lines are
    collected in a dictionary keyed by that note name, so that a later line
    for the same note replaces an earlier one in place. */
module DrumLines {
  import opened Outcomes
  import opened Text
  import opened Search
  import opened MusicTheory
  import opened Percussion
  import opened SongData

  predicate IsLetter(c: char) {
    'A' <= c <= 'Z' || 'a' <= c <= 'z'
  }

  predicate AllLetters(s: string) {
    forall i :: 0 <= i < |s| ==> IsLetter(s[i])
  }

  /** The member names of DryWetMidi's NoteName, by pitch class. */
  const NoteNameTexts: seq<string> :=
    ["C", "CSharp", "D", "DSharp", "E", "F", "FSharp", "G", "GSharp", "A", "ASharp", "B"]

  /** A NoteName as string interpolation writes it: its member name. */
  function NoteNameText(name: PitchClass): (t: string)
    ensures |t| > 0 && AllLetters(t)
    ensures name == 1 || name == 3 || name == 6 || name == 8 || name == 10 <==> |t| == 6
  {
    NoteNameTexts[name]
  }

  /** `$"{note.NoteName}{note.Octave}"`: the member name followed by the
      octave in decimal, e.g. "FSharp2". */
  function NoteString(note: Note): string {
    NoteNameText(note.name) + IntToString(note.octave)
  }

  /** The `{...}` tag of a line: from its first '{' up to and including its
      first '}', when both occur and the '}' comes after the '{'. */
  function Tag(line: string): (r: Option<string>)
    ensures r.None? <==> '{' !in line || '}' !in line || IndexOf(line, '}') < IndexOf(line, '{')
    ensures r.Some? ==>
      var f, t := IndexOf(line, '{'), r.value;
      0 <= f && f + |t| <= |line| && t == line[f..f + |t|] && |t| >= 2 &&
      t[0] == '{' && t[|t| - 1] == '}' && '}' !in t[..|t| - 1] && '}' !in line[..f]
  {
    var first, last := IndexOf(line, '{'), IndexOf(line, '}');
    if first == -1 || last == -1 || last <= first then None
    else
      var t := line[first..last + 1];
      assert t[..|t| - 1] == line[..last][first..];
      Some(t)
  }

  predicate IsBrace(c: char) {
    c == '{' || c == '}'
  }

  /** tag.Trim('{', '}'): the symbol inside a tag. */
  function Symbol(tag: string): (symbol: string)
    ensures forall i :: 0 <= i < |symbol| && (i == 0 || i == |symbol| - 1) ==> !IsBrace(symbol[i])
  {
    Trim(tag, IsBrace)
  }

  /** The voice of the first drum mapping for a symbol, if any. */
  function FindDrum(drumMappings: seq<DrumMapping>, symbol: string): (r: Option<GeneralMidiPercussion>)
    ensures r.None? <==> forall i :: 0 <= i < |drumMappings| ==> drumMappings[i].drumSymbol != symbol
    ensures r.Some? ==> exists i :: 0 <= i < |drumMappings| && drumMappings[i].drumSymbol == symbol &&
                                   drumMappings[i].drumNote == r.value &&
                                   (forall j :: 0 <= j < i ==> drumMappings[j].drumSymbol != symbol)
  {
    var k := FirstIndex(drumMappings, (m: DrumMapping) => m.drumSymbol == symbol, 0);
    if k < |drumMappings| then Some(drumMappings[k].drumNote) else None
  }

  /** The voice a line's tag names through the drum mappings, if the line
      has a tag and the tag's symbol a mapping. */
  function LineVoice(line: string, drumMappings: seq<DrumMapping>): Option<GeneralMidiPercussion> {
    if Tag(line).None? then None else FindDrum(drumMappings, Symbol(Tag(line).value))
  }

  /** One template line: ArgumentOutOfRange when the note mapped to its voice
      is outside the MIDI range; None when the line is skipped (no tag, no
      drum mapping for its symbol, no note for that voice); otherwise the
      note name and the line with every occurrence of its tag replaced by it. */
  function ProcessLine(line: string, drumMappings: seq<DrumMapping>,
                       percussionMappings: seq<PercussionMapping>): (r: Result<Option<(string, string)>>)
    ensures r.Fail? ==> r.error == ArgumentOutOfRange
    ensures r.Fail? <==>
      LineVoice(line, drumMappings).Some? && TryGetMappedNote(percussionMappings, LineVoice(line, drumMappings).value).Fail?
    ensures r.Ok? && r.value.Some? <==>
      LineVoice(line, drumMappings).Some? &&
      TryGetMappedNote(percussionMappings, LineVoice(line, drumMappings).value).Ok? &&
      TryGetMappedNote(percussionMappings, LineVoice(line, drumMappings).value).value.0
    ensures r.Ok? && r.value.Some? ==>
      var tag := Tag(line).value;
      var note := TryGetMappedNote(percussionMappings, LineVoice(line, drumMappings).value).value.1;
      r.value.value == (NoteString(note), Replace(line, tag, NoteString(note)))
  {
    match Tag(line)
    case None => Ok(None)
    case Some(tag) =>
      match FindDrum(drumMappings, Symbol(tag))
      case None => Ok(None)
      case Some(voice) =>
        match TryGetMappedNote(percussionMappings, voice)
        case Fail(e) => Fail(e)
        case Ok((found, note)) =>
          if !found then Ok(None)
          else Ok(Some((NoteString(note), Replace(line, tag, NoteString(note)))))
  }

  /** No template line throws: every voice the lines reach has a note in
      the MIDI range, or no note at all. */
  predicate LinesFit(lines: seq<string>, drumMappings: seq<DrumMapping>, percussionMappings: seq<PercussionMapping>) {
    forall i :: 0 <= i < |lines| ==> ProcessLine(lines[i], drumMappings, percussionMappings).Ok?
  }

  // ---------------------------------------------------------------------------
  // The dictionary of processed lines, as a list of entries in insertion order

  type Entries = seq<(string, string)>

  function Keys(entries: Entries): (keys: seq<string>)
    ensures |keys| == |entries| && forall i :: 0 <= i < |entries| ==> keys[i] == entries[i].0
  {
    seq(|entries|, i requires 0 <= i < |entries| => entries[i].0)
  }

  function Values(entries: Entries): (values: seq<string>)
    ensures |values| == |entries| && forall i :: 0 <= i < |entries| ==> values[i] == entries[i].1
  {
    seq(|entries|, i requires 0 <= i < |entries| => entries[i].1)
  }

  predicate DistinctKeys(entries: Entries) {
    forall i, j :: 0 <= i < j < |entries| ==> entries[i].0 != entries[j].0
  }

  function HasKey(key: string): ((string, string)) -> bool {
    (e: (string, string)) => e.0 == key
  }

  /** dictionary[key]: the value stored under a key, if any. */
  function Lookup(entries: Entries, key: string): (r: Option<string>)
    ensures r.None? <==> key !in Keys(entries)
  {
    var k := FirstIndex(entries, HasKey(key), 0);
    if k < |entries| then Some(entries[k].1)
    else
      assert forall i :: 0 <= i < |entries| ==> Keys(entries)[i] != key;
      None
  }

  /** dictionary[key] = value: an existing key keeps its position and takes
      the new value; a new key is added at the end. */
  function Upsert(entries: Entries, key: string, value: string): (r: Entries)
    ensures key in Keys(entries) ==> |r| == |entries|
    ensures key !in Keys(entries) ==> r == entries + [(key, value)]
    ensures Keys(r) == if key in Keys(entries) then Keys(entries) else Keys(entries) + [key]
  {
    var k := FirstIndex(entries, HasKey(key), 0);
    if k < |entries| then entries[k := (key, value)]
    else
      assert forall i :: 0 <= i < |entries| ==> Keys(entries)[i] != key;
      entries + [(key, value)]
  }

  /** The dictionary after the template lines, in order, or the exception
      of the first line that throws: at most one entry per line, and no key
      twice. */
  function Processed(lines: seq<string>, drumMappings: seq<DrumMapping>,
                     percussionMappings: seq<PercussionMapping>): (r: Result<Entries>)
    ensures r.Ok? <==> LinesFit(lines, drumMappings, percussionMappings)
    ensures r.Fail? ==> r.error == ArgumentOutOfRange
    ensures r.Ok? ==> |r.value| <= |lines| && DistinctKeys(r.value)
    decreases |lines|
  {
    if lines == [] then Ok([])
    else
      var init := lines[..|lines| - 1];
      LinesFitStep(lines, drumMappings, percussionMappings);
      match Processed(init, drumMappings, percussionMappings)
      case Fail(e) => Fail(e)
      case Ok(before) =>
        match ProcessLine(lines[|lines| - 1], drumMappings, percussionMappings)
        case Fail(e) => Fail(e)
        case Ok(None) => Ok(before)
        case Ok(Some((key, value))) =>
          UpsertLookup(before, key, value, key);
          Ok(Upsert(before, key, value))
  }

  /** The lines fit exactly when all but the last fit and the last does. */
  lemma {:induction false} LinesFitStep(lines: seq<string>, drumMappings: seq<DrumMapping>,
                                        percussionMappings: seq<PercussionMapping>)
    requires lines != []
    ensures LinesFit(lines, drumMappings, percussionMappings) <==>
      LinesFit(lines[..|lines| - 1], drumMappings, percussionMappings) &&
      ProcessLine(lines[|lines| - 1], drumMappings, percussionMappings).Ok?
  {
    var init := lines[..|lines| - 1];
    assert forall i :: 0 <= i < |init| ==> init[i] == lines[i];
  }

  /** The template's lines rewritten and joined again with newlines: the
      dictionary's values in insertion order; the exception of the first
      line whose mapped note is outside the MIDI range ends the loop. */
  method PreprocessPattern(pattern: string, drumMappings: seq<DrumMapping>,
                           percussionMappings: seq<PercussionMapping>) returns (processed: Result<string>)
    ensures var p := Processed(Split(pattern, '\n'), drumMappings, percussionMappings);
      processed == if p.Ok? then Ok(Join("\n", Values(p.value))) else Fail(p.error)
  {
    var lines := Split(pattern, '\n');
    var entries: Entries := [];
    var i := 0;
    while i < |lines|
      invariant 0 <= i <= |lines|
      invariant Processed(lines[..i], drumMappings, percussionMappings) == Ok(entries)
    {
      ProcessedStep(lines, i, drumMappings, percussionMappings);
      var processedLine := ProcessLine(lines[i], drumMappings, percussionMappings);
      if processedLine.Fail? {
        return Fail(processedLine.error);
      }
      if processedLine.value.Some? {
        var (noteString, rewritten) := processedLine.value.value;
        entries := Upsert(entries, noteString, rewritten);
      }
      i := i + 1;
    }
    assert lines[..|lines|] == lines;
    processed := Ok(Join("\n", Values(entries)));
  }

  /** One more line: it throws, is skipped, or upserts its entry. */
  lemma {:induction false} ProcessedStep(lines: seq<string>, i: nat, drumMappings: seq<DrumMapping>,
                                         percussionMappings: seq<PercussionMapping>)
    requires i < |lines|
    ensures var line := ProcessLine(lines[i], drumMappings, percussionMappings);
      var before := Processed(lines[..i], drumMappings, percussionMappings);
      Processed(lines[..i + 1], drumMappings, percussionMappings)
        == if before.Fail? then before
           else if line.Fail? then Fail(line.error)
           else if line.value.None? then before
           else Ok(Upsert(before.value, line.value.value.0, line.value.value.1))
  {
    var prefix := lines[..i + 1];
    assert prefix[..|prefix| - 1] == lines[..i] && prefix[|prefix| - 1] == lines[i];
  }

  /** The value a key ends up with by the reference reading: that of the last
      line processed to that key. */
  function LastFor(lines: seq<string>, drumMappings: seq<DrumMapping>,
                   percussionMappings: seq<PercussionMapping>, key: string): Option<string>
    decreases |lines|
  {
    if lines == [] then None
    else
      match ProcessLine(lines[|lines| - 1], drumMappings, percussionMappings)
      case Ok(Some((k, value))) =>
        if k == key then Some(value) else LastFor(lines[..|lines| - 1], drumMappings, percussionMappings, key)
      case _ => LastFor(lines[..|lines| - 1], drumMappings, percussionMappings, key)
  }

  // ---------------------------------------------------------------------------
  // Lemmas

  lemma {:induction false} LetterPrefixSplit(a: string, s: string, b: string, t: string)
    requires AllLetters(a) && AllLetters(b)
    requires s != [] && !IsLetter(s[0]) && t != [] && !IsLetter(t[0])
    requires a + s == b + t
    ensures a == b && s == t
  {
    assert a == (a + s)[..|a|] && b == (b + t)[..|b|];
    assert s == (a + s)[|a|..] && t == (b + t)[|b|..];
  }

  lemma {:induction false} NoteNameTextInjective(a: PitchClass, b: PitchClass)
    requires NoteNameText(a) == NoteNameText(b)
    ensures a == b
  {
    var t := NoteNameTexts;
    assert forall i, j :: 0 <= i < j < 12 ==> t[i] != t[j] by {
      forall i, j | 0 <= i < j < 12 ensures t[i] != t[j] {
        assert t[i][0] != t[j][0] || |t[i]| != |t[j]|;
      }
    }
  }

  lemma {:induction false} OctaveTextStart(octave: int)
    ensures !IsLetter(IntToString(octave)[0])
  {
    if octave >= 0 {
      assert IsDigit(NatToString(octave)[0]);
    }
  }

  /** Different notes give different keys, so lines for two different notes
      never replace one another. */
  lemma {:induction false} NoteStringInjective(a: Note, b: Note)
    requires NoteString(a) == NoteString(b)
    ensures a == b
  {
    OctaveTextStart(a.octave);
    OctaveTextStart(b.octave);
    LetterPrefixSplit(NoteNameText(a.name), IntToString(a.octave), NoteNameText(b.name), IntToString(b.octave));
    NoteNameTextInjective(a.name, b.name);
    IntToStringParses(a.octave);
    IntToStringParses(b.octave);
  }

  /** Inserting or updating a key keeps the keys distinct, and a lookup then
      sees the new value under that key and the old values under the others. */
  lemma {:induction false} UpsertLookup(entries: Entries, key: string, value: string, other: string)
    requires DistinctKeys(entries)
    ensures DistinctKeys(Upsert(entries, key, value))
    ensures Lookup(Upsert(entries, key, value), other) ==
            if other == key then Some(value) else Lookup(entries, other)
  {
    var r := Upsert(entries, key, value);
    var k := FirstIndex(entries, HasKey(key), 0);
    var m := FirstIndex(r, HasKey(other), 0);
    var m0 := FirstIndex(entries, HasKey(other), 0);
    if k < |entries| {
      assert r == entries[k := (key, value)];
      assert forall i :: 0 <= i < |r| && i != k ==> r[i] == entries[i];
    } else {
      assert r == entries + [(key, value)];
    }
    if other == key {
      assert HasKey(key)(r[k]);
      assert m <= k;
    } else {
      assert m0 <= m;
    }
  }

  /** When no line throws, the dictionary never holds a key twice, and the
      value under each key is the one the last line with that key produced. */
  lemma {:induction false} ProcessedIsLastWins(lines: seq<string>, drumMappings: seq<DrumMapping>,
                                               percussionMappings: seq<PercussionMapping>, key: string)
    ensures var p := Processed(lines, drumMappings, percussionMappings);
      p.Ok? ==> DistinctKeys(p.value) && Lookup(p.value, key) == LastFor(lines, drumMappings, percussionMappings, key)
    decreases |lines|
  {
    if lines != [] && Processed(lines, drumMappings, percussionMappings).Ok? {
      var init := lines[..|lines| - 1];
      ProcessedIsLastWins(init, drumMappings, percussionMappings, key);
      match ProcessLine(lines[|lines| - 1], drumMappings, percussionMappings)
      case Ok(None) =>
      case Ok(Some((k, value))) =>
        UpsertLookup(Processed(init, drumMappings, percussionMappings).value, k, value, key);
    }
  }

  /** A percussion table whose stored octaves lie in -2..7 lets every
      template through the rewriting. */
  lemma {:induction false} PlayableOctavesFit(lines: seq<string>, drumMappings: seq<DrumMapping>,
                                              percussionMappings: seq<PercussionMapping>)
    requires forall i :: 0 <= i < |percussionMappings| ==> -2 <= percussionMappings[i].octave <= 7
    ensures LinesFit(lines, drumMappings, percussionMappings)
    ensures Processed(lines, drumMappings, percussionMappings).Ok?
  {
    forall i | 0 <= i < |lines|
      ensures ProcessLine(lines[i], drumMappings, percussionMappings).Ok?
    {
      var voice := LineVoice(lines[i], drumMappings);
      if voice.Some? {
        PlayableOctavesNeverThrow(percussionMappings, voice.value);
      }
    }
  }
}
