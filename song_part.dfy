/** MIDISongPart: a song part's tracks, the per-track files GenerateTracks
    asks the generator manager for (track i on channel i), the silent
    "dummy" file with one short note per track, and the rule that picks the
    role of a track about to be added. */
module SongPart {
  import opened Outcomes
  import opened Midi
  import opened Text
  import opened Search
  import opened Tonalities
  import opened MusicTheory
  import opened SongData
  import opened TrackEdits
  import opened GeneratorManager
  import opened Arithmetic

  /** The musical genres a track can be written for. */
  datatype Genre = Rock | Pop | Jazz | Electronic | Blues | Metal | Punk | Latin | HipHop | Folk | SoulRnb
                 | Reggae | Country | Classical

  /** MIDITrack, as a value: its role, instrument and genre, and the file the
      generator produced for it (MidiData, kept as its chunks), if any. */
  datatype PartTrack = PartTrack(role: TrackRole, instrument: Instrument, genre: Genre, midiData: Option<seq<Chunk>>)

  /** The ticks the default dummy duration of half a second gives:
      (int)(0.5f * 480). */
  const DefaultDummyTicks: nat := 240

  /** The key, velocity and delta pattern of the dummy notes. */
  const DummyKey: nat := 60

  // ---------------------------------------------------------------------------
  // The dummy file

  /** The instruments of the tracks, in order: all the dummy file reads. */
  function Instruments(tracks: seq<PartTrack>): (r: seq<Instrument>)
    ensures |r| == |tracks| && forall i :: 0 <= i < |r| ==> r[i] == tracks[i].instrument
  {
    seq(|tracks|, i requires 0 <= i < |tracks| => tracks[i].instrument)
  }

  /** A track of the dummy file fails when int.Parse rejects its bank name,
      or, once the bank is read, when the note count is zero (the division
      totalTicks / dummyNoteCount). */
  predicate DummyTrackFails(inst: Instrument, noteCount: int) {
    Int32Parse(inst.bankName).Fail? || noteCount == 0
  }

  /** The exception a failing track raises: the parse error comes first. */
  function DummyTrackError(inst: Instrument, noteCount: int): Exception
    requires DummyTrackFails(inst, noteCount)
  {
    var bank := Int32Parse(inst.bankName);
    if bank.Fail? then bank.error else DivideByZero
  }

  /** The position of the first failing track, or the number of tracks. */
  function FirstDummyFailure(insts: seq<Instrument>, noteCount: int): (k: nat)
    ensures k <= |insts|
    ensures k < |insts| ==> DummyTrackFails(insts[k], noteCount)
    ensures forall j :: 0 <= j < k ==> !DummyTrackFails(insts[j], noteCount)
  {
    FirstIndex(insts, inst => DummyTrackFails(inst, noteCount), 0)
  }

  /** `count` NoteOn/NoteOff pairs of key 60 (velocity 1, then 0), every
      event `ticksPerNote` ticks after the one before. */
  function DummyNotes(count: int, ticksPerNote: nat, channel: nat): (notes: Chunk)
    ensures |notes| == if count > 0 then 2 * count else 0
    ensures forall k :: 0 <= k < |notes| ==> notes[k].delta == ticksPerNote
    ensures forall k :: 0 <= k < |notes| && k % 2 == 0 ==> notes[k].event == NoteOn(channel, DummyKey, 1)
    ensures forall k :: 0 <= k < |notes| && k % 2 == 1 ==> notes[k].event == NoteOff(channel, DummyKey, 0)
    decreases count
  {
    if count <= 0 then []
    else DummyNotes(count - 1, ticksPerNote, channel) + DummyPair(ticksPerNote, channel)
  }

  /** One dummy note: its NoteOn and its NoteOff. */
  function DummyPair(ticksPerNote: nat, channel: nat): (pair: Chunk)
  {
    [TimedEvent(ticksPerNote, NoteOn(channel, DummyKey, 1)), TimedEvent(ticksPerNote, NoteOff(channel, DummyKey, 0))]
  }

  /** The head of a dummy chunk: Bank Select MSB `bank >> 7` (without the
      seven-bit mask the generators apply), Bank Select LSB `bank & 0x7F` and
      the program change, all at delta 0. */
  function DummyHead(bank: nat, patch: nat, channel: nat): (head: Chunk)
  {
    [TimedEvent(0, ControlChange(channel, 0, bank / 128)),
     TimedEvent(0, ControlChange(channel, 32, bank % 128)),
     TimedEvent(0, ProgramChange(channel, patch))]
  }

  /** The dummy chunk of one track on `channel`, given its bank number. */
  function DummyChunk(bank: nat, patch: nat, channel: nat, noteCount: int, totalTicks: nat): Chunk
  {
    DummyHead(bank, patch, channel)
    + if noteCount > 0 then DummyNotes(noteCount, totalTicks / noteCount, channel) else []
  }

  /** The bank of an instrument whose bank name parses. */
  function ParsedBank(inst: Instrument): int
    requires Int32Parse(inst.bankName).Ok?
  {
    Int32Parse(inst.bankName).value
  }

  /** What the casts to SevenBitNumber need of an instrument: a seven-bit
      program, and a bank that parses to a number whose upper seven bits fit
      seven bits (the dummy file does not mask them). */
  predicate CastsFit(inst: Instrument) {
    0 <= inst.patchIndex < 128 &&
    (Int32TryParse(inst.bankName).Some? ==> 0 <= Int32TryParse(inst.bankName).value < 128 * 128)
  }

  /** At most sixteen tracks (their channel numbers are four-bit numbers),
      each of whose instruments fits the casts. */
  predicate InstrumentsFit(insts: seq<Instrument>) {
    |insts| <= 16 && forall i :: 0 <= i < |insts| ==> CastsFit(insts[i])
  }

  /** The dummy chunk of the i-th instrument, on channel i. */
  function DummyChunkOf(insts: seq<Instrument>, i: nat, noteCount: int, totalTicks: nat): Chunk
    requires InstrumentsFit(insts) && i < |insts| && Int32Parse(insts[i].bankName).Ok?
  {
    DummyChunk(ParsedBank(insts[i]), insts[i].patchIndex, i, noteCount, totalTicks)
  }

  /** `chunks` are the dummy chunks of the first |chunks| tracks, none of
      which fails. */
  predicate DummyPrefix(insts: seq<Instrument>, chunks: seq<Chunk>, noteCount: int, totalTicks: nat)
    requires InstrumentsFit(insts)
  {
    |chunks| <= |insts| &&
    forall j :: 0 <= j < |chunks| ==>
      !DummyTrackFails(insts[j], noteCount) && chunks[j] == DummyChunkOf(insts, j, noteCount, totalTicks)
  }

  /** GenerateDummyMidiFile: the first track that fails ends the call with
      its exception; otherwise chunk i is track i's dummy chunk on channel i. */
  function DummyChunks(insts: seq<Instrument>, noteCount: int, totalTicks: nat): (r: Result<seq<Chunk>>)
    requires InstrumentsFit(insts)
    ensures r.Fail? <==> FirstDummyFailure(insts, noteCount) < |insts|
    ensures r.Ok? ==> |r.value| == |insts|
    ensures r.Ok? ==> forall i :: 0 <= i < |insts| ==> r.value[i] == DummyChunkOf(insts, i, noteCount, totalTicks)
  {
    var k := FirstDummyFailure(insts, noteCount);
    if k < |insts| then Fail(DummyTrackError(insts[k], noteCount))
    else Ok(seq(|insts|, i requires 0 <= i < |insts| => DummyChunkOf(insts, i, noteCount, totalTicks)))
  }

  /** The loop of GenerateDummyMidiFile for one track: the head, then the
      dummy notes appended one pair at a time. */
  method BuildDummyChunk(bank: nat, patch: nat, channel: nat, noteCount: int, totalTicks: nat) returns (chunk: Chunk)
    requires noteCount != 0
    ensures chunk == DummyChunk(bank, patch, channel, noteCount, totalTicks)
  {
    var head := DummyHead(bank, patch, channel);
    chunk := head;
    var ticksPerNote := DivTrunc(totalTicks, noteCount);
    if noteCount > 0 {
      DivBounds(totalTicks, noteCount);
    }
    ghost var ticks: nat := if noteCount > 0 then totalTicks / noteCount else 0;
    var i := 0;
    while i < noteCount
      invariant 0 <= i <= (if noteCount > 0 then noteCount else 0)
      invariant chunk == head + DummyNotes(i, ticks, channel)
    {
      assert ticksPerNote == ticks;
      chunk := chunk + DummyPair(ticksPerNote, channel);
      assert head + DummyNotes(i + 1, ticks, channel) == head + DummyNotes(i, ticks, channel) + DummyPair(ticks, channel);
      i := i + 1;
    }
  }

  /** The body of GenerateDummyMidiFile's loop for one track: the bank is
      parsed, the ticks per note divided out, and the chunk built. */
  method DummyTrackChunk(inst: Instrument, channel: nat, noteCount: int, totalTicks: nat) returns (r: Result<Chunk>)
    requires CastsFit(inst)
    ensures r.Fail? <==> DummyTrackFails(inst, noteCount)
    ensures r.Fail? ==> r.error == DummyTrackError(inst, noteCount)
    ensures r.Ok? ==> r.value == DummyChunk(ParsedBank(inst), inst.patchIndex, channel, noteCount, totalTicks)
  {
    var bank := Int32Parse(inst.bankName);
    if bank.Fail? {
      return Fail(bank.error);
    }
    if noteCount == 0 {
      return Fail(DivideByZero);
    }
    var chunk := BuildDummyChunk(bank.value, inst.patchIndex, channel, noteCount, totalTicks);
    return Ok(chunk);
  }

  /** The foreach of GenerateDummyMidiFile: chunk after chunk appended to
      the new file, track i on channel i, until a track fails. */
  method WriteDummyChunks(file: MidiFile, insts: seq<Instrument>, noteCount: int, totalTicks: nat) returns (r: Result<()>)
    requires InstrumentsFit(insts) && file.chunks == []
    modifies file
    ensures r.Ok? <==> DummyChunks(insts, noteCount, totalTicks).Ok?
    ensures r.Ok? ==> file.chunks == DummyChunks(insts, noteCount, totalTicks).value
    ensures r.Fail? ==> DummyChunks(insts, noteCount, totalTicks) == Fail(r.error)
  {
    var channel := 0;
    while channel < |insts|
      invariant 0 <= channel <= |insts|
      invariant |file.chunks| == channel
      invariant DummyPrefix(insts, file.chunks, noteCount, totalTicks)
    {
      var chunk := DummyTrackChunk(insts[channel], channel, noteCount, totalTicks);
      if chunk.Fail? {
        DummyChunksFail(insts, noteCount, totalTicks, channel, file.chunks);
        return Fail(chunk.error);
      }
      DummyPrefixStep(insts, file.chunks, noteCount, totalTicks, chunk.value);
      file.chunks := file.chunks + [chunk.value];
      channel := channel + 1;
    }
    DummyChunksOk(insts, noteCount, totalTicks, file.chunks);
    return Ok(());
  }

  // ---------------------------------------------------------------------------
  // The role of a new track

  /** List.Exists(track => track.Role == role). */
  predicate HasRole(tracks: seq<PartTrack>, role: TrackRole) {
    exists i :: 0 <= i < |tracks| && tracks[i].role == role
  }

  /** GetTrackRole: Rhythm for a drum kit while no track plays rhythm;
      otherwise Lead while there is none; otherwise Backing while there is
      none; otherwise roles[seed % 3] of Rhythm, Backing, Lead (the draw of
      Random.Range(0, 3)). */
  function GetTrackRole(currentTracks: seq<PartTrack>, instrument: Instrument, seed: nat): (r: TrackRole)
    ensures !r.Undeclared?
    ensures var drumsFirst := instrument.instrumentType == Drums && !HasRole(currentTracks, Rhythm);
      var allTaken := HasRole(currentTracks, Lead) && HasRole(currentTracks, Backing);
      (r == Rhythm <==> drumsFirst || (allTaken && seed % 3 == 0)) &&
      (!HasRole(currentTracks, Lead) && !drumsFirst ==> r == Lead) &&
      (HasRole(currentTracks, Lead) && !HasRole(currentTracks, Backing) && !drumsFirst ==> r == Backing) &&
      (drumsFirst || !allTaken ==> !HasRole(currentTracks, r))
  {
    if !HasRole(currentTracks, Rhythm) && instrument.instrumentType == Drums then Rhythm
    else if !HasRole(currentTracks, Lead) then Lead
    else if !HasRole(currentTracks, Backing) then Backing
    else [Rhythm, Backing, Lead][Range(0, 3, seed)]
  }

  // ---------------------------------------------------------------------------
  // The files GenerateTracks produces

  /** What GenerateTracks asks of the chords: GetChordsFromTonality succeeds. */
  predicate ChordsAvailable(t: Tonality) {
    t != Ionian && 0 < |TonalityIntervals(t).value| <= 8
  }

  /** GetChordsFromTonality(t, root, 4), the call GenerateTracks makes,
      succeeds exactly for the tonalities ChordsAvailable admits: at octave 4
      every scale of the table stays in the MIDI range. */
  lemma {:induction false} ChordsAtOctaveFour(t: Tonality, root: PitchClass)
    ensures t != Ionian ==>
      (ChordsAvailable(t) <==>
         0 < |TonalityIntervals(t).value| <= 8 && DiatonicFits(Scale(TonalityIntervals(t).value, root), 4))
  {
    if ChordsAvailable(t) {
      TableScalesFit(t, root, 4);
    }
  }

  /** The first step of GenerateTracks, GetChordsFromTonality(t, root, 4),
      whose chords are then unused: it fails exactly when ChordsAvailable
      does not hold. */
  method TonalityChordsStep(t: Tonality, root: PitchClass) returns (r: Result<()>)
    ensures r.Ok? <==> ChordsAvailable(t)
  {
    ChordsFromTonalityFailures(t);
    ChordsAtOctaveFour(t, root);
    var chords := GetChordsFromTonality(t, root, 4);
    if chords.Fail? {
      return Fail(chords.error);
    }
    return Ok(());
  }

  /** The file the generator manager returns for track i: the chunks the
      pattern renders to, post-processed on channel i with the parsed bank. */
  function TrackFile(t: PartTrack, channel: nat, rendered: seq<Chunk>): (r: Result<seq<Chunk>>)
    requires 0 <= t.instrument.patchIndex
    ensures r.Ok? <==> Int32Parse(t.instrument.bankName).Ok?
    ensures r.Fail? ==> r.error == Format || r.error == Overflow
    ensures r.Ok? ==> |r.value| == |rendered| && OnChannel(r.value, channel)
    ensures r.Ok? ==> forall i :: 0 <= i < |rendered| ==>
      |r.value[i]| == |rendered[i]| + 3 &&
      r.value[i][0] == TimedEvent(10, ControlChange(channel, 0, BankMsb(Int32Parse(t.instrument.bankName).value))) &&
      r.value[i][1] == TimedEvent(10, ControlChange(channel, 32, BankLsb(Int32Parse(t.instrument.bankName).value))) &&
      r.value[i][2] == TimedEvent(10, ProgramChange(channel, t.instrument.patchIndex))
  {
    var bank := Int32Parse(t.instrument.bankName);
    if bank.Fail? then Fail(bank.error)
    else
      ManagedChunksOnChannel(rendered, bank.value, t.instrument.patchIndex, channel);
      Ok(ManagedChunks(rendered, bank.value, t.instrument.patchIndex, channel))
  }

  /** Two track lists that differ at most in the tracks' MidiData. */
  predicate SameButData(a: seq<PartTrack>, b: seq<PartTrack>) {
    |a| == |b| && forall i :: 0 <= i < |a| ==> a[i].(midiData := b[i].midiData) == b[i]
  }

  /** MIDISongPart. `render(i, track)` stands for the chunks the pattern
      builder renders for the i-th track (foreign and random). */
  class MidiSongPart {
    var partName: string
    var bpm: int
    var tonality: Tonality
    var rootNote: PitchClass
    var tracks: seq<PartTrack>
    var dummyMidiFile: MidiFile?

    /** A part with no tracks and no generated files. */
    constructor (partName: string, bpm: int, tonality: Tonality, rootNote: PitchClass)
      ensures this.partName == partName && this.bpm == bpm
      ensures this.tonality == tonality && this.rootNote == rootNote
      ensures tracks == [] && dummyMidiFile == null
    {
      this.partName := partName;
      this.bpm := bpm;
      this.tonality := tonality;
      this.rootNote := rootNote;
      tracks := [];
      dummyMidiFile := null;
    }

    /** AddTrack: the track at the end of the list, nothing else changed. */
    method AddTrack(track: PartTrack)
      modifies this
      ensures tracks == old(tracks) + [track]
      ensures partName == old(partName) && bpm == old(bpm) && tonality == old(tonality)
      ensures rootNote == old(rootNote) && dummyMidiFile == old(dummyMidiFile)
    {
      tracks := tracks + [track];
    }

    /** GenerateDummyMidiFile(noteCount, duration) with the duration already
      converted to ticks: one chunk per track, track i on channel i; the
      new file is also kept in the DummyMidiFile field. A failure leaves the
      field as it was. */
    method GenerateDummyMidiFile(noteCount: int, totalTicks: nat) returns (r: Result<MidiFile>)
      requires InstrumentsFit(Instruments(tracks))
      modifies this
      ensures tracks == old(tracks) && partName == old(partName) && bpm == old(bpm)
      ensures tonality == old(tonality) && rootNote == old(rootNote)
      ensures r.Ok? ==> fresh(r.value) && dummyMidiFile == r.value
      ensures r.Fail? ==> dummyMidiFile == old(dummyMidiFile)
      ensures Delivers(r, DummyChunks(Instruments(tracks), noteCount, totalTicks))
    {
      var file := new MidiFile();
      var written := WriteDummyChunks(file, Instruments(tracks), noteCount, totalTicks);
      if written.Fail? {
        return Fail(written.error);
      }
      dummyMidiFile := file;
      return Ok(file);
    }

    /** GenerateTracks: the tonality's chords are computed first (a failure
      there ends the call with nothing changed); then track i, in list
      order, gets the file the manager generates on channel i from its
      parsed bank and program; then the dummy file is made with one note in
      half a second. A bank name that does not parse ends the call, leaving
      the tracks before it with their new files. */
    method GenerateTracks(render: (nat, PartTrack) -> seq<Chunk>) returns (r: Result<()>)
      requires InstrumentsFit(Instruments(tracks))
      modifies this
      ensures SameButData(tracks, old(tracks))
      ensures r.Ok? <==> ChordsAvailable(tonality) && AllBanksParse(tracks)
      ensures r.Ok? ==> AllTrackFiles(tracks, old(tracks), render)
      ensures r.Ok? ==> dummyMidiFile != null && fresh(dummyMidiFile) &&
                        Ok(dummyMidiFile.chunks) == DummyChunks(Instruments(tracks), 1, DefaultDummyTicks)
      ensures !ChordsAvailable(tonality) ==> tracks == old(tracks)
      ensures r.Fail? ==> dummyMidiFile == old(dummyMidiFile)
      ensures r.Fail? && ChordsAvailable(tonality) ==> TrackFilesFailure(tracks, old(tracks), render, r.error)
      ensures partName == old(partName) && bpm == old(bpm)
      ensures tonality == old(tonality) && rootNote == old(rootNote)
    {
      SameButDataRefl(tracks);
      var chords := TonalityChordsStep(tonality, rootNote);
      if chords.Fail? {
        return Fail(chords.error);
      }
      ghost var before := tracks;
      var written, updated := GenerateTrackFiles(tracks, render);
      tracks := updated;
      SameButDataBanks(tracks, before);
      if written.Fail? {
        assert TrackFilesFailure(tracks, before, render, written.error);
        return Fail(written.error);
      }
      DummyAfterFiles(tracks, before);
      var dummy := GenerateDummyMidiFile(1, DefaultDummyTicks);
      assert tracks == updated;
      assert dummy.Ok?;
      assert dummy.value.chunks == DummyChunks(Instruments(tracks), 1, DefaultDummyTicks).value;
      return Ok(());
    }
  }

  /** `u` is track `t` after GenerateTracks gave it the file for channel i:
      the bank parsed, and the data is the manager's file, on channel i. */
  predicate HasTrackFile(u: PartTrack, t: PartTrack, i: nat, render: (nat, PartTrack) -> seq<Chunk>) {
    0 <= t.instrument.patchIndex &&
    var file := TrackFile(t, i, render(i, t));
    file.Ok? && u.midiData == Some(file.value) && OnChannel(file.value, i)
  }

  /** The tracks before `done` have their files and the rest are as they
      were: the state of GenerateTracks' loop. */
  predicate TrackFilesPrefix(updated: seq<PartTrack>, tracks: seq<PartTrack>, done: nat,
                             render: (nat, PartTrack) -> seq<Chunk>) {
    SameButData(updated, tracks) &&
    (forall i :: 0 <= i < done && i < |tracks| ==> HasTrackFile(updated[i], tracks[i], i, render)) &&
    (forall i :: done <= i < |tracks| ==> updated[i] == tracks[i])
  }

  /** Every track of `updated` is the matching track of `tracks` with the
      file for its channel: GenerateTracks' outcome when it succeeds. */
  predicate AllTrackFiles(updated: seq<PartTrack>, tracks: seq<PartTrack>, render: (nat, PartTrack) -> seq<Chunk>)
    requires |updated| == |tracks|
  {
    forall i :: 0 <= i < |tracks| ==> HasTrackFile(updated[i], tracks[i], i, render)
  }

  /** The test "this track's bank name does not parse". */
  function BadBank(t: PartTrack): bool {
    Int32Parse(t.instrument.bankName).Fail?
  }

  /** The first track whose bank name does not parse, or the number of
      tracks when every one parses: where the foreach of GenerateTracks
      throws. */
  function FirstBadBankIndex(tracks: seq<PartTrack>): (k: nat)
    ensures k <= |tracks|
    ensures k < |tracks| ==> Int32Parse(tracks[k].instrument.bankName).Fail?
    ensures forall j :: 0 <= j < k ==> Int32Parse(tracks[j].instrument.bankName).Ok?
  {
    FirstIndex(tracks, BadBank, 0)
  }

  /** GenerateTracks' loop stopped with exception `e` at the first track
      whose bank name does not parse, the tracks before it holding their
      files and the rest as they were. */
  predicate TrackFilesFailure(updated: seq<PartTrack>, tracks: seq<PartTrack>, render: (nat, PartTrack) -> seq<Chunk>,
                              e: Exception) {
    var k := FirstBadBankIndex(tracks);
    k < |tracks| && TrackFilesPrefix(updated, tracks, k, render) &&
    e == Int32Parse(tracks[k].instrument.bankName).error
  }

  /** Every track's bank name parses. */
  predicate AllBanksParse(tracks: seq<PartTrack>) {
    forall i :: 0 <= i < |tracks| ==> Int32Parse(tracks[i].instrument.bankName).Ok?
  }

  /** The foreach of GenerateTracks over the tracks, in order: track i gets
      the manager's file on channel i, until a bank name fails to parse. On
      failure the tracks before the failing one keep their new files and the
      others are as they were. */
  method GenerateTrackFiles(tracks: seq<PartTrack>, render: (nat, PartTrack) -> seq<Chunk>)
    returns (r: Result<()>, updated: seq<PartTrack>)
    requires InstrumentsFit(Instruments(tracks))
    ensures SameButData(updated, tracks)
    ensures r.Ok? <==> AllBanksParse(tracks)
    ensures forall i :: 0 <= i < |tracks| ==> updated[i] == tracks[i] || HasTrackFile(updated[i], tracks[i], i, render)
    ensures r.Ok? ==> AllTrackFiles(updated, tracks, render)
    ensures r.Fail? ==> TrackFilesFailure(updated, tracks, render, r.error)
  {
    updated := tracks;
    SameButDataRefl(tracks);
    var channel := 0;
    while channel < |tracks|
      invariant channel <= |tracks|
      invariant TrackFilesPrefix(updated, tracks, channel, render)
      invariant forall j :: 0 <= j < channel ==> Int32Parse(tracks[j].instrument.bankName).Ok?
    {
      assert CastsFit(Instruments(tracks)[channel]);
      var file := TrackFileFor(tracks[channel], channel, render);
      if file.Fail? {
        assert FirstBadBankIndex(tracks) == channel;
        return Fail(file.error), updated;
      }
      var track := tracks[channel].(midiData := Some(file.value));
      TrackFilesPrefixStep(updated, tracks, channel, render, track);
      updated := updated[channel := track];
      channel := channel + 1;
    }
    return Ok(()), updated;
  }

  /** One pass of GenerateTracks' loop: the bank name is parsed and the
      manager post-processes the rendered pattern on the track's channel. */
  method TrackFileFor(track: PartTrack, channel: nat, render: (nat, PartTrack) -> seq<Chunk>) returns (r: Result<seq<Chunk>>)
    requires CastsFit(track.instrument) && channel < 16
    ensures r == TrackFile(track, channel, render(channel, track))
    ensures r.Ok? ==> OnChannel(r.value, channel)
  {
    var bank := Int32Parse(track.instrument.bankName);
    if bank.Fail? {
      return Fail(bank.error);
    }
    var file := GenerateMidiFile(render(channel, track), bank.value, track.instrument.patchIndex, channel);
    ManagedChunksOnChannel(render(channel, track), bank.value, track.instrument.patchIndex, channel);
    return Ok(file.chunks);
  }

  // ---------------------------------------------------------------------------
  // Lemmas

  /** Track lists that differ only in their data have the same instruments. */
  lemma {:induction false} SameButDataInstruments(a: seq<PartTrack>, b: seq<PartTrack>)
    requires SameButData(a, b)
    ensures Instruments(a) == Instruments(b)
  {
    forall i | 0 <= i < |a|
      ensures a[i].instrument == b[i].instrument
    {
      assert a[i].(midiData := b[i].midiData) == b[i];
    }
  }

  /** Once every bank name has parsed, the dummy file of the updated tracks
      (one note each) can be made. */
  lemma {:induction false} DummyAfterFiles(tracks: seq<PartTrack>, before: seq<PartTrack>)
    requires SameButData(tracks, before) && InstrumentsFit(Instruments(before)) && AllBanksParse(before)
    ensures Instruments(tracks) == Instruments(before)
    ensures DummyChunks(Instruments(tracks), 1, DefaultDummyTicks).Ok?
  {
    SameButDataInstruments(tracks, before);
    DummyChunksOutcome(Instruments(tracks), 1, DefaultDummyTicks);
  }

  /** Track lists that differ only in their data have the same bank names. */
  lemma {:induction false} SameButDataBanks(a: seq<PartTrack>, b: seq<PartTrack>)
    requires SameButData(a, b)
    ensures AllBanksParse(a) <==> AllBanksParse(b)
  {
    SameButDataInstruments(a, b);
    assert forall i :: 0 <= i < |a| ==> Instruments(a)[i] == a[i].instrument && Instruments(b)[i] == b[i].instrument;
  }

  /** A track list differs from itself in nothing. */
  lemma {:induction false} SameButDataRefl(a: seq<PartTrack>)
    ensures SameButData(a, a)
  {
    forall i | 0 <= i < |a|
      ensures a[i].(midiData := a[i].midiData) == a[i]
    {
    }
  }

  /** Changing the data of one track keeps the lists the same but data. */
  lemma {:induction false} SameButDataSet(a: seq<PartTrack>, b: seq<PartTrack>, k: nat, t: PartTrack)
    requires SameButData(a, b) && k < |a| && t.(midiData := b[k].midiData) == b[k]
    ensures SameButData(a[k := t], b)
  {
  }

  /** Giving the next track its file extends the loop's prefix by one. */
  lemma {:induction false} TrackFilesPrefixStep(updated: seq<PartTrack>, tracks: seq<PartTrack>, done: nat,
                                               render: (nat, PartTrack) -> seq<Chunk>, track: PartTrack)
    requires TrackFilesPrefix(updated, tracks, done, render) && done < |tracks|
    requires track.(midiData := tracks[done].midiData) == tracks[done]
    requires HasTrackFile(track, tracks[done], done, render)
    ensures TrackFilesPrefix(updated[done := track], tracks, done + 1, render)
  {
    SameButDataSet(updated, tracks, done, track);
  }

  /** The first failing track decides the dummy file's exception. */
  lemma {:induction false} DummyChunksFail(insts: seq<Instrument>, noteCount: int, totalTicks: nat, k: nat,
                                          done: seq<Chunk>)
    requires InstrumentsFit(insts) && k < |insts|
    requires |done| == k && DummyPrefix(insts, done, noteCount, totalTicks)
    requires DummyTrackFails(insts[k], noteCount)
    ensures DummyChunks(insts, noteCount, totalTicks) == Fail(DummyTrackError(insts[k], noteCount))
  {
    assert FirstDummyFailure(insts, noteCount) == k;
  }

  /** One more track that does not fail extends the prefix by its chunk. */
  lemma {:induction false} DummyPrefixStep(insts: seq<Instrument>, done: seq<Chunk>, noteCount: int, totalTicks: nat,
                                          next: Chunk)
    requires InstrumentsFit(insts) && |done| < |insts|
    requires DummyPrefix(insts, done, noteCount, totalTicks)
    requires !DummyTrackFails(insts[|done|], noteCount)
    requires next == DummyChunkOf(insts, |done|, noteCount, totalTicks)
    ensures DummyPrefix(insts, done + [next], noteCount, totalTicks)
  {
    var c := done + [next];
    forall j | 0 <= j < |c|
      ensures !DummyTrackFails(insts[j], noteCount) && c[j] == DummyChunkOf(insts, j, noteCount, totalTicks)
    {
      if j < |done| {
        assert c[j] == done[j];
      } else {
        assert c[j] == next;
      }
    }
  }

  /** With no failing track, the dummy chunks are the chunks of the tracks. */
  lemma {:induction false} DummyChunksOk(insts: seq<Instrument>, noteCount: int, totalTicks: nat, chunks: seq<Chunk>)
    requires InstrumentsFit(insts)
    requires |chunks| == |insts| && DummyPrefix(insts, chunks, noteCount, totalTicks)
    ensures DummyChunks(insts, noteCount, totalTicks) == Ok(chunks)
  {
    assert FirstDummyFailure(insts, noteCount) == |insts|;
    assert DummyChunks(insts, noteCount, totalTicks).value == chunks;
  }

  /** The dummy file exists exactly when there are no tracks, or the note
      count is not zero and every track's bank parses; with a zero count the
      first track whose bank parses cannot avoid a DivideByZero. */
  lemma {:induction false} DummyChunksOutcome(insts: seq<Instrument>, noteCount: int, totalTicks: nat)
    requires InstrumentsFit(insts)
    ensures DummyChunks(insts, noteCount, totalTicks).Ok? <==>
      (insts == [] || (noteCount != 0 && forall i :: 0 <= i < |insts| ==> Int32Parse(insts[i].bankName).Ok?))
    ensures insts != [] && noteCount == 0 && Int32Parse(insts[0].bankName).Ok? ==>
      DummyChunks(insts, noteCount, totalTicks) == Fail(DivideByZero)
  {
    var k := FirstDummyFailure(insts, noteCount);
    if insts != [] && noteCount == 0 {
      assert DummyTrackFails(insts[0], noteCount);
    }
    if k < |insts| && noteCount != 0 {
      assert Int32Parse(insts[k].bankName).Fail?;
    }
  }

  /** Chunk i of the dummy file starts with the bank select and program
      change of track i on channel i (the unmasked MSB equals the masked one
      for banks that fit in fourteen bits, so the head is the generators'
      preamble with delta 0); after it come `noteCount` NoteOn/NoteOff pairs,
      and every channel event of it is on channel i. */
  lemma {:induction false} DummyChunkLayout(insts: seq<Instrument>, noteCount: int, totalTicks: nat, i: nat)
    requires InstrumentsFit(insts)
    requires DummyChunks(insts, noteCount, totalTicks).Ok? && i < |insts|
    ensures Int32Parse(insts[i].bankName).Ok?
    ensures var c := DummyChunks(insts, noteCount, totalTicks).value[i];
      c[..3] == Preamble(ParsedBank(insts[i]), insts[i].patchIndex, i, 0, 0, 0) &&
      |c| == 3 + (if noteCount > 0 then 2 * noteCount else 0) &&
      OnChannel([c], i)
  {
    var f := FirstDummyFailure(insts, noteCount);
    assert !DummyTrackFails(insts[i], noteCount);
    assert CastsFit(insts[i]);
    assert Int32TryParse(insts[i].bankName).value == ParsedBank(insts[i]);
    DummyChunkFacts(ParsedBank(insts[i]), insts[i].patchIndex, i, noteCount, totalTicks);
  }

  /** One dummy chunk: the preamble at delta 0, the notes, all on the channel. */
  lemma {:induction false} DummyChunkFacts(bank: nat, patch: nat, channel: nat, noteCount: int, totalTicks: nat)
    requires bank < 128 * 128
    ensures var c := DummyChunk(bank, patch, channel, noteCount, totalTicks);
      c[..3] == Preamble(bank, patch, channel, 0, 0, 0) &&
      |c| == 3 + (if noteCount > 0 then 2 * noteCount else 0) &&
      OnChannel([c], channel)
  {
    var head := DummyHead(bank, patch, channel);
    var c := DummyChunk(bank, patch, channel, noteCount, totalTicks);
    DummyHeadIsPreamble(bank, patch, channel);
    var notes := if noteCount > 0 then DummyNotes(noteCount, totalTicks / noteCount, channel) else [];
    assert c == head + notes;
    assert c[..3] == head;
    forall j | 0 <= j < |c| && IsChannelEvent(c[j].event)
      ensures c[j].event.channel == channel
    {
      if j >= 3 {
        assert c[j] == notes[j - 3];
      }
    }
  }

  /** For a bank of fourteen bits, the unmasked MSB of the dummy head is the
      generators' Bank Select MSB. */
  lemma {:induction false} DummyHeadIsPreamble(bank: nat, patch: nat, channel: nat)
    requires bank < 128 * 128
    ensures DummyHead(bank, patch, channel) == Preamble(bank, patch, channel, 0, 0, 0)
  {
    assert bank / 128 < 128;
  }

  /** The dummy notes take 2 * count * ticksPerNote ticks: both events of a
      pair wait ticksPerNote. */
  lemma {:induction false} DummyNotesLength(count: nat, ticksPerNote: nat, channel: nat)
    ensures SumDeltas(DummyNotes(count, ticksPerNote, channel)) == count * (2 * ticksPerNote)
    decreases count
  {
    if count > 0 {
      var front := DummyNotes(count - 1, ticksPerNote, channel);
      var pair := DummyPair(ticksPerNote, channel);
      DummyNotesLength(count - 1, ticksPerNote, channel);
      SumDeltasAppend(front, pair);
      assert SumDeltas(pair[1..]) == ticksPerNote by {
        assert pair[1..][1..] == [];
      }
      MulSucc(count, 2 * ticksPerNote);
    }
  }

  /** Events that all come at delta 0 take no time. */
  lemma {:induction false} ZeroDeltas(c: Chunk)
    requires forall i :: 0 <= i < |c| ==> c[i].delta == 0
    ensures SumDeltas(c) == 0
    decreases |c|
  {
    if c != [] {
      ZeroDeltas(c[1..]);
    }
  }

  /** SumDeltas of a concatenation is the sum of the parts. */
  lemma {:induction false} SumDeltasAppend(a: Chunk, b: Chunk)
    ensures SumDeltas(a + b) == SumDeltas(a) + SumDeltas(b)
    decreases |a|
  {
    if a == [] {
      assert a + b == b;
    } else {
      assert (a + b)[0] == a[0];
      assert (a + b)[1..] == a[1..] + b;
      SumDeltasAppend(a[1..], b);
    }
  }

  /** With a positive note count, the last dummy event of a track sits at
      2 * count * (totalTicks / count) ticks: at most twice the requested
      duration and less than 2 * count ticks short of it, because both
      events of every note wait totalTicks / count. */
  lemma {:induction false} DummyDuration(bank: nat, patch: nat, channel: nat, noteCount: nat, totalTicks: nat)
    requires noteCount > 0
    ensures var end := SumDeltas(DummyChunk(bank, patch, channel, noteCount, totalTicks));
      end == 2 * (noteCount * (totalTicks / noteCount)) &&
      2 * totalTicks - 2 * noteCount < end <= 2 * totalTicks
  {
    var head := DummyHead(bank, patch, channel);
    var q := totalTicks / noteCount;
    DummyNotesLength(noteCount, q, channel);
    SumDeltasAppend(head, DummyNotes(noteCount, q, channel));
    ZeroDeltas(head);
    assert noteCount * (2 * q) == 2 * (noteCount * q);
    DivModSplit(totalTicks, noteCount);
  }

  /** Once every role is taken, each of the three can come next. */
  lemma {:induction false} TrackRoleRepeatsAny(currentTracks: seq<PartTrack>, instrument: Instrument, role: TrackRole)
    requires HasRole(currentTracks, Rhythm) && HasRole(currentTracks, Backing) && HasRole(currentTracks, Lead)
    requires !role.Undeclared?
    ensures exists seed: nat :: GetTrackRole(currentTracks, instrument, seed) == role
  {
    var seed: nat := if role == Rhythm then 0 else if role == Backing then 1 else 2;
    assert GetTrackRole(currentTracks, instrument, seed) == role;
  }
}
