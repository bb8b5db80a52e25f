/** GenerateSong: the song structure played entry by entry. Each entry draws
    one tempo for its part; every repetition generates the part's tracks,
    track t on channel t, shifts them to the tick cursor and appends them to
    the song; the cursor then moves on by the part's length in ticks. Draws
    are labelled: the part tempo of entry e at [e], the tempo drawn again for
    the cursor at [e, rep], and the draws of track t below [e, rep, t]. The
    number of ticks per quarter note is a parameter.

    The song is specified over a track builder `build`, any function that
    agrees with TrackChunks (see Builds); TrackBuilder is one. */
module SongGenerator {
  import opened Outcomes
  import opened TimeSignatures
  import opened MusicTheory
  import opened Midi
  import opened SongData
  import opened Patterns
  import opened TrackEdits
  import opened TrackBuilders
  import opened Arithmetic

  /** GetBPMFromRange(range, MultiplesOfTen), which always finds a tempo. */
  function PartBpm(part: PartConfig, seed: nat): (bpm: int)
    ensures TempoRanges(part.tempoRange).0 <= bpm <= TempoRanges(part.tempoRange).1
    ensures FollowsRule(MultiplesOfTen, bpm)
  {
    BpmAlwaysAvailable(part.tempoRange, MultiplesOfTen, seed);
    GetBPMFromRange(part.tempoRange, MultiplesOfTen, seed).value
  }

  /** What a part needs for its tracks to be generated: a length that is not
      negative, at most sixteen tracks (the track index is the channel), and
      every track ready for its builder. */
  predicate PartReady(part: PartConfig) {
    part.measures >= 0 && |part.tracks| <= 16 &&
    forall t :: 0 <= t < |part.tracks| ==> TrackReady(part.tracks[t])
  }

  predicate SongReady(parts: seq<PartConfig>) {
    forall i :: 0 <= i < |parts| ==> PartReady(parts[i])
  }

  /** The ticks one repetition of a part lasts: ticks per beat, times beats
      per measure, times measures. The tempo drawn for it does not enter:
      the beats per measure are the time signature's numerator. */
  function PartTicks(part: PartConfig, ticksPerQuarter: nat): (ticks: nat)
    requires part.measures >= 0
  {
    var perMeasure: nat := ticksPerQuarter * TimeSignatureProperties(part.timeSignature).beatsPerMeasure;
    perMeasure * part.measures
  }

  // ---------------------------------------------------------------------------
  // Track builders

  /** A track generated and placed: the chunks GenerateTrack returns for a
      track of a part, on a channel, at a tempo, with its draws, shifted to
      a cursor (ShiftFile); or the exception it throws. */
  type TrackBuild = (TrackConfig, PartConfig, nat, int, Oracle, nat) -> Result<seq<Chunk>>

  /** A track's outcome moved `cursor` ticks later. */
  function Placed(outcome: Result<seq<Chunk>>, cursor: nat): Result<seq<Chunk>> {
    if outcome.Ok? then Ok(ShiftAll(outcome.value, cursor)) else outcome
  }

  /** `build` is GenerateTrack followed by ShiftFile: on every track ready
      for its builder it is TrackChunks placed at the cursor. */
  ghost predicate Builds(build: TrackBuild, render: Renderer) {
    forall cfg, part, channel, bpm, oracle, cursor {:trigger build(cfg, part, channel, bpm, oracle, cursor), TrackChunks(cfg, part, channel, bpm, oracle, render)} |
      TrackReady(cfg) ::
      build(cfg, part, channel, bpm, oracle, cursor) == Placed(TrackChunks(cfg, part, channel, bpm, oracle, render), cursor)
  }

  /** GenerateTrack and ShiftFile as a function value; a track that is not
      ready for its builder (which a ready part never holds) is refused as
      NotSupported. */
  function TrackBuilder(render: Renderer): TrackBuild
  {
    (cfg: TrackConfig, part: PartConfig, channel: nat, bpm: int, oracle: Oracle, cursor: nat) =>
      if TrackReady(cfg) then Placed(TrackChunks(cfg, part, channel, bpm, oracle, render), cursor)
      else Fail(NotSupported)
  }

  /** Track t of repetition `rep` of entry `e`, placed at the cursor: built
      on channel t with the draws below [e, rep, t]. */
  function TrackOutcome(part: PartConfig, e: nat, rep: nat, bpm: int, oracle: Oracle, build: TrackBuild,
                        cursor: nat, t: nat): Result<seq<Chunk>>
    requires t < |part.tracks|
  {
    build(part.tracks[t], part, t, bpm, Below(oracle, [e, rep, t]), cursor)
  }

  /** Every track of one repetition, placed at the cursor, in track order. */
  function TrackOutcomes(part: PartConfig, e: nat, rep: nat, bpm: int, oracle: Oracle, build: TrackBuild,
                         cursor: nat): (r: seq<Result<seq<Chunk>>>)
    ensures |r| == |part.tracks|
  {
    seq(|part.tracks|, t requires 0 <= t < |part.tracks| => TrackOutcome(part, e, rep, bpm, oracle, build, cursor, t))
  }

  /** The first `count` outcomes joined: their chunks in order; otherwise
      the exception of the first that failed. */
  function Join(outcomes: seq<Result<seq<Chunk>>>, count: nat): Result<seq<Chunk>>
    requires count <= |outcomes|
  {
    if count == 0 then Ok([])
    else
      var before :- Join(outcomes, count - 1);
      var chunks :- outcomes[count - 1];
      Ok(before + chunks)
  }

  /** The song so far and the tick at which the next part begins. */
  type Progress = (seq<Chunk>, nat)

  /** The first `count` repetitions of entry `e`, its part played at `bpm`,
      from `start`: repetition `rep` appends the part's tracks placed at the
      cursor and moves the cursor on by the part's length; the first failure
      ends it. */
  function EntryReps(part: PartConfig, e: nat, bpm: int, oracle: Oracle, build: TrackBuild, ticksPerQuarter: nat,
                     start: Progress, count: nat): (r: Result<Progress>)
    requires part.measures >= 0
  {
    if count == 0 then Ok(start)
    else
      var p :- EntryReps(part, e, bpm, oracle, build, ticksPerQuarter, start, count - 1);
      var tracks :- Join(TrackOutcomes(part, e, count - 1, bpm, oracle, build, p.1), |part.tracks|);
      Ok((p.0 + tracks, p.1 + PartTicks(part, ticksPerQuarter)))
  }

  /** The tempo each entry of the structure draws for its part at [e]; an
      entry naming no part draws none (0 stands in). */
  function EntryTempos(parts: seq<PartConfig>, structure: seq<PartSequenceEntry>, oracle: Oracle): (r: seq<int>)
    ensures |r| == |structure|
    ensures forall e :: 0 <= e < |r| && 0 <= structure[e].partIndex < |parts| ==>
      r[e] == PartBpm(parts[structure[e].partIndex], oracle([e]))
  {
    seq(|structure|, e requires 0 <= e < |structure| =>
      if 0 <= structure[e].partIndex < |parts| then PartBpm(parts[structure[e].partIndex], oracle([e])) else 0)
  }

  /** The first `count` entries of the structure, from an empty song at tick
      0, entry e played at tempo `tempos[e]`; ArgumentOutOfRange for an entry
      naming no part. */
  function SongUpTo(parts: seq<PartConfig>, structure: seq<PartSequenceEntry>, tempos: seq<int>, oracle: Oracle,
                    build: TrackBuild, ticksPerQuarter: nat, count: nat): (r: Result<Progress>)
    requires SongReady(parts) && |tempos| == |structure| && count <= |structure|
  {
    if count == 0 then Ok(([], 0))
    else
      var p :- SongUpTo(parts, structure, tempos, oracle, build, ticksPerQuarter, count - 1);
      var entry := structure[count - 1];
      if !(0 <= entry.partIndex < |parts|) then Fail(ArgumentOutOfRange)
      else
        var part := parts[entry.partIndex];
        EntryReps(part, count - 1, tempos[count - 1], oracle, build, ticksPerQuarter, p,
                  if entry.repeatCount > 0 then entry.repeatCount else 0)
  }

  /** The chunks GenerateSong returns, or the exception it throws. */
  function SongChunks(parts: seq<PartConfig>, structure: seq<PartSequenceEntry>, oracle: Oracle, build: TrackBuild,
                      ticksPerQuarter: nat): (r: Result<seq<Chunk>>)
    requires SongReady(parts)
    ensures structure == [] ==> r == Ok([])
    ensures r.Ok? ==> forall e :: 0 <= e < |structure| ==> 0 <= structure[e].partIndex < |parts|
  {
    var tempos := EntryTempos(parts, structure, oracle);
    var p :- SongUpTo(parts, structure, tempos, oracle, build, ticksPerQuarter, |structure|);
    SongNamesParts(parts, structure, tempos, oracle, build, ticksPerQuarter);
    Ok(p.0)
  }

  // ---------------------------------------------------------------------------
  // Unfolding the specification one step at a time

  /** A join succeeds exactly when every outcome does, and then holds their
      chunks in order; it fails with the exception of the first outcome that
      failed. */
  lemma {:induction false} JoinOutcome(outcomes: seq<Result<seq<Chunk>>>, count: nat)
    requires count <= |outcomes|
    ensures Join(outcomes, count).Ok? <==> forall t :: 0 <= t < count ==> outcomes[t].Ok?
    ensures Join(outcomes, count).Fail? ==>
      exists t :: 0 <= t < count && outcomes[t] == Fail(Join(outcomes, count).error) &&
                  forall u :: 0 <= u < t ==> outcomes[u].Ok?
  {
    if count > 0 {
      JoinOutcome(outcomes, count - 1);
    }
  }

  /** Once an outcome fails, every longer join fails with its exception. */
  lemma {:induction false} JoinFailureStays(outcomes: seq<Result<seq<Chunk>>>, n: nat, m: nat)
    requires n <= m <= |outcomes|
    requires Join(outcomes, n).Fail?
    ensures Join(outcomes, m) == Join(outcomes, n)
    decreases m
  {
    if m > n {
      JoinFailureStays(outcomes, n, m - 1);
    }
  }

  /** Once a repetition fails, the entry fails with that exception. */
  lemma {:induction false} EntryRepsFailureStays(part: PartConfig, e: nat, bpm: int, oracle: Oracle,
                                                 build: TrackBuild, ticksPerQuarter: nat, start: Progress,
                                                 n: nat, m: nat)
    requires part.measures >= 0 && n <= m
    requires EntryReps(part, e, bpm, oracle, build, ticksPerQuarter, start, n).Fail?
    ensures EntryReps(part, e, bpm, oracle, build, ticksPerQuarter, start, m)
         == EntryReps(part, e, bpm, oracle, build, ticksPerQuarter, start, n)
    decreases m
  {
    if m > n {
      EntryRepsFailureStays(part, e, bpm, oracle, build, ticksPerQuarter, start, n, m - 1);
    }
  }

  /** One more entry of the structure, naming a part: that part's
      repetitions from where the song stood. */
  lemma {:induction false} SongUpToStep(parts: seq<PartConfig>, structure: seq<PartSequenceEntry>, tempos: seq<int>, oracle: Oracle,
                     build: TrackBuild, ticksPerQuarter: nat, e: nat)
    requires SongReady(parts) && |tempos| == |structure| && e < |structure|
    requires 0 <= structure[e].partIndex < |parts|
    requires SongUpTo(parts, structure, tempos, oracle, build, ticksPerQuarter, e).Ok?
    ensures SongUpTo(parts, structure, tempos, oracle, build, ticksPerQuarter, e + 1)
         == EntryReps(parts[structure[e].partIndex], e, tempos[e], oracle, build, ticksPerQuarter,
                      SongUpTo(parts, structure, tempos, oracle, build, ticksPerQuarter, e).value,
                      if structure[e].repeatCount > 0 then structure[e].repeatCount else 0)
  {
  }

  /** Once an entry fails, the song fails with that exception. */
  lemma {:induction false} SongUpToFailureStays(parts: seq<PartConfig>, structure: seq<PartSequenceEntry>,
                                                tempos: seq<int>, oracle: Oracle, build: TrackBuild,
                                                ticksPerQuarter: nat, n: nat, m: nat)
    requires SongReady(parts) && |tempos| == |structure| && n <= m <= |structure|
    requires SongUpTo(parts, structure, tempos, oracle, build, ticksPerQuarter, n).Fail?
    ensures SongUpTo(parts, structure, tempos, oracle, build, ticksPerQuarter, m)
         == SongUpTo(parts, structure, tempos, oracle, build, ticksPerQuarter, n)
    decreases m
  {
    if m > n {
      SongUpToFailureStays(parts, structure, tempos, oracle, build, ticksPerQuarter, n, m - 1);
    }
  }

  // ---------------------------------------------------------------------------
  // The generator

  /** One track of one repetition: generated, shifted to the cursor and
      merged into the song. */
  method AddPartTrack(fullSong: MidiFile, part: PartConfig, e: nat, rep: nat, t: nat, bpm: int, cursor: nat,
                      oracle: Oracle, ghost build: TrackBuild, render: Renderer) returns (r: Result<()>)
    requires PartReady(part) && t < |part.tracks| && Builds(build, render)
    modifies fullSong
    ensures var spec := TrackOutcome(part, e, rep, bpm, oracle, build, cursor, t);
      (r.Fail? <==> spec.Fail?) && (r.Fail? ==> r.error == spec.error) &&
      (spec.Ok? ==> fullSong.chunks == old(fullSong.chunks) + spec.value)
  {
    var trackFile :- GenerateTrack(part.tracks[t], part, t, bpm, Below(oracle, [e, rep, t]), render);
    ShiftFile(trackFile, cursor);
    MergeInto(fullSong, trackFile);
    return Ok(());
  }

  /** Every track of one repetition, in track order. */
  method PlayPartRepetition(fullSong: MidiFile, part: PartConfig, e: nat, rep: nat, bpm: int, cursor: nat,
                            oracle: Oracle, ghost build: TrackBuild, render: Renderer) returns (r: Result<()>)
    requires PartReady(part) && Builds(build, render)
    modifies fullSong
    ensures var spec := Join(TrackOutcomes(part, e, rep, bpm, oracle, build, cursor), |part.tracks|);
      (r.Fail? <==> spec.Fail?) && (r.Fail? ==> r.error == spec.error) &&
      (spec.Ok? ==> fullSong.chunks == old(fullSong.chunks) + spec.value)
  {
    ghost var outcomes := TrackOutcomes(part, e, rep, bpm, oracle, build, cursor);
    var t := 0;
    while t < |part.tracks|
      invariant 0 <= t <= |part.tracks|
      invariant Join(outcomes, t).Ok?
      invariant fullSong.chunks == old(fullSong.chunks) + Join(outcomes, t).value
    {
      var added := AddPartTrack(fullSong, part, e, rep, t, bpm, cursor, oracle, build, render);
      assert outcomes[t] == TrackOutcome(part, e, rep, bpm, oracle, build, cursor, t);
      if added.Fail? {
        assert Join(outcomes, t + 1) == Fail(added.error);
        JoinFailureStays(outcomes, t + 1, |part.tracks|);
        return Fail(added.error);
      }
      t := t + 1;
    }
    return Ok(());
  }

  /** How far the cursor moves after one repetition: the part's tempo is
      drawn again, the beats per measure looked up for it, and the ticks per
      measure multiplied by the measures. Whatever tempo is drawn, that is the
      part's length in ticks. */
  method CursorAdvance(part: PartConfig, seed: nat, ticksPerQuarter: nat) returns (advance: nat)
    requires part.measures >= 0
    ensures advance == PartTicks(part, ticksPerQuarter)
  {
    var beatsPerBar := BeatsPerMeasure(part.timeSignature, PartBpm(part, seed));
    var ticksPerMeasure: nat := ticksPerQuarter * beatsPerBar;
    advance := ticksPerMeasure * part.measures;
  }

  /** One repetition of an entry: every track placed at the cursor; the
      cursor after it. */
  method PlayRepetition(fullSong: MidiFile, part: PartConfig, e: nat, rep: nat, bpm: int, cursor: nat,
                        oracle: Oracle, ghost build: TrackBuild, render: Renderer, ticksPerQuarter: nat)
    returns (r: Result<nat>)
    requires PartReady(part) && Builds(build, render)
    modifies fullSong
    ensures var spec := Join(TrackOutcomes(part, e, rep, bpm, oracle, build, cursor), |part.tracks|);
      (r.Fail? <==> spec.Fail?) && (r.Fail? ==> r.error == spec.error) &&
      (spec.Ok? ==> fullSong.chunks == old(fullSong.chunks) + spec.value &&
                    r.value == cursor + PartTicks(part, ticksPerQuarter))
  {
    var played := PlayPartRepetition(fullSong, part, e, rep, bpm, cursor, oracle, build, render);
    if played.Fail? {
      return Fail(played.error);
    }
    var advance := CursorAdvance(part, oracle([e, rep]), ticksPerQuarter);
    return Ok(cursor + advance);
  }

  /** Every repetition of one entry; the new cursor. */
  method PlayEntry(fullSong: MidiFile, part: PartConfig, e: nat, bpm: int, repeatCount: int, cursor: nat,
                   oracle: Oracle, ghost build: TrackBuild, render: Renderer, ticksPerQuarter: nat)
    returns (r: Result<nat>)
    requires PartReady(part) && Builds(build, render)
    modifies fullSong
    ensures var spec := EntryReps(part, e, bpm, oracle, build, ticksPerQuarter, (old(fullSong.chunks), cursor),
                                  if repeatCount > 0 then repeatCount else 0);
      (r.Fail? <==> spec.Fail?) && (r.Fail? ==> r.error == spec.error) &&
      (spec.Ok? ==> spec.value == (fullSong.chunks, r.value))
  {
    ghost var start := (fullSong.chunks, cursor);
    var currentTicks: nat := cursor;
    var rep := 0;
    while rep < repeatCount
      invariant 0 <= rep <= (if repeatCount > 0 then repeatCount else 0)
      invariant EntryReps(part, e, bpm, oracle, build, ticksPerQuarter, start, rep)
             == Ok((fullSong.chunks, currentTicks))
    {
      var played := PlayRepetition(fullSong, part, e, rep, bpm, currentTicks, oracle, build, render, ticksPerQuarter);
      if played.Fail? {
        EntryRepsFailureStays(part, e, bpm, oracle, build, ticksPerQuarter, start, rep + 1, repeatCount);
        return Fail(played.error);
      }
      currentTicks := played.value;
      rep := rep + 1;
    }
    return Ok(currentTicks);
  }

  /** Entry `e` of the structure: its part looked up (ArgumentOutOfRange
      when the index names no part), its tempo drawn at [e], and every
      repetition played from the cursor; the cursor after it. */
  method PlayStructureEntry(fullSong: MidiFile, parts: seq<PartConfig>, structure: seq<PartSequenceEntry>, e: nat,
                            cursor: nat, oracle: Oracle, ghost build: TrackBuild, render: Renderer,
                            ticksPerQuarter: nat) returns (r: Result<nat>)
    requires SongReady(parts) && Builds(build, render) && e < |structure|
    requires SongUpTo(parts, structure, EntryTempos(parts, structure, oracle), oracle, build, ticksPerQuarter, e)
          == Ok((fullSong.chunks, cursor))
    modifies fullSong
    ensures var spec := SongUpTo(parts, structure, EntryTempos(parts, structure, oracle), oracle, build,
                                 ticksPerQuarter, e + 1);
      (r.Fail? <==> spec.Fail?) && (r.Fail? ==> r.error == spec.error) &&
      (spec.Ok? ==> spec.value == (fullSong.chunks, r.value))
  {
    ghost var tempos := EntryTempos(parts, structure, oracle);
    var entry := structure[e];
    if !(0 <= entry.partIndex < |parts|) {
      return Fail(ArgumentOutOfRange);
    }
    var part := parts[entry.partIndex];
    var bpm := PartBpm(part, oracle([e]));
    assert bpm == tempos[e];
    SongUpToStep(parts, structure, tempos, oracle, build, ticksPerQuarter, e);
    r := PlayEntry(fullSong, part, e, bpm, entry.repeatCount, cursor, oracle, build, render, ticksPerQuarter);
  }

  /** Every entry of the structure in order, from tick 0 on an empty file. */
  method PlayStructure(fullSong: MidiFile, parts: seq<PartConfig>, structure: seq<PartSequenceEntry>,
                       oracle: Oracle, ghost tempos: seq<int>, ghost build: TrackBuild, render: Renderer,
                       ticksPerQuarter: nat) returns (r: Result<()>)
    requires SongReady(parts) && Builds(build, render) && fullSong.chunks == []
    requires tempos == EntryTempos(parts, structure, oracle)
    modifies fullSong
    ensures var spec := SongUpTo(parts, structure, tempos, oracle, build, ticksPerQuarter, |structure|);
      (r.Fail? <==> spec.Fail?) && (r.Fail? ==> r.error == spec.error) &&
      (spec.Ok? ==> spec.value.0 == fullSong.chunks)
  {
    var currentTicks: nat := 0;
    var e := 0;
    while e < |structure|
      invariant 0 <= e <= |structure|
      invariant SongUpTo(parts, structure, tempos, oracle, build, ticksPerQuarter, e)
             == Ok((fullSong.chunks, currentTicks))
    {
      var played := PlayStructureEntry(fullSong, parts, structure, e, currentTicks, oracle, build, render,
                                       ticksPerQuarter);
      if played.Fail? {
        SongUpToFailureStays(parts, structure, tempos, oracle, build, ticksPerQuarter, e + 1, |structure|);
        return Fail(played.error);
      }
      currentTicks := played.value;
      e := e + 1;
    }
    return Ok(());
  }

  /** GenerateSong: the structure's entries in order on a new file. */
  method GenerateSong(song: SongConfig, oracle: Oracle, ghost build: TrackBuild, render: Renderer,
                      ticksPerQuarter: nat) returns (r: Result<MidiFile>)
    requires SongReady(song.parts) && Builds(build, render)
    ensures Delivers(r, SongChunks(song.parts, song.structure, oracle, build, ticksPerQuarter))
    ensures r.Ok? ==> fresh(r.value)
  {
    var fullSong := new MidiFile();
    var played := PlayStructure(fullSong, song.parts, song.structure, oracle,
                                EntryTempos(song.parts, song.structure, oracle), build, render, ticksPerQuarter);
    if played.Fail? {
      return Fail(played.error);
    }
    return Ok(fullSong);
  }

  // ---------------------------------------------------------------------------
  // Lemmas

  /** Track t of a repetition is the track's chunks generated on channel t
      and moved to the cursor, so every channel event of it is on channel t:
      the tracks of a part get channels 0, 1, 2, ... in list order. */
  lemma {:induction false} TrackOnItsChannel(part: PartConfig, e: nat, rep: nat, bpm: int, oracle: Oracle,
                                             build: TrackBuild, render: Renderer, cursor: nat, t: nat)
    requires PartReady(part) && Builds(build, render) && t < |part.tracks|
    requires TrackOutcome(part, e, rep, bpm, oracle, build, cursor, t).Ok?
    ensures var generated := TrackChunks(part.tracks[t], part, t, bpm, Below(oracle, [e, rep, t]), render);
      generated.Ok? &&
      TrackOutcome(part, e, rep, bpm, oracle, build, cursor, t).value == ShiftAll(generated.value, cursor) &&
      OnChannel(TrackOutcome(part, e, rep, bpm, oracle, build, cursor, t).value, t)
  {
    var generated := TrackChunks(part.tracks[t], part, t, bpm, Below(oracle, [e, rep, t]), render);
    assert TrackReady(part.tracks[t]);
    assert build(part.tracks[t], part, t, bpm, Below(oracle, [e, rep, t]), cursor) == Placed(generated, cursor);
    ShiftAllOnChannel(generated.value, cursor, t);
  }

  /** The repetitions of one entry only append to the song, and each moves
      the cursor on by the part's length in ticks. */
  lemma {:induction false} EntryRepsProgress(part: PartConfig, e: nat, bpm: int, oracle: Oracle, build: TrackBuild,
                                             ticksPerQuarter: nat, start: Progress, count: nat)
    requires part.measures >= 0
    requires EntryReps(part, e, bpm, oracle, build, ticksPerQuarter, start, count).Ok?
    ensures var p := EntryReps(part, e, bpm, oracle, build, ticksPerQuarter, start, count).value;
      start.0 <= p.0 && p.1 == start.1 + count * PartTicks(part, ticksPerQuarter)
  {
    if count > 0 {
      EntryRepsProgress(part, e, bpm, oracle, build, ticksPerQuarter, start, count - 1);
      MulSucc(count, PartTicks(part, ticksPerQuarter));
    }
  }

  /** The tick at which the part after the first `count` entries starts:
      each entry adds its repetitions times its part's length. */
  function StructureTicks(parts: seq<PartConfig>, structure: seq<PartSequenceEntry>, ticksPerQuarter: nat,
                          count: nat): nat
    requires SongReady(parts) && count <= |structure|
  {
    if count == 0 then 0
    else
      var entry := structure[count - 1];
      var reps: nat := if entry.repeatCount > 0 then entry.repeatCount else 0;
      var ticks := if 0 <= entry.partIndex < |parts| then reps * PartTicks(parts[entry.partIndex], ticksPerQuarter) else 0;
      StructureTicks(parts, structure, ticksPerQuarter, count - 1) + ticks
  }

  /** A song that got through m > 0 entries got through m - 1, and the
      last entry names a part whose repetitions took it from there. */
  lemma {:induction false} SongUpToLast(parts: seq<PartConfig>, structure: seq<PartSequenceEntry>,
                                        tempos: seq<int>, oracle: Oracle, build: TrackBuild,
                                        ticksPerQuarter: nat, m: nat)
    requires SongReady(parts) && |tempos| == |structure| && 0 < m <= |structure|
    requires SongUpTo(parts, structure, tempos, oracle, build, ticksPerQuarter, m).Ok?
    ensures SongUpTo(parts, structure, tempos, oracle, build, ticksPerQuarter, m - 1).Ok?
    ensures 0 <= structure[m - 1].partIndex < |parts|
    ensures var reps: nat := if structure[m - 1].repeatCount > 0 then structure[m - 1].repeatCount else 0;
      SongUpTo(parts, structure, tempos, oracle, build, ticksPerQuarter, m)
      == EntryReps(parts[structure[m - 1].partIndex], m - 1, tempos[m - 1], oracle, build, ticksPerQuarter,
                   SongUpTo(parts, structure, tempos, oracle, build, ticksPerQuarter, m - 1).value, reps)
  {
  }

  /** Chunks are only ever appended to the song: the song after n entries is
      a prefix of the song after any later entry. */
  lemma {:induction false} SongUpToPrefix(parts: seq<PartConfig>, structure: seq<PartSequenceEntry>,
                                          tempos: seq<int>, oracle: Oracle, build: TrackBuild,
                                          ticksPerQuarter: nat, n: nat, m: nat)
    requires SongReady(parts) && |tempos| == |structure| && n <= m <= |structure|
    requires SongUpTo(parts, structure, tempos, oracle, build, ticksPerQuarter, m).Ok?
    ensures SongUpTo(parts, structure, tempos, oracle, build, ticksPerQuarter, n).Ok?
    ensures SongUpTo(parts, structure, tempos, oracle, build, ticksPerQuarter, n).value.0
         <= SongUpTo(parts, structure, tempos, oracle, build, ticksPerQuarter, m).value.0
    decreases m
  {
    if n < m {
      SongUpToLast(parts, structure, tempos, oracle, build, ticksPerQuarter, m);
      var entry := structure[m - 1];
      var reps: nat := if entry.repeatCount > 0 then entry.repeatCount else 0;
      var before := SongUpTo(parts, structure, tempos, oracle, build, ticksPerQuarter, m - 1).value;
      EntryRepsProgress(parts[entry.partIndex], m - 1, tempos[m - 1], oracle, build, ticksPerQuarter, before, reps);
      SongUpToPrefix(parts, structure, tempos, oracle, build, ticksPerQuarter, n, m - 1);
      PrefixTransitive(SongUpTo(parts, structure, tempos, oracle, build, ticksPerQuarter, n).value.0, before.0,
                       SongUpTo(parts, structure, tempos, oracle, build, ticksPerQuarter, m).value.0);
    }
  }

  /** A song that got through every entry never met an entry naming no
      part. */
  lemma {:induction false} SongNamesParts(parts: seq<PartConfig>, structure: seq<PartSequenceEntry>,
                                          tempos: seq<int>, oracle: Oracle, build: TrackBuild, ticksPerQuarter: nat)
    requires SongReady(parts) && |tempos| == |structure|
    requires SongUpTo(parts, structure, tempos, oracle, build, ticksPerQuarter, |structure|).Ok?
    ensures forall e :: 0 <= e < |structure| ==> 0 <= structure[e].partIndex < |parts|
  {
    forall e | 0 <= e < |structure|
      ensures 0 <= structure[e].partIndex < |parts|
    {
      SongUpToPrefix(parts, structure, tempos, oracle, build, ticksPerQuarter, e + 1, |structure|);
      SongUpToLast(parts, structure, tempos, oracle, build, ticksPerQuarter, e + 1);
    }
  }

  lemma {:induction false} PrefixTransitive(a: seq<Chunk>, b: seq<Chunk>, c: seq<Chunk>)
    requires a <= b && b <= c
    ensures a <= c
  {
    assert c[..|b|][..|a|] == c[..|a|];
  }

  /** The cursor after m entries is the sum of the entries' lengths. */
  lemma {:induction false} SongUpToCursor(parts: seq<PartConfig>, structure: seq<PartSequenceEntry>,
                                          tempos: seq<int>, oracle: Oracle, build: TrackBuild,
                                          ticksPerQuarter: nat, m: nat)
    requires SongReady(parts) && |tempos| == |structure| && m <= |structure|
    requires SongUpTo(parts, structure, tempos, oracle, build, ticksPerQuarter, m).Ok?
    ensures SongUpTo(parts, structure, tempos, oracle, build, ticksPerQuarter, m).value.1
         == StructureTicks(parts, structure, ticksPerQuarter, m)
    decreases m
  {
    if m > 0 {
      SongUpToLast(parts, structure, tempos, oracle, build, ticksPerQuarter, m);
      var entry := structure[m - 1];
      var reps: nat := if entry.repeatCount > 0 then entry.repeatCount else 0;
      EntryRepsProgress(parts[entry.partIndex], m - 1, tempos[m - 1], oracle, build, ticksPerQuarter,
                        SongUpTo(parts, structure, tempos, oracle, build, ticksPerQuarter, m - 1).value, reps);
      SongUpToCursor(parts, structure, tempos, oracle, build, ticksPerQuarter, m - 1);
    }
  }

  /** TrackBuilder is a track builder. */
  lemma {:induction false} TrackBuilderBuilds(render: Renderer)
    ensures Builds(TrackBuilder(render), render)
  {
  }
}
