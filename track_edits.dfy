/** The edits the generator makes to a rendered MIDI file: the bank-select
    and program-change events put in front of every track, every channel
    event moved to the track's channel, every event delayed by the start of
    its song part, and the tracks of one file appended to another. */
module TrackEdits {
  import opened Midi

  /** The three inserts of SetBankAndPatchEvents on one chunk: Bank Select
      MSB at position 0, Bank Select LSB at 1, Program Change at 2, the last
      with a delta of one tick. */
  function WithBankAndPatch(chunk: Chunk, bank: int, preset: nat, channel: nat): (r: Chunk)
    ensures r == Preamble(bank, preset, channel, 0, 0, 1) + chunk
  {
    var c0 := Insert(chunk, 0, TimedEvent(0, ControlChange(channel, 0, BankMsb(bank))));
    var c1 := Insert(c0, 1, TimedEvent(0, ControlChange(channel, 32, BankLsb(bank))));
    Insert(c1, 2, TimedEvent(1, ProgramChange(channel, preset)))
  }

  /** What a builder does to the file a pattern renders to: the bank and
      patch events, then every channel event on the track's channel. */
  function FinishTrack(rendered: seq<Chunk>, bank: int, preset: nat, channel: nat): (r: seq<Chunk>)
    ensures |r| == |rendered|
    ensures forall i :: 0 <= i < |r| ==>
      r[i] == RechannelChunk(WithBankAndPatch(rendered[i], bank, preset, channel), channel)
  {
    seq(|rendered|, i requires 0 <= i < |rendered| =>
      RechannelChunk(WithBankAndPatch(rendered[i], bank, preset, channel), channel))
  }

  /** SetBankAndPatchEvents: the three inserts on every track chunk. The
      preset and channel become a SevenBitNumber and a FourBitNumber, so they
      must fit in seven and four bits. */
  method SetBankAndPatchEvents(file: MidiFile, bank: int, preset: nat, channel: nat)
    requires preset < 128 && channel < 16
    modifies file
    ensures |file.chunks| == |old(file.chunks)|
    ensures forall i :: 0 <= i < |file.chunks| ==>
      file.chunks[i] == WithBankAndPatch(old(file.chunks)[i], bank, preset, channel)
  {
    var i := 0;
    while i < |file.chunks|
      invariant 0 <= i <= |file.chunks| == |old(file.chunks)|
      invariant forall j :: 0 <= j < i ==> file.chunks[j] == WithBankAndPatch(old(file.chunks)[j], bank, preset, channel)
      invariant forall j :: i <= j < |file.chunks| ==> file.chunks[j] == old(file.chunks)[j]
    {
      var chunk := file.chunks[i];
      chunk := Insert(chunk, 0, TimedEvent(0, ControlChange(channel, 0, BankMsb(bank))));
      chunk := Insert(chunk, 1, TimedEvent(0, ControlChange(channel, 32, BankLsb(bank))));
      chunk := Insert(chunk, 2, TimedEvent(1, ProgramChange(channel, preset)));
      file.chunks := file.chunks[i := chunk];
      i := i + 1;
    }
  }

  /** SetChannel: every channel event of every track chunk, in turn, is
      given the channel; meta events are left alone. */
  method SetChannel(file: MidiFile, channel: nat)
    requires channel < 16
    modifies file
    ensures |file.chunks| == |old(file.chunks)|
    ensures forall i :: 0 <= i < |file.chunks| ==> file.chunks[i] == RechannelChunk(old(file.chunks)[i], channel)
  {
    var i := 0;
    while i < |file.chunks|
      invariant 0 <= i <= |file.chunks| == |old(file.chunks)|
      invariant forall j :: 0 <= j < i ==> file.chunks[j] == RechannelChunk(old(file.chunks)[j], channel)
      invariant forall j :: i <= j < |file.chunks| ==> file.chunks[j] == old(file.chunks)[j]
    {
      var chunk := file.chunks[i];
      var k := 0;
      while k < |chunk|
        invariant 0 <= k <= |chunk| == |file.chunks[i]|
        invariant forall j :: 0 <= j < k ==>
          chunk[j] == TimedEvent(file.chunks[i][j].delta, WithChannel(file.chunks[i][j].event, channel))
        invariant forall j :: k <= j < |chunk| ==> chunk[j] == file.chunks[i][j]
      {
        chunk := chunk[k := TimedEvent(chunk[k].delta, WithChannel(chunk[k].event, channel))];
        k := k + 1;
      }
      assert chunk == RechannelChunk(file.chunks[i], channel);
      file.chunks := file.chunks[i := chunk];
      i := i + 1;
    }
  }

  /** One chunk of ShiftFile: the TimedEventsManager's absolute times are
      moved one event at a time, and disposing the manager writes the deltas
      back. */
  method ShiftTrackChunk(chunk: Chunk, offset: nat) returns (r: Chunk)
    ensures r == ShiftChunk(chunk, offset)
  {
    var events := ToAbsolute(chunk, 0);
    var k := 0;
    while k < |events|
      invariant 0 <= k <= |events| == |chunk|
      invariant forall j :: 0 <= j < k ==> events[j] == Shifted(ToAbsolute(chunk, 0), offset)[j]
      invariant forall j :: k <= j < |events| ==> events[j] == ToAbsolute(chunk, 0)[j]
    {
      events := events[k := AbsEvent(events[k].time + offset, events[k].event)];
      k := k + 1;
    }
    assert events == Shifted(ToAbsolute(chunk, 0), offset);
    AbsoluteAscending(chunk, 0);
    ShiftedAscending(ToAbsolute(chunk, 0), 0, offset);
    AscendingLowerBase(events, offset, 0);
    r := FromAbsolute(events, 0);
    RelativeRoundTrip(events, 0);
    ToAbsoluteInjective(r, ShiftChunk(chunk, offset), 0);
  }

  /** Every chunk moved `offset` ticks later. */
  function ShiftAll(chunks: seq<Chunk>, offset: nat): (r: seq<Chunk>)
    ensures |r| == |chunks|
    ensures forall i :: 0 <= i < |r| ==> r[i] == ShiftChunk(chunks[i], offset)
  {
    seq(|chunks|, i requires 0 <= i < |chunks| => ShiftChunk(chunks[i], offset))
  }

  /** ShiftFile: every event of every track chunk moved `offset` ticks later. */
  method ShiftFile(file: MidiFile, offset: nat)
    modifies file
    ensures file.chunks == ShiftAll(old(file.chunks), offset)
  {
    var i := 0;
    while i < |file.chunks|
      invariant 0 <= i <= |file.chunks| == |old(file.chunks)|
      invariant forall j :: 0 <= j < i ==> file.chunks[j] == ShiftChunk(old(file.chunks)[j], offset)
      invariant forall j :: i <= j < |file.chunks| ==> file.chunks[j] == old(file.chunks)[j]
    {
      var shifted := ShiftTrackChunk(file.chunks[i], offset);
      file.chunks := file.chunks[i := shifted];
      i := i + 1;
    }
    assert file.chunks == ShiftAll(old(file.chunks), offset);
  }

  /** MergeInto: a copy of every track chunk of `source` appended to
      `target`, in order. */
  method MergeInto(target: MidiFile, source: MidiFile)
    requires target != source
    modifies target
    ensures target.chunks == old(target.chunks) + source.chunks
  {
    var i := 0;
    while i < |source.chunks|
      invariant 0 <= i <= |source.chunks|
      invariant target.chunks == old(target.chunks) + source.chunks[..i]
    {
      target.chunks := target.chunks + [source.chunks[i]];
      assert source.chunks[..i + 1] == source.chunks[..i] + [source.chunks[i]];
      i := i + 1;
    }
    assert source.chunks[..|source.chunks|] == source.chunks;
  }

  /** The end of every builder: the bank and patch events, then the
      channel. */
  method FinishFile(file: MidiFile, bank: int, preset: nat, channel: nat)
    requires preset < 128 && channel < 16
    modifies file
    ensures file.chunks == FinishTrack(old(file.chunks), bank, preset, channel)
  {
    SetBankAndPatchEvents(file, bank, preset, channel);
    SetChannel(file, channel);
    assert file.chunks == FinishTrack(old(file.chunks), bank, preset, channel);
  }

  /** Every chunk opens with Bank Select MSB, Bank Select LSB and Program
      Change, and every channel event in it is on the channel. */
  predicate OnChannel(chunks: seq<Chunk>, channel: nat) {
    forall i :: 0 <= i < |chunks| ==>
      |chunks[i]| >= 3 &&
      chunks[i][0].event.ControlChange? && chunks[i][0].event.controller == 0 &&
      chunks[i][1].event.ControlChange? && chunks[i][1].event.controller == 32 &&
      chunks[i][2].event.ProgramChange? &&
      forall j :: 0 <= j < |chunks[i]| && IsChannelEvent(chunks[i][j].event) ==> chunks[i][j].event.channel == channel
  }

  // ---------------------------------------------------------------------------
  // Lemmas

  /** A finished track starts with the bank select (MSB then LSB) and the
      program change, all on the track's channel; every channel event of it
      is on that channel; and the rendered events follow, in order, one tick
      later than rendered. */
  lemma {:induction false} FinishedTrackLayout(chunk: Chunk, bank: int, preset: nat, channel: nat)
    ensures
      var r := RechannelChunk(WithBankAndPatch(chunk, bank, preset, channel), channel);
      |r| == |chunk| + 3 &&
      r[0].event == ControlChange(channel, 0, BankMsb(bank)) &&
      r[1].event == ControlChange(channel, 32, BankLsb(bank)) &&
      r[2].event == ProgramChange(channel, preset) &&
      (forall i :: 0 <= i < |r| && IsChannelEvent(r[i].event) ==> r[i].event.channel == channel) &&
      ToAbsolute(WithBankAndPatch(chunk, bank, preset, channel), 0)[3..] == Shifted(ToAbsolute(chunk, 0), 1)
  {
    PreambleDelays(bank, preset, channel, 0, 0, 1, chunk);
  }

  /** Every finished chunk is on the track's channel. */
  lemma {:induction false} FinishTrackOnChannel(rendered: seq<Chunk>, bank: int, preset: nat, channel: nat)
    ensures OnChannel(FinishTrack(rendered, bank, preset, channel), channel)
  {
    forall i | 0 <= i < |rendered| {
      FinishedTrackLayout(rendered[i], bank, preset, channel);
    }
  }

  /** Shifting moves events in time and nothing else: the events, and with
      them the channels, stay as they were. */
  lemma {:induction false} ShiftKeepsEvents(chunk: Chunk, offset: nat)
    ensures |ShiftChunk(chunk, offset)| == |chunk|
    ensures forall i :: 0 <= i < |chunk| ==> ShiftChunk(chunk, offset)[i].event == chunk[i].event
  {
    var r := ShiftChunk(chunk, offset);
    forall i | 0 <= i < |chunk|
      ensures r[i].event == chunk[i].event
    {
      assert ToAbsolute(r, 0)[i].event == Shifted(ToAbsolute(chunk, 0), offset)[i].event;
    }
  }

  /** A shifted track is still on its channel. */
  lemma {:induction false} ShiftAllOnChannel(chunks: seq<Chunk>, offset: nat, channel: nat)
    requires OnChannel(chunks, channel)
    ensures OnChannel(ShiftAll(chunks, offset), channel)
  {
    forall i | 0 <= i < |chunks| {
      ShiftKeepsEvents(chunks[i], offset);
    }
  }
}
