/** The MIDI data the generators produce: channel and meta events, track
    chunks as lists of (delta time, event) pairs whose absolute times are the
    running sums of the deltas, and a MIDI file as a list of track chunks. */
module Midi {
  import opened Outcomes

  /** A MIDI event. Channel events carry their channel (0 to 15); every other
      event (tempo, time signature, end of track, ...) is a meta event with
      no channel. */
  datatype MidiEvent =
    | ControlChange(channel: nat, controller: nat, value: nat)
    | ProgramChange(channel: nat, program: nat)
    | NoteOn(channel: nat, noteNumber: nat, velocity: nat)
    | NoteOff(channel: nat, noteNumber: nat, velocity: nat)
    | Meta(kind: nat)

  predicate IsChannelEvent(e: MidiEvent) {
    !e.Meta?
  }

  /** `channelEvent.Channel = channel` when e is a channel event; any other
      event is left alone. */
  function WithChannel(e: MidiEvent, channel: nat): (r: MidiEvent)
    ensures IsChannelEvent(r) == IsChannelEvent(e)
  {
    if e.Meta? then e else e.(channel := channel)
  }

  /** An event with its delta time in ticks. */
  datatype TimedEvent = TimedEvent(delta: nat, event: MidiEvent)

  /** A track chunk's event list. */
  type Chunk = seq<TimedEvent>

  /** An event at an absolute time in ticks (TimedEventsManager's view). */
  datatype AbsEvent = AbsEvent(time: int, event: MidiEvent)

  /** A MIDI file: its track chunks, in order. */
  class MidiFile {
    var chunks: seq<Chunk>

    /** new MidiFile(): no chunks. */
    constructor ()
      ensures chunks == []
    {
      chunks := [];
    }

    /** The file a pattern renders to. */
    constructor FromChunks(rendered: seq<Chunk>)
      ensures chunks == rendered
    {
      chunks := rendered;
    }
  }

  /** A generator's outcome agrees with its specification: the file it
      returns holds the specified chunks, or it fails with the specified
      exception. */
  predicate Delivers(r: Result<MidiFile>, spec: Result<seq<Chunk>>)
    reads if r.Ok? then {r.value} else {}
  {
    match r
    case Ok(file) => spec.Ok? && file.chunks == spec.value
    case Fail(e) => spec == Fail(e)
  }

  // ---------------------------------------------------------------------------
  // Absolute times

  /** The events of a chunk at their absolute times, counting from `base`. */
  function ToAbsolute(chunk: Chunk, base: int): (r: seq<AbsEvent>)
    ensures |r| == |chunk|
    ensures forall i :: 0 <= i < |r| ==> r[i].event == chunk[i].event
    decreases |chunk|
  {
    if chunk == [] then []
    else [AbsEvent(base + chunk[0].delta, chunk[0].event)] + ToAbsolute(chunk[1..], base + chunk[0].delta)
  }

  /** Times that never go back, starting at or after `base`. */
  predicate Ascending(events: seq<AbsEvent>, base: int)
    decreases |events|
  {
    events == [] || (base <= events[0].time && Ascending(events[1..], events[0].time))
  }

  /** Disposing the TimedEventsManager: each delta becomes the distance from
      the previous event's time. */
  function FromAbsolute(events: seq<AbsEvent>, base: int): (c: Chunk)
    requires Ascending(events, base)
    ensures |c| == |events|
    ensures forall i :: 0 <= i < |c| ==> c[i].event == events[i].event
    decreases |events|
  {
    if events == [] then []
    else [TimedEvent(events[0].time - base, events[0].event)] + FromAbsolute(events[1..], events[0].time)
  }

  /** Every time moved by `offset`, the order kept. */
  function Shifted(events: seq<AbsEvent>, offset: int): (r: seq<AbsEvent>)
    ensures |r| == |events|
    ensures forall i :: 0 <= i < |r| ==> r[i] == AbsEvent(events[i].time + offset, events[i].event)
  {
    seq(|events|, i requires 0 <= i < |events| => AbsEvent(events[i].time + offset, events[i].event))
  }

  /** The sum of the deltas of a chunk: the absolute time of its last event. */
  function SumDeltas(chunk: Chunk): nat
    decreases |chunk|
  {
    if chunk == [] then 0 else chunk[0].delta + SumDeltas(chunk[1..])
  }

  /** ShiftFile on one chunk: through the absolute-time view, add `offset` to
      every time, and write the deltas back. */
  function ShiftChunk(chunk: Chunk, offset: nat): (r: Chunk)
    ensures |r| == |chunk|
    ensures ToAbsolute(r, 0) == Shifted(ToAbsolute(chunk, 0), offset)
  {
    var abs := ToAbsolute(chunk, 0);
    AbsoluteAscending(chunk, 0);
    ShiftedAscending(abs, 0, offset);
    AscendingLowerBase(Shifted(abs, offset), offset, 0);
    RelativeRoundTrip(Shifted(abs, offset), 0);
    FromAbsolute(Shifted(abs, offset), 0)
  }

  /** SetChannel on one chunk. */
  function RechannelChunk(chunk: Chunk, channel: nat): (r: Chunk)
    ensures |r| == |chunk|
    ensures forall i :: 0 <= i < |r| ==>
      r[i].delta == chunk[i].delta && r[i].event == WithChannel(chunk[i].event, channel)
  {
    seq(|chunk|, i requires 0 <= i < |chunk| => TimedEvent(chunk[i].delta, WithChannel(chunk[i].event, channel)))
  }

  // ---------------------------------------------------------------------------
  // Bank select and program change

  /** `(bank >> 7) & 0x7F`: C#'s arithmetic shift is a floor division by 128
      and the mask keeps the non-negative remainder. */
  function BankMsb(bank: int): (msb: nat)
    ensures msb < 128
  {
    (bank / 128) % 128
  }

  /** `bank & 0x7F`. */
  function BankLsb(bank: int): (lsb: nat)
    ensures lsb < 128
  {
    bank % 128
  }

  /** The three events inserted at positions 0, 1 and 2 of a chunk: Bank
      Select MSB (controller 0), Bank Select LSB (controller 32) and Program
      Change, with the given delta times. */
  function Preamble(bank: int, preset: nat, channel: nat, d0: nat, d1: nat, d2: nat): (p: Chunk)
    ensures |p| == 3 && SumDeltas(p) == d0 + d1 + d2
    ensures p[0].event == ControlChange(channel, 0, BankMsb(bank))
    ensures p[1].event == ControlChange(channel, 32, BankLsb(bank))
    ensures p[2].event == ProgramChange(channel, preset)
  {
    var p := [TimedEvent(d0, ControlChange(channel, 0, BankMsb(bank))),
              TimedEvent(d1, ControlChange(channel, 32, BankLsb(bank))),
              TimedEvent(d2, ProgramChange(channel, preset))];
    assert SumDeltas(p) == d0 + SumDeltas(p[1..]);
    assert SumDeltas(p[1..]) == d1 + SumDeltas(p[2..]);
    p
  }

  /** List.Insert(index, x). */
  function Insert<T>(s: seq<T>, index: nat, x: T): (r: seq<T>)
    requires index <= |s|
    ensures |r| == |s| + 1 && r[index] == x
    ensures r[..index] == s[..index] && r[index + 1..] == s[index..]
  {
    s[..index] + [x] + s[index..]
  }

  // ---------------------------------------------------------------------------
  // Lemmas

  lemma {:induction false} AbsoluteAscending(chunk: Chunk, base: int)
    ensures Ascending(ToAbsolute(chunk, base), base)
    decreases |chunk|
  {
    if chunk != [] {
      AbsoluteAscending(chunk[1..], base + chunk[0].delta);
    }
  }

  lemma {:induction false} ShiftedAscending(events: seq<AbsEvent>, base: int, offset: int)
    requires Ascending(events, base)
    ensures Ascending(Shifted(events, offset), base + offset)
    decreases |events|
  {
    if events != [] {
      ShiftedAscending(events[1..], events[0].time, offset);
      assert Shifted(events, offset)[1..] == Shifted(events[1..], offset);
    }
  }

  lemma {:induction false} AscendingLowerBase(events: seq<AbsEvent>, base: int, lower: int)
    requires Ascending(events, base) && lower <= base
    ensures Ascending(events, lower)
  {
  }

  /** Writing absolute times back as deltas and reading them again gives the
      same absolute times. */
  lemma {:induction false} RelativeRoundTrip(events: seq<AbsEvent>, base: int)
    requires Ascending(events, base)
    ensures ToAbsolute(FromAbsolute(events, base), base) == events
    decreases |events|
  {
    if events != [] {
      RelativeRoundTrip(events[1..], events[0].time);
      assert events == [events[0]] + events[1..];
    }
  }

  /** Reading a chunk at absolute times and writing the deltas back gives the
      chunk again. */
  lemma {:induction false} AbsoluteRoundTrip(chunk: Chunk, base: int)
    ensures Ascending(ToAbsolute(chunk, base), base)
    ensures FromAbsolute(ToAbsolute(chunk, base), base) == chunk
    decreases |chunk|
  {
    AbsoluteAscending(chunk, base);
    if chunk != [] {
      var time := base + chunk[0].delta;
      var abs, rest := ToAbsolute(chunk, base), ToAbsolute(chunk[1..], time);
      AbsoluteRoundTrip(chunk[1..], time);
      assert abs == [AbsEvent(time, chunk[0].event)] + rest;
      assert abs[0] == AbsEvent(time, chunk[0].event) && abs[1..] == rest;
      assert FromAbsolute(abs, base) == [TimedEvent(chunk[0].delta, chunk[0].event)] + chunk[1..];
      assert chunk == [chunk[0]] + chunk[1..];
    }
  }

  /** Two chunks with the same absolute times are the same chunk. */
  lemma {:induction false} ToAbsoluteInjective(a: Chunk, b: Chunk, base: int)
    requires ToAbsolute(a, base) == ToAbsolute(b, base)
    ensures a == b
  {
    AbsoluteRoundTrip(a, base);
    AbsoluteRoundTrip(b, base);
  }

  /** Counting from a later base moves every absolute time by the same
      amount. */
  lemma {:induction false} ToAbsoluteBase(chunk: Chunk, base: int, offset: int)
    ensures ToAbsolute(chunk, base + offset) == Shifted(ToAbsolute(chunk, base), offset)
    decreases |chunk|
  {
    if chunk != [] {
      ToAbsoluteBase(chunk[1..], base + chunk[0].delta, offset);
    }
  }

  /** The events after a prefix start at the prefix's total delta. */
  lemma {:induction false} ToAbsoluteAppend(p: Chunk, c: Chunk, base: int)
    ensures ToAbsolute(p + c, base) == ToAbsolute(p, base) + ToAbsolute(c, base + SumDeltas(p))
    decreases |p|
  {
    if p == [] {
      assert p + c == c;
    } else {
      assert (p + c)[1..] == p[1..] + c;
      ToAbsoluteAppend(p[1..], c, base + p[0].delta);
    }
  }

  /** Shifting a chunk only lengthens its first delta. */
  lemma {:induction false} ShiftChunkFirstDelta(chunk: Chunk, offset: nat)
    ensures chunk == [] ==> ShiftChunk(chunk, offset) == []
    ensures chunk != [] ==>
      ShiftChunk(chunk, offset) == [TimedEvent(chunk[0].delta + offset, chunk[0].event)] + chunk[1..]
  {
    if chunk != [] {
      var d, rest := chunk[0].delta, chunk[1..];
      var expected := [TimedEvent(d + offset, chunk[0].event)] + rest;
      assert expected[1..] == rest;
      var restAbs := ToAbsolute(rest, d);
      ToAbsoluteBase(rest, d, offset);
      assert ToAbsolute(expected, 0) == [AbsEvent(d + offset, chunk[0].event)] + Shifted(restAbs, offset);
      assert ToAbsolute(chunk, 0) == [AbsEvent(d, chunk[0].event)] + restAbs;
      assert Shifted([AbsEvent(d, chunk[0].event)] + restAbs, offset)
          == [AbsEvent(d + offset, chunk[0].event)] + Shifted(restAbs, offset);
      ToAbsoluteInjective(expected, ShiftChunk(chunk, offset), 0);
    }
  }

  /** Shifting by a and then by b is shifting by a + b; shifting by 0
      changes nothing. */
  lemma {:induction false} ShiftChunkCompose(chunk: Chunk, a: nat, b: nat)
    ensures ShiftChunk(ShiftChunk(chunk, a), b) == ShiftChunk(chunk, a + b)
    ensures ShiftChunk(chunk, 0) == chunk
  {
    ShiftChunkFirstDelta(chunk, a);
    ShiftChunkFirstDelta(chunk, 0);
    ShiftChunkFirstDelta(chunk, a + b);
    ShiftChunkFirstDelta(ShiftChunk(chunk, a), b);
    if chunk != [] {
      assert ShiftChunk(chunk, a)[1..] == chunk[1..];
    }
  }

  /** After the preamble, every original event keeps its order and lands
      d0 + d1 + d2 ticks later than before. */
  lemma {:induction false} PreambleDelays(bank: int, preset: nat, channel: nat, d0: nat, d1: nat, d2: nat, chunk: Chunk)
    ensures |ToAbsolute(Preamble(bank, preset, channel, d0, d1, d2) + chunk, 0)| == |chunk| + 3
    ensures ToAbsolute(Preamble(bank, preset, channel, d0, d1, d2) + chunk, 0)[3..]
         == Shifted(ToAbsolute(chunk, 0), d0 + d1 + d2)
  {
    var p := Preamble(bank, preset, channel, d0, d1, d2);
    PrefixDelays(p, chunk);
  }

  /** The events after a prefix keep their order and are delayed by the
      prefix's total delta. */
  lemma {:induction false} PrefixDelays(p: Chunk, chunk: Chunk)
    ensures ToAbsolute(p + chunk, 0)[|p|..] == Shifted(ToAbsolute(chunk, 0), SumDeltas(p))
  {
    var d := SumDeltas(p);
    var front, back := ToAbsolute(p, 0), ToAbsolute(chunk, d);
    ToAbsoluteAppend(p, chunk, 0);
    assert ToAbsolute(p + chunk, 0) == front + back;
    ToAbsoluteBase(chunk, 0, d);
    assert back == Shifted(ToAbsolute(chunk, 0), d);
    SuffixOfAppend(front, back);
    assert |front| == |p|;
  }

  lemma {:induction false} SuffixOfAppend<T>(front: seq<T>, back: seq<T>)
    ensures (front + back)[|front|..] == back
  {
  }

  /** For a bank number of 14 bits, MSB and LSB put back together give the
      bank ((msb << 7) | lsb == bank). */
  lemma {:induction false} BankSplitRoundTrip(bank: int)
    requires 0 <= bank < 16384
    ensures BankMsb(bank) * 128 + BankLsb(bank) == bank
  {
    assert bank / 128 < 128;
  }

  /** SetChannel leaves every channel event on the given channel and every
      other event as it was; doing it twice is doing it once. */
  lemma {:induction false} RechannelChunkFacts(chunk: Chunk, channel: nat)
    ensures forall i :: 0 <= i < |chunk| && IsChannelEvent(chunk[i].event) ==>
      RechannelChunk(chunk, channel)[i].event.channel == channel
    ensures forall i :: 0 <= i < |chunk| && !IsChannelEvent(chunk[i].event) ==>
      RechannelChunk(chunk, channel)[i] == chunk[i]
    ensures RechannelChunk(RechannelChunk(chunk, channel), channel) == RechannelChunk(chunk, channel)
  {
  }
}
