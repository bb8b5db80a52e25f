/** MIDIGeneratorManager: the post-processing GenerateMidiFile applies to a
    rendered pattern (bank select and program change at the head of every
    track, each ten ticks after the one before, then every channel event on
    the requested channel), SaveMIDIFile's early return, and the numbered file
    name GetUniqueFilePathInPersistentDataPath builds. */
module GeneratorManager {
  import opened Outcomes
  import opened Midi
  import opened Text
  import opened TrackEdits

  /** The delta time of each of the three inserted events. */
  const PreambleDelta: nat := 10

  /** The three inserts on one chunk: Bank Select MSB at position 0, Bank
      Select LSB at 1, Program Change at 2, each with a delta of ten ticks. */
  function WithManagerPreamble(chunk: Chunk, bank: int, preset: nat, channel: nat): (r: Chunk)
    ensures r == Preamble(bank, preset, channel, PreambleDelta, PreambleDelta, PreambleDelta) + chunk
  {
    var c0 := Insert(chunk, 0, TimedEvent(PreambleDelta, ControlChange(channel, 0, BankMsb(bank))));
    var c1 := Insert(c0, 1, TimedEvent(PreambleDelta, ControlChange(channel, 32, BankLsb(bank))));
    Insert(c1, 2, TimedEvent(PreambleDelta, ProgramChange(channel, preset)))
  }

  /** The chunks GenerateMidiFile returns for a rendered pattern. */
  function ManagedChunks(rendered: seq<Chunk>, bank: int, preset: nat, channel: nat): (r: seq<Chunk>)
    ensures |r| == |rendered|
    ensures forall i :: 0 <= i < |r| ==>
      r[i] == RechannelChunk(WithManagerPreamble(rendered[i], bank, preset, channel), channel)
  {
    seq(|rendered|, i requires 0 <= i < |rendered| =>
      RechannelChunk(WithManagerPreamble(rendered[i], bank, preset, channel), channel))
  }

  /** The foreach over the track chunks that inserts the three events. */
  method InsertBankAndPreset(file: MidiFile, bank: int, preset: nat, channel: nat)
    requires preset < 128 && channel < 16
    modifies file
    ensures |file.chunks| == |old(file.chunks)|
    ensures forall i :: 0 <= i < |file.chunks| ==>
      file.chunks[i] == WithManagerPreamble(old(file.chunks)[i], bank, preset, channel)
  {
    var i := 0;
    while i < |file.chunks|
      invariant 0 <= i <= |file.chunks| == |old(file.chunks)|
      invariant forall j :: 0 <= j < i ==> file.chunks[j] == WithManagerPreamble(old(file.chunks)[j], bank, preset, channel)
      invariant forall j :: i <= j < |file.chunks| ==> file.chunks[j] == old(file.chunks)[j]
    {
      var chunk := file.chunks[i];
      chunk := Insert(chunk, 0, TimedEvent(PreambleDelta, ControlChange(channel, 0, BankMsb(bank))));
      chunk := Insert(chunk, 1, TimedEvent(PreambleDelta, ControlChange(channel, 32, BankLsb(bank))));
      chunk := Insert(chunk, 2, TimedEvent(PreambleDelta, ProgramChange(channel, preset)));
      file.chunks := file.chunks[i := chunk];
      i := i + 1;
    }
  }

  /** GenerateMidiFile after the pattern is rendered: the inserts on every
      chunk, then every channel event of the file on the channel. The
      program and channel become a SevenBitNumber and a FourBitNumber, so
      they must fit in seven and four bits. */
  method GenerateMidiFile(rendered: seq<Chunk>, bank: int, preset: nat, channel: nat) returns (file: MidiFile)
    requires preset < 128 && channel < 16
    ensures fresh(file)
    ensures file.chunks == ManagedChunks(rendered, bank, preset, channel)
  {
    file := new MidiFile.FromChunks(rendered);
    InsertBankAndPreset(file, bank, preset, channel);
    SetChannel(file, channel);
  }

  /** SaveMIDIFile returns before it writes: the path is always null and no
      file is touched. */
  method SaveMidiFile(file: MidiFile) returns (path: Option<string>)
    ensures path.None?
  {
    return None;
  }

  /** The index of the last occurrence of c in s, or -1. */
  function LastIndexOf(s: string, c: char): (k: int)
    ensures -1 <= k < |s|
    ensures k >= 0 ==> s[k] == c
    ensures forall j :: k < j < |s| ==> s[j] != c
    decreases |s|
  {
    if s == [] then -1
    else if s[|s| - 1] == c then |s| - 1
    else LastIndexOf(s[..|s| - 1], c)
  }

  /** No position of s holds c. */
  predicate Free(s: string, c: char) {
    forall i :: 0 <= i < |s| ==> s[i] != c
  }

  /** Path.GetFileName: what follows the last directory separator ('/'). */
  function FileName(path: string): (f: string)
    ensures |f| <= |path| && f == path[|path| - |f|..]
    ensures Free(f, '/')
    ensures |f| < |path| ==> path[|path| - |f| - 1] == '/'
  {
    var k := LastIndexOf(path, '/');
    path[k + 1..]
  }

  /** The part of a file name before its last period (all of it when it has
      none). */
  function Stem(f: string): (b: string)
    ensures b <= f
    ensures Free(f, '.') ==> b == f
    ensures !Free(f, '.') ==> |b| < |f| && f[|b|] == '.' && Free(f[|b| + 1..], '.')
  {
    var k := LastIndexOf(f, '.');
    if k < 0 then f else f[..k]
  }

  /** The last period of a file name and what follows it, or nothing when
      the name has no period or ends with one. */
  function Suffix(f: string): (e: string)
    ensures e == [] <==> Free(f, '.') || f[|f| - 1] == '.'
    ensures e != [] ==> 2 <= |e| <= |f| && e[0] == '.' && Free(e[1..], '.') && e == f[|f| - |e|..]
  {
    var k := LastIndexOf(f, '.');
    if k < 0 then
      ""
    else if k == |f| - 1 then
      assert !Free(f, '.');
      ""
    else
      f[k..]
  }

  /** Path.GetFileNameWithoutExtension: the file name up to its last period;
      a period in a directory name does not count. */
  function NameWithoutExtension(path: string): (b: string)
    ensures b <= FileName(path)
    ensures Free(FileName(path), '.') ==> b == FileName(path)
    ensures !Free(FileName(path), '.') ==>
      |b| < |FileName(path)| && FileName(path)[|b|] == '.' && Free(FileName(path)[|b| + 1..], '.')
  {
    Stem(FileName(path))
  }

  /** Path.GetExtension: the last period of the file name and what follows
      it; a period in a directory name does not count. */
  function Extension(path: string): (e: string)
    ensures e == [] <==> Free(FileName(path), '.') || FileName(path)[|FileName(path)| - 1] == '.'
    ensures e != [] ==>
      2 <= |e| <= |FileName(path)| && e[0] == '.' && Free(e[1..], '.') &&
      e == FileName(path)[|FileName(path)| - |e|..]
  {
    Suffix(FileName(path))
  }

  /** The name GetUniqueFilePathInPersistentDataPath gives the next file when
      `fileCount` files of the directory match `base*ext`: it begins with the
      base name and an underscore, ends with the extension, and has no
      directory part of its own. */
  function UniqueFileName(path: string, fileCount: nat): (name: string)
    ensures var b, e := NameWithoutExtension(path), Extension(path);
      |name| > |b| + 1 + |e| &&
      name[..|b| + 1] == b + "_" && name[|name| - |e|..] == e &&
      Free(name, '/')
  {
    var digits := NatToString(fileCount + 1);
    PartsWithoutSeparator(path);
    NumberedShape(NameWithoutExtension(path), digits, Extension(path));
    NameWithoutExtension(path) + "_" + digits + Extension(path)
  }

  /** Neither the name without extension nor the extension holds a
      separator. */
  lemma {:induction false} PartsWithoutSeparator(path: string)
    ensures Free(NameWithoutExtension(path), '/') && Free(Extension(path), '/')
  {
    var f := FileName(path);
    var b, e := Stem(f), Suffix(f);
    FreeSlice(f, 0, |b|, '/');
    FreeSlice(f, |f| - |e|, |f|, '/');
    assert f[..|b|] == b;
  }

  /** base + "_" + digits + ext starts with base + "_", ends with ext, and
      has no separator when its parts have none. */
  lemma {:induction false} NumberedShape(b: string, digits: string, e: string)
    requires Free(b, '/') && AllDigits(digits) && Free(e, '/')
    ensures var name := b + "_" + digits + e;
      name[..|b| + 1] == b + "_" && name[|name| - |e|..] == e && Free(name, '/')
  {
    assert Free(digits, '/');
    FreeConcat(b, "_", '/');
    FreeConcat(b + "_", digits, '/');
    FreeConcat(b + "_" + digits, e, '/');
    var name := b + "_" + digits + e;
    assert name[..|b| + 1] == b + "_";
    assert name[|name| - |e|..] == e;
  }

  lemma {:induction false} FreeSlice(s: string, i: nat, j: nat, c: char)
    requires i <= j <= |s| && Free(s, c)
    ensures Free(s[i..j], c)
    ensures j == |s| ==> Free(s[i..], c)
  {
    assert forall k :: 0 <= k < j - i ==> s[i..j][k] == s[i + k];
  }

  lemma {:induction false} FreeConcat(s: string, t: string, c: char)
    requires Free(s, c) && Free(t, c)
    ensures Free(s + t, c)
  {
    assert forall k :: |s| <= k < |s + t| ==> (s + t)[k] == t[k - |s|];
  }

  // ---------------------------------------------------------------------------
  // Lemmas

  /** A post-processed track starts with the bank select (MSB then LSB) and
      the program change; every channel event of it is on the channel; and the
      rendered events follow in order, thirty ticks later than rendered. */
  lemma {:induction false} ManagedTrackLayout(chunk: Chunk, bank: int, preset: nat, channel: nat)
    ensures
      var r := RechannelChunk(WithManagerPreamble(chunk, bank, preset, channel), channel);
      |r| == |chunk| + 3 &&
      r[0] == TimedEvent(10, ControlChange(channel, 0, BankMsb(bank))) &&
      r[1] == TimedEvent(10, ControlChange(channel, 32, BankLsb(bank))) &&
      r[2] == TimedEvent(10, ProgramChange(channel, preset)) &&
      (forall i :: 0 <= i < |r| && IsChannelEvent(r[i].event) ==> r[i].event.channel == channel) &&
      ToAbsolute(WithManagerPreamble(chunk, bank, preset, channel), 0)[3..] == Shifted(ToAbsolute(chunk, 0), 30)
  {
    PreambleDelays(bank, preset, channel, PreambleDelta, PreambleDelta, PreambleDelta, chunk);
    RechannelChunkFacts(WithManagerPreamble(chunk, bank, preset, channel), channel);
  }

  /** After GenerateMidiFile every chunk opens with the three events and
      every channel event of the file is on the requested channel. */
  lemma {:induction false} ManagedChunksOnChannel(rendered: seq<Chunk>, bank: int, preset: nat, channel: nat)
    ensures OnChannel(ManagedChunks(rendered, bank, preset, channel), channel)
    ensures forall i :: 0 <= i < |rendered| ==>
      var c := ManagedChunks(rendered, bank, preset, channel)[i];
      |c| == |rendered[i]| + 3 &&
      c[0] == TimedEvent(10, ControlChange(channel, 0, BankMsb(bank))) &&
      c[1] == TimedEvent(10, ControlChange(channel, 32, BankLsb(bank))) &&
      c[2] == TimedEvent(10, ProgramChange(channel, preset))
  {
    forall i | 0 <= i < |rendered| {
      ManagedTrackLayout(rendered[i], bank, preset, channel);
    }
  }

  /** Without a trailing period, the stem and the suffix put back together
      are the file name. */
  lemma {:induction false} StemAndSuffix(f: string)
    requires f == [] || f[|f| - 1] != '.'
    ensures Stem(f) + Suffix(f) == f
  {
    var k := LastIndexOf(f, '.');
    if k >= 0 {
      assert f[..k] + f[k..] == f;
    }
  }

  /** Without a trailing period, the name and the extension put back
      together are the file name, whatever directories precede it. */
  lemma {:induction false} FileNameSplits(path: string)
    requires var f := FileName(path); f == [] || f[|f| - 1] != '.'
    ensures NameWithoutExtension(path) + Extension(path) == FileName(path)
  {
    StemAndSuffix(FileName(path));
  }

  /** A period in a directory name is no extension: "takes.v2/song" has the
      name "song" and no extension. */
  lemma DirectoryPeriodIgnored()
    ensures NameWithoutExtension("takes.v2/song") == "song"
    ensures Extension("takes.v2/song") == ""
  {
    var path := "takes.v2/song";
    assert path[8] == '/';
    assert LastIndexOf(path, '/') == 8;
    assert FileName(path) == path[9..] == "song";
    assert Free("song", '.');
  }

  /** The digits between the base name and the extension read back as the
      count plus one, and different counts of existing files give different
      names. */
  lemma {:induction false} UniqueFileNameShape(path: string, count: nat, other: nat)
    ensures var name := UniqueFileName(path, count);
      var b, e := NameWithoutExtension(path), Extension(path);
      AllDigits(name[|b| + 1..|name| - |e|]) &&
      DigitsValue(name[|b| + 1..|name| - |e|]) == count + 1
    ensures count != other ==> UniqueFileName(path, count) != UniqueFileName(path, other)
  {
    var b, e := NameWithoutExtension(path), Extension(path);
    NumberedDigits(b, NatToString(count + 1), e);
    NumberedDigits(b, NatToString(other + 1), e);
  }

  /** The digits sit between base + "_" and the extension. */
  lemma {:induction false} NumberedDigits(b: string, digits: string, e: string)
    ensures var name := b + "_" + digits + e;
      name[|b| + 1..|name| - |e|] == digits
  {
    var name := b + "_" + digits + e;
    assert name == (b + "_") + digits + e;
  }
}
