/** The song-structure text of the sample panel: ParseSequence reads a
    comma-separated list of 1-based part numbers into the song's structure
    (one repetition each), and SerializeStructure writes a structure back as
    that text. The text of the input field is a parameter. */
module SequenceCodec {
  import opened Outcomes
  import opened Text
  import opened UnityMath
  import opened SongData

  /** The part index a part number becomes: n - 1 when n names a part, and
      otherwise the number clamped into [1, partCount], minus one. */
  function PartIndexOf(partNumber: int, partCount: nat): (idx: int)
    ensures 1 <= partNumber <= partCount ==> idx == partNumber - 1
    ensures partCount >= 1 ==> 0 <= idx < partCount
    ensures partCount >= 1 && partNumber < 1 ==> idx == 0
    ensures partCount >= 1 && partNumber > partCount ==> idx == partCount - 1
  {
    var idx := partNumber - 1;
    if idx < 0 || idx >= partCount then Clamp(partNumber, 1, partCount) - 1 else idx
  }

  /** The entry one token yields: none when the trimmed token is not an
      integer, otherwise its part index with one repetition. */
  function TokenEntry(token: string, partCount: nat): (r: seq<PartSequenceEntry>)
    ensures |r| <= 1
    ensures |r| == 1 <==> Int32TryParse(Trim(token, IsWhiteSpace)).Some?
    ensures EntriesFit(r, partCount)
  {
    var partNumber := Int32TryParse(Trim(token, IsWhiteSpace));
    if partNumber.None? then [] else [PartSequenceEntry(PartIndexOf(partNumber.value, partCount), 1)]
  }

  /** The entries of a list of tokens, in token order. */
  function TokenEntries(tokens: seq<string>, partCount: nat): (r: seq<PartSequenceEntry>)
    ensures |r| <= |tokens|
    ensures EntriesFit(r, partCount)
    decreases |tokens|
  {
    if tokens == [] then []
    else
      var init, last := TokenEntries(tokens[..|tokens| - 1], partCount), TokenEntry(tokens[|tokens| - 1], partCount);
      EntriesFitAppend(init, last, partCount);
      init + last
  }

  /** Every entry is played once and, when there are parts, names one. */
  predicate EntriesFit(entries: seq<PartSequenceEntry>, partCount: nat) {
    forall i :: 0 <= i < |entries| ==>
      entries[i].repeatCount == 1 && (partCount >= 1 ==> 0 <= entries[i].partIndex < partCount)
  }

  lemma {:induction false} EntriesFitAppend(a: seq<PartSequenceEntry>, b: seq<PartSequenceEntry>, partCount: nat)
    requires EntriesFit(a, partCount) && EntriesFit(b, partCount)
    ensures EntriesFit(a + b, partCount)
  {
    forall i | 0 <= i < |a + b|
      ensures (a + b)[i].repeatCount == 1 && (partCount >= 1 ==> 0 <= (a + b)[i].partIndex < partCount)
    {
      if i < |a| {
        assert (a + b)[i] == a[i];
      } else {
        assert (a + b)[i] == b[i - |a|];
      }
    }
  }

  /** The structure ParseSequence leaves: empty for blank text, otherwise
      the entries of the comma-separated tokens. */
  function ParsedStructure(raw: string, partCount: nat): (r: seq<PartSequenceEntry>)
    ensures IsBlank(raw) ==> r == []
    ensures EntriesFit(r, partCount)
  {
    if IsBlank(raw) then [] else TokenEntries(Split(raw, ','), partCount)
  }

  /** ParseSequence: the structure is replaced by the entries of the text;
      the parts are not touched. */
  method ParseSequence(config: SongConfig, raw: string)
    modifies config
    ensures config.structure == ParsedStructure(raw, |config.parts|)
    ensures config.parts == old(config.parts)
  {
    config.structure := [];
    if IsBlank(raw) {
      return;
    }
    var tokens := Split(raw, ',');
    var structure := ParseTokens(tokens, |config.parts|);
    config.structure := structure;
  }

  /** The for-loop of ParseSequence over the comma-separated tokens. */
  method ParseTokens(tokens: seq<string>, partCount: nat) returns (structure: seq<PartSequenceEntry>)
    ensures structure == TokenEntries(tokens, partCount)
  {
    structure := [];
    for i := 0 to |tokens|
      invariant structure == TokenEntries(tokens[..i], partCount)
    {
      TokenEntriesStep(tokens, i, partCount);
      var entry := ParseToken(tokens[i], partCount);
      structure := structure + entry;
    }
    assert tokens[..|tokens|] == tokens;
  }

  /** One more token adds its own entry, if any, at the end. */
  lemma {:induction false} TokenEntriesStep(tokens: seq<string>, i: nat, partCount: nat)
    requires i < |tokens|
    ensures TokenEntries(tokens[..i + 1], partCount) == TokenEntries(tokens[..i], partCount) + TokenEntry(tokens[i], partCount)
  {
    var prefix := tokens[..i + 1];
    assert prefix[..|prefix| - 1] == tokens[..i] && prefix[|prefix| - 1] == tokens[i];
  }

  /** One pass of ParseSequence's loop: a token that is not an integer is
      skipped (no entry); otherwise it gives its entry. */
  method ParseToken(token: string, partCount: nat) returns (entry: seq<PartSequenceEntry>)
    ensures entry == TokenEntry(token, partCount)
  {
    var t := Trim(token, IsWhiteSpace);
    var partNumber := Int32TryParse(t);
    if partNumber.None? {
      return [];
    }
    var idx := partNumber.value - 1;
    if idx < 0 || idx >= partCount {
      var clampedNumber := Clamp(partNumber.value, 1, partCount);
      idx := clampedNumber - 1;
    }
    entry := [PartSequenceEntry(idx, 1)];
  }

  /** The text of each entry: its part index plus one, in C#'s unchecked
      int arithmetic, so int.MaxValue + 1 prints as int.MinValue. */
  function EntryTexts(structure: seq<PartSequenceEntry>): (texts: seq<string>)
    ensures |texts| == |structure|
    ensures forall i :: 0 <= i < |texts| ==> texts[i] == IntToString(Wrap32(structure[i].partIndex + 1))
    ensures forall i :: 0 <= i < |texts| && IsInt32(structure[i].partIndex + 1) ==>
      texts[i] == IntToString(structure[i].partIndex + 1)
  {
    seq(|structure|, i requires 0 <= i < |structure| => IntToString(Wrap32(structure[i].partIndex + 1)))
  }

  /** The last part index an Int32 holds wraps round to the first: its
      text is that of int.MinValue. */
  lemma {:induction false} MaxPartIndexWraps(e: PartSequenceEntry)
    requires e.partIndex == Int32Max
    ensures EntryTexts([e])[0] == IntToString(Int32Min)
  {
    var n := e.partIndex + 1;
    assert (n - Int32Min) % 0x1_0000_0000 == 0;
    assert Wrap32(n) == Int32Min;
  }

  /** SerializeStructure: the 1-based part numbers joined with commas. */
  function SerializeStructure(structure: seq<PartSequenceEntry>): (text: string)
    ensures structure == [] ==> text == ""
    ensures structure != [] ==> Split(text, ',') == EntryTexts(structure)
  {
    if structure == [] then ""
    else
      EntryTextsWithoutComma(structure);
      SplitJoin(EntryTexts(structure), ',');
      Join(",", EntryTexts(structure))
  }

  /** No entry's text holds a comma: an integer's text is a sign and digits. */
  lemma {:induction false} EntryTextsWithoutComma(structure: seq<PartSequenceEntry>)
    ensures forall i :: 0 <= i < |structure| ==> ',' !in EntryTexts(structure)[i]
  {
    forall i | 0 <= i < |structure|
      ensures ',' !in EntryTexts(structure)[i]
    {
      var n := Wrap32(structure[i].partIndex + 1);
      var digits := NatToString(if n < 0 then -n else n);
      assert AllDigits(digits);
      assert forall k :: 0 <= k < |digits| ==> digits[k] != ',';
      assert IntToString(n) == digits || IntToString(n) == "-" + digits;
    }
  }

  // ---------------------------------------------------------------------------
  // Lemmas

  /** Parsing the text of a structure whose indexes name parts gives the
      same part indexes back, each with one repetition. (A List's count, and
      so the number of parts, fits in an Int32.) */
  lemma {:induction false} SerializeParseRoundTrip(structure: seq<PartSequenceEntry>, partCount: nat)
    requires partCount <= Int32Max
    requires forall i :: 0 <= i < |structure| ==> 0 <= structure[i].partIndex < partCount
    ensures |ParsedStructure(SerializeStructure(structure), partCount)| == |structure|
    ensures forall i :: 0 <= i < |structure| ==>
      ParsedStructure(SerializeStructure(structure), partCount)[i] == PartSequenceEntry(structure[i].partIndex, 1)
  {
    var texts := EntryTexts(structure);
    var text := SerializeStructure(structure);
    if structure == [] {
      assert text == "";
    } else {
      EntryTextsWithoutComma(structure);
      SplitJoin(texts, ',');
      assert texts[0] == IntToString(structure[0].partIndex + 1);
      JoinStartsWith(texts);
      assert !IsBlank(text) by {
        assert IsDigit(text[0]);
      }
      TokenEntriesOfTexts(structure, partCount);
    }
  }

  /** A non-empty comma join starts with its first element. */
  lemma {:induction false} JoinStartsWith(texts: seq<string>)
    requires |texts| >= 1 && |texts[0]| >= 1
    ensures |Join(",", texts)| >= 1 && Join(",", texts)[0] == texts[0][0]
  {
  }

  /** Each entry's text is read back as its part index. */
  lemma {:induction false} TokenEntriesOfTexts(structure: seq<PartSequenceEntry>, partCount: nat)
    requires partCount <= Int32Max
    requires forall i :: 0 <= i < |structure| ==> 0 <= structure[i].partIndex < partCount
    ensures TokenEntries(EntryTexts(structure), partCount) == OneRepeat(structure)
    decreases |structure|
  {
    if structure != [] {
      var n := |structure| - 1;
      var init, texts := structure[..n], EntryTexts(structure);
      assert texts[..n] == EntryTexts(init);
      TokenEntriesOfTexts(init, partCount);
      TokenReadsBack(structure[n].partIndex + 1, partCount);
      assert TokenEntries(texts, partCount) == TokenEntries(texts[..n], partCount) + TokenEntry(texts[n], partCount);
    }
  }

  /** The structure with every repeat count set to one. */
  function OneRepeat(structure: seq<PartSequenceEntry>): (r: seq<PartSequenceEntry>)
    ensures |r| == |structure|
    ensures forall i :: 0 <= i < |r| ==> r[i] == PartSequenceEntry(structure[i].partIndex, 1)
    decreases |structure|
  {
    if structure == [] then []
    else OneRepeat(structure[..|structure| - 1]) + [PartSequenceEntry(structure[|structure| - 1].partIndex, 1)]
  }

  /** The text of a part number names that part again. */
  lemma {:induction false} TokenReadsBack(partNumber: int, partCount: nat)
    requires 1 <= partNumber <= partCount <= Int32Max
    ensures TokenEntry(IntToString(partNumber), partCount) == [PartSequenceEntry(partNumber - 1, 1)]
  {
    var s := IntToString(partNumber);
    assert !IsWhiteSpace(s[0]) && !IsWhiteSpace(s[|s| - 1]) by {
      assert AllDigits(s);
    }
    TrimKeeps(s, IsWhiteSpace);
    IntToStringParses(partNumber);
  }
}
