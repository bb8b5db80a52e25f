/** SoundFontUtility's getters over the sound-font cache: the names of the
    sound fonts, the bank numbers of one sound font as three-digit labels,
    and the patches of one bank. Loading the cache asset is outside the
    model: the cache is a parameter, None when the asset was not found. */
module SoundFonts {
  import opened Outcomes
  import opened Search
  import opened Text

  datatype PatchData = PatchData(patchNumber: int, patchName: string)
  datatype BankData = BankData(bankNumber: int, patches: seq<PatchData>)
  datatype SoundFontData = SoundFontData(name: string, banks: seq<BankData>)

  /** List.Find over the sound fonts: the first one with the name. */
  function FindSoundFont(fonts: seq<SoundFontData>, name: string): (r: Option<SoundFontData>)
    ensures r.None? <==> forall i :: 0 <= i < |fonts| ==> fonts[i].name != name
    ensures r.Some? ==> exists k :: 0 <= k < |fonts| && fonts[k] == r.value && r.value.name == name &&
                                    forall j :: 0 <= j < k ==> fonts[j].name != name
  {
    var k := FirstIndex(fonts, (f: SoundFontData) => f.name == name, 0);
    if k < |fonts| then Some(fonts[k]) else None
  }

  /** List.Find over the banks: the first one with the number. */
  function FindBank(banks: seq<BankData>, bankNumber: int): (r: Option<BankData>)
    ensures r.None? <==> forall i :: 0 <= i < |banks| ==> banks[i].bankNumber != bankNumber
    ensures r.Some? ==> exists k :: 0 <= k < |banks| && banks[k] == r.value && r.value.bankNumber == bankNumber &&
                                    forall j :: 0 <= j < k ==> banks[j].bankNumber != bankNumber
  {
    var k := FirstIndex(banks, (b: BankData) => b.bankNumber == bankNumber, 0);
    if k < |banks| then Some(banks[k]) else None
  }

  /** The sound font GetBanksForSoundFont and GetPatchesDataForBank look in. */
  function SoundFontOf(cache: Option<seq<SoundFontData>>, name: string): Option<SoundFontData> {
    if cache.None? then None else FindSoundFont(cache.value, name)
  }

  /** The bank GetPatchesDataForBank lists: the first bank with the number
      in the first sound font with the name. */
  function BankOf(cache: Option<seq<SoundFontData>>, name: string, bankIndex: int): Option<BankData> {
    var font := SoundFontOf(cache, name);
    if font.None? then None else FindBank(font.value.banks, bankIndex)
  }

  /** GetSoundFontNames: the names of the cached sound fonts, in cache
      order; empty without a cache. */
  method GetSoundFontNames(cache: Option<seq<SoundFontData>>) returns (names: seq<string>)
    ensures cache.None? ==> names == []
    ensures cache.Some? ==> |names| == |cache.value| &&
                            forall i :: 0 <= i < |names| ==> names[i] == cache.value[i].name
  {
    names := [];
    if cache.Some? {
      var fonts := cache.value;
      for i := 0 to |fonts|
        invariant |names| == i
        invariant forall j :: 0 <= j < i ==> names[j] == fonts[j].name
      {
        names := names + [fonts[i].name];
      }
    }
  }

  /** GetBanksForSoundFont: the bank numbers of the first sound font with
      the name, in order, each formatted "D3"; empty when there is no such
      sound font or no cache. */
  method GetBanksForSoundFont(cache: Option<seq<SoundFontData>>, soundFontName: string) returns (labels: seq<string>)
    ensures SoundFontOf(cache, soundFontName).None? ==> labels == []
    ensures SoundFontOf(cache, soundFontName).Some? ==>
      var banks := SoundFontOf(cache, soundFontName).value.banks;
      |labels| == |banks| && forall i :: 0 <= i < |labels| ==> labels[i] == FormatD(banks[i].bankNumber, 3)
  {
    labels := [];
    if cache.Some? {
      var font := FindSoundFont(cache.value, soundFontName);
      if font.Some? {
        var banks := font.value.banks;
        for i := 0 to |banks|
          invariant |labels| == i
          invariant forall j :: 0 <= j < i ==> labels[j] == FormatD(banks[j].bankNumber, 3)
        {
          labels := labels + [FormatD(banks[i].bankNumber, 3)];
        }
      }
    }
  }

  /** GetPatchesDataForBank: the patches of the first bank with the number
      in the first sound font with the name, in order; empty when either is
      missing or there is no cache. */
  method GetPatchesDataForBank(cache: Option<seq<SoundFontData>>, soundFontName: string, bankIndex: int)
    returns (patches: seq<PatchData>)
    ensures BankOf(cache, soundFontName, bankIndex).None? ==> patches == []
    ensures BankOf(cache, soundFontName, bankIndex).Some? ==>
      patches == BankOf(cache, soundFontName, bankIndex).value.patches
  {
    patches := [];
    if cache.Some? {
      var font := FindSoundFont(cache.value, soundFontName);
      if font.Some? {
        var bank := FindBank(font.value.banks, bankIndex);
        if bank.Some? {
          var source := bank.value.patches;
          for i := 0 to |source|
            invariant patches == source[..i]
          {
            patches := patches + [source[i]];
          }
          assert source[..|source|] == source;
        }
      }
    }
  }

  // ---------------------------------------------------------------------------
  // Lemmas

  function Pow10(k: nat): (p: nat)
    ensures p >= 1
  {
    if k == 0 then 1 else 10 * Pow10(k - 1)
  }

  /** A number below 10^k has at most k decimal digits. */
  lemma {:induction false} NatToStringLength(n: nat, k: nat)
    requires k >= 1 && n < Pow10(k)
    ensures |NatToString(n)| <= k
  {
    if n >= 10 {
      assert k >= 2;
      NatToStringLength(n / 10, k - 1);
    }
  }

  /** A bank label is the bank number again: it parses back to the number
      and has at least three characters; for banks 0 to 999 it is exactly
      three digits. */
  lemma {:induction false} BankLabelRoundTrip(bankNumber: int)
    ensures ParseDecimal(FormatD(bankNumber, 3)) == Some(bankNumber)
    ensures |FormatD(bankNumber, 3)| >= 3
    ensures 0 <= bankNumber < 1000 ==> |FormatD(bankNumber, 3)| == 3 && AllDigits(FormatD(bankNumber, 3))
  {
    FormatDParses(bankNumber, 3);
    if 0 <= bankNumber < 1000 {
      NatToStringLength(bankNumber, 3);
      var digits := NatToString(bankNumber);
      if |digits| < 3 {
        assert AllDigits(Zeros(3 - |digits|));
      }
    }
  }

  /** Two labels of one sound font are equal only for equal bank numbers. */
  lemma {:induction false} BankLabelsDistinct(a: int, b: int)
    requires FormatD(a, 3) == FormatD(b, 3)
    ensures a == b
  {
    BankLabelRoundTrip(a);
    BankLabelRoundTrip(b);
  }
}
