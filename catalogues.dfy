/** The pattern catalogues: ChordProgressionsList, DrumPatternsList and
    MelodyPatternsList. Each query filters its list (Enumerable.Where) and
    picks one of the matches with Random.Range; `seed` is that draw. No
    query changes its list, which is passed as a value. A null reference is
    None. */
module Catalogues {
  import opened Outcomes
  import opened Search
  import opened TimeSignatures
  import opened Tonalities
  import opened SongData

  /** matches[Random.Range(0, matches.Count)], or null when there are none. */
  function RandomPick<T>(matches: seq<T>, seed: nat): (r: Option<T>)
    ensures r.None? <==> matches == []
    ensures r.Some? ==> r.value in matches
  {
    if matches == [] then None else Some(matches[Range(0, |matches|, seed)])
  }

  /** Every element of a non-empty list is picked by some draw. */
  lemma {:induction false} RandomPickCoversAll<T>(matches: seq<T>, i: nat)
    requires i < |matches|
    ensures RandomPick(matches, i) == Some(matches[i])
  {
    RangeCoversAll(0, |matches|, i);
  }

  // ---------------------------------------------------------------------------
  // ChordProgressionsList

  function HasTimeSignature(ts: TimeSignature): ChordProgressionData -> bool {
    (p: ChordProgressionData) => p.timeSignature == ts
  }

  function HasTonality(t: Tonality): ChordProgressionData -> bool {
    (p: ChordProgressionData) => t in p.tonalities
  }

  function HasBoth(ts: TimeSignature, t: Tonality): ChordProgressionData -> bool {
    (p: ChordProgressionData) => p.timeSignature == ts && t in p.tonalities
  }

  /** GetCompletelyRandomProgression: any element, or null on an empty list. */
  function CompletelyRandomProgression(progressions: seq<ChordProgressionData>, seed: nat)
    : (r: Option<ChordProgressionData>)
    ensures r.None? <==> progressions == []
    ensures r.Some? ==> r.value in progressions
  {
    RandomPick(progressions, seed)
  }

  /** GetRandomProgressionByTimeSignature: a progression with that time
      signature, or any progression when none has it. */
  function ProgressionByTimeSignature(progressions: seq<ChordProgressionData>, ts: TimeSignature, seed: nat)
    : (r: Option<ChordProgressionData>)
    ensures r.None? <==> progressions == []
    ensures r.Some? ==> r.value in progressions
    ensures (exists p :: p in progressions && p.timeSignature == ts) ==> r.Some? && r.value.timeSignature == ts
  {
    var matches := Filter(progressions, HasTimeSignature(ts));
    if matches == [] then CompletelyRandomProgression(progressions, seed)
    else RandomPick(matches, seed)
  }

  /** GetRandomProgressionByTonality: a progression listing that tonality,
      or any progression when none lists it. */
  function ProgressionByTonality(progressions: seq<ChordProgressionData>, t: Tonality, seed: nat)
    : (r: Option<ChordProgressionData>)
    ensures r.None? <==> progressions == []
    ensures r.Some? ==> r.value in progressions
    ensures (exists p :: p in progressions && t in p.tonalities) ==> r.Some? && t in r.value.tonalities
  {
    var matches := Filter(progressions, HasTonality(t));
    if matches == [] then CompletelyRandomProgression(progressions, seed)
    else RandomPick(matches, seed)
  }

  /** GetRandomProgressionByTimeSignatureAndTonality: a progression matching
      both; otherwise the time-signature query, then the tonality query, then
      any progression. At most one draw is made on any path, so one seed
      stands for it. */
  function ProgressionByTimeSignatureAndTonality(progressions: seq<ChordProgressionData>, ts: TimeSignature,
                                                 t: Tonality, seed: nat)
    : (r: Option<ChordProgressionData>)
    ensures r.None? <==> progressions == []
    ensures r.Some? ==> r.value in progressions
    ensures (exists p :: p in progressions && p.timeSignature == ts && t in p.tonalities) ==>
              r.Some? && r.value.timeSignature == ts && t in r.value.tonalities
    ensures (exists p :: p in progressions && p.timeSignature == ts) ==> r.Some? && r.value.timeSignature == ts
  {
    var matches := Filter(progressions, HasBoth(ts, t));
    if matches != [] then RandomPick(matches, seed)
    else
      var byTimeSignature := ProgressionByTimeSignature(progressions, ts, seed);
      if byTimeSignature.Some? then byTimeSignature
      else
        var byTonality := ProgressionByTonality(progressions, t, seed);
        if byTonality.Some? then byTonality
        else CompletelyRandomProgression(progressions, seed)
  }

  /** Without a progression matching both, the combined query is the
      time-signature query: the tonality fallback never decides the result,
      because the time-signature query already falls back to the whole list.
      So a progression with the tonality but not the time signature is not
      preferred over one with neither. */
  lemma {:induction false} CombinedFallsBackToTimeSignature(progressions: seq<ChordProgressionData>,
                                                           ts: TimeSignature, t: Tonality, seed: nat)
    requires forall p :: p in progressions ==> !(p.timeSignature == ts && t in p.tonalities)
    ensures ProgressionByTimeSignatureAndTonality(progressions, ts, t, seed) ==
            ProgressionByTimeSignature(progressions, ts, seed)
  {
    forall i | 0 <= i < |progressions|
      ensures !HasBoth(ts, t)(progressions[i])
    {
      assert progressions[i] in progressions;
    }
    assert Filter(progressions, HasBoth(ts, t)) == [];
  }

  /** Every progression that matches both criteria is the answer of the
      combined query for some draw. */
  lemma {:induction false} CombinedReachesEveryMatch(progressions: seq<ChordProgressionData>,
                                                    ts: TimeSignature, t: Tonality, p: ChordProgressionData)
    requires p in progressions && p.timeSignature == ts && t in p.tonalities
    ensures exists seed: nat :: ProgressionByTimeSignatureAndTonality(progressions, ts, t, seed) == Some(p)
  {
    var matches := Filter(progressions, HasBoth(ts, t));
    var k :| 0 <= k < |progressions| && progressions[k] == p;
    assert HasBoth(ts, t)(progressions[k]);
    assert p in matches;
    var i :| 0 <= i < |matches| && matches[i] == p;
    RandomPickCoversAll(matches, i);
    assert ProgressionByTimeSignatureAndTonality(progressions, ts, t, i) == Some(p);
  }

  // ---------------------------------------------------------------------------
  // DrumPatternsList and MelodyPatternsList

  /** DrumPatternsList.GetRandomPatternByTimeSignature: a pattern with that
      time signature, or null when there is none (no fallback). */
  function DrumPatternByTimeSignature(patterns: seq<DrumPatternData>, ts: TimeSignature, seed: nat)
    : (r: Option<DrumPatternData>)
    ensures r.None? <==> forall p :: p in patterns ==> p.timeSignature != ts
    ensures r.Some? ==> r.value in patterns && r.value.timeSignature == ts
  {
    var matches := Filter(patterns, (p: DrumPatternData) => p.timeSignature == ts);
    assert forall p :: p in patterns && p.timeSignature == ts ==> p in matches by {
      forall p | p in patterns && p.timeSignature == ts ensures p in matches {
        var k :| 0 <= k < |patterns| && patterns[k] == p;
      }
    }
    RandomPick(matches, seed)
  }

  /** MelodyPatternsList.GetRandomPatternByTimeSignature: a pattern with
      that time signature, or null when there is none (no fallback). */
  function MelodyPatternByTimeSignature(patterns: seq<MelodyPatternData>, ts: TimeSignature, seed: nat)
    : (r: Option<MelodyPatternData>)
    ensures r.None? <==> forall p :: p in patterns ==> p.timeSignature != ts
    ensures r.Some? ==> r.value in patterns && r.value.timeSignature == ts
  {
    var matches := Filter(patterns, (p: MelodyPatternData) => p.timeSignature == ts);
    assert forall p :: p in patterns && p.timeSignature == ts ==> p in matches by {
      forall p | p in patterns && p.timeSignature == ts ensures p in matches {
        var k :| 0 <= k < |patterns| && patterns[k] == p;
      }
    }
    RandomPick(matches, seed)
  }
}
