/** The tonalities the generator knows, their interval tables, and the weights
    used to pick one at random. */
module Tonalities {
  import opened Outcomes
  import opened Weighting

  /** MusicTheory.Tonality, in declaration order. */
  datatype Tonality =
    | Major | Minor
    | Ionian | Dorian | Phrygian | Lydian | Mixolydian | Aeolian | Locrian
    | PentatonicMajor | PentatonicMinor | Blues | HarmonicMinor | MelodicMinor
    | NeapolitanMinor | Gypsy | DoubleHarmonic | LydianDominant
    | Chromatic | WholeTone | Octatonic | Microtonal
    | Atonal

  /** The interval table, as Dictionary.TryGetValue sees it: each scale as its
      successive steps in semitones, and no entry for Ionian. */
  function TonalityIntervals(t: Tonality): Option<seq<nat>> {
    match t
    case Major => Some([2, 2, 1, 2, 2, 2, 1])
    case Minor => Some([2, 1, 2, 2, 1, 2, 2])
    case Dorian => Some([2, 1, 2, 2, 2, 1, 2])
    case Phrygian => Some([1, 2, 2, 2, 1, 2, 2])
    case Lydian => Some([2, 2, 2, 1, 2, 2, 1])
    case Mixolydian => Some([2, 2, 1, 2, 2, 1, 2])
    case Aeolian => Some([2, 1, 2, 2, 1, 2, 2])
    case Locrian => Some([1, 2, 2, 1, 2, 2, 2])
    case PentatonicMajor => Some([2, 2, 3, 2, 3])
    case PentatonicMinor => Some([3, 2, 2, 3, 2])
    case Blues => Some([3, 2, 1, 1, 3, 2])
    case HarmonicMinor => Some([2, 1, 2, 2, 1, 3, 1])
    case MelodicMinor => Some([2, 1, 2, 2, 2, 2, 1])
    case NeapolitanMinor => Some([1, 2, 2, 2, 1, 3, 1])
    case Gypsy => Some([2, 1, 3, 1, 1, 3, 1])
    case DoubleHarmonic => Some([1, 3, 1, 2, 1, 3, 1])
    case LydianDominant => Some([2, 2, 2, 1, 2, 1, 2])
    case Chromatic => Some([1, 1, 1, 1, 1, 1, 1, 1, 1, 1, 1, 1])
    case WholeTone => Some([2, 2, 2, 2, 2, 2])
    case Octatonic => Some([2, 1, 2, 1, 2, 1, 2, 1])
    case Microtonal => Some([])
    case Atonal => Some([])
    case Ionian => None
  }

  /** The weights, in the order the weight dictionary enumerates them. */
  const TonalityWeights: seq<(Tonality, int)> := [
    (Major, 1), (Minor, 1),
    (Ionian, 0), (Dorian, 0), (Phrygian, 0), (Lydian, 0), (Mixolydian, 0), (Aeolian, 0), (Locrian, 0),
    (PentatonicMajor, 0), (PentatonicMinor, 0), (Blues, 0), (HarmonicMinor, 0), (MelodicMinor, 0),
    (NeapolitanMinor, 0), (Gypsy, 0), (DoubleHarmonic, 0), (LydianDominant, 0),
    (Chromatic, 0), (WholeTone, 0), (Octatonic, 0), (Microtonal, 0),
    (Atonal, 0)
  ]

  /** The span of a list of steps in semitones. */
  function StepSum(steps: seq<nat>): nat {
    StepSumFrom(steps, 0)
  }

  /** The span of the steps from position i on. */
  function StepSumFrom(steps: seq<nat>, i: nat): nat
    decreases |steps| - i
  {
    if i >= |steps| then 0 else steps[i] + StepSumFrom(steps, i + 1)
  }

  /** GetRandomTonalityByWeight: with the shipped weights (Major 1, Minor 1,
      every other tonality 0) the draw is from [0, 2), and it yields Major on 0
      and Minor on 1. */
  method GetRandomTonalityByWeight(seed: nat) returns (r: Result<Tonality>)
    ensures r == Ok(if seed % 2 == 0 then Major else Minor)
  {
    ShippedTonalityWeights(seed);
    r := SelectByWeight(TonalityWeights, Major, seed);
  }

  /** GetRandomTonalityFromList: ArgumentException on an empty list, otherwise
      a member of the list. */
  function GetRandomTonalityFromList(list: seq<Tonality>, seed: nat): (r: Result<Tonality>)
    ensures r.Fail? <==> list == []
    ensures r.Fail? ==> r.error == ArgumentException
    ensures r.Ok? ==> r.value in list
  {
    PickFromList(list, seed)
  }

  // ---------------------------------------------------------------------------
  // Lemmas about the tables

  /** Every tonality but Ionian has an interval entry; every non-empty entry
      spans exactly one octave; Microtonal and Atonal are the empty ones. */
  lemma {:induction false} IntervalTableShape(t: Tonality)
    ensures TonalityIntervals(t).Some? <==> t != Ionian
    ensures TonalityIntervals(t).Some? && TonalityIntervals(t).value != [] ==>
      StepSum(TonalityIntervals(t).value) == 12
    ensures TonalityIntervals(t) == Some([]) <==> t == Microtonal || t == Atonal
  {
    if t.Major? || t.Minor? || t.Dorian? || t.Phrygian? || t.Lydian? || t.Mixolydian? || t.Aeolian? || t.Locrian? {
      DiatonicSpans(t);
    } else if t.PentatonicMajor? || t.PentatonicMinor? || t.Blues? || t.HarmonicMinor? || t.MelodicMinor? {
      MinorAndPentatonicSpans(t);
    } else if t.NeapolitanMinor? || t.Gypsy? || t.DoubleHarmonic? || t.LydianDominant? {
      ExoticSpans(t);
    } else if t.Chromatic? || t.WholeTone? || t.Octatonic? {
      SymmetricSpans(t);
    }
  }

  /** Every non-empty interval table has at least five steps. */
  lemma {:induction false} IntervalTableSizes(t: Tonality)
    ensures TonalityIntervals(t).Some? && TonalityIntervals(t).value != [] ==> |TonalityIntervals(t).value| >= 5
  {
  }

  lemma {:induction false} DiatonicSpans(t: Tonality)
    requires t.Major? || t.Minor? || t.Dorian? || t.Phrygian? || t.Lydian? || t.Mixolydian? || t.Aeolian? || t.Locrian?
    ensures TonalityIntervals(t).Some? && StepSum(TonalityIntervals(t).value) == 12
  {
  }

  lemma {:induction false} MinorAndPentatonicSpans(t: Tonality)
    requires t.PentatonicMajor? || t.PentatonicMinor? || t.Blues? || t.HarmonicMinor? || t.MelodicMinor?
    ensures TonalityIntervals(t).Some? && StepSum(TonalityIntervals(t).value) == 12
  {
  }

  lemma {:induction false} ExoticSpans(t: Tonality)
    requires t.NeapolitanMinor? || t.Gypsy? || t.DoubleHarmonic? || t.LydianDominant?
    ensures TonalityIntervals(t).Some? && StepSum(TonalityIntervals(t).value) == 12
  {
  }

  lemma {:induction false} SymmetricSpans(t: Tonality)
    requires t.Chromatic? || t.WholeTone? || t.Octatonic?
    ensures TonalityIntervals(t).Some? && StepSum(TonalityIntervals(t).value) == 12
  {
  }

  /** The shipped weights are non-negative and sum to 2, and the cumulative
      walk turns a draw of 0 into Major and a draw of 1 into Minor. */
  lemma {:induction false} ShippedTonalityWeights(seed: nat)
    ensures NonNegative(TonalityWeights) && Total(TonalityWeights) == 2
    ensures WeightedChoice(TonalityWeights, Range(0, 2, seed), Major)
         == if seed % 2 == 0 then Major else Minor
  {
    assert Prefix(TonalityWeights, 2) == 2;
    PrefixBeyond(TonalityWeights, 2, |TonalityWeights|);
    assert FirstAbove(TonalityWeights, 0, 0) == 0;
    assert FirstAbove(TonalityWeights, 1, 1) == 1;
  }
}
