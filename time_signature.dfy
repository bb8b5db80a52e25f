/** The time signatures the generator knows, their (beats per measure, beat
    unit) table, and the weights used to pick one at random. */
module TimeSignatures {
  import opened Outcomes
  import opened Weighting

  /** MusicTheory.TimeSignature, in declaration order. */
  datatype TimeSignature =
    | FourFour | ThreeFour | TwoFour | SixEight | NineEight | TwelveEight | FiveFour | SevenEight

  /** A numerator and denominator. */
  datatype Meter = Meter(beatsPerMeasure: nat, beatUnit: nat)

  /** The property table. Every declared time signature has an entry. */
  function TimeSignatureProperties(ts: TimeSignature): Meter {
    match ts
    case FourFour => Meter(4, 4)
    case ThreeFour => Meter(3, 4)
    case TwoFour => Meter(2, 4)
    case SixEight => Meter(6, 8)
    case NineEight => Meter(9, 8)
    case TwelveEight => Meter(12, 8)
    case FiveFour => Meter(5, 4)
    case SevenEight => Meter(7, 8)
  }

  /** The weights, in the order the weight dictionary enumerates them. */
  const TimeSignatureWeights: seq<(TimeSignature, int)> := [
    (FourFour, 1), (ThreeFour, 0), (TwoFour, 0), (SixEight, 0),
    (NineEight, 0), (TwelveEight, 0), (FiveFour, 0), (SevenEight, 0)
  ]

  /** GetTimeSignatureDetails, integer part: the numerator of the signature,
      whatever the tempo. The bpm only enters the beat duration in seconds,
      which is a floating-point value outside this model. */
  function BeatsPerMeasure(ts: TimeSignature, bpm: int): (beats: nat)
    ensures 2 <= beats <= 12
    ensures beats == TimeSignatureProperties(ts).beatsPerMeasure
  {
    TimeSignatureProperties(ts).beatsPerMeasure
  }

  /** GetRandomTimeSignatureByWeight: with the shipped weights (FourFour 1,
      every other signature 0) the walk always stops at FourFour. */
  method GetRandomTimeSignatureByWeight(seed: nat) returns (r: Result<TimeSignature>)
    ensures r == Ok(FourFour)
  {
    ShippedTimeSignatureWeights(seed);
    r := SelectByWeight(TimeSignatureWeights, FourFour, seed);
  }

  /** GetRandomTimeSignatureFromList: ArgumentException on an empty list,
      otherwise a member of the list. */
  function GetRandomTimeSignatureFromList(list: seq<TimeSignature>, seed: nat): (r: Result<TimeSignature>)
    ensures r.Fail? <==> list == []
    ensures r.Fail? ==> r.error == ArgumentException
    ensures r.Ok? ==> r.value in list
  {
    PickFromList(list, seed)
  }

  /** The shipped weights are non-negative, sum to 1, and the only draw,
      0, stops at FourFour. */
  lemma {:induction false} ShippedTimeSignatureWeights(seed: nat)
    ensures NonNegative(TimeSignatureWeights) && Total(TimeSignatureWeights) == 1
    ensures WeightedChoice(TimeSignatureWeights, Range(0, 1, seed), FourFour) == FourFour
  {
    assert Prefix(TimeSignatureWeights, 1) == 1;
    PrefixBeyond(TimeSignatureWeights, 1, |TimeSignatureWeights|);
    assert FirstAbove(TimeSignatureWeights, 0, 0) == 0;
  }
}
