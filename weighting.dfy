/** The two ways the music-theory tables pick a value at random: a cumulative
    weight walk over a table kept in declaration order, and a uniform pick from
    a caller's list. */
module Weighting {
  import opened Outcomes

  /** The sum of the first i weights of a table. */
  function Prefix<K>(entries: seq<(K, int)>, i: nat): int
    requires i <= |entries|
  {
    if i == 0 then 0 else Prefix(entries, i - 1) + entries[i - 1].1
  }

  /** The sum of all weights (Dictionary.Values.Sum()). */
  function Total<K>(entries: seq<(K, int)>): int {
    Prefix(entries, |entries|)
  }

  predicate NonNegative<K>(entries: seq<(K, int)>) {
    forall i :: 0 <= i < |entries| ==> entries[i].1 >= 0
  }

  /** The first index at or after `from` whose running weight exceeds v, or
      |entries| when there is none. */
  function FirstAbove<K>(entries: seq<(K, int)>, v: int, from: nat): (k: nat)
    requires from <= |entries|
    ensures from <= k <= |entries|
    ensures k < |entries| ==> v < Prefix(entries, k + 1)
    ensures forall j :: from < j <= k ==> Prefix(entries, j) <= v
    decreases |entries| - from
  {
    if from == |entries| then from
    else if v < Prefix(entries, from + 1) then from
    else FirstAbove(entries, v, from + 1)
  }

  /** The key the cumulative walk stops at for the drawn value v, or the
      fallback when the walk runs off the end of the table. */
  function WeightedChoice<K>(entries: seq<(K, int)>, v: int, fallback: K): K {
    var k := FirstAbove(entries, v, 0);
    if k < |entries| then entries[k].0 else fallback
  }

  /** The weighted pick: InvalidOperationException when the weights do not sum
      to a positive number; otherwise a value v drawn from [0, total) and the
      first key whose running weight sum exceeds v. */
  method SelectByWeight<K>(entries: seq<(K, int)>, fallback: K, seed: nat) returns (r: Result<K>)
    ensures Total(entries) <= 0 ==> r == Fail(InvalidOperation)
    ensures Total(entries) > 0 ==>
      r == Ok(WeightedChoice(entries, Range(0, Total(entries), seed), fallback))
  {
    var total := Total(entries);
    if total <= 0 {
      return Fail(InvalidOperation);
    }
    var v := Range(0, total, seed);
    var cumulative := 0;
    var i := 0;
    while i < |entries|
      invariant 0 <= i <= |entries|
      invariant cumulative == Prefix(entries, i)
      invariant FirstAbove(entries, v, 0) == FirstAbove(entries, v, i)
    {
      cumulative := cumulative + entries[i].1;
      if v < cumulative {
        return Ok(entries[i].0);
      }
      i := i + 1;
    }
    return Ok(fallback);
  }

  /** A uniform pick from a list: ArgumentException on an empty list,
      otherwise an element of it. */
  function PickFromList<K>(list: seq<K>, seed: nat): (r: Result<K>)
    ensures r.Fail? <==> |list| == 0
    ensures r.Fail? ==> r.error == ArgumentException
    ensures r.Ok? ==> r.value in list
  {
    if |list| == 0 then Fail(ArgumentException) else Ok(list[Range(0, |list|, seed)])
  }

  // ---------------------------------------------------------------------------
  // Lemmas

  lemma {:induction false} PrefixMonotone<K>(entries: seq<(K, int)>, i: nat, j: nat)
    requires NonNegative(entries) && i <= j <= |entries|
    ensures Prefix(entries, i) <= Prefix(entries, j)
    decreases j - i
  {
    if i < j {
      PrefixMonotone(entries, i, j - 1);
    }
  }

  /** With non-negative weights and a value drawn from [0, total), the walk
      never reaches the fallback and stops at an entry of positive weight. */
  lemma {:induction false} ChoiceHasPositiveWeight<K>(entries: seq<(K, int)>, v: int)
    requires NonNegative(entries) && 0 <= v < Total(entries)
    ensures FirstAbove(entries, v, 0) < |entries|
    ensures entries[FirstAbove(entries, v, 0)].1 > 0
  {
    var k := FirstAbove(entries, v, 0);
    assert |entries| > 0;
    assert v < Prefix(entries, k + 1) == Prefix(entries, k) + entries[k].1;
    if k > 0 {
      assert Prefix(entries, k) <= v;
    }
  }

  /** Conversely every entry of positive weight is the outcome of some draw:
      the draw equal to the weight of everything before it. */
  lemma {:induction false} PositiveWeightReachable<K>(entries: seq<(K, int)>, i: nat)
    requires NonNegative(entries) && i < |entries| && entries[i].1 > 0
    ensures 0 <= Prefix(entries, i) < Total(entries)
    ensures FirstAbove(entries, Prefix(entries, i), 0) == i
  {
    var v := Prefix(entries, i);
    PrefixMonotone(entries, 0, i);
    PrefixMonotone(entries, i + 1, |entries|);
    var k := FirstAbove(entries, v, 0);
    if k < i {
      PrefixMonotone(entries, k + 1, i);
    }
    assert v < Prefix(entries, i + 1);
  }

  /** Entries of weight 0 do not move the running sum. */
  lemma {:induction false} PrefixBeyond<K>(entries: seq<(K, int)>, i: nat, j: nat)
    requires i <= j <= |entries|
    requires forall k :: i <= k < |entries| ==> entries[k].1 == 0
    ensures Prefix(entries, j) == Prefix(entries, i)
    decreases j - i
  {
    if i < j {
      PrefixBeyond(entries, i, j - 1);
    }
  }
}
