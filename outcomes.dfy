/** Failure-compatible results for the .NET exceptions the generator can raise,
    and the model of the random number generators it draws from. */
module Outcomes {

  /** The .NET exception classes thrown on the modelled paths. */
  datatype Exception =
    | ArgumentException        // System.ArgumentException
    | ArgumentOutOfRange       // List<T> indexer or library range check
    | InvalidOperation         // System.InvalidOperationException
    | NotSupported             // System.NotSupportedException
    | DivideByZero             // integer division or remainder by zero
    | NullReference            // dereference of a missing asset reference
    | InvalidCast              // explicit cast to the wrong pattern kind
    | Format                   // int.Parse on a string that is not a number
    | Overflow                 // int.Parse on a number outside 32 bits

  /** Either a value, or the exception that ended the call. */
  datatype Result<+T> = Ok(value: T) | Fail(error: Exception) {
    predicate IsFailure() { Fail? }

    function PropagateFailure<U>(): Result<U>
      requires Fail?
    {
      Fail(error)
    }

    function Extract(): T
      requires Ok?
    {
      value
    }
  }

  /** A possibly missing value (a C# null, or an absent out-parameter). */
  datatype Option<+T> = None | Some(value: T)

  /** A source of random draws: the seed used by the draw found at a given path
      (for example entry, repetition, track, slot, draw number). Any function is a
      possible run of the random generators. */
  type Oracle = seq<int> -> nat

  /** The oracle seen by a callee whose draws are all labelled below `prefix`. */
  function Below(oracle: Oracle, prefix: seq<int>): (sub: Oracle)
  {
    p => oracle(prefix + p)
  }

  /** UnityEngine.Random.Range(lo, hi) and System.Random.Next(hi - lo) + lo:
      an integer of [lo, hi), or lo when the range is empty. Unity swaps
      inverted bounds while keeping the first one inclusive, so for hi < lo
      the integer lies in (hi, lo]. */
  function Range(lo: int, hi: int, seed: nat): (r: int)
    ensures lo < hi ==> lo <= r < hi
    ensures lo == hi ==> r == lo
    ensures hi < lo ==> hi < r <= lo
  {
    if lo == hi then lo
    else if lo < hi then lo + seed % (hi - lo)
    else lo - seed % (lo - hi)
  }

  /** Every value a range can produce is the outcome of some seed, so seeds
      describe exactly the possible outcomes of a draw. */
  lemma {:induction false} RangeCoversAll(lo: int, hi: int, v: int)
    requires lo <= v < hi || hi < v <= lo
    ensures Range(lo, hi, if lo <= v then v - lo else lo - v) == v
  {
  }
}
