/** The list queries the core is written with: the first element that
    satisfies a test (a foreach with an early return, List.Find) and the
    elements that satisfy it, in order (Enumerable.Where). */
module Search {

  /** The position of the first element at or after `from` that passes the
      test, or |s| when there is none. */
  function FirstIndex<T>(s: seq<T>, test: T -> bool, from: nat): (k: nat)
    requires from <= |s|
    ensures from <= k <= |s|
    ensures k < |s| ==> test(s[k])
    ensures forall j :: from <= j < k ==> !test(s[j])
    decreases |s| - from
  {
    if from == |s| then from
    else if test(s[from]) then from
    else FirstIndex(s, test, from + 1)
  }

  /** The elements that pass the test, in their order. */
  function Filter<T(==)>(s: seq<T>, test: T -> bool): (r: seq<T>)
    ensures |r| <= |s|
    ensures forall i :: 0 <= i < |r| ==> r[i] in s && test(r[i])
    ensures forall i :: 0 <= i < |s| && test(s[i]) ==> s[i] in r
    ensures (forall i :: 0 <= i < |s| ==> !test(s[i])) ==> r == []
    decreases |s|
  {
    if s == [] then []
    else (if test(s[0]) then [s[0]] else []) + Filter(s[1..], test)
  }

  /** An element in front does not change the answer for a later start. */
  lemma {:induction false} FirstIndexCons<T>(x: T, s: seq<T>, test: T -> bool, from: nat)
    requires from <= |s|
    ensures FirstIndex([x] + s, test, from + 1) == FirstIndex(s, test, from) + 1
    decreases |s| - from
  {
    if from < |s| {
      assert ([x] + s)[from + 1] == s[from];
      if !test(s[from]) {
        FirstIndexCons(x, s, test, from + 1);
      }
    }
  }

  /** Filtering a concatenation filters each part and keeps their order. */
  lemma {:induction false} FilterAppend<T>(a: seq<T>, b: seq<T>, test: T -> bool)
    ensures Filter(a + b, test) == Filter(a, test) + Filter(b, test)
    decreases |a|
  {
    if a == [] {
      assert a + b == b;
    } else {
      assert (a + b)[1..] == a[1..] + b;
      FilterAppend(a[1..], b, test);
    }
  }
}
