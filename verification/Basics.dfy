/**
 Options, and facts about sequences of anything.
 */
module Basics {

  datatype Option<+T> = None | Some(value: T)

  lemma Associates<T>(a: seq<T>, b: seq<T>, c: seq<T>)
    ensures a + b + c == a + (b + c)
  {
  }

  lemma Cancel<T>(a: seq<T>, b: seq<T>, c: seq<T>)
    requires a + c == b + c
    ensures a == b
  {
    assert |a| == |b|;
    forall i | 0 <= i < |a| ensures a[i] == b[i] {
      assert (a + c)[i] == (b + c)[i];
    }
  }

  /** A sequence without repeats is no longer than a set that holds it. */
  lemma {:induction false} DistinctWithin<T>(s: seq<T>, all: set<T>)
    requires forall i, j | 0 <= i < j < |s| :: s[i] != s[j]
    requires forall i | 0 <= i < |s| :: s[i] in all
    ensures |s| <= |all|
  {
    if s != [] {
      DistinctWithin(s[1..], all - {s[0]});
    }
  }
}
