/**
 What one list leaves of another, in order.
 */
module Sieves {

  ghost predicate Ascending(at: seq<nat>) { forall j, k | 0 <= j < k < |at| :: at[j] < at[k] }

  /** Each of `ys` is given by the one of `xs` at its place. */
  ghost predicate Taken<A, B>(xs: seq<A>, ys: seq<B>, at: seq<nat>, gives: (A, B) -> bool) {
    |at| == |ys| && forall j | 0 <= j < |at| :: at[j] < |xs| && gives(xs[at[j]], ys[j])
  }

  /** The others give nothing. */
  ghost predicate RestGone<A, B(!new)>(xs: seq<A>, at: seq<nat>, gives: (A, B) -> bool) {
    forall i, y | 0 <= i < |xs| && i !in at :: !gives(xs[i], y)
  }

  ghost predicate SievedAt<A, B(!new)>(xs: seq<A>, ys: seq<B>, at: seq<nat>, gives: (A, B) -> bool) {
    Ascending(at) && Taken(xs, ys, at, gives) && RestGone(xs, at, gives)
  }

  /** `ys` is what the `xs` give, in order, and no more and no less. */
  ghost predicate Sieved<A, B(!new)>(xs: seq<A>, ys: seq<B>, gives: (A, B) -> bool) {
    exists at: seq<nat> :: SievedAt(xs, ys, at, gives)
  }

  function Shifted(at: seq<nat>): (r: seq<nat>)
    ensures |r| == |at| && forall j | 0 <= j < |at| :: r[j] == at[j] + 1
  {
    seq(|at|, j requires 0 <= j < |at| => at[j] + 1)
  }

  lemma NotShifted(at: seq<nat>, i: nat)
    ensures i in at ==> i + 1 in Shifted(at)
  {
    if i in at {
      var j :| 0 <= j < |at| && at[j] == i;
      assert Shifted(at)[j] == i + 1;
    }
  }

  lemma RestShifts<A, B(!new)>(x: A, xs: seq<A>, all: seq<nat>, at: seq<nat>, gives: (A, B) -> bool)
    requires RestGone(xs, at, gives) && (0 in all || forall y :: !gives(x, y))
    requires forall i | i in Shifted(at) :: i in all
    ensures RestGone([x] + xs, all, gives)
  {
    var longer := [x] + xs;
    forall i, y | 0 <= i < |longer| && i !in all ensures !gives(longer[i], y) {
      if i > 0 {
        NotShifted(at, i - 1);
        assert longer[i] == xs[i - 1];
      }
    }
  }

  lemma NothingSieved<A, B(!new)>(gives: (A, B) -> bool)
    ensures Sieved([], [], gives)
  {
    assert SievedAt([], [], [], gives);
  }

  lemma AscendsShifted(at: seq<nat>)
    requires Ascending(at)
    ensures Ascending(Shifted(at))
  {
  }

  lemma TakenShifted<A, B>(x: A, xs: seq<A>, ys: seq<B>, at: seq<nat>, gives: (A, B) -> bool)
    requires Taken(xs, ys, at, gives)
    ensures Taken([x] + xs, ys, Shifted(at), gives)
  {
  }

  lemma Skips<A, B(!new)>(x: A, xs: seq<A>, ys: seq<B>, gives: (A, B) -> bool)
    requires Sieved(xs, ys, gives) && forall y :: !gives(x, y)
    ensures Sieved([x] + xs, ys, gives)
  {
    var at: seq<nat> :| SievedAt(xs, ys, at, gives);
    AscendsShifted(at);
    TakenShifted(x, xs, ys, at, gives);
    RestShifts(x, xs, Shifted(at), at, gives);
    assert SievedAt([x] + xs, ys, Shifted(at), gives);
  }

  lemma AscendsFromZero(at: seq<nat>)
    requires Ascending(at)
    ensures Ascending([0] + Shifted(at))
  {
    var all := [0] + Shifted(at);
    assert forall j | 0 < j < |all| :: all[j] == at[j - 1] + 1;
  }

  lemma TakenWithFirst<A, B>(x: A, y: B, xs: seq<A>, ys: seq<B>, at: seq<nat>, gives: (A, B) -> bool)
    requires Taken(xs, ys, at, gives) && gives(x, y)
    ensures Taken([x] + xs, [y] + ys, [0] + Shifted(at), gives)
  {
    var all := [0] + Shifted(at);
    assert forall j | 0 < j < |all| :: all[j] == at[j - 1] + 1;
  }

  lemma Keeps<A, B(!new)>(x: A, y: B, xs: seq<A>, ys: seq<B>, gives: (A, B) -> bool)
    requires Sieved(xs, ys, gives) && gives(x, y)
    ensures Sieved([x] + xs, [y] + ys, gives)
  {
    var at: seq<nat> :| SievedAt(xs, ys, at, gives);
    var all: seq<nat> := [0] + Shifted(at);
    AscendsFromZero(at);
    TakenWithFirst(x, y, xs, ys, at, gives);
    assert all[0] == 0;
    RestShifts(x, xs, all, at, gives);
    assert SievedAt([x] + xs, [y] + ys, all, gives);
  }

  lemma SkipsLast<A, B(!new)>(xs: seq<A>, ys: seq<B>, x: A, gives: (A, B) -> bool)
    requires Sieved(xs, ys, gives) && forall y :: !gives(x, y)
    ensures Sieved(xs + [x], ys, gives)
  {
    var at: seq<nat> :| SievedAt(xs, ys, at, gives);
    assert SievedAt(xs + [x], ys, at, gives);
  }

  lemma KeepsLast<A, B(!new)>(xs: seq<A>, ys: seq<B>, x: A, y: B, gives: (A, B) -> bool)
    requires Sieved(xs, ys, gives) && gives(x, y)
    ensures Sieved(xs + [x], ys + [y], gives)
  {
    var at: seq<nat> :| SievedAt(xs, ys, at, gives);
    var all: seq<nat> := at + [|xs|];
    assert all[|at|] == |xs| && all[..|at|] == at;
    assert SievedAt(xs + [x], ys + [y], all, gives);
  }

  function Moved(at: seq<nat>, n: nat): (r: seq<nat>)
    ensures |r| == |at| && forall j | 0 <= j < |at| :: r[j] == at[j] + n
  {
    seq(|at|, j requires 0 <= j < |at| => at[j] + n)
  }

  lemma MovedIn(at: seq<nat>, n: nat, i: nat)
    ensures i in at ==> i + n in Moved(at, n)
  {
    if i in at {
      var j :| 0 <= j < |at| && at[j] == i;
      assert Moved(at, n)[j] == i + n;
    }
  }

  lemma TakenJoin<A, B>(xs: seq<A>, ys: seq<B>, at: seq<nat>, us: seq<A>, vs: seq<B>, of: seq<nat>,
                        gives: (A, B) -> bool)
    requires Taken(xs, ys, at, gives) && Taken(us, vs, of, gives)
    ensures Taken(xs + us, ys + vs, at + Moved(of, |xs|), gives)
  {
    var all := at + Moved(of, |xs|);
    assert forall j | |at| <= j < |all| :: all[j] == of[j - |at|] + |xs|;
  }

  lemma RestJoin<A, B(!new)>(xs: seq<A>, at: seq<nat>, us: seq<A>, of: seq<nat>, gives: (A, B) -> bool)
    requires RestGone(xs, at, gives) && RestGone(us, of, gives)
    ensures RestGone(xs + us, at + Moved(of, |xs|), gives)
  {
    var both := xs + us;
    forall i, y | 0 <= i < |both| && i !in at + Moved(of, |xs|) ensures !gives(both[i], y) {
      if i >= |xs| {
        MovedIn(of, |xs|, i - |xs|);
        assert both[i] == us[i - |xs|];
      }
    }
  }

  lemma SievesJoin<A, B(!new)>(xs: seq<A>, ys: seq<B>, us: seq<A>, vs: seq<B>, gives: (A, B) -> bool)
    requires Sieved(xs, ys, gives) && Sieved(us, vs, gives)
    ensures Sieved(xs + us, ys + vs, gives)
  {
    var at: seq<nat> :| SievedAt(xs, ys, at, gives);
    var of: seq<nat> :| SievedAt(us, vs, of, gives);
    var all: seq<nat> := at + Moved(of, |xs|);
    TakenJoin(xs, ys, at, us, vs, of, gives);
    RestJoin(xs, at, us, of, gives);
    assert forall j | |at| <= j < |all| :: all[j] == of[j - |at|] + |xs|;
    assert SievedAt(xs + us, ys + vs, all, gives);
  }

  /** Where nothing is left, nothing gave anything, and the other way round. */
  lemma EmptySieve<A, B(!new)>(xs: seq<A>, ys: seq<B>, gives: (A, B) -> bool)
    requires Sieved(xs, ys, gives)
    ensures ys == [] <==> forall i, y | 0 <= i < |xs| :: !gives(xs[i], y)
  {
    var at: seq<nat> :| SievedAt(xs, ys, at, gives);
    if ys != [] {
      assert gives(xs[at[0]], ys[0]);
    }
  }
}
