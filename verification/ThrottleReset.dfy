/**
 What a login that succeeds does to the throttle: the address and the server start over,
 and nobody else notices.
 */
module ThrottleReset {

  import opened Throttle

  function After(m: Buckets, ops: seq<Op>): Buckets
    decreases |ops|
  {
    if ops == [] then m else After(Perform(m, ops[0]).0, ops[1..])
  }

  // -------------------------------------------------------- nothing is locked

  /** From then on, until something is counted, both are let through at any instant. */
  lemma ResetUnlocks(m: Buckets, ip: string, now: int)
    requires ZERO_TIME <= now
    ensures Allowed(Reset(m, ip), ip, now) && RetrySeconds(Reset(m, ip), ip, now) == 0
  {
  }

  // ------------------------------------------------------------ a fresh start

  /** The two tell the same of a key. */
  predicate Alike(m: Buckets, n: Buckets, key: string) {
    (key in m <==> key in n) && (key in m ==> m[key] == n[key])
  }

  lemma PerformAlike(m: Buckets, n: Buckets, op: Op, ip: string)
    requires Alike(m, n, ip) && Alike(m, n, GLOBAL_KEY) && (op.Ask? ==> op.ip == ip)
    ensures Perform(m, op).1 == Perform(n, op).1
    ensures Alike(Perform(m, op).0, Perform(n, op).0, ip) && Alike(Perform(m, op).0, Perform(n, op).0, GLOBAL_KEY)
  {
  }

  lemma {:induction false} AnswersAlike(m: Buckets, n: Buckets, ops: seq<Op>, ip: string)
    requires Alike(m, n, ip) && Alike(m, n, GLOBAL_KEY) && forall op <- ops :: op.Ask? ==> op.ip == ip
    ensures Answers(m, ops) == Answers(n, ops)
    decreases |ops|
  {
    if ops != [] {
      PerformAlike(m, n, ops[0], ip);
      AnswersAlike(Perform(m, ops[0]).0, Perform(n, ops[0]).0, ops[1..], ip);
    }
  }

  /** Whatever is counted and cleared from then on, everything the address asks is
      answered as by a throttle that has counted nothing yet. */
  lemma ResetStartsOver(m: Buckets, ip: string, ops: seq<Op>)
    requires forall op <- ops :: op.Ask? ==> op.ip == ip
    ensures Answers(Reset(m, ip), ops) == Answers(map[], ops)
  {
    AnswersAlike(Reset(m, ip), map[], ops, ip);
  }

  // -------------------------------------------------- a full limit is needed

  /** How often a key is counted against. */
  function Counts(ops: seq<Op>, key: string): nat {
    if ops == [] then 0 else (if ops[0].Count? && ops[0].key == key then 1 else 0) + Counts(ops[1..], key)
  }

  /** The bucket has counted no more than `n` failures, and locked nothing if that is
      less than its limit. */
  predicate Few(m: Buckets, key: string, n: nat) {
    key in m ==> m[key].failures <= n && (n < LimitOf(key) ==> m[key].lockedUntil == ZERO_TIME)
  }

  lemma {:induction false} FewCounts(m: Buckets, ops: seq<Op>, key: string, n: nat)
    requires Few(m, key, n) && forall op <- ops :: op.Count? ==> op.limit == LimitOf(op.key)
    ensures Few(After(m, ops), key, n + Counts(ops, key))
    decreases |ops|
  {
    if ops != [] {
      FewCounts(Perform(m, ops[0]).0, ops[1..], key, n + if ops[0].Count? && ops[0].key == key then 1 else 0);
    }
  }

  /** It takes as many new failures as the limit to lock the address again, or the
      server. */
  lemma ResetNeedsAFullLimit(m: Buckets, ip: string, ops: seq<Op>, now: int)
    requires ZERO_TIME <= now && ip != GLOBAL_KEY
    requires forall op <- ops :: op.Count? ==> op.limit == LimitOf(op.key)
    requires Counts(ops, ip) < MAX_PER_IP && Counts(ops, GLOBAL_KEY) < MAX_GLOBAL
    ensures Allowed(After(Reset(m, ip), ops), ip, now) && RetrySeconds(After(Reset(m, ip), ops), ip, now) == 0
  {
    FewCounts(Reset(m, ip), ops, ip, 0);
    FewCounts(Reset(m, ip), ops, GLOBAL_KEY, 0);
  }

  /** And as many lock it, for a quarter of an hour from the last of them: five failures
      of the address within a quarter of an hour of the first, or twenty in all. None
      before the last does. */
  lemma FullLimitLocks(m: Buckets, ip: string, key: string, times: seq<int>)
    requires (key == ip != "*" && |times| == 5) || (key == "*" && |times| == 20)
    requires forall i | 0 <= i < |times| :: times[i] - times[0] <= 900_000_000_000
    ensures var last := |times| - 1;
      && LockEnd(Recorded(Reset(m, ip), key, LimitOf(key), times), key) == times[last] + 900_000_000_000
      && forall k | 0 <= k <= last :: LockEnd(Recorded(Reset(m, ip), key, LimitOf(key), times[..k]), key) == ZERO_TIME
  {
    FullBucketLocks(Reset(m, ip), key, LimitOf(key), times);
    assert times[..0] == [] && Recorded(Reset(m, ip), key, LimitOf(key), []) == Reset(m, ip);
  }

  // ------------------------------------------------------------- the others

  /** What is counted against any other address, and how long it is locked, stays. */
  lemma ResetSparesOthers(m: Buckets, ip: string, other: string)
    requires other != ip && other != GLOBAL_KEY
    ensures Alike(Reset(m, ip), m, other) && LockEnd(Reset(m, ip), other) == LockEnd(m, other)
  {
  }
}
