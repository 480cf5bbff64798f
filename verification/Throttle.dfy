/**
 The login throttle: one bucket of failures per client address plus a global
 one, each locking its key for fifteen minutes once it is full, in a map that is
 swept when it grows too large.
 */
module Throttle {

  // Instants are nanoseconds on a clock that reads later than the zero time. Every
  // operation takes the clock readings it makes as parameters.

  const ZERO_TIME: int := 0
  const SECOND: int := 1_000_000_000
  const WINDOW: int := 900 * SECOND
  const LOCK: int := 900 * SECOND
  const MAX_PER_IP: nat := 5
  const MAX_GLOBAL: nat := 20
  const MAX_BUCKETS: nat := 1024
  const GLOBAL_KEY := "*"

  datatype Bucket = Bucket(failures: nat, firstAt: int, lockedUntil: int)

  type Buckets = map<string, Bucket>

  // ------------------------------------------------------------ operations

  function LockEnd(m: Buckets, key: string): int {
    if key in m then m[key].lockedUntil else ZERO_TIME
  }

  /** Neither the address nor the whole server is locked at `now`. */
  predicate Allowed(m: Buckets, ip: string, now: int) {
    LockEnd(m, ip) <= now && LockEnd(m, GLOBAL_KEY) <= now
  }

  function Max(a: int, b: int): int { if a >= b then a else b }

  /** The whole seconds left of the later lock and one more, or none when both
      are over. */
  function RetrySeconds(m: Buckets, ip: string, now: int): int {
    var longest := Max(Max(ZERO_TIME, LockEnd(m, ip)), LockEnd(m, GLOBAL_KEY));
    if longest - now > 0 then (longest - now) / SECOND + 1 else 0
  }

  /** It is 0 exactly when nothing is locked; otherwise waiting that long is
      enough, and a second less is enough only if it lands on the unlock. */
  lemma RetryMeansLocked(m: Buckets, ip: string, now: int)
    requires ZERO_TIME <= now
    ensures RetrySeconds(m, ip, now) == 0 <==> Allowed(m, ip, now)
    ensures var wait := RetrySeconds(m, ip, now);
      && Allowed(m, ip, now + wait * SECOND)
      && (wait > 0 && Allowed(m, ip, now + (wait - 1) * SECOND) ==>
            exists key | key in {ip, GLOBAL_KEY} :: LockEnd(m, key) == now + (wait - 1) * SECOND)
  {
  }

  function Record(m: Buckets, key: string, limit: nat, now: int): Buckets {
    var b := if key !in m || now - m[key].firstAt > WINDOW then Bucket(0, now, ZERO_TIME) else m[key];
    if b.failures + 1 >= limit
    then m[key := Bucket(0, now, now + LOCK)]
    else m[key := b.(failures := b.failures + 1)]
  }

  predicate Stale(b: Bucket, now: int) {
    b.lockedUntil < now && now - b.firstAt > WINDOW
  }

  function Fresh(m: Buckets, now: int): Buckets {
    map key | key in m && !Stale(m[key], now) :: m[key]
  }

  /** `kept` is what the sweep leaves of `m`. Which of several equally old
      buckets goes first is the sort's choice. */
  ghost predicate Evicted(m: Buckets, now: int, kept: Buckets) {
    if |m| <= MAX_BUCKETS then kept == m
    else if |Fresh(m, now)| <= MAX_BUCKETS then kept == Fresh(m, now)
    else
      && |kept| == MAX_BUCKETS
      && (forall key <- kept :: key in Fresh(m, now) && kept[key] == m[key])
      && (forall gone <- Fresh(m, now), key <- kept ::
            gone !in kept ==> m[gone].firstAt <= m[key].firstAt)
  }

  /** One refused password: the clock readings of the gate, of the two counters
      and of the sweep. */
  datatype Attempt = Attempt(ip: string, gate: int, ipAt: int, globalAt: int, sweepAt: int)

  function Counted(m: Buckets, a: Attempt): Buckets {
    Record(Record(m, a.ip, MAX_PER_IP, a.ipAt), GLOBAL_KEY, MAX_GLOBAL, a.globalAt)
  }

  ghost predicate FailureRecorded(m: Buckets, a: Attempt, after: Buckets) {
    Evicted(Counted(m, a), a.sweepAt, after)
  }

  function Reset(m: Buckets, ip: string): Buckets {
    m - {ip, GLOBAL_KEY}
  }

  // --------------------------------------------- staleness is unobservable

  /** `m` is `full` without some buckets that are stale at `now`. */
  ghost predicate Swept(m: Buckets, full: Buckets, now: int) {
    && (forall key <- m :: key in full && m[key] == full[key])
    && (forall key <- full :: key !in m ==> Stale(full[key], now))
  }

  datatype Op =
    | Ask(ip: string, now: int)
    | Count(key: string, limit: nat, now: int)
    | Clear(ip: string)

  /** What an operation answers and leaves behind. */
  function Perform(m: Buckets, op: Op): (Buckets, int) {
    match op
    case Ask(ip, now) => (m, RetrySeconds(m, ip, now))
    case Count(key, limit, now) => (Record(m, key, limit, now), 0)
    case Clear(ip) => (Reset(m, ip), 0)
  }

  function Answers(m: Buckets, ops: seq<Op>): seq<int>
    decreases |ops|
  {
    if ops == [] then []
    else
      var (after, answer) := Perform(m, ops[0]);
      [answer] + Answers(after, ops[1..])
  }

  ghost predicate NotBefore(ops: seq<Op>, now: int) {
    forall op <- ops :: !op.Clear? ==> now <= op.now
  }

  lemma SweptRecord(m: Buckets, full: Buckets, key: string, limit: nat, now: int)
    requires Swept(m, full, now)
    ensures Swept(Record(m, key, limit, now), Record(full, key, limit, now), now)
  {
  }

  lemma SweptRetry(m: Buckets, full: Buckets, ip: string, now: int)
    requires Swept(m, full, now) && ZERO_TIME <= now
    ensures RetrySeconds(m, ip, now) == RetrySeconds(full, ip, now)
    ensures Allowed(m, ip, now) == Allowed(full, ip, now)
  {
  }

  lemma SweptLater(m: Buckets, full: Buckets, now: int, later: int)
    requires Swept(m, full, now) && now <= later
    ensures Swept(m, full, later)
  {
  }

  ghost predicate Sorted(ops: seq<Op>) {
    forall i, j | 0 <= i < j < |ops| :: !ops[i].Clear? && !ops[j].Clear? ==> ops[i].now <= ops[j].now
  }

  /** Whatever is asked, counted or cleared from then on, no answer tells
      whether the stale buckets were swept. */
  lemma {:induction false} EvictionInvisible(m: Buckets, full: Buckets, now: int, ops: seq<Op>)
    requires Swept(m, full, now) && ZERO_TIME <= now
    requires NotBefore(ops, now) && Sorted(ops)
    ensures Answers(m, ops) == Answers(full, ops)
    decreases |ops|
  {
    if ops != [] {
      var op := ops[0];
      var later := if op.Clear? then now else op.now;
      SweptLater(m, full, now, later);
      match op {
        case Ask(ip, _) => SweptRetry(m, full, ip, later);
        case Count(key, limit, _) => SweptRecord(m, full, key, limit, later);
        case Clear(_) =>
      }
      EvictionInvisible(Perform(m, op).0, Perform(full, op).0, later, ops[1..]);
    }
  }

  /** The sweep that finds room this way removes nothing but such buckets. */
  lemma SweepKeepsSwept(m: Buckets, full: Buckets, now: int, kept: Buckets)
    requires Swept(m, full, now) && Evicted(m, now, kept)
    requires |Fresh(m, now)| <= MAX_BUCKETS
    ensures Swept(kept, full, now)
  {
  }

  // ------------------------------------------------------- counting failures

  predicate Hits(a: Attempt, key: string) { key == GLOBAL_KEY || a.ip == key }

  function When(a: Attempt, key: string): int {
    if key == GLOBAL_KEY then a.globalAt else a.ipAt
  }

  function LimitOf(key: string): nat {
    if key == GLOBAL_KEY then MAX_GLOBAL else MAX_PER_IP
  }

  function CountFrom(attempts: seq<Attempt>, key: string, lo: int): nat {
    if attempts == [] then 0
    else
      var a := attempts[|attempts| - 1];
      CountFrom(attempts[..|attempts| - 1], key, lo) + if Hits(a, key) && lo <= When(a, key) then 1 else 0
  }

  /** How many failures counted against `key` fall in the closed interval. */
  function CountIn(attempts: seq<Attempt>, key: string, lo: int, hi: int): nat {
    if attempts == [] then 0
    else
      var a := attempts[|attempts| - 1];
      CountIn(attempts[..|attempts| - 1], key, lo, hi)
      + if Hits(a, key) && lo <= When(a, key) <= hi then 1 else 0
  }

  lemma {:induction false} CountAntitone(attempts: seq<Attempt>, key: string, lo: int, later: int)
    requires lo <= later
    ensures CountFrom(attempts, key, later) <= CountFrom(attempts, key, lo)
  {
    if attempts != [] {
      CountAntitone(attempts[..|attempts| - 1], key, lo, later);
    }
  }

  lemma {:induction false} CountNothing(attempts: seq<Attempt>, key: string, lo: int)
    requires forall a <- attempts :: Hits(a, key) ==> When(a, key) < lo
    ensures CountFrom(attempts, key, lo) == 0
  {
    if attempts != [] {
      CountNothing(attempts[..|attempts| - 1], key, lo);
    }
  }

  lemma {:induction false} WindowIsTail(attempts: seq<Attempt>, key: string, lo: int, hi: int)
    ensures CountIn(attempts, key, lo, hi) <= CountFrom(attempts, key, lo)
    ensures (forall a <- attempts :: Hits(a, key) ==> When(a, key) <= hi) ==>
              CountIn(attempts, key, lo, hi) == CountFrom(attempts, key, lo)
  {
    if attempts != [] {
      WindowIsTail(attempts[..|attempts| - 1], key, lo, hi);
    }
  }

  lemma CountFromSnoc(attempts: seq<Attempt>, a: Attempt, key: string, lo: int)
    ensures CountFrom(attempts + [a], key, lo)
            == CountFrom(attempts, key, lo) + if Hits(a, key) && lo <= When(a, key) then 1 else 0
  {
    assert (attempts + [a])[..|attempts|] == attempts;
  }

  lemma CountInSnoc(attempts: seq<Attempt>, a: Attempt, key: string, lo: int, hi: int)
    ensures CountIn(attempts + [a], key, lo, hi)
            == CountIn(attempts, key, lo, hi) + if Hits(a, key) && lo <= When(a, key) <= hi then 1 else 0
  {
    assert (attempts + [a])[..|attempts|] == attempts;
  }

  // ------------------------------------------------ one key, never swept

  /** The buckets of a server that never sweeps. */
  function Unswept(attempts: seq<Attempt>): Buckets {
    if attempts == [] then map[]
    else Counted(Unswept(attempts[..|attempts| - 1]), attempts[|attempts| - 1])
  }

  /** What a bucket says of the failures behind it. A locked bucket opened its
      window when it locked, so a failure counted in it sits at the very end. */
  ghost predicate BucketTells(attempts: seq<Attempt>, key: string, b: Bucket) {
    var limit, first := LimitOf(key), b.firstAt;
    && b.failures < limit
    && CountFrom(attempts, key, first + WINDOW + 1) == 0
    && CountFrom(attempts, key, first + 1) <= b.failures
    && (exists a <- attempts :: Hits(a, key) && When(a, key) == first)
    && if b.lockedUntil == ZERO_TIME
       then
         && CountFrom(attempts, key, first) <= b.failures
         && CountFrom(attempts, key, first - WINDOW) <= limit + b.failures
       else
         && b.lockedUntil == first + LOCK
         && CountFrom(attempts, key, first) <= limit + b.failures
  }

  ghost predicate WindowsBounded(attempts: seq<Attempt>, key: string) {
    forall lo, hi | hi == lo + WINDOW :: CountIn(attempts, key, lo, hi) <= 2 * LimitOf(key)
  }

  ghost predicate KeyInv(attempts: seq<Attempt>, key: string, m: Buckets) {
    && (if key in m then BucketTells(attempts, key, m[key]) else forall a <- attempts :: !Hits(a, key))
    && WindowsBounded(attempts, key)
  }

  /** The readings an attempt makes are in order, none is the zero time, and the
      address is not the name of the global bucket. */
  predicate WellTimed(a: Attempt) {
    a.ip != GLOBAL_KEY && ZERO_TIME < a.gate <= a.ipAt <= a.globalAt <= a.sweepAt
  }

  ghost predicate UpTo(attempts: seq<Attempt>, hi: int) {
    forall a <- attempts :: WellTimed(a) && a.sweepAt <= hi
  }

  /** The five counts a bucket is judged by, one failure later. */
  lemma CountsAfter(attempts: seq<Attempt>, a: Attempt, key: string, first: int)
    requires Hits(a, key) && first <= When(a, key)
    ensures CountFrom(attempts + [a], key, first) == CountFrom(attempts, key, first) + 1
    ensures CountFrom(attempts + [a], key, first - WINDOW) == CountFrom(attempts, key, first - WINDOW) + 1
    ensures CountFrom(attempts + [a], key, first + 1) <= CountFrom(attempts, key, first + 1) + 1
    ensures first == When(a, key) ==>
              CountFrom(attempts + [a], key, first + 1) == CountFrom(attempts, key, first + 1)
    ensures When(a, key) <= first + WINDOW ==>
              CountFrom(attempts + [a], key, first + WINDOW + 1) == CountFrom(attempts, key, first + WINDOW + 1)
  {
    CountFromSnoc(attempts, a, key, first);
    CountFromSnoc(attempts, a, key, first - WINDOW);
    CountFromSnoc(attempts, a, key, first + 1);
    CountFromSnoc(attempts, a, key, first + WINDOW + 1);
  }

  /** No earlier failure is counted after the reading of a later one. */
  lemma NothingLater(attempts: seq<Attempt>, a: Attempt, key: string)
    requires WellTimed(a) && UpTo(attempts, a.gate)
    ensures CountFrom(attempts, key, When(a, key) + 1) == 0
    ensures CountFrom(attempts, key, When(a, key) + WINDOW + 1) == 0
  {
    CountNothing(attempts, key, When(a, key) + 1);
    CountNothing(attempts, key, When(a, key) + WINDOW + 1);
  }

  /** A failure that opens a bucket where there is none. */
  lemma FirstFailure(attempts: seq<Attempt>, a: Attempt, key: string, m: Buckets)
    requires WellTimed(a) && UpTo(attempts, a.gate) && Hits(a, key)
    requires KeyInv(attempts, key, m) && key !in m
    ensures BucketTells(attempts + [a], key, Bucket(1, When(a, key), ZERO_TIME))
    ensures CountFrom(attempts + [a], key, When(a, key) - WINDOW) <= LimitOf(key)
  {
    var at := When(a, key);
    CountsAfter(attempts, a, key, at);
    NothingLater(attempts, a, key);
    assert a in attempts + [a];
    CountNothing(attempts, key, at - WINDOW);
    CountNothing(attempts, key, at);
  }

  /** A failure that opens a bucket anew, the old one being stale. */
  lemma LateFailure(attempts: seq<Attempt>, a: Attempt, key: string, b: Bucket)
    requires WellTimed(a) && UpTo(attempts, a.gate) && Hits(a, key)
    requires BucketTells(attempts, key, b) && When(a, key) - b.firstAt > WINDOW
    ensures BucketTells(attempts + [a], key, Bucket(1, When(a, key), ZERO_TIME))
    ensures CountFrom(attempts + [a], key, When(a, key) - WINDOW) <= LimitOf(key)
  {
    var at := When(a, key);
    CountsAfter(attempts, a, key, at);
    NothingLater(attempts, a, key);
    assert a in attempts + [a];
    CountAntitone(attempts, key, b.firstAt + WINDOW + 1, at);
    CountAntitone(attempts, key, b.firstAt + 1, at - WINDOW);
  }

  lemma OpeningFailure(attempts: seq<Attempt>, a: Attempt, key: string, m: Buckets)
    requires WellTimed(a) && UpTo(attempts, a.gate) && Hits(a, key)
    requires KeyInv(attempts, key, m)
    requires key !in m || When(a, key) - m[key].firstAt > WINDOW
    ensures BucketTells(attempts + [a], key, Bucket(1, When(a, key), ZERO_TIME))
    ensures CountFrom(attempts + [a], key, When(a, key) - WINDOW) <= LimitOf(key)
  {
    if key !in m {
      FirstFailure(attempts, a, key, m);
    } else {
      LateFailure(attempts, a, key, m[key]);
    }
  }

  /** A failure counted in an open bucket without filling it. */
  lemma CountedFailure(attempts: seq<Attempt>, a: Attempt, key: string, b: Bucket)
    requires WellTimed(a) && UpTo(attempts, a.gate) && Hits(a, key)
    requires BucketTells(attempts, key, b) && b.lockedUntil <= a.gate
    requires When(a, key) - b.firstAt <= WINDOW && b.failures + 1 < LimitOf(key)
    requires b.firstAt <= When(a, key)
    ensures BucketTells(attempts + [a], key, b.(failures := b.failures + 1))
  {
    CountsAfter(attempts, a, key, b.firstAt);
    var e :| e in attempts && Hits(e, key) && When(e, key) == b.firstAt;
    assert e in attempts + [a];
  }

  /** The failure that fills a bucket and locks its key. */
  lemma LockingFailure(attempts: seq<Attempt>, a: Attempt, key: string, b: Bucket)
    requires WellTimed(a) && UpTo(attempts, a.gate) && Hits(a, key)
    requires BucketTells(attempts, key, b) && b.lockedUntil <= a.gate
    requires When(a, key) - b.firstAt <= WINDOW && b.failures + 1 >= LimitOf(key)
    requires b.firstAt <= When(a, key)
    ensures BucketTells(attempts + [a], key, Bucket(0, When(a, key), When(a, key) + LOCK))
  {
    var at := When(a, key);
    CountsAfter(attempts, a, key, at);
    NothingLater(attempts, a, key);
    assert a in attempts + [a];
    if b.lockedUntil == ZERO_TIME {
      CountAntitone(attempts, key, b.firstAt, at);
    } else {
      CountAntitone(attempts, key, b.firstAt + 1, at);
    }
  }

  /** Neither kind lets the last window exceed twice the limit. */
  lemma TailBounded(attempts: seq<Attempt>, a: Attempt, key: string, b: Bucket)
    requires WellTimed(a) && Hits(a, key)
    requires BucketTells(attempts, key, b) && b.lockedUntil <= a.gate
    requires b.firstAt <= When(a, key) <= b.firstAt + WINDOW
    ensures CountFrom(attempts + [a], key, When(a, key) - WINDOW) <= 2 * LimitOf(key)
  {
    var at := When(a, key);
    CountFromSnoc(attempts, a, key, at - WINDOW);
    if b.lockedUntil == ZERO_TIME {
      CountAntitone(attempts, key, b.firstAt - WINDOW, at - WINDOW);
    } else {
      CountAntitone(attempts, key, b.firstAt, at - WINDOW);
    }
  }

  lemma BucketStep(attempts: seq<Attempt>, a: Attempt, key: string, m: Buckets)
    requires WellTimed(a) && UpTo(attempts, a.gate) && Hits(a, key)
    requires KeyInv(attempts, key, m) && LockEnd(m, key) <= a.gate
    ensures BucketTells(attempts + [a], key, Record(m, key, LimitOf(key), When(a, key))[key])
    ensures CountFrom(attempts + [a], key, When(a, key) - WINDOW) <= 2 * LimitOf(key)
  {
    if key !in m || When(a, key) - m[key].firstAt > WINDOW {
      OpeningFailure(attempts, a, key, m);
    } else {
      var b := m[key];
      var e :| e in attempts && Hits(e, key) && When(e, key) == b.firstAt;
      assert b.firstAt <= e.sweepAt <= a.gate;
      TailBounded(attempts, a, key, b);
      if b.failures + 1 < LimitOf(key) {
        CountedFailure(attempts, a, key, b);
      } else {
        LockingFailure(attempts, a, key, b);
      }
    }
  }

  lemma WindowStep(attempts: seq<Attempt>, a: Attempt, key: string, lo: int, hi: int)
    requires hi == lo + WINDOW && CountIn(attempts, key, lo, hi) <= 2 * LimitOf(key)
    requires Hits(a, key) ==> CountFrom(attempts + [a], key, When(a, key) - WINDOW) <= 2 * LimitOf(key)
    ensures CountIn(attempts + [a], key, lo, hi) <= 2 * LimitOf(key)
  {
    CountInSnoc(attempts, a, key, lo, hi);
    if Hits(a, key) && lo <= When(a, key) <= hi {
      WindowIsTail(attempts + [a], key, lo, hi);
      CountAntitone(attempts + [a], key, When(a, key) - WINDOW, lo);
    }
  }

  lemma UntouchedKey(attempts: seq<Attempt>, a: Attempt, key: string, b: Bucket)
    requires !Hits(a, key) && BucketTells(attempts, key, b)
    ensures BucketTells(attempts + [a], key, b)
  {
    CountFromSnoc(attempts, a, key, b.firstAt);
    CountFromSnoc(attempts, a, key, b.firstAt - WINDOW);
    CountFromSnoc(attempts, a, key, b.firstAt + 1);
    CountFromSnoc(attempts, a, key, b.firstAt + WINDOW + 1);
    var e :| e in attempts && Hits(e, key) && When(e, key) == b.firstAt;
    assert e in attempts + [a];
  }

  /** The two counters of one failure touch two different keys. */
  lemma CountedAt(m: Buckets, a: Attempt, key: string)
    requires a.ip != GLOBAL_KEY
    ensures Hits(a, key) ==> key in Counted(m, a)
    ensures Hits(a, key) ==> Counted(m, a)[key] == Record(m, key, LimitOf(key), When(a, key))[key]
    ensures !Hits(a, key) ==> (key in Counted(m, a) <==> key in m)
    ensures !Hits(a, key) && key in m ==> Counted(m, a)[key] == m[key]
  {
  }

  lemma KeyStep(attempts: seq<Attempt>, a: Attempt, key: string, m: Buckets)
    requires WellTimed(a) && UpTo(attempts, a.gate)
    requires KeyInv(attempts, key, m) && (Hits(a, key) ==> LockEnd(m, key) <= a.gate)
    ensures KeyInv(attempts + [a], key, Counted(m, a))
  {
    CountedAt(m, a, key);
    if Hits(a, key) {
      BucketStep(attempts, a, key, m);
    } else if key in m {
      UntouchedKey(attempts, a, key, m[key]);
    }
    forall lo, hi | hi == lo + WINDOW ensures CountIn(attempts + [a], key, lo, hi) <= 2 * LimitOf(key) {
      WindowStep(attempts, a, key, lo, hi);
    }
  }

  // --------------------------------------------------- few buckets are fresh

  /** The addresses of the failures counted globally at or after `lo`. */
  function RecentIps(attempts: seq<Attempt>, lo: int): set<string> {
    if attempts == [] then {}
    else
      var a := attempts[|attempts| - 1];
      RecentIps(attempts[..|attempts| - 1], lo) + if lo <= a.globalAt then {a.ip} else {}
  }

  lemma {:induction false} RecentIpsBounded(attempts: seq<Attempt>, lo: int)
    ensures |RecentIps(attempts, lo)| <= CountFrom(attempts, GLOBAL_KEY, lo)
    ensures forall a <- attempts :: lo <= a.globalAt ==> a.ip in RecentIps(attempts, lo)
  {
    if attempts != [] {
      RecentIpsBounded(attempts[..|attempts| - 1], lo);
    }
  }

  lemma SubsetSize<T>(a: set<T>, b: set<T>)
    requires a <= b
    ensures |a| <= |b|
  {
    assert b == a + (b - a);
  }

  /** At most one bucket for each failure of the last window, and the global
      one, are not stale. */
  lemma FewFresh(attempts: seq<Attempt>, full: Buckets, now: int)
    requires UpTo(attempts, now)
    requires forall key :: KeyInv(attempts, key, full)
    ensures |Fresh(full, now)| <= 2 * MAX_GLOBAL + 1
  {
    var lo := now - WINDOW;
    var recent := RecentIps(attempts, lo) + {GLOBAL_KEY};
    RecentIpsBounded(attempts, lo);
    WindowIsTail(attempts, GLOBAL_KEY, lo, now);
    assert KeyInv(attempts, GLOBAL_KEY, full);
    assert |recent| <= 2 * MAX_GLOBAL + 1;
    forall key <- Fresh(full, now) ensures key in recent {
      assert KeyInv(attempts, key, full);
      var a :| a in attempts && Hits(a, key) && When(a, key) == full[key].firstAt;
      assert lo <= a.globalAt;
    }
    SubsetSize(Fresh(full, now).Keys, recent);
    assert |Fresh(full, now)| == |Fresh(full, now).Keys|;
  }

  // ---------------------------------------------------------------- runs

  /** A run of refused passwords, one after the other, each let through by the
      gate, with no login succeeding in between. */
  ghost predicate Run(attempts: seq<Attempt>, states: seq<Buckets>) {
    && |states| == |attempts| + 1 && states[0] == map[]
    && (forall i | 0 <= i < |attempts| ::
          WellTimed(attempts[i]) && Allowed(states[i], attempts[i].ip, attempts[i].gate))
    && (forall i, j | 0 <= i < j < |attempts| :: attempts[i].sweepAt <= attempts[j].gate)
    && (forall i | 0 <= i < |attempts| :: FailureRecorded(states[i], attempts[i], states[i + 1]))
  }

  function Now(attempts: seq<Attempt>, n: nat): int
    requires n <= |attempts|
  {
    if n == 0 then ZERO_TIME else attempts[n - 1].sweepAt
  }

  /** The induction: as long as the bound held, the sweep only ever removed
      stale buckets, so the gate read as if nothing had been swept, so the bound
      holds one failure further. */
  lemma {:induction false} RunInv(attempts: seq<Attempt>, states: seq<Buckets>, n: nat)
    requires Run(attempts, states) && n <= |attempts|
    ensures Swept(states[n], Unswept(attempts[..n]), Now(attempts, n))
    ensures forall key :: KeyInv(attempts[..n], key, Unswept(attempts[..n]))
  {
    if n > 0 {
      var before, a := attempts[..n - 1], attempts[n - 1];
      RunInv(attempts, states, n - 1);
      assert attempts[..n] == before + [a];
      UnsweptSnoc(before, a);
      SweptLater(states[n - 1], Unswept(before), Now(attempts, n - 1), a.gate);
      RunStep(before, a, states[n - 1], Unswept(before), states[n]);
    }
  }

  lemma UnsweptSnoc(attempts: seq<Attempt>, a: Attempt)
    ensures Unswept(attempts + [a]) == Counted(Unswept(attempts), a)
  {
    assert (attempts + [a])[..|attempts|] == attempts;
  }

  /** One failure more, on the swept map and on the one never swept. */
  lemma RunStep(before: seq<Attempt>, a: Attempt, m: Buckets, full: Buckets, after: Buckets)
    requires WellTimed(a) && UpTo(before, a.gate) && Allowed(m, a.ip, a.gate) && FailureRecorded(m, a, after)
    requires Swept(m, full, a.gate) && forall key :: KeyInv(before, key, full)
    ensures Swept(after, Counted(full, a), a.sweepAt)
    ensures forall key :: KeyInv(before + [a], key, Counted(full, a))
  {
    SweptRetry(m, full, a.ip, a.gate);
    forall key ensures KeyInv(before + [a], key, Counted(full, a)) {
      KeyStep(before, a, key, full);
    }
    SweptCounted(m, full, a);
    FewFresh(before + [a], Counted(full, a), a.sweepAt);
    FreshOfSwept(Counted(m, a), Counted(full, a), a.sweepAt);
    SweepKeepsSwept(Counted(m, a), Counted(full, a), a.sweepAt, after);
  }

  lemma SweptCounted(m: Buckets, full: Buckets, a: Attempt)
    requires Swept(m, full, a.gate) && WellTimed(a)
    ensures Swept(Counted(m, a), Counted(full, a), a.sweepAt)
  {
    SweptLater(m, full, a.gate, a.ipAt);
    SweptRecord(m, full, a.ip, MAX_PER_IP, a.ipAt);
    var m', full' := Record(m, a.ip, MAX_PER_IP, a.ipAt), Record(full, a.ip, MAX_PER_IP, a.ipAt);
    SweptLater(m', full', a.ipAt, a.globalAt);
    SweptRecord(m', full', GLOBAL_KEY, MAX_GLOBAL, a.globalAt);
    SweptLater(Counted(m, a), Counted(full, a), a.globalAt, a.sweepAt);
  }

  lemma FreshOfSwept(m: Buckets, full: Buckets, now: int)
    requires Swept(m, full, now)
    ensures |Fresh(m, now)| <= |Fresh(full, now)|
  {
    SubsetSize(Fresh(m, now).Keys, Fresh(full, now).Keys);
    assert |Fresh(m, now)| == |Fresh(m, now).Keys| && |Fresh(full, now)| == |Fresh(full, now).Keys|;
  }

  /** Any closed fifteen minutes hold at most twice the limit of failures, for
      one address and for the server as a whole. */
  lemma FailuresBounded(attempts: seq<Attempt>, states: seq<Buckets>, key: string, lo: int)
    requires Run(attempts, states)
    ensures CountIn(attempts, key, lo, lo + WINDOW) <= 2 * LimitOf(key)
  {
    RunInv(attempts, states, |attempts|);
    assert attempts[..|attempts|] == attempts;
    assert KeyInv(attempts, key, Unswept(attempts));
  }

  lemma FewSurvive(attempts: seq<Attempt>, a: Attempt, m: Buckets, full: Buckets)
    requires WellTimed(a) && Swept(m, full, a.gate) && UpTo(attempts, a.gate)
    requires forall key :: KeyInv(attempts + [a], key, Counted(full, a))
    ensures |Fresh(Counted(m, a), a.sweepAt)| <= 2 * MAX_GLOBAL + 1
  {
    SweptCounted(m, full, a);
    FewFresh(attempts + [a], Counted(full, a), a.sweepAt);
    FreshOfSwept(Counted(m, a), Counted(full, a), a.sweepAt);
  }

  /** The map never holds more than its bound, and the eviction by age is never
      reached: what is not stale fits with room to spare. */
  lemma AgeEvictionUnreached(attempts: seq<Attempt>, states: seq<Buckets>, n: nat)
    requires Run(attempts, states) && n < |attempts|
    ensures |Fresh(Counted(states[n], attempts[n]), attempts[n].sweepAt)| <= 2 * MAX_GLOBAL + 1 <= MAX_BUCKETS
    ensures |states[n + 1]| <= MAX_BUCKETS
    ensures Swept(states[n + 1], Unswept(attempts[..n + 1]), attempts[n].sweepAt)
  {
    var before, a := attempts[..n], attempts[n];
    FewAtSweep(attempts, states, n, a);
    RunInv(attempts, states, n + 1);
    assert FailureRecorded(states[n], a, states[n + 1]);
  }

  lemma RunUpTo(attempts: seq<Attempt>, states: seq<Buckets>, n: nat)
    requires Run(attempts, states) && n < |attempts|
    ensures UpTo(attempts[..n], attempts[n].gate) && Now(attempts, n) <= attempts[n].gate
  {
  }

  lemma FewAtSweep(attempts: seq<Attempt>, states: seq<Buckets>, n: nat, a: Attempt)
    requires Run(attempts, states) && n < |attempts| && a == attempts[n]
    ensures |Fresh(Counted(states[n], a), a.sweepAt)| <= 2 * MAX_GLOBAL + 1
  {
    RunInv(attempts, states, n);
    RunUpTo(attempts, states, n);
    KeysAfter(attempts, states, n);
    SweptLater(states[n], Unswept(attempts[..n]), Now(attempts, n), a.gate);
    FewSurvive(attempts[..n], a, states[n], Unswept(attempts[..n]));
  }

  lemma KeysAfter(attempts: seq<Attempt>, states: seq<Buckets>, n: nat)
    requires Run(attempts, states) && n < |attempts|
    ensures forall key :: KeyInv(attempts[..n] + [attempts[n]], key, Counted(Unswept(attempts[..n]), attempts[n]))
  {
    RunInv(attempts, states, n + 1);
    assert attempts[..n + 1] == attempts[..n] + [attempts[n]];
    UnsweptSnoc(attempts[..n], attempts[n]);
  }

  // ------------------------------------------------ the lock, and the bound

  function Recorded(m: Buckets, key: string, limit: nat, times: seq<int>): Buckets {
    if times == [] then m
    else Record(Recorded(m, key, limit, times[..|times| - 1]), key, limit, times[|times| - 1])
  }

  /** What an open bucket counts so far, and since when; a stale one is as none. */
  function Open(m: Buckets, key: string, now: int): Bucket {
    if key !in m || now - m[key].firstAt > WINDOW then Bucket(0, now, ZERO_TIME) else m[key]
  }

  lemma {:induction false} BucketFills(m: Buckets, key: string, limit: nat, times: seq<int>)
    requires times != [] && Open(m, key, times[0]).failures + |times| < limit
    requires forall i | 0 <= i < |times| :: times[i] <= Open(m, key, times[0]).firstAt + WINDOW
    ensures key in Recorded(m, key, limit, times)
    ensures var b := Open(m, key, times[0]);
      Recorded(m, key, limit, times)[key] == b.(failures := b.failures + |times|)
  {
    if |times| == 1 {
      assert Recorded(m, key, limit, []) == m;
    } else {
      BucketFills(m, key, limit, times[..|times| - 1]);
    }
  }

  /** Whatever the bucket has counted already, the failure that makes it as many
      as the limit within its window locks the key, for the whole lock time after
      it; those before it lock nothing. */
  lemma FullBucketLocks(m: Buckets, key: string, limit: nat, times: seq<int>)
    requires times != [] && Open(m, key, times[0]).failures + |times| == limit
    requires forall i | 0 <= i < |times| :: times[i] <= Open(m, key, times[0]).firstAt + WINDOW
    ensures var last := |times| - 1;
      && LockEnd(Recorded(m, key, limit, times), key) == times[last] + LOCK
      && forall k | 0 < k <= last ::
           LockEnd(Recorded(m, key, limit, times[..k]), key) == Open(m, key, times[0]).lockedUntil
  {
    var last := |times| - 1;
    if last == 0 {
      assert Recorded(m, key, limit, []) == m;
    } else {
      BucketFills(m, key, limit, times[..last]);
    }
    forall k | 0 < k <= last
      ensures LockEnd(Recorded(m, key, limit, times[..k]), key) == Open(m, key, times[0]).lockedUntil
    {
      BucketFills(m, key, limit, times[..k]);
    }
  }

  lemma {:induction false} CountEverything(attempts: seq<Attempt>, key: string, lo: int, hi: int)
    requires forall a <- attempts :: Hits(a, key) && lo <= When(a, key) <= hi
    ensures CountIn(attempts, key, lo, hi) == |attempts|
  {
    if attempts != [] {
      CountEverything(attempts[..|attempts| - 1], key, lo, hi);
    }
  }

  function Burst(i: nat): Attempt {
    var t := if i < MAX_PER_IP then 1 else 1 + WINDOW;
    Attempt("a", t, t, t, t)
  }

  function AfterBurst(n: nat): Buckets
    requires n <= 2 * MAX_PER_IP
  {
    if n == 0 then map[]
    else map[
      GLOBAL_KEY := Bucket(n, 1, ZERO_TIME),
      "a" := if n < MAX_PER_IP then Bucket(n, 1, ZERO_TIME)
             else if n < 2 * MAX_PER_IP then Bucket(n - MAX_PER_IP, 1, 1 + LOCK)
             else Bucket(0, 1 + WINDOW, 1 + WINDOW + LOCK)]
  }

  /** The bound is attained: a burst that locks an address, and a second one the
      instant the lock ends. */
  lemma BoundAttained() returns (attempts: seq<Attempt>, states: seq<Buckets>)
    ensures Run(attempts, states)
    ensures CountIn(attempts, "a", 1, 1 + WINDOW) == 2 * LimitOf("a")
  {
    var n := 2 * MAX_PER_IP;
    attempts := seq(n, i requires 0 <= i => Burst(i));
    states := seq(n + 1, i requires 0 <= i <= n => AfterBurst(i));
    forall i | 0 <= i < n ensures FailureRecorded(states[i], attempts[i], states[i + 1]) {
      BurstStep(i);
    }
    CountEverything(attempts, "a", 1, 1 + WINDOW);
  }

  lemma BurstStep(i: nat)
    requires i < 2 * MAX_PER_IP
    ensures FailureRecorded(AfterBurst(i), Burst(i), AfterBurst(i + 1))
  {
    var m := AfterBurst(i + 1);
    assert Counted(AfterBurst(i), Burst(i)) == m;
    assert m.Keys == {"a", GLOBAL_KEY};
    assert |m| == |m.Keys| <= 2;
  }

  /** As many addresses as the server allows failures in all, each failing once at
      one instant and once the instant the lock ends. */
  function Address(k: nat): string { seq(k + 2, _ => 'a') }

  lemma AddressInjective(j: nat, k: nat)
    ensures Address(j) == Address(k) <==> j == k
    ensures Address(k) != GLOBAL_KEY
  {
    assert |Address(j)| == j + 2 && |Address(k)| == k + 2;
  }

  function Crowd(i: nat): Attempt
    requires i < 2 * MAX_GLOBAL
  {
    if i < MAX_GLOBAL then Attempt(Address(i), 1, 1, 1, 1)
    else Attempt(Address(i - MAX_GLOBAL), 1 + WINDOW, 1 + WINDOW, 1 + WINDOW, 1 + WINDOW)
  }

  function GlobalAfter(n: nat): Bucket {
    if n < MAX_GLOBAL then Bucket(n, 1, ZERO_TIME)
    else if n < 2 * MAX_GLOBAL then Bucket(n - MAX_GLOBAL, 1, 1 + LOCK)
    else Bucket(0, 1 + WINDOW, 1 + WINDOW + LOCK)
  }

  /** The buckets after the first `n` of them. */
  ghost predicate CrowdTold(m: Buckets, n: nat) {
    && (GLOBAL_KEY in m <==> n > 0)
    && (n > 0 ==> m[GLOBAL_KEY] == GlobalAfter(n))
    && (forall key <- m :: key == GLOBAL_KEY || exists k: nat :: k < n && k < MAX_GLOBAL && key == Address(k))
    && (forall k: nat | k < MAX_GLOBAL ::
          && (Address(k) in m <==> k < n)
          && (k < n ==> m[Address(k)] == Bucket(if k + MAX_GLOBAL < n then 2 else 1, 1, ZERO_TIME)))
  }

  lemma CrowdStep(m: Buckets, i: nat)
    requires i < 2 * MAX_GLOBAL && CrowdTold(m, i)
    ensures Allowed(m, Crowd(i).ip, Crowd(i).gate) && CrowdTold(Counted(m, Crowd(i)), i + 1)
  {
    var at := if i < MAX_GLOBAL then i else i - MAX_GLOBAL;
    forall k: nat ensures Address(k) != GLOBAL_KEY && (Address(k) == Address(at) <==> k == at) {
      AddressInjective(k, at);
    }
  }

  ghost predicate CrowdStepped(m: Buckets, i: nat, after: Buckets)
    requires i < 2 * MAX_GLOBAL
  {
    Allowed(m, Crowd(i).ip, Crowd(i).gate) && FailureRecorded(m, Crowd(i), after)
  }

  lemma CrowdCounted(m: Buckets, i: nat)
    requires i < 2 * MAX_GLOBAL && CrowdTold(m, i)
    ensures CrowdTold(Counted(m, Crowd(i)), i + 1) && CrowdStepped(m, i, Counted(m, Crowd(i)))
  {
    CrowdStep(m, i);
    CrowdIsSmall(Counted(m, Crowd(i)), i + 1);
  }

  lemma {:induction false} CrowdStates(n: nat) returns (states: seq<Buckets>)
    requires n <= 2 * MAX_GLOBAL
    ensures |states| == n + 1 && states[0] == map[] && CrowdTold(states[n], n)
    ensures forall i, j | 0 <= i < n && j == i + 1 :: CrowdStepped(states[i], i, states[j])
  {
    if n == 0 {
      states := [map[]];
    } else {
      var before := CrowdStates(n - 1);
      CrowdCounted(before[n - 1], n - 1);
      states := before + [Counted(before[n - 1], Crowd(n - 1))];
    }
  }

  lemma CrowdIsSmall(m: Buckets, n: nat)
    requires CrowdTold(m, n)
    ensures |m| <= MAX_BUCKETS
  {
    var lengths := set k: nat | k < MAX_GLOBAL :: Address(k);
    SubsetSize(m.Keys, lengths + {GLOBAL_KEY});
    Few(MAX_GLOBAL);
    assert |m| == |m.Keys|;
  }

  lemma {:induction false} Few(n: nat)
    ensures |set k: nat | k < n :: Address(k)| <= n
  {
    if n > 0 {
      Few(n - 1);
      assert (set k: nat | k < n :: Address(k)) == (set k: nat | k < n - 1 :: Address(k)) + {Address(n - 1)};
    }
  }

  lemma CrowdRuns(attempts: seq<Attempt>, states: seq<Buckets>)
    requires |attempts| == 2 * MAX_GLOBAL && |states| == |attempts| + 1 && states[0] == map[]
    requires forall i | 0 <= i < |attempts| :: attempts[i] == Crowd(i)
    requires forall i, j | 0 <= i < |attempts| && j == i + 1 :: CrowdStepped(states[i], i, states[j])
    ensures Run(attempts, states)
  {
    forall i | 0 <= i < |attempts|
      ensures WellTimed(attempts[i]) && Allowed(states[i], attempts[i].ip, attempts[i].gate)
      ensures FailureRecorded(states[i], attempts[i], states[i + 1])
    {
      var j := i + 1;
      assert CrowdStepped(states[i], i, states[j]);
      CrowdIsTimed(i);
    }
  }

  lemma CrowdIsTimed(i: nat)
    requires i < 2 * MAX_GLOBAL
    ensures WellTimed(Crowd(i)) && Hits(Crowd(i), GLOBAL_KEY) && 1 <= When(Crowd(i), GLOBAL_KEY) <= 1 + WINDOW
  {
    AddressInjective(0, if i < MAX_GLOBAL then i else i - MAX_GLOBAL);
  }

  /** The bound for the server as a whole is attained as well. */
  lemma GlobalBoundAttained() returns (attempts: seq<Attempt>, states: seq<Buckets>)
    ensures Run(attempts, states)
    ensures CountIn(attempts, GLOBAL_KEY, 1, 1 + WINDOW) == 2 * LimitOf(GLOBAL_KEY)
  {
    attempts := seq(2 * MAX_GLOBAL, i requires 0 <= i < 2 * MAX_GLOBAL => Crowd(i));
    states := CrowdStates(2 * MAX_GLOBAL);
    CrowdRuns(attempts, states);
    forall a <- attempts ensures Hits(a, GLOBAL_KEY) && 1 <= When(a, GLOBAL_KEY) <= 1 + WINDOW {
      var i :| 0 <= i < |attempts| && attempts[i] == a;
      CrowdIsTimed(i);
    }
    CountEverything(attempts, GLOBAL_KEY, 1, 1 + WINDOW);
  }

  // ------------------------------------------------------------ the object

  lemma OlderGoFirst(m: Buckets, keys: seq<string>, n: nat, kept: Buckets)
    requires forall key <- m :: key in keys
    requires forall i | 0 <= i < |keys| :: keys[i] in m && (keys[i] in kept <==> n <= i)
    requires forall i, j | 0 <= i < j < |keys| :: m[keys[i]].firstAt <= m[keys[j]].firstAt
    requires forall key <- kept :: key in m
    ensures forall gone <- m, key <- kept :: gone !in kept ==> m[gone].firstAt <= m[key].firstAt
  {
    forall gone <- m, key <- kept | gone !in kept ensures m[gone].firstAt <= m[key].firstAt {
      var i :| 0 <= i < |keys| && keys[i] == gone;
      var j :| 0 <= j < |keys| && keys[j] == key;
      assert i < j;
    }
  }

  /** What is left once the first `k` keys are gone. */
  ghost predicate Suffix(m: Buckets, keys: seq<string>, k: nat, kept: Buckets) {
    && |kept| == |m| - k
    && (forall key <- kept :: key in m && kept[key] == m[key])
    && (forall i | 0 <= i < |keys| :: keys[i] in kept <==> k <= i)
  }

  lemma SuffixNext(m: Buckets, keys: seq<string>, k: nat, kept: Buckets)
    requires Suffix(m, keys, k, kept) && k < |keys|
    requires forall i, j | 0 <= i < j < |keys| :: keys[i] != keys[j]
    ensures Suffix(m, keys, k + 1, kept - {keys[k]})
  {
    var rest := kept - {keys[k]};
    assert rest.Keys == kept.Keys - {keys[k]};
    assert |rest| == |rest.Keys| && |kept| == |kept.Keys|;
  }

  class LoginThrottle {
    var buckets: Buckets

    constructor ()
      ensures buckets == map[]
    {
      buckets := map[];
    }

    method RetryAfter(ip: string, now: int) returns (seconds: int)
      requires ZERO_TIME <= now
      ensures seconds == RetrySeconds(buckets, ip, now)
      ensures seconds == 0 <==> Allowed(buckets, ip, now)
    {
      var longest := ZERO_TIME;
      var keys := [ip, GLOBAL_KEY];
      for i := 0 to |keys|
        invariant i == 0 ==> longest == ZERO_TIME
        invariant i == 1 ==> longest == Max(ZERO_TIME, LockEnd(buckets, ip))
        invariant i == 2 ==> longest == Max(Max(ZERO_TIME, LockEnd(buckets, ip)), LockEnd(buckets, GLOBAL_KEY))
      {
        if keys[i] in buckets && buckets[keys[i]].lockedUntil > longest {
          longest := buckets[keys[i]].lockedUntil;
        }
      }
      RetryMeansLocked(buckets, ip, now);
      var remaining := longest - now;
      if remaining > 0 {
        return remaining / SECOND + 1;
      }
      return 0;
    }

    method RecordFailure(a: Attempt)
      requires WellTimed(a)
      modifies this
      ensures FailureRecorded(old(buckets), a, buckets)
      ensures |buckets| <= MAX_BUCKETS
    {
      RecordLocked(a.ip, MAX_PER_IP, a.ipAt);
      RecordLocked(GLOBAL_KEY, MAX_GLOBAL, a.globalAt);
      EvictLocked(a.sweepAt);
    }

    method ResetFailures(ip: string)
      modifies this
      ensures buckets == Reset(old(buckets), ip)
      ensures buckets.Keys == old(buckets).Keys - {ip, GLOBAL_KEY}
      ensures forall key <- buckets :: buckets[key] == old(buckets)[key]
    {
      buckets := buckets - {ip};
      buckets := buckets - {GLOBAL_KEY};
    }

    method RecordLocked(key: string, limit: nat, now: int)
      modifies this
      ensures buckets == Record(old(buckets), key, limit, now)
    {
      if key !in buckets || now - buckets[key].firstAt > WINDOW {
        buckets := buckets[key := Bucket(0, now, ZERO_TIME)];
      }
      var b := buckets[key];
      b := b.(failures := b.failures + 1);
      if b.failures >= limit {
        b := b.(lockedUntil := now + LOCK);
        b := b.(failures := 0, firstAt := now);
      }
      buckets := buckets[key := b];
    }

    method EvictLocked(now: int)
      modifies this
      ensures Evicted(old(buckets), now, buckets)
      ensures |buckets| <= MAX_BUCKETS
    {
      if |buckets| <= MAX_BUCKETS {
        return;
      }
      var todo := buckets.Keys;
      while todo != {}
        invariant forall key <- buckets :: key in old(buckets) && buckets[key] == old(buckets)[key]
        invariant forall key <- old(buckets) :: key !in buckets ==> Stale(old(buckets)[key], now)
        invariant forall key <- buckets :: key !in todo ==> !Stale(old(buckets)[key], now)
        decreases |todo|
      {
        var key :| key in todo;
        todo := todo - {key};
        if key in buckets && Stale(buckets[key], now) {
          buckets := buckets - {key};
        }
      }
      assert buckets == Fresh(old(buckets), now);
      var overflow := |buckets| - MAX_BUCKETS;
      if overflow > 0 {
        var keys := ByFirstAt();
        DropFirst(keys, overflow);
      }
    }

    /** The keys, oldest bucket first. */
    method ByFirstAt() returns (keys: seq<string>)
      ensures forall key <- buckets :: key in keys
      ensures forall i | 0 <= i < |keys| :: keys[i] in buckets
      ensures forall i, j | 0 <= i < j < |keys| :: keys[i] != keys[j]
      ensures forall i, j | 0 <= i < j < |keys| :: buckets[keys[i]].firstAt <= buckets[keys[j]].firstAt
      ensures |keys| == |buckets|
    {
      keys := [];
      var rest := buckets.Keys;
      while rest != {}
        invariant rest <= buckets.Keys
        invariant forall key <- buckets :: key in keys <==> key !in rest
        invariant forall i | 0 <= i < |keys| :: keys[i] in buckets
        invariant forall i, j | 0 <= i < j < |keys| :: keys[i] != keys[j]
        invariant forall i, j | 0 <= i < j < |keys| :: buckets[keys[i]].firstAt <= buckets[keys[j]].firstAt
        invariant forall i, key | 0 <= i < |keys| && key in rest :: buckets[keys[i]].firstAt <= buckets[key].firstAt
        invariant |keys| + |rest| == |buckets|
        decreases |rest|
      {
        var oldest := Oldest(rest);
        keys := keys + [oldest];
        rest := rest - {oldest};
      }
    }

    method Oldest(among: set<string>) returns (oldest: string)
      requires among != {} && among <= buckets.Keys
      ensures oldest in among
      ensures forall key <- among :: buckets[oldest].firstAt <= buckets[key].firstAt
    {
      oldest :| oldest in among;
      var rest := among - {oldest};
      while rest != {}
        invariant rest <= among && oldest in among
        invariant forall key <- among - rest :: buckets[oldest].firstAt <= buckets[key].firstAt
        decreases |rest|
      {
        var key :| key in rest;
        if buckets[key].firstAt < buckets[oldest].firstAt {
          oldest := key;
        }
        rest := rest - {key};
      }
    }

    method DropFirst(keys: seq<string>, n: nat)
      requires n <= |keys| == |buckets|
      requires forall key <- buckets :: key in keys
      requires forall i | 0 <= i < |keys| :: keys[i] in buckets
      requires forall i, j | 0 <= i < j < |keys| :: keys[i] != keys[j]
      requires forall i, j | 0 <= i < j < |keys| :: buckets[keys[i]].firstAt <= buckets[keys[j]].firstAt
      modifies this
      ensures |buckets| == |old(buckets)| - n
      ensures forall key <- buckets :: key in old(buckets) && buckets[key] == old(buckets)[key]
      ensures forall gone <- old(buckets), key <- buckets ::
                gone !in buckets ==> old(buckets)[gone].firstAt <= old(buckets)[key].firstAt
    {
      for k := 0 to n
        invariant Suffix(old(buckets), keys, k, buckets)
      {
        SuffixNext(old(buckets), keys, k, buckets);
        buckets := buckets - {keys[k]};
      }
      OlderGoFirst(old(buckets), keys, n, buckets);
    }
  }
}
