/**
 The request multiplexer of one agent subprocess.
 */
module Multiplexer {
  import opened Decimals

  // Any number of callers write commands down one pipe and wait, each on a channel
  // of its own, while one reader hands every response line to the caller whose id
  // it carries and, once the pipe ends, fails whoever is left.
  //
  // The protocol is a step model: a step is one critical section, one channel
  // operation or one atomic access of the program, so a sequence of steps is one
  // interleaving of all the goroutines involved.

  datatype Response = Response(id: string, success: bool, data: string, error: string)

  /** What a call returns to its caller. */
  datatype Outcome =
    | Answered(data: string)
    | Refused(error: string)
    | Unsent
    | Cancelled
    | TimedOut

  /** Where a call has got to. */
  datatype Pc =
    | Numbered            // drew its id from the counter
    | Registered          // its channel is in the table
    | Writing             // read the closed flag, and read it as false
    | Waiting             // wrote its line and is in the select
    | Failing             // could not send, and has yet to take its id back
    | Expiring            // its timer fired, and it has yet to take its id back
    | Returned(outcome: Outcome)

  /** One call. `channel` is its one-slot channel; `log` is a history of every
      message ever sent on it. */
  datatype Call = Call(pc: Pc, channel: seq<Response>, log: seq<Response>)

  datatype Reader =
    | Reading
    | Delivering(call: nat, response: Response)  // took a waiter out of the table
    | Closed                                     // stored the closed flag
    | Draining(reason: string)                   // holds the lock, failing the rest
    | Finished

  /** `pending` maps an id to the call waiting under it; `wire` is a history of
      the response lines the reader has seen, `causes` of what it said the
      process died of. `ids` is the numbering of the calls, which is all the
      three copies of the protocol differ in. */
  datatype State = State(
    ids: nat -> string, calls: seq<Call>, pending: map<string, nat>, closed: bool, reader: Reader,
    wire: seq<Response>, causes: seq<string>)

  const SLOTS := 1

  function Initial(ids: nat -> string): State {
    State(ids, [], map[], false, Reading, [], [])
  }

  datatype Step =
    | Begin
    | Register(i: nat)
    | CheckClosed(i: nat)
    | Write(i: nat, ok: bool)
    | GiveUp(i: nat)
    | Receive(i: nat)
    | Cancel(i: nat)
    | Expire(i: nat)
    | ForgetExpired(i: nat)
    | Take(response: Response)
    | Deliver
    | StoreClosed
    | LockPending(cause: string)
    | Fail(id: string)
    | Unlock

  // ---------------------------------------------------------------- ids

  /** The id of the n-th call. */
  function RequestId(n: nat): string {
    "req_" + Decimal(n)
  }

  lemma RequestIdInjective(m: nat, n: nat)
    requires RequestId(m) == RequestId(n)
    ensures m == n
  {
    assert RequestId(m)[4..] == Decimal(m) && RequestId(n)[4..] == Decimal(n);
    DecimalInjective(m, n);
  }

  // -------------------------------------------------------------- steps

  function Failure(id: string, reason: string): Response {
    Response(id, false, "", reason)
  }

  function ExitReason(cause: string): string {
    if cause == "" then "the pi process exited" else "the pi process exited: " + cause
  }

  /** What a call makes of the message it receives. */
  function Read(r: Response): Outcome {
    if r.success then Answered(r.data) else Refused(r.error)
  }

  /** The table's mutex is free: only the draining reader keeps it across steps. */
  predicate LockFree(s: State) { !s.reader.Draining? }

  predicate At(s: State, i: nat, pc: Pc) { i < |s.calls| && s.calls[i].pc == pc }

  predicate HasRoom(s: State, i: nat) { i < |s.calls| && |s.calls[i].channel| < SLOTS }

  predicate Enabled(s: State, step: Step) {
    match step
    case Begin => true
    case Register(i) => LockFree(s) && At(s, i, Numbered)
    case CheckClosed(i) => At(s, i, Registered)
    case Write(i, _) => At(s, i, Writing)
    case GiveUp(i) => LockFree(s) && At(s, i, Failing)
    case Receive(i) => At(s, i, Waiting) && s.calls[i].channel != []
    case Cancel(i) => At(s, i, Waiting)
    case Expire(i) => At(s, i, Waiting)
    case ForgetExpired(i) => LockFree(s) && At(s, i, Expiring)
    case Take(_) => s.reader.Reading?
    case Deliver => s.reader.Delivering? && HasRoom(s, s.reader.call)
    case StoreClosed => s.reader.Reading?
    case LockPending(_) => s.reader.Closed?
    case Fail(id) => s.reader.Draining? && id in s.pending && HasRoom(s, s.pending[id])
    case Unlock => s.reader.Draining? && s.pending == map[]
  }

  function Move(s: State, i: nat, pc: Pc): State
    requires i < |s.calls|
  {
    s.(calls := s.calls[i := s.calls[i].(pc := pc)])
  }

  function Send(s: State, i: nat, r: Response): State
    requires i < |s.calls|
  {
    var c := s.calls[i];
    s.(calls := s.calls[i := c.(channel := c.channel + [r], log := c.log + [r])])
  }

  function Forget(s: State, id: string): State {
    s.(pending := s.pending - {id})
  }

  function Apply(s: State, step: Step): State
    requires Enabled(s, step)
  {
    match step
    case Begin => s.(calls := s.calls + [Call(Numbered, [], [])])
    case Register(i) => Move(s, i, Registered).(pending := s.pending[s.ids(i) := i])
    case CheckClosed(i) => Move(s, i, if s.closed then Failing else Writing)
    case Write(i, ok) => Move(s, i, if ok then Waiting else Failing)
    case GiveUp(i) => Move(Forget(s, s.ids(i)), i, Returned(Unsent))
    case Receive(i) =>
      var c := s.calls[i];
      s.(calls := s.calls[i := c.(pc := Returned(Read(c.channel[0])), channel := c.channel[1..])])
    case Cancel(i) => Move(s, i, Returned(Cancelled))
    case Expire(i) => Move(s, i, Expiring)
    case ForgetExpired(i) => Move(Forget(s, s.ids(i)), i, Returned(TimedOut))
    case Take(r) =>
      var heard := s.(wire := s.wire + [r]);
      if r.id in s.pending
      then Forget(heard, r.id).(reader := Delivering(s.pending[r.id], r))
      else heard
    case Deliver => Send(s, s.reader.call, s.reader.response).(reader := Reading)
    case StoreClosed => s.(closed := true, reader := Closed)
    case LockPending(cause) => s.(reader := Draining(ExitReason(cause)), causes := s.causes + [cause])
    case Fail(id) => Forget(Send(s, s.pending[id], Failure(id, s.reader.reason)), id)
    case Unlock => s.(reader := Finished)
  }

  predicate Legal(s: State, steps: seq<Step>)
    decreases |steps|
  {
    steps == [] || (Enabled(s, steps[0]) && Legal(Apply(s, steps[0]), steps[1..]))
  }

  function Exec(s: State, steps: seq<Step>): State
    requires Legal(s, steps)
    decreases |steps|
  {
    if steps == [] then s else Exec(Apply(s, steps[0]), steps[1..])
  }

  // ---------------------------------------------------------- invariant

  /** Every id in the table names the call that registered it, that call has had
      no message yet, and it has not returned in a way that takes the id back. */
  ghost predicate TableOwned(s: State) {
    forall id <- s.pending ::
      && s.pending[id] < |s.calls|
      && id == s.ids(s.pending[id])
      && s.calls[s.pending[id]].log == []
      && !s.calls[s.pending[id]].pc.Numbered?
  }

  /** A response on its way to a call bears that call's id, and the call is no
      longer in the table. */
  ghost predicate HandOver(s: State) {
    s.reader.Delivering? ==>
      && s.reader.call < |s.calls|
      && s.reader.response.id == s.ids(s.reader.call)
      && s.reader.response.id !in s.pending
      && s.calls[s.reader.call].log == []
      && !s.calls[s.reader.call].pc.Numbered?
      && s.reader.response in s.wire
  }

  ghost predicate ExitsWith(s: State, reason: string) {
    exists cause <- s.causes :: reason == ExitReason(cause)
  }

  /** The message in a call's history is its own: a line off the wire, or the
      failure the reader closed the table with, either under its id. */
  ghost predicate Genuine(s: State, i: nat, r: Response) {
    && r.id == s.ids(i)
    && (r in s.wire || (r == Failure(s.ids(i), r.error) && ExitsWith(s, r.error)))
  }

  ghost predicate Consumed(c: Call) {
    c.pc.Returned? && (c.pc.outcome.Answered? || c.pc.outcome.Refused?)
  }

  /** One message at most, in the channel until it is received. */
  ghost predicate OneMessage(s: State, i: nat)
    requires i < |s.calls|
  {
    var c := s.calls[i];
    && |c.log| <= 1
    && (c.pc.Numbered? ==> c.log == [] && s.ids(i) !in s.pending)
    && (c.log != [] ==> Genuine(s, i, c.log[0]))
    && (if Consumed(c)
        then c.log != [] && c.channel == [] && c.pc.outcome == Read(c.log[0])
        else c.channel == c.log)
  }

  /** A call that may still end up in the select is in the table, is being
      handed its response, or has its message. */
  ghost predicate Reachable(s: State, i: nat)
    requires i < |s.calls|
  {
    var pc := s.calls[i].pc;
    (pc.Registered? || pc.Writing? || pc.Waiting?) ==>
      || s.ids(i) in s.pending
      || (s.reader.Delivering? && s.reader.call == i)
      || s.calls[i].log != []
  }

  /** Once the drain is over, whoever is in the table registered after it and so
      can only read the closed flag as true. */
  ghost predicate OnlyLatecomers(s: State) {
    s.reader.Finished? ==>
      forall id <- s.pending ::
        && s.pending[id] < |s.calls|
        && (s.calls[s.pending[id]].pc.Registered? || s.calls[s.pending[id]].pc.Failing?)
  }

  ghost predicate Injective(ids: nat -> string) {
    forall m: nat, n: nat :: ids(m) == ids(n) ==> m == n
  }

  ghost predicate Inv(s: State) {
    && Injective(s.ids)
    && TableOwned(s)
    && HandOver(s)
    && (forall i | 0 <= i < |s.calls| :: OneMessage(s, i) && Reachable(s, i))
    && (s.closed <==> s.reader.Closed? || s.reader.Draining? || s.reader.Finished?)
    && OnlyLatecomers(s)
    && (s.reader.Draining? ==> ExitsWith(s, s.reader.reason))
  }

  lemma BeginKeepsInv(s: State, step: Step)
    requires Inv(s) && Enabled(s, step)
    requires step.Begin?
    ensures Inv(Apply(s, step))
  {
    var t := Apply(s, step);
    forall i | 0 <= i < |t.calls| ensures OneMessage(t, i) && Reachable(t, i) {
      if i < |s.calls| {
        assert OneMessage(s, i) && Reachable(s, i);
      }
    }
  }

  lemma RegisterKeepsInv(s: State, step: Step)
    requires Inv(s) && Enabled(s, step)
    requires step.Register?
    ensures Inv(Apply(s, step))
  {
    var t := Apply(s, step);
    forall id <- t.pending ensures id == t.ids(t.pending[id]) && t.calls[t.pending[id]].log == [] {
      if id != t.ids(step.i) {
        assert id in s.pending && s.pending[id] != step.i;
      } else {
        assert OneMessage(s, step.i);
      }
    }
    forall i | 0 <= i < |t.calls| ensures OneMessage(t, i) && Reachable(t, i) {
      if i < |s.calls| {
        assert OneMessage(s, i) && Reachable(s, i);
      }
    }
  }

  /** A call that moves on without touching a channel. It may only reach the
      select by way of the closed check, and may leave its id in the table of a
      dead process only on the way to taking it back. */
  lemma MoveKeepsInv(s: State, i: nat, pc: Pc)
    requires Inv(s) && i < |s.calls|
    requires !s.calls[i].pc.Numbered? && !s.calls[i].pc.Returned?
    requires pc.Writing? ==> s.calls[i].pc.Registered? && !s.closed
    requires pc.Waiting? ==> s.calls[i].pc.Writing?
    requires pc in {Writing, Waiting, Failing, Expiring, Returned(Unsent), Returned(Cancelled), Returned(TimedOut)}
    requires s.reader.Finished? && !pc.Failing? ==> s.ids(i) !in s.pending
    ensures Inv(Move(s, i, pc))
  {
    var t := Move(s, i, pc);
    forall k | 0 <= k < |t.calls| ensures OneMessage(t, k) && Reachable(t, k) {
      assert OneMessage(s, k) && Reachable(s, k);
    }
  }

  lemma ForgetKeepsInv(s: State, i: nat)
    requires Inv(s) && i < |s.calls|
    requires s.calls[i].pc.Failing? || s.calls[i].pc.Expiring?
    ensures Inv(Forget(s, s.ids(i)))
  {
    var t := Forget(s, s.ids(i));
    forall k | 0 <= k < |t.calls| ensures OneMessage(t, k) && Reachable(t, k) {
      assert OneMessage(s, k) && Reachable(s, k);
    }
  }

  lemma CallerStepKeepsInv(s: State, step: Step)
    requires Inv(s) && Enabled(s, step)
    requires step.CheckClosed? || step.Write? || step.Cancel? || step.Expire? || step.GiveUp? || step.ForgetExpired?
    ensures Inv(Apply(s, step))
  {
    var i := step.i;
    match step {
      case CheckClosed(_) => MoveKeepsInv(s, i, if s.closed then Failing else Writing);
      case Write(_, ok) => MoveKeepsInv(s, i, if ok then Waiting else Failing);
      case Cancel(_) => MoveKeepsInv(s, i, Returned(Cancelled));
      case Expire(_) => MoveKeepsInv(s, i, Expiring);
      case GiveUp(_) => ForgetKeepsInv(s, i); MoveKeepsInv(Forget(s, s.ids(i)), i, Returned(Unsent));
      case ForgetExpired(_) => ForgetKeepsInv(s, i); MoveKeepsInv(Forget(s, s.ids(i)), i, Returned(TimedOut));
    }
  }

  lemma ReceiveKeepsInv(s: State, step: Step)
    requires Inv(s) && Enabled(s, step)
    requires step.Receive?
    ensures Inv(Apply(s, step))
  {
    var t := Apply(s, step);
    forall i | 0 <= i < |t.calls| ensures OneMessage(t, i) && Reachable(t, i) {
      if i < |s.calls| {
        assert OneMessage(s, i) && Reachable(s, i);
      }
    }
  }

  lemma TakeKeepsInv(s: State, step: Step)
    requires Inv(s) && Enabled(s, step)
    requires step.Take?
    ensures Inv(Apply(s, step))
  {
    var t := Apply(s, step);
    forall i | 0 <= i < |t.calls| ensures OneMessage(t, i) && Reachable(t, i) {
      if i < |s.calls| {
        assert OneMessage(s, i) && Reachable(s, i);
      }
    }
  }

  lemma SendKeepsInv(s: State, step: Step)
    requires Inv(s) && Enabled(s, step)
    requires step.Deliver? || step.Fail?
    ensures Inv(Apply(s, step))
  {
    var t := Apply(s, step);
    forall i | 0 <= i < |t.calls| ensures OneMessage(t, i) && Reachable(t, i) {
      if i < |s.calls| {
        assert OneMessage(s, i) && Reachable(s, i);
      }
    }
  }

  lemma ShutdownKeepsInv(s: State, step: Step)
    requires Inv(s) && Enabled(s, step)
    requires step.StoreClosed? || step.LockPending? || step.Unlock?
    ensures Inv(Apply(s, step))
  {
    var t := Apply(s, step);
    forall i | 0 <= i < |t.calls| ensures OneMessage(t, i) && Reachable(t, i) {
      if i < |s.calls| {
        assert OneMessage(s, i) && Reachable(s, i);
      }
    }
  }

  lemma StepKeepsInv(s: State, step: Step)
    requires Inv(s) && Enabled(s, step)
    ensures Inv(Apply(s, step))
  {
    match step {
      case Begin => BeginKeepsInv(s, step);
      case Register(_) => RegisterKeepsInv(s, step);
      case CheckClosed(_) | Write(_, _) | Cancel(_) | Expire(_) | GiveUp(_) | ForgetExpired(_) =>
        CallerStepKeepsInv(s, step);
      case Receive(_) => ReceiveKeepsInv(s, step);
      case Take(_) => TakeKeepsInv(s, step);
      case Deliver | Fail(_) => SendKeepsInv(s, step);
      case StoreClosed | LockPending(_) | Unlock => ShutdownKeepsInv(s, step);
    }
  }

  lemma {:induction false} InvAlways(s: State, steps: seq<Step>)
    requires Inv(s) && Legal(s, steps)
    ensures Inv(Exec(s, steps))
    decreases |steps|
  {
    if steps != [] {
      StepKeepsInv(s, steps[0]);
      InvAlways(Apply(s, steps[0]), steps[1..]);
    }
  }

  // ----------------------------------------------------------- theorems

  /** Once failing the rest is over, every call still in the select has its
      message, and an id still in the table belongs to a call that has yet to
      make its closed check or, having made it, has yet to take its id back. */
  lemma NoStrandedWaiter(ids: nat -> string, steps: seq<Step>)
    requires Injective(ids) && Legal(Initial(ids), steps)
    requires Exec(Initial(ids), steps).reader.Finished?
    ensures var s := Exec(Initial(ids), steps);
      && (forall i | 0 <= i < |s.calls| :: s.calls[i].pc.Waiting? ==> |s.calls[i].channel| == 1)
      && (forall id <- s.pending ::
            && s.pending[id] < |s.calls|
            && (s.calls[s.pending[id]].pc.Registered? || s.calls[s.pending[id]].pc.Failing?))
  {
    InvAlways(Initial(ids), steps);
    var s := Exec(Initial(ids), steps);
    forall i | 0 <= i < |s.calls| && s.calls[i].pc.Waiting? ensures |s.calls[i].channel| == 1 {
      assert OneMessage(s, i) && Reachable(s, i);
    }
  }

  /** How many messages a run sends on the channel of call `i`. */
  function SendsTo(s: State, steps: seq<Step>, i: nat): nat
    requires Legal(s, steps)
    decreases |steps|
  {
    if steps == [] then 0
    else (if SendsOn(s, steps[0], i) then 1 else 0) + SendsTo(Apply(s, steps[0]), steps[1..], i)
  }

  predicate SendsOn(s: State, step: Step, i: nat)
    requires Enabled(s, step)
  {
    (step.Deliver? && s.reader.call == i) || (step.Fail? && s.pending[step.id] == i)
  }

  function LogLength(s: State, i: nat): nat {
    if i < |s.calls| then |s.calls[i].log| else 0
  }

  lemma StepLogsSends(s: State, step: Step, i: nat)
    requires Inv(s) && Enabled(s, step)
    ensures LogLength(Apply(s, step), i) == LogLength(s, i) + (if SendsOn(s, step, i) then 1 else 0)
  {
  }

  lemma {:induction false} LogCountsSends(s: State, steps: seq<Step>, i: nat)
    requires Inv(s) && Legal(s, steps)
    ensures LogLength(Exec(s, steps), i) == LogLength(s, i) + SendsTo(s, steps, i)
    decreases |steps|
  {
    if steps != [] {
      StepKeepsInv(s, steps[0]);
      StepLogsSends(s, steps[0], i);
      LogCountsSends(Apply(s, steps[0]), steps[1..], i);
    }
  }

  /** Over a whole run, duplicate responses, timeouts, cancelled contexts and
      the exit included, no channel is sent to twice. */
  lemma AtMostOneMessage(ids: nat -> string, steps: seq<Step>, i: nat)
    requires Injective(ids) && Legal(Initial(ids), steps)
    ensures SendsTo(Initial(ids), steps, i) <= 1
  {
    LogCountsSends(Initial(ids), steps, i);
    InvAlways(Initial(ids), steps);
    var s := Exec(Initial(ids), steps);
    if i < |s.calls| {
      assert OneMessage(s, i);
    }
  }

  /** So neither resolving a response nor failing the rest ever blocks: whatever
      the callers do, the reader's next step is enabled. */
  lemma ReaderNeverBlocks(ids: nat -> string, steps: seq<Step>)
    requires Injective(ids) && Legal(Initial(ids), steps)
    ensures var s := Exec(Initial(ids), steps);
      && (s.reader.Delivering? ==> Enabled(s, Deliver))
      && (s.reader.Draining? ==> forall id <- s.pending :: Enabled(s, Fail(id)))
      && (s.reader.Draining? && s.pending == map[] ==> Enabled(s, Unlock))
  {
    InvAlways(Initial(ids), steps);
    var s := Exec(Initial(ids), steps);
    if s.reader.Delivering? {
      assert OneMessage(s, s.reader.call);
    }
    forall id <- s.pending ensures HasRoom(s, s.pending[id]) {
      assert OneMessage(s, s.pending[id]);
    }
  }

  /** The response lines a run takes off the wire. */
  function Taken(steps: seq<Step>): seq<Response> {
    if steps == [] then []
    else (if steps[0].Take? then [steps[0].response] else []) + Taken(steps[1..])
  }

  lemma {:induction false} WireIsTaken(s: State, steps: seq<Step>)
    requires Legal(s, steps)
    ensures Exec(s, steps).wire == s.wire + Taken(steps)
    decreases |steps|
  {
    if steps != [] {
      WireIsTaken(Apply(s, steps[0]), steps[1..]);
    }
  }

  /** The causes a run locks the table with. */
  function Locked(steps: seq<Step>): seq<string> {
    if steps == [] then []
    else (if steps[0].LockPending? then [steps[0].cause] else []) + Locked(steps[1..])
  }

  lemma {:induction false} CausesAreLocked(s: State, steps: seq<Step>)
    requires Legal(s, steps)
    ensures Exec(s, steps).causes == s.causes + Locked(steps)
    decreases |steps|
  {
    if steps != [] {
      CausesAreLocked(Apply(s, steps[0]), steps[1..]);
    }
  }

  /** Whatever is sent on a call's channel bears that call's id, and is a line
      the reader took or the failure it locked the table with. */
  lemma EveryMessageIsOwn(ids: nat -> string, steps: seq<Step>, i: nat, r: Response)
    requires Injective(ids) && Legal(Initial(ids), steps)
    requires i < |Exec(Initial(ids), steps).calls| && r in Exec(Initial(ids), steps).calls[i].log
    ensures r.id == ids(i)
    ensures r in Taken(steps) || exists cause <- Locked(steps) :: r == Failure(ids(i), ExitReason(cause))
  {
    InvAlways(Initial(ids), steps);
    WireIsTaken(Initial(ids), steps);
    CausesAreLocked(Initial(ids), steps);
    IdsKept(Initial(ids), steps);
    assert OneMessage(Exec(Initial(ids), steps), i);
  }

  /** A call that returns data returns that of a line bearing its own id, and a
      call that is refused was refused by such a line or for the reason the
      process exited with. */
  lemma OwnAnswerOnly(ids: nat -> string, steps: seq<Step>, i: nat)
    requires Injective(ids) && Legal(Initial(ids), steps)
    requires i < |Exec(Initial(ids), steps).calls|
    ensures var s := Exec(Initial(ids), steps);
      match s.calls[i].pc
      case Returned(Answered(data)) =>
        exists r <- Taken(steps) :: r.id == ids(i) && r.success && r.data == data
      case Returned(Refused(error)) =>
        || (exists r <- Taken(steps) :: r.id == ids(i) && !r.success && r.error == error)
        || (exists cause <- Locked(steps) :: error == ExitReason(cause))
      case _ => true
  {
    InvAlways(Initial(ids), steps);
    var s := Exec(Initial(ids), steps);
    assert OneMessage(s, i);
    if Consumed(s.calls[i]) {
      EveryMessageIsOwn(ids, steps, i, s.calls[i].log[0]);
    }
  }

  lemma {:induction false} IdsKept(s: State, steps: seq<Step>)
    requires Legal(s, steps)
    ensures Exec(s, steps).ids == s.ids
    decreases |steps|
  {
    if steps != [] {
      IdsKept(Apply(s, steps[0]), steps[1..]);
    }
  }

  // ----------------------------------------------- after the process exited

  /** How many steps of its own a call is from returning. */
  function Rank(pc: Pc): nat {
    match pc
    case Numbered => 5
    case Registered => 4
    case Writing => 3
    case Waiting => 2
    case Failing | Expiring => 1
    case Returned(_) => 0
  }

  function TotalRank(calls: seq<Call>): nat {
    if calls == [] then 0 else Rank(calls[0].pc) + TotalRank(calls[1..])
  }

  /** The step a call takes next, with no help from a timer or its context. */
  function OwnStep(s: State, i: nat): Step
    requires i < |s.calls| && !s.calls[i].pc.Returned?
  {
    match s.calls[i].pc
    case Numbered => Register(i)
    case Registered => CheckClosed(i)
    case Writing => Write(i, true)
    case Waiting => Receive(i)
    case Failing => GiveUp(i)
    case Expiring => ForgetExpired(i)
  }

  /** With the process gone, every call that has not returned can move on its
      own, and each move brings it closer to returning. */
  lemma NobodyWaitsOnADeadProcess(s: State, i: nat)
    requires Inv(s) && s.reader.Finished? && i < |s.calls| && !s.calls[i].pc.Returned?
    ensures Enabled(s, OwnStep(s, i))
    ensures var t := Apply(s, OwnStep(s, i));
      && Inv(t) && t.reader.Finished? && |t.calls| == |s.calls|
      && Rank(t.calls[i].pc) < Rank(s.calls[i].pc)
      && t.calls == s.calls[i := t.calls[i]]
  {
    assert OneMessage(s, i) && Reachable(s, i);
    var step := OwnStep(s, i);
    StepKeepsInv(s, step);
  }

  lemma {:induction false} RankDrops(calls: seq<Call>, i: nat, c: Call)
    requires i < |calls| && Rank(c.pc) < Rank(calls[i].pc)
    ensures TotalRank(calls[i := c]) < TotalRank(calls)
  {
    if i == 0 {
      assert calls[i := c][1..] == calls[1..];
    } else {
      assert calls[i := c][1..] == calls[1..][i - 1 := c];
      RankDrops(calls[1..], i - 1, c);
    }
  }

  lemma {:induction false} RankZero(calls: seq<Call>)
    requires TotalRank(calls) == 0
    ensures forall i | 0 <= i < |calls| :: calls[i].pc.Returned?
  {
    if calls != [] {
      RankZero(calls[1..]);
      forall i | 0 <= i < |calls| ensures calls[i].pc.Returned? {
        if i > 0 {
          assert calls[i] == calls[1..][i - 1];
        }
      }
    }
  }

  lemma {:induction false} RankPositive(calls: seq<Call>)
    requires TotalRank(calls) > 0
    ensures exists i | 0 <= i < |calls| :: !calls[i].pc.Returned?
  {
    if calls[0].pc.Returned? {
      RankPositive(calls[1..]);
      var i :| 0 <= i < |calls[1..]| && !calls[1..][i].pc.Returned?;
      assert calls[i + 1] == calls[1..][i];
    }
  }

  predicate OnItsOwn(step: Step) {
    step.Register? || step.CheckClosed? || step.Write? || step.GiveUp? || step.Receive? || step.ForgetExpired?
  }

  /** A step a call takes, be it of its own or because its timer or its context
      ran out. */
  predicate OfACall(step: Step) { OnItsOwn(step) || step.Cancel? || step.Expire? }

  lemma CallStepDrops(s: State, step: Step)
    requires Enabled(s, step) && OfACall(step)
    ensures step.i < |s.calls| && |Apply(s, step).calls| == |s.calls|
    ensures TotalRank(Apply(s, step).calls) < TotalRank(s.calls)
  {
    var t := Apply(s, step);
    RankDrops(s.calls, step.i, t.calls[step.i]);
    assert t.calls == s.calls[step.i := t.calls[step.i]];
  }

  /** Every run of the calls' steps is short: it is no longer than the steps the
      calls have left, and in the end they have that many fewer. */
  lemma {:induction false} CallRunsAreShort(s: State, steps: seq<Step>)
    requires Legal(s, steps) && forall step <- steps :: OfACall(step)
    ensures |steps| + TotalRank(Exec(s, steps).calls) <= TotalRank(s.calls)
    decreases |steps|
  {
    if steps != [] {
      CallStepDrops(s, steps[0]);
      CallRunsAreShort(Apply(s, steps[0]), steps[1..]);
    }
  }

  /** So of a dead process every run of the calls' steps ends, and where it
      cannot go on every call has returned. */
  lemma RunsEndReturned(s: State, steps: seq<Step>)
    requires Inv(s) && s.reader.Finished? && Legal(s, steps) && forall step <- steps :: OfACall(step)
    ensures |steps| <= TotalRank(s.calls)
    ensures (forall step | OnItsOwn(step) :: !Enabled(Exec(s, steps), step)) ==>
              forall i | 0 <= i < |Exec(s, steps).calls| :: Exec(s, steps).calls[i].pc.Returned?
  {
    CallRunsAreShort(s, steps);
    InvAlways(s, steps);
    StaysFinished(s, steps);
    var t := Exec(s, steps);
    if i :| 0 <= i < |t.calls| && !t.calls[i].pc.Returned? {
      NobodyWaitsOnADeadProcess(t, i);
      assert OnItsOwn(OwnStep(t, i));
    }
  }

  lemma {:induction false} StaysFinished(s: State, steps: seq<Step>)
    requires Legal(s, steps) && s.reader.Finished?
    ensures Exec(s, steps).reader.Finished?
    decreases |steps|
  {
    if steps != [] {
      StaysFinished(Apply(s, steps[0]), steps[1..]);
    }
  }

  /** From any state of a dead process the calls can all return by their own
      steps, in a bounded number of them. */
  lemma {:induction false} EveryCallReturns(s: State) returns (steps: seq<Step>)
    requires Inv(s) && s.reader.Finished?
    ensures Legal(s, steps) && |steps| <= TotalRank(s.calls)
    ensures forall step <- steps :: OnItsOwn(step)
    ensures forall i | 0 <= i < |Exec(s, steps).calls| :: Exec(s, steps).calls[i].pc.Returned?
    decreases TotalRank(s.calls)
  {
    if TotalRank(s.calls) == 0 {
      RankZero(s.calls);
      steps := [];
    } else {
      RankPositive(s.calls);
      var i :| 0 <= i < |s.calls| && !s.calls[i].pc.Returned?;
      NobodyWaitsOnADeadProcess(s, i);
      var step := OwnStep(s, i);
      var t := Apply(s, step);
      RankDrops(s.calls, i, t.calls[i]);
      var rest := EveryCallReturns(t);
      steps := [step] + rest;
      assert steps[1..] == rest;
    }
  }

  /** The numbering of one pi process, counted from one. */
  function PiIds(): nat -> string {
    (i: nat) => RequestId(i + 1)
  }

  lemma PiIdsInjective()
    ensures Injective(PiIds())
  {
    forall m: nat, n: nat | PiIds()(m) == PiIds()(n) ensures m == n {
      RequestIdInjective(m + 1, n + 1);
    }
  }

  // ------------------------------------------------- the critical sections

  /** A one-slot channel. */
  class Waiter {
    var buffer: seq<Response>

    constructor ()
      ensures buffer == []
    {
      buffer := [];
    }
  }

  /** The state the callers and the reader share, one method a critical section.
      `Valid` is what the step model shows of the table: no waiter in it has had
      a message, and no two ids share one. */
  class Process {
    var counter: nat
    var pending: map<string, Waiter>
    var closed: bool

    ghost predicate Valid()
      reads this, pending.Values
    {
      && (forall id <- pending :: pending[id].buffer == [])
      && (forall a <- pending, b <- pending :: pending[a] == pending[b] ==> a == b)
    }

    constructor ()
      ensures Valid() && counter == 0 && pending == map[] && !closed
    {
      counter, pending, closed := 0, map[], false;
    }

    /** Draws an id and registers a fresh channel under it. */
    method Enter() returns (id: string, waiter: Waiter)
      requires Valid()
      modifies this`counter, this`pending
      ensures Valid() && fresh(waiter)
      ensures counter == old(counter) + 1 && id == PiIds()(old(counter))
      ensures pending == old(pending)[id := waiter]
    {
      counter := counter + 1;
      id := RequestId(counter);
      waiter := new Waiter();
      pending := pending[id := waiter];
    }

    method TakeBack(id: string)
      requires Valid()
      modifies this`pending
      ensures Valid() && pending == old(pending) - {id}
    {
      pending := pending - {id};
    }

    /** Hands a response to whoever waits under its id, once. */
    method Resolve(r: Response)
      requires Valid()
      modifies this`pending, pending.Values
      ensures Valid() && pending == old(pending) - {r.id}
      ensures r.id in old(pending) ==> old(pending)[r.id].buffer == [r]
      ensures forall w | w in old(pending).Values && w.buffer != old(w.buffer) ::
                r.id in old(pending) && w == old(pending)[r.id]
    {
      if r.id in pending {
        var waiter := pending[r.id];
        pending := pending - {r.id};
        waiter.buffer := waiter.buffer + [r];
      }
    }

    method StoreClosed()
      modifies this`closed
      ensures closed
    {
      closed := true;
    }

    /** Sends one failure and takes its id out of the table. */
    method FailOne(id: string, reason: string)
      requires Valid() && id in pending
      modifies this`pending, pending[id]
      ensures Valid() && pending == old(pending) - {id}
      ensures old(pending)[id].buffer == [Failure(id, reason)]
    {
      var waiter := pending[id];
      waiter.buffer := waiter.buffer + [Failure(id, reason)];
      pending := pending - {id};
    }

    /** Fails every waiter in the table, each under its own id, and empties it. */
    method FailPending(cause: string)
      requires Valid()
      modifies this`pending, pending.Values
      ensures Valid() && pending == map[]
      ensures forall id <- old(pending) ::
                old(pending)[id].buffer == [Failure(id, ExitReason(cause))]
    {
      var reason := ExitReason(cause);
      ghost var all := pending;
      while pending != map[]
        invariant Valid() && pending.Keys <= all.Keys
        invariant forall id <- pending :: pending[id] == all[id]
        invariant forall id <- all :: id !in pending ==> all[id].buffer == [Failure(id, reason)]
        decreases |pending|
      {
        var id :| id in pending;
        ghost var before := pending;
        assert forall other <- all :: other != id ==> all[other] != all[id];
        FailOne(id, reason);
        assert pending.Keys == before.Keys - {id};
      }
    }
  }
}
