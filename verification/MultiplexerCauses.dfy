/**
 Why a call of the multiplexer came back as it did: over whole runs, each outcome has
 its cause, the table holds exactly the calls nothing has taken out of it, and the
 first line under a call's id is its answer.
 */
module MultiplexerCauses {

  import opened Multiplexer

  lemma {:induction false} RunSplits(s: State, a: seq<Step>, b: seq<Step>)
    ensures Legal(s, a + b) <==> Legal(s, a) && Legal(Exec(s, a), b)
    ensures Legal(s, a + b) ==> Exec(s, a + b) == Exec(Exec(s, a), b)
    decreases |a|
  {
    if a == [] {
      assert a + b == b;
    } else {
      assert (a + b)[1..] == a[1..] + b;
      if Enabled(s, a[0]) {
        RunSplits(Apply(s, a[0]), a[1..], b);
      }
    }
  }

  lemma RunLast(s: State, steps: seq<Step>)
    requires steps != [] && Legal(s, steps)
    ensures var before, last := steps[..|steps| - 1], steps[|steps| - 1];
      Legal(s, before) && Enabled(Exec(s, before), last) && Exec(s, steps) == Apply(Exec(s, before), last)
  {
    var before, last := steps[..|steps| - 1], steps[|steps| - 1];
    assert steps == before + [last];
    RunSplits(s, before, [last]);
    assert [last][1..] == [];
  }

  // ------------------------------------------------------------ the causes

  /** What keeps a call's line from going out: the process is gone, or the write fails. */
  predicate Unwritten(steps: seq<Step>, i: nat) { StoreClosed in steps || Write(i, false) in steps }

  /** Where a call stands tells what has happened to it. */
  ghost predicate Explained(steps: seq<Step>, i: nat, pc: Pc) {
    match pc
    case Numbered => Register(i) !in steps && Write(i, true) !in steps
    case Registered => Register(i) in steps && CheckClosed(i) !in steps && Write(i, true) !in steps
    case Writing => CheckClosed(i) in steps && Write(i, true) !in steps && Write(i, false) !in steps
    case Failing => Unwritten(steps, i) && Write(i, true) !in steps
    case Waiting => Write(i, true) in steps && Cancel(i) !in steps && Expire(i) !in steps && Receive(i) !in steps
    case Expiring => Write(i, true) in steps && Expire(i) in steps && ForgetExpired(i) !in steps
    case Returned(Unsent) => GiveUp(i) in steps && Unwritten(steps, i) && Write(i, true) !in steps
    case Returned(TimedOut) => Write(i, true) in steps && Expire(i) in steps && ForgetExpired(i) in steps
    case Returned(Cancelled) => Write(i, true) in steps && Cancel(i) in steps
    case Returned(_) => Write(i, true) in steps && Receive(i) in steps
  }

  /** A call that is not there yet has done nothing. */
  predicate NothingOf(steps: seq<Step>, i: nat) {
    forall step <- steps :: OfACall(step) ==> step.i != i
  }

  ghost predicate Causes(s: State, steps: seq<Step>) {
    && (s.closed ==> StoreClosed in steps)
    && (forall i: nat | i < |s.calls| :: Explained(steps, i, s.calls[i].pc) && NotYet(steps, i, s.calls[i].pc))
    && (forall i: nat | i >= |s.calls| :: NothingOf(steps, i))
  }

  /** The steps a call has still to make it has not made. */
  predicate NotYet(steps: seq<Step>, i: nat, pc: Pc) {
    && (pc.Numbered? ==> Register(i) !in steps)
    && (pc.Numbered? || pc.Registered? ==> CheckClosed(i) !in steps)
    && (pc.Numbered? || pc.Registered? || pc.Writing? ==> Write(i, true) !in steps && Write(i, false) !in steps)
    && (Rank(pc) >= 2 ==> Cancel(i) !in steps && Expire(i) !in steps && Receive(i) !in steps)
    && (Rank(pc) >= 1 ==> GiveUp(i) !in steps && ForgetExpired(i) !in steps)
  }

  lemma OwnCauses(s: State, steps: seq<Step>, step: Step, i: nat)
    requires i < |s.calls| && Explained(steps, i, s.calls[i].pc) && NotYet(steps, i, s.calls[i].pc)
    requires Enabled(s, step) && OfACall(step) && step.i == i && (s.closed ==> StoreClosed in steps)
    ensures Explained(steps + [step], i, Apply(s, step).calls[i].pc)
    ensures NotYet(steps + [step], i, Apply(s, step).calls[i].pc)
  {
    assert step in steps + [step];
  }

  lemma OtherCauses(s: State, steps: seq<Step>, step: Step, i: nat)
    requires i < |s.calls| && Explained(steps, i, s.calls[i].pc) && NotYet(steps, i, s.calls[i].pc)
    requires Enabled(s, step) && !(OfACall(step) && step.i == i)
    ensures Explained(steps + [step], i, Apply(s, step).calls[i].pc)
    ensures NotYet(steps + [step], i, Apply(s, step).calls[i].pc)
  {
    OtherKeepsPc(s, step, i);
  }

  lemma OtherKeepsPc(s: State, step: Step, i: nat)
    requires Enabled(s, step) && i < |s.calls| && !(OfACall(step) && step.i == i)
    ensures Apply(s, step).calls[i].pc == s.calls[i].pc
  {
  }

  lemma CallCauses(s: State, steps: seq<Step>, step: Step, i: nat)
    requires Causes(s, steps) && Enabled(s, step) && i < |Apply(s, step).calls|
    ensures Explained(steps + [step], i, Apply(s, step).calls[i].pc)
    ensures NotYet(steps + [step], i, Apply(s, step).calls[i].pc)
  {
    assert step in steps + [step];
    if i == |s.calls| {
      assert NothingOf(steps, i);
    } else if OfACall(step) && step.i == i {
      OwnCauses(s, steps, step, i);
    } else {
      OtherCauses(s, steps, step, i);
    }
  }

  lemma LaterNothing(s: State, steps: seq<Step>, step: Step, i: nat)
    requires Causes(s, steps) && Enabled(s, step) && i >= |Apply(s, step).calls|
    ensures NothingOf(steps + [step], i)
  {
    assert NothingOf(steps, i);
  }

  lemma {:induction false} AlwaysCauses(ids: nat -> string, steps: seq<Step>)
    requires Legal(Initial(ids), steps)
    ensures Causes(Exec(Initial(ids), steps), steps)
  {
    if steps != [] {
      var before, step := steps[..|steps| - 1], steps[|steps| - 1];
      assert steps == before + [step];
      RunLast(Initial(ids), steps);
      AlwaysCauses(ids, before);
      var s := Exec(Initial(ids), before);
      forall i: nat | i < |Apply(s, step).calls|
        ensures Explained(steps, i, Apply(s, step).calls[i].pc) && NotYet(steps, i, Apply(s, step).calls[i].pc)
      {
        CallCauses(s, before, step, i);
      }
      forall i: nat | i >= |Apply(s, step).calls| ensures NothingOf(steps, i) {
        LaterNothing(s, before, step, i);
      }
    }
  }

  /** A call says it could not send only if the process was gone or its own write
      failed, and then its line never went out; it times out, is cancelled or is
      answered only after its line went out, and by its own timer, its own context or
      its own channel. */
  lemma WhyItReturned(ids: nat -> string, steps: seq<Step>, i: nat)
    requires Legal(Initial(ids), steps) && i < |Exec(Initial(ids), steps).calls|
    ensures match Exec(Initial(ids), steps).calls[i].pc
      case Returned(Unsent) => (StoreClosed in steps || Write(i, false) in steps) && Write(i, true) !in steps
      case Returned(TimedOut) => Write(i, true) in steps && Expire(i) in steps
      case Returned(Cancelled) => Write(i, true) in steps && Cancel(i) in steps
      case Returned(_) => Write(i, true) in steps && Receive(i) in steps
      case _ => true
  {
    AlwaysCauses(ids, steps);
  }

  // ------------------------------------------------------------- the table

  predicate Removes(ids: nat -> string, step: Step, i: nat) {
    || step == GiveUp(i) || step == ForgetExpired(i) || step == Fail(ids(i))
    || (step.Take? && step.response.id == ids(i))
  }

  /** The call has registered, and nothing has taken it out since. */
  predicate Enrolled(ids: nat -> string, steps: seq<Step>, i: nat) {
    exists k :: 0 <= k < |steps| && steps[k] == Register(i)
                && forall j | k < j < |steps| :: !Removes(ids, steps[j], i)
  }

  lemma EnrolledSnoc(ids: nat -> string, steps: seq<Step>, step: Step, i: nat)
    ensures Enrolled(ids, steps + [step], i)
       <==> step == Register(i) || (Enrolled(ids, steps, i) && !Removes(ids, step, i))
  {
    var longer := steps + [step];
    if Enrolled(ids, steps, i) && !Removes(ids, step, i) {
      var k :| 0 <= k < |steps| && steps[k] == Register(i) && forall j | k < j < |steps| :: !Removes(ids, steps[j], i);
      assert longer[k] == Register(i);
    }
    if step == Register(i) {
      assert longer[|steps|] == Register(i);
    }
    if Enrolled(ids, longer, i) && step != Register(i) {
      var k :| 0 <= k < |longer| && longer[k] == Register(i)
               && forall j | k < j < |longer| :: !Removes(ids, longer[j], i);
      assert steps[k] == Register(i);
      forall j | k < j < |steps| ensures !Removes(ids, steps[j], i) {
        assert longer[j] == steps[j];
      }
      assert longer[|steps|] == step;
    }
  }

  ghost predicate TableTells(s: State, steps: seq<Step>) {
    forall i: nat :: Enrolled(s.ids, steps, i) <==> s.ids(i) in s.pending
  }

  lemma IdApart(s: State, i: nat, k: nat)
    requires Inv(s)
    ensures s.ids(i) == s.ids(k) <==> i == k
  {
  }

  /** What a step does to one id of the table. */
  lemma PendingMoves(s: State, step: Step, i: nat)
    requires Inv(s) && Enabled(s, step)
    ensures s.ids(i) in Apply(s, step).pending
       <==> step == Register(i) || (s.ids(i) in s.pending && !Removes(s.ids, step, i))
  {
    match step {
      case Register(_) | GiveUp(_) | ForgetExpired(_) => CallMoves(s, step, i);
      case Take(_) | Fail(_) => LineMoves(s, step, i);
      case _ => NothingMoves(s, step);
    }
  }

  lemma CallMoves(s: State, step: Step, i: nat)
    requires Inv(s) && Enabled(s, step) && (step.Register? || step.GiveUp? || step.ForgetExpired?)
    ensures s.ids(i) in Apply(s, step).pending
       <==> step == Register(i) || (s.ids(i) in s.pending && step != GiveUp(i) && step != ForgetExpired(i))
  {
    IdApart(s, i, step.i);
  }

  lemma LineMoves(s: State, step: Step, i: nat)
    requires Enabled(s, step) && (step.Take? || step.Fail?)
    ensures s.ids(i) in Apply(s, step).pending
       <==> s.ids(i) in s.pending && s.ids(i) != if step.Take? then step.response.id else step.id
  {
  }

  lemma NothingMoves(s: State, step: Step)
    requires Enabled(s, step)
    requires !step.Register? && !step.GiveUp? && !step.ForgetExpired? && !step.Take? && !step.Fail?
    ensures Apply(s, step).pending == s.pending
  {
  }

  lemma StepTells(s: State, steps: seq<Step>, step: Step, i: nat)
    requires Inv(s) && TableTells(s, steps) && Enabled(s, step)
    ensures Enrolled(s.ids, steps + [step], i) <==> s.ids(i) in Apply(s, step).pending
  {
    EnrolledSnoc(s.ids, steps, step, i);
    assert Enrolled(s.ids, steps, i) <==> s.ids(i) in s.pending;
    PendingMoves(s, step, i);
  }

  /** The table holds an id exactly when its call has registered and has since neither
      given up nor expired, been failed, nor had a line taken under it: a cancelled
      call stays. */
  lemma {:induction false} TableHolds(ids: nat -> string, steps: seq<Step>)
    requires Injective(ids) && Legal(Initial(ids), steps)
    ensures TableTells(Exec(Initial(ids), steps), steps)
  {
    if steps != [] {
      var before, step := steps[..|steps| - 1], steps[|steps| - 1];
      assert steps == before + [step];
      RunLast(Initial(ids), steps);
      TableHolds(ids, before);
      InvAlways(Initial(ids), before);
      var s := Exec(Initial(ids), before);
      forall i: nat ensures Enrolled(s.ids, steps, i) <==> s.ids(i) in Apply(s, step).pending {
        StepTells(s, before, step, i);
      }
    }
  }

  /** What a call is told of the exit: that it happened, and the cause if one is known. */
  lemma ReasonTells(cause: string)
    ensures var told := "the pi process exited";
      told <= ExitReason(cause) && ExitReason(cause)[|told|..] == if cause == "" then "" else ": " + cause
  {
  }

  // ------------------------------------------------------------ its answer

  /** The response is on its way to the call, or has been sent to it. */
  ghost predicate Underway(s: State, i: nat, r: Response) {
    && i < |s.calls|
    && ((s.reader == Delivering(i, r) && s.calls[i].log == []) || s.calls[i].log == [r])
  }

  lemma StaysUnderway(s: State, step: Step, i: nat, r: Response)
    requires Inv(s) && Enabled(s, step) && Underway(s, i, r)
    ensures Underway(Apply(s, step), i, r)
  {
    assert OneMessage(s, i);
  }

  lemma {:induction false} AlwaysUnderway(s: State, steps: seq<Step>, i: nat, r: Response)
    requires Inv(s) && Legal(s, steps) && Underway(s, i, r)
    ensures Inv(Exec(s, steps)) && Underway(Exec(s, steps), i, r)
    decreases |steps|
  {
    if steps != [] {
      StepKeepsInv(s, steps[0]);
      StaysUnderway(s, steps[0], i, r);
      AlwaysUnderway(Apply(s, steps[0]), steps[1..], i, r);
    }
  }

  /** Once a line is taken under the id of a registered call, it is that call's
      answer, whatever comes after, more lines under the id included: the call can
      receive it as soon as it waits and the reader is done with it, and what it then
      returns is the line's data, or the line's error. */
  lemma FirstLineAnswers(ids: nat -> string, before: seq<Step>, r: Response, after: seq<Step>, i: nat)
    requires Injective(ids) && Legal(Initial(ids), before + [Take(r)] + after)
    requires r.id == ids(i) && Enrolled(ids, before, i)
    ensures var s := Exec(Initial(ids), before + [Take(r)] + after);
      && i < |s.calls|
      && (s.calls[i].pc.Waiting? && s.reader != Delivering(i, r) ==> Enabled(s, Receive(i)))
      && match s.calls[i].pc
         case Returned(Answered(data)) => r.success && data == r.data
         case Returned(Refused(error)) => !r.success && error == r.error
         case _ => true
  {
    var start := Initial(ids);
    RunSplits(start, before + [Take(r)], after);
    RunSplits(start, before, [Take(r)]);
    var s := Exec(start, before);
    InvAlways(start, before);
    IdsKept(start, before);
    TableHolds(ids, before);
    assert [Take(r)][1..] == [];
    var t := Apply(s, Take(r));
    StepKeepsInv(s, Take(r));
    assert s.ids(s.pending[r.id]) == r.id;
    AlwaysUnderway(t, after, i, r);
    assert OneMessage(Exec(t, after), i);
  }

  lemma GoesOn(s: State, step: Step, rest: seq<Step>)
    requires Enabled(s, step) && Legal(Apply(s, step), rest)
    ensures Legal(s, [step] + rest) && Exec(s, [step] + rest) == Exec(Apply(s, step), rest)
  {
    assert ([step] + rest)[1..] == rest;
  }

  /** On an open process a registered call goes all the way: it finds the process
      open, its line goes out, and the line that comes back under its id is what it
      returns. */
  lemma CallGoesThrough(s: State, i: nat, r: Response)
    requires Inv(s) && At(s, i, Registered) && !s.closed && s.reader.Reading? && s.ids(i) in s.pending
    requires r.id == s.ids(i)
    ensures var steps := [CheckClosed(i)] + ([Write(i, true)] + ([Take(r)] + ([Deliver] + ([Receive(i)] + []))));
      && Legal(s, steps)
      && At(Exec(s, steps), i, Returned(if r.success then Answered(r.data) else Refused(r.error)))
  {
    assert OneMessage(s, i) && s.ids(s.pending[r.id]) == r.id;
    var a := Apply(s, CheckClosed(i));
    var b := Apply(a, Write(i, true));
    var c := Apply(b, Take(r));
    var d := Apply(c, Deliver);
    assert d.calls[i].channel == [r];
    GoesOn(d, Receive(i), []);
    GoesOn(c, Deliver, [Receive(i)] + []);
    GoesOn(b, Take(r), [Deliver] + ([Receive(i)] + []));
    GoesOn(a, Write(i, true), [Take(r)] + ([Deliver] + ([Receive(i)] + [])));
    GoesOn(s, CheckClosed(i), [Write(i, true)] + ([Take(r)] + ([Deliver] + ([Receive(i)] + []))));
  }
}
