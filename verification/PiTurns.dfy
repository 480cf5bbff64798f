/**
 The turns of a pi session: claimed by a prompt before pi has even accepted it,
 or opened by pi itself, and closed when pi settles or dies.
 */
module PiTurns {
  import opened Basics
  import opened Transcript

  // A step is one critical section of the session together with what it publishes.
  // A prompt takes two: it claims the turn, and later publishes the start of it or
  // gives it up, so anything pi says in between comes between them.

  datatype Usage = Usage(input: int, output: int, cacheRead: int, cacheWrite: int, reasoning: Option<int>)

  const NOTHING := Usage(0, 0, 0, 0, None)

  function Add(u: Usage, other: Usage): Usage {
    Usage(u.input + other.input, u.output + other.output, u.cacheRead + other.cacheRead,
          u.cacheWrite + other.cacheWrite,
          if other.reasoning == None then u.reasoning
          else if u.reasoning == None then other.reasoning
          else Some(other.reasoning.value + u.reasoning.value))
  }

  datatype Status = Completed | Interrupted | Failed

  /** `inFlight` are the prompts that claimed a turn and have no verdict yet.
      `started` is the instant the turn was claimed, 0 when there is none. */
  datatype Turns = Turns(
    turn: string, running: bool, interrupted: bool, echoed: bool, failed: bool,
    usage: Usage, cost: real, started: nat, inFlight: seq<string>)

  const FRESH := Turns("", false, false, false, false, NOTHING, 0.0, 0, [])

  datatype Reply = Reply(usage: Option<Usage>, cost: real, failed: bool)

  datatype Step =
    | Claim(client: string, now: nat)
    | Accept(k: nat)
    | Refuse(k: nat)
    | AgentStart(now: nat)
    | UserEnd
    | AssistantEnd(reply: Reply)
    | Interrupt
    | Settled
    | Exit

  datatype Published =
    | Started(client: string)
    | Echoed(client: string)
    | Spent(client: string, usage: Usage)
    | Finished(client: string, status: Status, usage: Usage, cost: real)
    | HarnessExited

  // --------------------------------------------------------------- steps

  predicate Enabled(s: Turns, step: Step) {
    match step
    case Claim(_, now) => now > 0
    case AgentStart(now) => now > 0
    case Accept(k) => k < |s.inFlight|
    case Refuse(k) => k < |s.inFlight|
    case _ => true
  }

  function Open(s: Turns, client: string, now: nat): Turns {
    Turns(client, true, false, false, false, NOTHING, 0.0, now, s.inFlight)
  }

  function Close(s: Turns): Turns {
    s.(turn := "", running := false, interrupted := false, started := 0)
  }

  function Without(s: Turns, k: nat): Turns
    requires k < |s.inFlight|
  {
    s.(inFlight := s.inFlight[..k] + s.inFlight[k + 1..])
  }

  function Verdict(s: Turns): Status {
    if s.interrupted then Interrupted else if s.failed then Failed else Completed
  }

  function Count(s: Turns, reply: Reply): Turns {
    var counted :=
      if reply.usage.Some? then s.(usage := Add(s.usage, reply.usage.value), cost := s.cost + reply.cost) else s;
    if reply.failed then counted.(failed := true) else counted
  }

  function Apply(s: Turns, step: Step): (Turns, seq<Published>)
    requires Enabled(s, step)
  {
    match step
    case Claim(client, now) =>
      if s.running then (s, [])
      else (Open(s, client, now).(inFlight := s.inFlight + [client]), [])
    case Accept(k) => (Without(s, k), [Started(s.inFlight[k])])
    case Refuse(k) => (Close(Without(s, k)), [])
    case AgentStart(now) => if s.running then (s, []) else (Open(s, "", now), [Started("")])
    case UserEnd => (s.(echoed := true), [Echoed(if s.echoed then "" else s.turn)])
    case AssistantEnd(reply) =>
      var counted := Count(s, reply);
      (counted, if reply.usage.Some? then [Spent(s.turn, counted.usage)] else [])
    case Interrupt => (if s.running then s.(interrupted := true) else s, [])
    case Settled => if !s.running then (s, []) else (Close(s), [Finished(s.turn, Verdict(s), s.usage, s.cost)])
    case Exit => (Close(s), if s.running then [HarnessExited] else [])
  }

  predicate Legal(steps: seq<Step>)
    decreases |steps|, 0
  {
    steps == [] ||
    (Legal(steps[..|steps| - 1]) && Enabled(After(steps[..|steps| - 1]), steps[|steps| - 1]))
  }

  function After(steps: seq<Step>): Turns
    requires Legal(steps)
    decreases |steps|, 1
  {
    if steps == [] then FRESH else Apply(After(steps[..|steps| - 1]), steps[|steps| - 1]).0
  }

  function Output(steps: seq<Step>): seq<Published>
    requires Legal(steps)
  {
    if steps == [] then []
    else Output(steps[..|steps| - 1]) + Apply(After(steps[..|steps| - 1]), steps[|steps| - 1]).1
  }

  lemma OneMore(steps: seq<Step>, step: Step)
    requires Legal(steps) && Enabled(After(steps), step)
    ensures Legal(steps + [step])
    ensures (After(steps + [step]), Output(steps + [step]))
         == (Apply(After(steps), step).0, Output(steps) + Apply(After(steps), step).1)
  {
    assert (steps + [step])[..|steps|] == steps;
  }

  // ----------------------------------------------------------- the fields

  ghost predicate Consistent(s: Turns) {
    && (s.running <==> s.started > 0)
    && (s.interrupted || s.turn != "" ==> s.running)
  }

  lemma StepConsistent(s: Turns, step: Step)
    requires Consistent(s) && Enabled(s, step)
    ensures Consistent(Apply(s, step).0)
  {
  }

  /** At every lock release, in every run. */
  lemma {:induction false} AlwaysConsistent(steps: seq<Step>)
    requires Legal(steps)
    ensures Consistent(After(steps))
  {
    if steps != [] {
      AlwaysConsistent(steps[..|steps| - 1]);
      StepConsistent(After(steps[..|steps| - 1]), steps[|steps| - 1]);
    }
  }

  // ------------------------------------------------------------- brackets

  datatype Bracket = Idle | InTurn(client: string) | Broken

  /** A start opens a turn; a finish under the same id, or the exit, closes it. */
  function Next(b: Bracket, e: Published): Bracket {
    match e
    case Started(client) => if b.Idle? then InTurn(client) else Broken
    case Finished(client, _, _, _) => if b == InTurn(client) then Idle else Broken
    case HarnessExited => if b.InTurn? then Idle else Broken
    case _ => b
  }

  function Brackets(events: seq<Published>): Bracket {
    if events == [] then Idle else Next(Brackets(events[..|events| - 1]), events[|events| - 1])
  }

  ghost predicate Bracketed(events: seq<Published>) { Brackets(events) != Broken }

  /** Pi neither settles nor dies between a prompt's claim and its verdict. */
  ghost predicate Quiet(steps: seq<Step>)
    requires Legal(steps)
  {
    steps == [] ||
    var before, step := steps[..|steps| - 1], steps[|steps| - 1];
    Quiet(before) && (step.Settled? || step.Exit? ==> After(before).inFlight == [])
  }

  ghost predicate InBracket(s: Turns, b: Bracket) {
    && |s.inFlight| <= 1
    && (if s.inFlight != [] then s.running && s.turn == s.inFlight[0] && b == Idle
        else b == if s.running then InTurn(s.turn) else Idle)
  }

  lemma BracketsSnoc(events: seq<Published>, more: seq<Published>)
    requires |more| <= 1
    ensures Brackets(events + more) == if more == [] then Brackets(events) else Next(Brackets(events), more[0])
  {
    if more == [] {
      assert events + more == events;
    } else {
      assert (events + more)[..|events|] == events;
    }
  }

  lemma QuietStep(s: Turns, step: Step, b: Bracket)
    requires Enabled(s, step) && InBracket(s, b)
    requires step.Settled? || step.Exit? ==> s.inFlight == []
    ensures |Apply(s, step).1| <= 1
    ensures var (t, events) := Apply(s, step);
      InBracket(t, if events == [] then b else Next(b, events[0]))
  {
  }

  lemma {:induction false} QuietIsInBracket(steps: seq<Step>)
    requires Legal(steps) && Quiet(steps)
    ensures InBracket(After(steps), Brackets(Output(steps)))
  {
    if steps != [] {
      var before, step := steps[..|steps| - 1], steps[|steps| - 1];
      QuietIsInBracket(before);
      QuietStep(After(before), step, Brackets(Output(before)));
      BracketsSnoc(Output(before), Apply(After(before), step).1);
    }
  }

  lemma {:induction false} LoudIsBroken(steps: seq<Step>)
    requires Legal(steps) && !Quiet(steps)
    ensures Brackets(Output(steps)) == Broken
  {
    var before, step := steps[..|steps| - 1], steps[|steps| - 1];
    var s := After(before);
    BracketsSnoc(Output(before), Apply(s, step).1);
    if Quiet(before) {
      QuietIsInBracket(before);
      assert s.inFlight != [] && s.running;
    } else {
      LoudIsBroken(before);
    }
  }

  /** The turn events alternate between a start and the finish of the same turn,
      or the exit, exactly in the runs where pi neither settles nor dies while a
      prompt awaits its verdict. */
  lemma TurnsBracketed(steps: seq<Step>)
    requires Legal(steps)
    ensures Bracketed(Output(steps)) <==> Quiet(steps)
  {
    if Quiet(steps) {
      QuietIsInBracket(steps);
    } else {
      LoudIsBroken(steps);
    }
  }

  /** The race the session leaves open: pi settles before the prompt's verdict
      is in, and the finish is published before the start. */
  lemma FinishBeforeStart(client: string, now: nat)
    requires now > 0
    ensures var steps := [Claim(client, now), Settled, Accept(0)];
      Legal(steps) && Output(steps) == [Finished(client, Completed, NOTHING, 0.0), Started(client)]
  {
    var steps := [Claim(client, now), Settled, Accept(0)];
    assert steps[..2] == [Claim(client, now), Settled];
    assert steps[..2][..1] == [Claim(client, now)] && steps[..2][..1][..0] == [];
    assert Legal([]) && After([]) == FRESH && Output([]) == [];
    assert Legal(steps[..2][..1]) && After(steps[..2][..1]).inFlight == [client];
    assert Output(steps[..2][..1]) == [];
    assert Legal(steps[..2]) && After(steps[..2]).inFlight == [client];
  }

  // -------------------------------------------------- what a finish reports

  datatype Mark = Replied(reply: Reply) | Stopped | Heard

  /** What has happened to the turn since it was claimed. */
  function Since(steps: seq<Step>): seq<Mark>
    requires Legal(steps)
  {
    if steps == [] then []
    else Marked(After(steps[..|steps| - 1]), Since(steps[..|steps| - 1]), steps[|steps| - 1])
  }

  function Marked(s: Turns, marks: seq<Mark>, step: Step): seq<Mark> {
    match step
    case Claim(_, _) => if s.running then marks else []
    case AgentStart(_) => if s.running then marks else []
    case AssistantEnd(reply) => marks + [Replied(reply)]
    case UserEnd => marks + [Heard]
    case Interrupt => marks + [Stopped]
    case _ => marks
  }

  /** The sum of one figure over the replies that report usage. */
  function Total(marks: seq<Mark>, figure: Usage -> int): int {
    if marks == [] then 0
    else
      var m := marks[|marks| - 1];
      Total(marks[..|marks| - 1], figure)
      + if m.Replied? && m.reply.usage.Some? then figure(m.reply.usage.value) else 0
  }

  function TotalCost(marks: seq<Mark>): real {
    if marks == [] then 0.0
    else
      var m := marks[|marks| - 1];
      TotalCost(marks[..|marks| - 1]) + if m.Replied? && m.reply.usage.Some? then m.reply.cost else 0.0
  }

  predicate ReportsReasoning(m: Mark) {
    m.Replied? && m.reply.usage.Some? && m.reply.usage.value.reasoning.Some?
  }

  function Input(x: Usage): int { x.input }
  function Generated(x: Usage): int { x.output }
  function CacheRead(x: Usage): int { x.cacheRead }
  function CacheWrite(x: Usage): int { x.cacheWrite }
  function Reasoning(x: Usage): int { if x.reasoning.Some? then x.reasoning.value else 0 }

  ghost predicate Adds(u: Usage, marks: seq<Mark>) {
    && u.input == Total(marks, Input) && u.output == Total(marks, Generated)
    && u.cacheRead == Total(marks, CacheRead) && u.cacheWrite == Total(marks, CacheWrite)
    && (u.reasoning.Some? <==> exists m <- marks :: ReportsReasoning(m))
    && (u.reasoning.Some? ==> u.reasoning.value == Total(marks, Reasoning))
  }

  ghost predicate Accounts(s: Turns, marks: seq<Mark>) {
    && Adds(s.usage, marks) && s.cost == TotalCost(marks)
    && (s.failed <==> exists m <- marks :: m.Replied? && m.reply.failed)
    && (s.echoed <==> Heard in marks)
    && (s.running ==> (s.interrupted <==> Stopped in marks))
  }

  lemma {:induction false} NoReasoningNoTotal(marks: seq<Mark>)
    requires forall m <- marks :: !ReportsReasoning(m)
    ensures Total(marks, Reasoning) == 0
  {
    if marks != [] {
      assert !ReportsReasoning(marks[|marks| - 1]);
      NoReasoningNoTotal(marks[..|marks| - 1]);
    }
  }

  lemma AddOne(u: Usage, marks: seq<Mark>, mark: Mark)
    requires Adds(u, marks)
    ensures Adds(if mark.Replied? && mark.reply.usage.Some? then Add(u, mark.reply.usage.value) else u, marks + [mark])
  {
    assert (marks + [mark])[..|marks|] == marks;
    if u.reasoning == None {
      NoReasoningNoTotal(marks);
    }
    assert (exists m <- marks + [mark] :: ReportsReasoning(m)) <==>
           (exists m <- marks :: ReportsReasoning(m)) || ReportsReasoning(mark);
  }

  lemma MarkOne(s: Turns, t: Turns, marks: seq<Mark>, mark: Mark)
    requires Accounts(s, marks) && t.running == s.running
    requires t.usage == (if mark.Replied?
             && mark.reply.usage.Some? then Add(s.usage, mark.reply.usage.value) else s.usage)
    requires t.cost == (if mark.Replied? && mark.reply.usage.Some? then s.cost + mark.reply.cost else s.cost)
    requires t.failed == (s.failed || (mark.Replied? && mark.reply.failed))
    requires t.echoed == (s.echoed || mark.Heard?)
    requires s.running ==> t.interrupted == (s.interrupted || mark.Stopped?)
    ensures Accounts(t, marks + [mark])
  {
    AddOne(s.usage, marks, mark);
    assert (marks + [mark])[..|marks|] == marks;
    assert (exists m <- marks + [mark] :: m.Replied? && m.reply.failed) <==>
           (exists m <- marks :: m.Replied? && m.reply.failed) || (mark.Replied? && mark.reply.failed);
  }

  lemma StepAccounts(s: Turns, marks: seq<Mark>, step: Step)
    requires Accounts(s, marks) && Enabled(s, step) && Consistent(s)
    ensures Accounts(Apply(s, step).0, Marked(s, marks, step))
  {
    var t := Apply(s, step).0;
    match step {
      case AssistantEnd(reply) => MarkOne(s, t, marks, Replied(reply));
      case UserEnd => MarkOne(s, t, marks, Heard);
      case Interrupt => MarkOne(s, t, marks, Stopped);
      case _ =>
    }
  }

  lemma {:induction false} TurnAccounts(steps: seq<Step>)
    requires Legal(steps)
    ensures Accounts(After(steps), Since(steps))
  {
    if steps != [] {
      var before := steps[..|steps| - 1];
      TurnAccounts(before);
      AlwaysConsistent(before);
      StepAccounts(After(before), Since(before), steps[|steps| - 1]);
    }
  }

  /** A finish carries the turn's id, an interruption above a failure, and the
      sum of what every reply since the claim reported. */
  lemma FinishReports(steps: seq<Step>)
    requires Legal(steps) && After(steps).running
    ensures var events := Apply(After(steps), Settled).1;
      var marks := Since(steps);
      && |events| == 1 && events[0].Finished?
      && events[0].client == After(steps).turn
      && (events[0].status == Interrupted <==> Stopped in marks)
      && (events[0].status == Failed <==> Stopped !in marks && exists m <- marks :: m.Replied? && m.reply.failed)
      && Adds(events[0].usage, marks) && events[0].cost == TotalCost(marks)
  {
    TurnAccounts(steps);
  }

  /** The usage published after a reply is the whole turn's total so far. */
  lemma SpentReports(steps: seq<Step>, reply: Reply)
    requires Legal(steps) && reply.usage.Some?
    ensures var events := Apply(After(steps), AssistantEnd(reply)).1;
      && |events| == 1 && events[0].Spent? && events[0].client == After(steps).turn
      && Adds(events[0].usage, Since(steps) + [Replied(reply)])
  {
    TurnAccounts(steps);
    AddOne(After(steps).usage, Since(steps), Replied(reply));
  }

  /** The owner's prompt is claimed by the turn's first user message alone. */
  lemma FirstUserMessageEchoes(steps: seq<Step>)
    requires Legal(steps)
    ensures Apply(After(steps), UserEnd).1
            == [Echoed(if Heard in Since(steps) then "" else After(steps).turn)]
  {
    TurnAccounts(steps);
  }
}
