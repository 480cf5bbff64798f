/**
 A claude thread watched live, streamed pieces and all, and the same thread loaded
 from its transcript file show the same transcript whenever no message is half told.

 A run is what the session prints or is sent. Its lines are what the file comes to
 hold; the start of a message, of a tool call, and the pieces of a block are not in
 the file; and a prompt is in it under an id of its own.
 */
module ClaudeLive {

  import opened Basics
  import opened Transcript
  import opened Trees
  import opened Settling
  import opened HistoryPages
  import opened ClaudeAssembly
  import opened ClaudeScreen
  import opened ClaudeDrafts
  import opened ClaudeLines
  import opened ClaudeNames
  import opened PromptNames
  import opened ClaudeShows

  /** What the session prints or is sent: a line of the transcript, the start of a
      message, of a tool call or a piece of a block inside it, or the owner's
      prompt, which a client that sent it has on screen already. */
  datatype Step =
    | Printed(line: Line)
    | Start(messageID: string)
    | Open(index: nat, toolUseID: string, name: string, kind: string)
    | Say(index: nat, text: string)
    | Think(index: nat, text: string)
    | Fill(index: nat, partialJson: string)
    | Prompt(client: string, blocks: seq<UserBlock>, mine: bool)

  /** The lines a step adds to the transcript, a prompt under the id given to it. */
  function StepLines(step: Step, names: map<string, string>): seq<Line> {
    match step
    case Printed(line) => [line]
    case Prompt(client, blocks, _) =>
      var id := NameOf(PromptID(client), names);
      [OtherLine([UserMessage(id, blocks, "", "")], id, false)]
    case _ => []
  }

  function LinesOf(steps: seq<Step>, names: map<string, string>): seq<Line> {
    if steps == [] then [] else LinesOf(steps[..|steps| - 1], names) + StepLines(steps[|steps| - 1], names)
  }

  /** The lines as the session tells them, prompts under the ids it echoes them by. */
  function Sent(steps: seq<Step>): seq<Line> { LinesOf(steps, map[]) }

  // ------------------------------------------------------------- the session

  /** The message that is streaming, and the tool at each of its positions. */
  datatype Streaming = Streaming(messageID: string, tools: map<nat, string>)

  function Now(steps: seq<Step>): Streaming {
    if steps == [] then Streaming("", map[])
    else
      var before, step := Now(steps[..|steps| - 1]), steps[|steps| - 1];
      match step
      case Start(id) => Streaming(id, map[])
      case Open(index, id, _, _) => before.(tools := before.tools[index := id])
      case _ => before
  }

  /** What the session publishes to the transcript. */
  function StepEvents(before: seq<Step>, step: Step): seq<Event> {
    var now := Now(before);
    match step
    case Printed(line) => LineEvents(Sent(before), line)
    case Start(_) => []
    case Open(index, id, name, kind) => [ToolUseStart(now.messageID, index, id, name, kind, "")]
    case Say(index, text) => [TextDelta(now.messageID, index, text, "")]
    case Think(index, text) => [ThinkingDelta(now.messageID, index, text, "")]
    case Fill(index, more) =>
      if index in now.tools && now.tools[index] != "" then [ToolInputDelta(now.tools[index], more)] else []
    case Prompt(client, blocks, _) => [UserMessage(PromptID(client), blocks, client, "")]
  }

  /** The prompt of a client's own, on its screen before it is echoed. */
  function WithOwn(t: State, step: Step): State {
    if step.Prompt? && step.mine then LocalPrompt(t, step.client, step.blocks) else t
  }

  /** A client's screen. */
  function Client(steps: seq<Step>): State {
    if steps == [] then EMPTY
    else
      var before, step := steps[..|steps| - 1], steps[|steps| - 1];
      Fold(WithOwn(Client(before), step), StepEvents(before, step))
  }

  // ---------------------------------------------------- runs that make sense

  predicate Streams(step: Step) { step.Open? || step.Say? || step.Think? }

  function NextEarly(early: seq<string>, before: seq<Step>, step: Step): seq<string> {
    if Streams(step) then WithPiece(early, Sent(before), Now(before).messageID)
    else if step.Printed? && step.line.AssistantLine? then WithLine(early, step.line.messageID)
    else early
  }

  /** The messages that stream before the transcript has a line of them, in the order
      they began. */
  function EarlyIn(steps: seq<Step>): seq<string> {
    if steps == [] then []
    else
      var before := steps[..|steps| - 1];
      NextEarly(EarlyIn(before), before, steps[|steps| - 1])
  }

  /** A piece of a block that is still to be told, and will be drawn. */
  predicate InTime(before: seq<Step>, index: nat, plan: Plan) {
    var id := Now(before).messageID;
    |Told(Sent(before), id)| <= index < |plan(id)| && ToUiBlock(plan(id)[index]).Some?
  }

  ghost predicate StepFits(before: seq<Step>, step: Step, plan: Plan) {
    match step
    case Printed(line) =>
      (match line
       case AssistantLine(id, _, _, sidechain) => !sidechain && id != ""
       case OtherLine(_, _, sidechain) => !sidechain
       case ResultLine => true)
    case Start(_) => true
    case Open(index, id, name, kind) =>
      InTime(before, index, plan) &&
        (var raw := plan(Now(before).messageID)[index];
         raw.ToolUse? && raw.id == id && raw.name == name && raw.kind == kind)
    case Say(index, _) => InTime(before, index, plan)
    case Think(index, _) => InTime(before, index, plan)
    case Fill(index, _) => |Told(Sent(before), Now(before).messageID)| <= index
    case Prompt(client, _, _) => client != ""
  }

  ghost predicate Fits(steps: seq<Step>, plan: Plan) {
    steps == [] ||
      (Fits(steps[..|steps| - 1], plan) && StepFits(steps[..|steps| - 1], steps[|steps| - 1], plan))
  }

  /** What a run has told of each message by its end. */
  function ToldBy(steps: seq<Step>): Plan { (id: string) => Told(Sent(steps), id) }

  /** The run tells all it streams, each block in its place and before its line. */
  ghost predicate Complete(steps: seq<Step>) { Fits(steps, ToldBy(steps)) }

  /** What a step draws comes next in the transcript: with messages streaming that
      it has no line of, nothing is drawn but the first of them. A client's own prompt
      has something to see. */
  ghost predicate Lands(early: seq<string>, lines: seq<Line>, step: Step) {
    match step
    case Printed(AssistantLine(id, _, _, _)) =>
      id in ReadAll(lines).assistantAt || early == [] || early[0] == id
    case Printed(OtherLine(entries, _, _)) => early == [] || forall e <- entries :: DrawEntry(e, map[]) == []
    case Prompt(_, blocks, mine) => if UserBlocks(blocks) == [] then !mine else early == []
    case _ => true
  }

  /** Every step lands. */
  ghost predicate InPlace(steps: seq<Step>) {
    steps == [] ||
      (var before := steps[..|steps| - 1];
       InPlace(before) && Lands(EarlyIn(before), Sent(before), steps[|steps| - 1]))
  }

  lemma LinesSnoc(steps: seq<Step>, step: Step, names: map<string, string>)
    ensures LinesOf(steps + [step], names) == LinesOf(steps, names) + StepLines(step, names)
  {
    assert (steps + [step])[..|steps|] == steps;
  }

  lemma StepIsMain(before: seq<Step>, step: Step, names: map<string, string>, plan: Plan)
    requires StepFits(before, step, plan)
    ensures MainOnly(StepLines(step, names))
  {
  }

  lemma {:induction false} MainLines(steps: seq<Step>, names: map<string, string>, plan: Plan)
    requires Fits(steps, plan)
    ensures MainOnly(LinesOf(steps, names))
  {
    if steps != [] {
      var before, step := steps[..|steps| - 1], steps[|steps| - 1];
      MainLines(before, names, plan);
      StepIsMain(before, step, names, plan);
      MainJoin(LinesOf(before, names), StepLines(step, names));
    }
  }

  // ------------------------------------------------------------ step by step

  lemma ClientSnoc(before: seq<Step>, step: Step)
    ensures Client(before + [step]) == Fold(WithOwn(Client(before), step), StepEvents(before, step))
  {
    assert (before + [step])[..|before|] == before;
  }

  lemma EarlySnoc(before: seq<Step>, step: Step)
    ensures EarlyIn(before + [step]) == NextEarly(EarlyIn(before), before, step)
  {
    assert (before + [step])[..|before|] == before;
  }

  /** A step, taken where the screen is `t` and messages may have begun early. */
  ghost predicate StaysShown(t: State, before: seq<Step>, step: Step, early: seq<string>, plan: Plan) {
    Shows(Fold(WithOwn(t, step), StepEvents(before, step)), Sent(before) + StepLines(step, map[]),
          NextEarly(early, before, step), plan)
  }

  lemma StreamStep(t: State, before: seq<Step>, step: Step, early: seq<string>, plan: Plan)
    requires Streams(step) && StepFits(before, step, plan) && Shows(t, Sent(before), early, plan)
    requires MainOnly(Sent(before)) && InOrder(Sent(before)) && Feasible(Sent(before), plan)
    ensures StaysShown(t, before, step, early, plan)
  {
    assert Sent(before) + [] == Sent(before);
    var e := StepEvents(before, step)[0];
    assert StepEvents(before, step) == [e];
    FoldOne(t, e);
    PieceShows(t, Sent(before), early, e, plan);
  }

  ghost predicate Placed(now: Streaming, plan: Plan) {
    forall i <- now.tools ::
      i < |plan(now.messageID)| && plan(now.messageID)[i].ToolUse? && plan(now.messageID)[i].id == now.tools[i]
  }

  /** The tools the session has at their positions are those that will settle there. */
  lemma {:induction false} NowFits(steps: seq<Step>, plan: Plan)
    requires Fits(steps, plan)
    ensures Placed(Now(steps), plan)
  {
    if steps != [] {
      var before, step := steps[..|steps| - 1], steps[|steps| - 1];
      NowFits(before, plan);
      if step.Open? {
        assert InTime(before, step.index, plan);
        PlacedOpen(Now(before), step.index, step.toolUseID, plan);
      }
    }
  }

  lemma PlacedOpen(now: Streaming, index: nat, id: string, plan: Plan)
    requires Placed(now, plan) && index < |plan(now.messageID)|
    requires plan(now.messageID)[index].ToolUse? && plan(now.messageID)[index].id == id
    ensures Placed(now.(tools := now.tools[index := id]), plan)
  {
  }

  lemma FillShows(t: State, lines: seq<Line>, early: seq<string>, now: Streaming, index: nat, more: string, plan: Plan)
    requires MainOnly(lines) && InOrder(lines) && Feasible(lines, plan) && Shows(t, lines, early, plan)
    requires Placed(now, plan) && index in now.tools && |Told(lines, now.messageID)| <= index
    ensures Shows(Fold(t, [ToolInputDelta(now.tools[index], more)]), lines, early, plan)
  {
    var e := ToolInputDelta(now.tools[index], more);
    assert plan(now.messageID)[index].id == e.toolUseID;
    FoldOne(t, e);
    InputShows(t, lines, early, e, plan);
  }

  lemma FillStep(t: State, before: seq<Step>, step: Step, early: seq<string>, plan: Plan)
    requires step.Fill? && Fits(before, plan) && StepFits(before, step, plan)
    requires MainOnly(Sent(before)) && InOrder(Sent(before)) && Feasible(Sent(before), plan)
    requires Shows(t, Sent(before), early, plan)
    ensures StaysShown(t, before, step, early, plan)
  {
    NowFits(before, plan);
    assert Sent(before) + [] == Sent(before);
    if StepEvents(before, step) != [] {
      FillShows(t, Sent(before), early, Now(before), step.index, step.partialJson, plan);
    }
  }

  lemma LineStep(t: State, before: seq<Step>, line: Line, early: seq<string>, plan: Plan)
    requires Lands(early, Sent(before), Printed(line)) && Shows(t, Sent(before), early, plan)
    requires MainOnly(Sent(before)) && InOrder(Sent(before)) && Comes(Sent(before), line)
    requires MainOnly(Sent(before) + [line]) && Feasible(Sent(before) + [line], plan)
    ensures StaysShown(t, before, Printed(line), early, plan)
  {
    match line {
      case AssistantLine(_, _, _, _) => LineShows(t, Sent(before), line, early, plan);
      case OtherLine(_, _, _) => OtherShows(t, Sent(before), line, early, plan);
      case ResultLine =>
        FoldOne(t, TurnFinished);
        TurnShows(t, Sent(before), early, plan);
    }
    assert StepEvents(before, Printed(line)) == LineEvents(Sent(before), line);
  }

  lemma PromptStep(t: State, before: seq<Step>, step: Step, line: Line, early: seq<string>, plan: Plan)
    requires step.Prompt? && StepFits(before, step, plan) && [line] == StepLines(step, map[])
    requires Lands(early, Sent(before), step) && Shows(t, Sent(before), early, plan)
    requires MainOnly(Sent(before)) && InOrder(Sent(before)) && Comes(Sent(before), line)
    requires MainOnly(Sent(before) + [line]) && Feasible(Sent(before) + [line], plan)
    ensures StaysShown(t, before, step, early, plan)
  {
    PromptShows(t, Sent(before), line, early, step.client, step.blocks, step.mine, plan);
  }

  lemma StartStep(t: State, before: seq<Step>, id: string, early: seq<string>, plan: Plan)
    requires Shows(t, Sent(before), early, plan)
    ensures StaysShown(t, before, Start(id), early, plan)
  {
    assert Sent(before) + [] == Sent(before);
  }

  // -------------------------------------------------------------- whole runs

  lemma {:induction false} FitsBefore(steps: seq<Step>, k: nat, plan: Plan)
    requires k <= |steps| && Fits(steps, plan)
    ensures Fits(steps[..k], plan) && Sent(steps[..k]) <= Sent(steps)
  {
    if k == |steps| {
      assert steps[..k] == steps;
    } else {
      FitsBefore(steps[..|steps| - 1], k, plan);
      assert steps[..|steps| - 1][..k] == steps[..k];
    }
  }

  /** What the line of a step is known to meet. */
  lemma LineOf(before: seq<Step>, step: Step, line: Line, plan: Plan)
    requires Fits(before, plan) && StepFits(before, step, plan) && StepLines(step, map[]) == [line]
    requires InOrder(Sent(before) + [line])
    ensures MainOnly(Sent(before)) && MainOnly(Sent(before) + [line]) && Comes(Sent(before), line)
  {
    MainLines(before, map[], plan);
    StepIsMain(before, step, map[], plan);
    MainJoin(Sent(before), [line]);
    OrderSnoc(Sent(before), line);
  }

  lemma StepShows(t: State, before: seq<Step>, step: Step, early: seq<string>, plan: Plan)
    requires Fits(before, plan) && StepFits(before, step, plan) && Shows(t, Sent(before), early, plan)
    requires InOrder(Sent(before)) && InOrder(Sent(before) + StepLines(step, map[]))
    requires Feasible(Sent(before), plan) && Feasible(Sent(before) + StepLines(step, map[]), plan)
    requires Lands(early, Sent(before), step)
    ensures StaysShown(t, before, step, early, plan)
  {
    match step {
      case Printed(line) =>
        LineOf(before, step, line, plan);
        LineStep(t, before, line, early, plan);
      case Prompt(_, _, _) =>
        var line := StepLines(step, map[])[0];
        LineOf(before, step, line, plan);
        PromptStep(t, before, step, line, early, plan);
      case Start(id) => StartStep(t, before, id, early, plan);
      case Fill(_, _) =>
        MainLines(before, map[], plan);
        FillStep(t, before, step, early, plan);
      case _ =>
        MainLines(before, map[], plan);
        StreamStep(t, before, step, early, plan);
    }
  }

  /** As long as all has landed, the screen shows what has been told, drafts past it,
      and the messages that began early. */
  lemma {:induction false} AlwaysShown(steps: seq<Step>, k: nat)
    requires k <= |steps| && Complete(steps) && InOrder(Sent(steps)) && InPlace(steps[..k])
    ensures Shows(Client(steps[..k]), Sent(steps[..k]), EarlyIn(steps[..k]), ToldBy(steps))
    decreases k
  {
    if k == 0 {
      NothingShown(ToldBy(steps));
    } else {
      CutTwice(steps, k);
      LandsLast(steps[..k]);
      AlwaysShown(steps, k - 1);
      NextShown(steps, k);
    }
  }

  lemma NothingShown(plan: Plan)
    ensures Shows(Client([]), Sent([]), EarlyIn([]), plan)
  {
    assert Sent([]) == [] && History([]) == [] && Screen([]) == [] && Blanks([]) == [];
  }

  lemma LandsLast(steps: seq<Step>)
    requires steps != [] && InPlace(steps)
    ensures InPlace(steps[..|steps| - 1])
    ensures Lands(EarlyIn(steps[..|steps| - 1]), Sent(steps[..|steps| - 1]), steps[|steps| - 1])
  {
  }

  lemma NextShown(steps: seq<Step>, k: nat)
    requires 0 < k <= |steps| && Complete(steps) && InOrder(Sent(steps))
    requires Shows(Client(steps[..k - 1]), Sent(steps[..k - 1]), EarlyIn(steps[..k - 1]), ToldBy(steps))
    requires Lands(EarlyIn(steps[..k - 1]), Sent(steps[..k - 1]), steps[k - 1])
    ensures Shows(Client(steps[..k]), Sent(steps[..k]), EarlyIn(steps[..k]), ToldBy(steps))
  {
    var before, step := StepAt(steps, k);
    StepShows(Client(before), before, step, EarlyIn(before), ToldBy(steps));
    OneOn(before, step, ToldBy(steps));
  }

  lemma OneOn(before: seq<Step>, step: Step, plan: Plan)
    requires StaysShown(Client(before), before, step, EarlyIn(before), plan)
    ensures Shows(Client(before + [step]), Sent(before + [step]), EarlyIn(before + [step]), plan)
  {
    LinesSnoc(before, step, map[]);
    ClientSnoc(before, step);
    EarlySnoc(before, step);
  }

  /** The step at a point of a run, with all that is known there. */
  lemma StepAt(steps: seq<Step>, k: nat) returns (before: seq<Step>, step: Step)
    requires 0 < k <= |steps| && Complete(steps) && InOrder(Sent(steps))
    ensures before == steps[..k - 1] && step == steps[k - 1] && steps[..k] == before + [step]
    ensures Fits(before, ToldBy(steps)) && StepFits(before, step, ToldBy(steps))
    ensures InOrder(Sent(before)) && InOrder(Sent(before) + StepLines(step, map[]))
    ensures Feasible(Sent(before), ToldBy(steps)) && Feasible(Sent(before) + StepLines(step, map[]), ToldBy(steps))
  {
    CutTwice(steps, k);
    PlanHolds(steps, k - 1);
    PlanHolds(steps, k);
    before, step := LastStep(steps[..k], ToldBy(steps));
  }

  lemma CutTwice<T>(s: seq<T>, k: nat)
    requires 0 < k <= |s|
    ensures |s[..k]| == k && s[..k][..k - 1] == s[..k - 1] && s[..k][k - 1] == s[k - 1]
  {
  }

  lemma LastStep(steps: seq<Step>, plan: Plan) returns (before: seq<Step>, step: Step)
    requires steps != [] && Fits(steps, plan) && InOrder(Sent(steps)) && Feasible(Sent(steps), plan)
    ensures before == steps[..|steps| - 1] && step == steps[|steps| - 1] && steps == before + [step]
    ensures Fits(before, plan) && StepFits(before, step, plan)
    ensures InOrder(Sent(before) + StepLines(step, map[])) && Feasible(Sent(before) + StepLines(step, map[]), plan)
  {
    before, step := steps[..|steps| - 1], steps[|steps| - 1];
    assert Sent(steps) == Sent(before) + StepLines(step, map[]);
  }

  lemma PlanHolds(steps: seq<Step>, k: nat)
    requires k <= |steps| && Complete(steps) && InOrder(Sent(steps))
    ensures Fits(steps[..k], ToldBy(steps)) && InOrder(Sent(steps[..k])) && Feasible(Sent(steps[..k]), ToldBy(steps))
  {
    MainLines(steps, map[], ToldBy(steps));
    FitsBefore(steps, k, ToldBy(steps));
    AlwaysFeasible(Sent(steps), |Sent(steps[..k])|, ToldBy(steps));
    assert Sent(steps)[..|Sent(steps[..k])|] == Sent(steps[..k]);
  }

  /** Whatever began before its line had something to tell. */
  lemma {:induction false} EarlyIsPlanned(steps: seq<Step>, plan: Plan)
    requires Fits(steps, plan)
    ensures forall id <- EarlyIn(steps) :: plan(id) != []
  {
    if steps != [] {
      EarlyIsPlanned(steps[..|steps| - 1], plan);
    }
  }

  lemma NoneHalfTold(live: seq<Item>, drawn: seq<Item>, plan: Plan)
    requires On(live, drawn, plan)
    requires forall i | 0 <= i < |drawn| && drawn[i].Assistant? :: |drawn[i].parts| == |plan(drawn[i].id)|
    ensures live == drawn
  {
    forall i | 0 <= i < |live| ensures live[i] == drawn[i] {
      assert Like(live[i], drawn[i], plan);
    }
  }

  /** Once all that was streamed has been told, and if all has landed, the screen
      shows the transcript. */
  lemma LiveShows(steps: seq<Step>)
    requires Complete(steps) && InOrder(Sent(steps)) && InPlace(steps)
    ensures Client(steps) == Shown(History(Sent(steps)))
  {
    var plan, lines := ToldBy(steps), Sent(steps);
    assert steps[..|steps|] == steps;
    AlwaysShown(steps, |steps|);
    MainLines(steps, map[], plan);
    NoneEarly(steps);
    assert Screen(lines) + Blanks([]) == Screen(lines);
    ScreenTold(lines);
    NoneHalfTold(Client(steps).items, Screen(lines), plan);
  }

  lemma NoneEarly(steps: seq<Step>)
    requires Complete(steps) && MainOnly(Sent(steps)) && Early(EarlyIn(steps), Sent(steps))
    ensures EarlyIn(steps) == []
  {
    EarlyIsPlanned(steps, ToldBy(steps));
    if EarlyIn(steps) != [] {
      assert EarlyIn(steps)[0] in EarlyIn(steps);
      ReaderTells(Sent(steps), EarlyIn(steps)[0]);
      assert false;
    }
  }

  // ---------------------------------------------------------------- the file

  /** The names are of prompts alone. */
  ghost predicate OfPrompts(names: map<string, string>, steps: seq<Step>) {
    forall step <- steps | step.Printed? ::
      && (step.line.AssistantLine? ==> step.line.messageID !in names)
      && (step.line.OtherLine? ==> forall e <- step.line.entries | HasID(e) :: e.messageID !in names)
  }

  lemma StepAgrees(before: seq<Step>, step: Step, names: map<string, string>, plan: Plan)
    requires StepFits(before, step, plan) && OfPrompts(names, [step])
    requires ReadersAgree(ReadAll(Sent(before)), ReadAll(LinesOf(before, names)), names)
    ensures ReadersAgree(ReadAll(Sent(before) + StepLines(step, map[])),
                         ReadAll(LinesOf(before, names) + StepLines(step, names)), names)
  {
    var a, b := Sent(before), LinesOf(before, names);
    assert step in [step];
    if StepLines(step, names) == [] {
      assert a + StepLines(step, map[]) == a && b + StepLines(step, names) == b;
    } else {
      var x, y := StepLines(step, map[])[0], StepLines(step, names)[0];
      assert StepLines(step, map[]) == [x] && StepLines(step, names) == [y];
      ReadSnoc(a, x);
      ReadSnoc(b, y);
      if x.AssistantLine? {
        MessagesAgree(ReadAll(a), ReadAll(b), x, names);
      } else if x.OtherLine? {
        EntriesNamed(step, x, y, names);
        OthersAgree(ReadAll(a), ReadAll(b), x, y, names);
      }
    }
  }

  lemma EntriesNamed(step: Step, x: Line, y: Line, names: map<string, string>)
    requires OfPrompts(names, [step]) && StepLines(step, map[]) == [x] && StepLines(step, names) == [y] && x.OtherLine?
    ensures y.OtherLine? && x.sidechain == y.sidechain && SameButNames(x.entries, y.entries, names)
  {
    assert step in [step];
    if step.Printed? {
      forall i | 0 <= i < |x.entries| ensures y.entries[i] == NamedEntry(x.entries[i], names)
                                           && (x.entries[i].AssistantMessage? ==> x.entries[i].messageID !in names) {
        assert x.entries[i] in step.line.entries;
      }
    }
  }

  /** The file differs from what was told in the names of prompts. */
  lemma {:induction false} FileNamed(steps: seq<Step>, names: map<string, string>, plan: Plan)
    requires Fits(steps, plan) && OfPrompts(names, steps)
    ensures ReadersAgree(ReadAll(Sent(steps)), ReadAll(LinesOf(steps, names)), names)
  {
    if steps != [] {
      var before, step := steps[..|steps| - 1], steps[|steps| - 1];
      assert step in steps && forall s <- before :: s in steps;
      FileNamed(before, names, plan);
      StepAgrees(before, step, names, plan);
    }
  }

  // ----------------------------------------------------------------- theorem

  /** Whenever all that was streamed has been told, and if all has landed, the
      transcript a client folded from the stream is the one it would load from the
      file, up to the ids the file has the owner's prompts under. */
  lemma LandedReplays(steps: seq<Step>, names: map<string, string>)
    requires Complete(steps) && OfPrompts(names, steps) && InPlace(steps)
    requires InOrder(Sent(steps)) && InOrder(LinesOf(steps, names))
    ensures Fold(EMPTY, History(LinesOf(steps, names))) == Named(Client(steps), names)
  {
    var told, file := History(Sent(steps)), History(LinesOf(steps, names));
    LiveShows(steps);
    MainLines(steps, names, ToldBy(steps));
    FileShows(LinesOf(steps, names));
    FileNamed(steps, names, ToldBy(steps));
    DrawNamed(told, file, ResultsOf(told), names);
    IdsNamed(told, file, names);
  }
}
