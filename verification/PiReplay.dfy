/**
 What watching a pi thread, prompting it and loading it have in common.
 */
module PiReplay {

  import opened Basics
  import opened Transcript
  import opened Trees
  import opened Paging
  import opened PiMapping
  import opened PiStream
  import opened PiLive
  import opened OwnPrompts
  import opened PromptNames
  import Runs = TranscriptRuns

  /** Whatever pi streamed on the way, the transcript watched live is the one its
      session file replays: the same items in the same order, every block, result
      and id, apart from notices, alerts and streamed tool output. */
  lemma {:induction false} LiveEqualsReplay(lines: seq<Line>)
    requires WellFormed(lines) && ProgressAfter(lines).current == None
    ensures Erase(Fold(EMPTY, Live(lines)).items) == Fold(EMPTY, Replay(lines)).items
    ensures Fold(EMPTY, Live(lines)).seen == Fold(EMPTY, Replay(lines)).seen
  {
    var v := TraceInStep(lines);
    Gather(Fold(EMPTY, Live(lines)), Fold(EMPTY, Replay(lines)), None, v);
  }

  // ------------------------------------------------------------ the owner's side

  /** What comes of pi, and the prompts a client puts on its own screen. */
  datatype Step = Says(line: Line) | Own(client: string, blocks: seq<UserBlock>)

  function LinesOf(steps: seq<Step>): seq<Line> {
    if steps == [] then []
    else LinesOf(steps[..|steps| - 1]) + if steps[|steps| - 1].Says? then [steps[|steps| - 1].line] else []
  }

  function StepActions(before: seq<Step>, step: Step): seq<Runs.Action> {
    match step
    case Says(line) => Received(OnLine(AssemblyAfter(LinesOf(before)), line).1)
    case Own(client, blocks) => [Runs.Show(client, blocks)]
  }

  /** The run of the client. */
  function RunOf(steps: seq<Step>): seq<Runs.Action> {
    if steps == [] then [] else RunOf(steps[..|steps| - 1]) + StepActions(steps[..|steps| - 1], steps[|steps| - 1])
  }

  /** Pi's lines make sense, and a prompt goes on screen once. */
  ghost predicate StepsFit(steps: seq<Step>) {
    steps == [] ||
      (var before, step := steps[..|steps| - 1], steps[|steps| - 1];
       && StepsFit(before)
       && match step
          case Says(line) => Fits(ProgressAfter(LinesOf(before)), line)
          case Own(client, _) => client != "" && PromptID(client) !in Runs.Prompts(RunOf(before)))
  }

  lemma LinesGrow(lines: seq<Line>, line: Line)
    ensures WellFormed(lines + [line]) <==> WellFormed(lines) && Fits(ProgressAfter(lines), line)
    ensures Live(lines + [line]) == Live(lines) + OnLine(AssemblyAfter(lines), line).1
  {
    assert (lines + [line])[..|lines|] == lines;
  }

  lemma {:induction false} FitsWellFormed(steps: seq<Step>)
    requires StepsFit(steps)
    ensures WellFormed(LinesOf(steps))
  {
    if steps != [] {
      var before, step := steps[..|steps| - 1], steps[|steps| - 1];
      FitsWellFormed(before);
      if step.Says? {
        LinesGrow(LinesOf(before), step.line);
      } else {
        assert LinesOf(before) + [] == LinesOf(before);
      }
    }
  }

  lemma WatchedLine(run: seq<Runs.Action>, lines: seq<Line>, line: Line)
    requires Watched(run) == Fold(EMPTY, Live(lines))
    ensures Watched(run + Received(OnLine(AssemblyAfter(lines), line).1)) == Fold(EMPTY, Live(lines + [line]))
  {
    var events := OnLine(AssemblyAfter(lines), line).1;
    WatchedMore(run, events);
    FoldAppend(EMPTY, Live(lines), events);
    LinesGrow(lines, line);
  }

  lemma {:induction false} WatchedIsLive(steps: seq<Step>)
    ensures Watched(RunOf(steps)) == Fold(EMPTY, Live(LinesOf(steps)))
  {
    if steps != [] {
      var before, step := steps[..|steps| - 1], steps[|steps| - 1];
      WatchedIsLive(before);
      if step.Own? {
        RunGrows(RunOf(before), Runs.Show(step.client, step.blocks));
        assert LinesOf(before) + [] == LinesOf(before);
      } else {
        WatchedLine(RunOf(before), LinesOf(before), step.line);
      }
    }
  }

  /** Not of the form of a client's own prompt. */
  predicate Foreign(id: string) { !("prompt-" <= id) }

  lemma StartsOtherwise(id: string)
    requires id != "" && id[0] != 'p'
    ensures Foreign(id)
  {
  }

  lemma MessagesAreForeign(m: Message)
    requires m.role.UserRole? || m.role.AssistantRole?
    ensures Foreign(MessageID(m))
  {
    StartsOtherwise(MessageID(m));
  }

  lemma {:induction false} PromptsAreOwn(run: seq<Runs.Action>)
    ensures forall id <- Runs.Prompts(run) :: !Foreign(id)
  {
    if run != [] {
      PromptsAreOwn(run[..|run| - 1]);
    }
  }

  lemma {:induction false} IdsAreForeign(lines: seq<Line>)
    requires WellFormed(lines)
    ensures forall id <- ProgressAfter(lines).ids :: Foreign(id)
  {
    if lines != [] {
      IdsAreForeign(lines[..|lines| - 1]);
      var line := lines[|lines| - 1];
      if line.MessageEnd? && (line.message.role.UserRole? || line.message.role.AssistantRole?) {
        MessagesAreForeign(line.message);
      }
    }
  }

  lemma SeenIsForeign(lines: seq<Line>)
    requires WellFormed(lines)
    ensures forall id <- Fold(EMPTY, Live(lines)).seen :: Foreign(id)
  {
    IdsAreForeign(lines);
    var v := TraceInStep(lines);
  }

  /** What a line says of messages. */
  lemma LineForeign(s: Assembly, line: Line)
    ensures forall e <- OnLine(s, line).1 ::
              && (e.UserMessage? || e.AssistantMessage? ==> Foreign(e.messageID))
              && (e.UserMessage? ==> line.MessageEnd? && line.message.role.UserRole?)
  {
    if line.MessageEnd? && (line.message.role.UserRole? || line.message.role.AssistantRole?) {
      MessagesAreForeign(line.message);
    }
  }

  lemma {:induction false} QuietIsFair(run: seq<Runs.Action>, events: seq<Event>)
    requires AllFair(run)
    requires forall e <- events :: !e.UserMessage? && (e.AssistantMessage? ==> Foreign(e.messageID))
    ensures AllFair(run + Received(events))
  {
    if events == [] {
      assert run + [] == run;
    } else {
      var before, e := events[..|events| - 1], events[|events| - 1];
      assert events == before + [e];
      QuietIsFair(run, before);
      PromptsAreOwn(run + Received(before));
      ReceivedGrows(run, before, e);
      RunGrows(run + Received(before), Runs.Receive(e));
    }
  }

  /** A user message pi ends is new to a watcher. */
  lemma UserIsNew(lines: seq<Line>, m: Message, client: string, code: string)
    requires WellFormed(lines) && Fits(ProgressAfter(lines), MessageEnd(m, client, code)) && m.role.UserRole?
    ensures MessageID(m) !in Fold(EMPTY, Live(lines)).seen
  {
    var v := TraceInStep(lines);
  }

  lemma UserIsFair(steps: seq<Step>, m: Message, client: string, code: string)
    requires StepsFit(steps) && AllFair(RunOf(steps)) && m.role.UserRole?
    requires Fits(ProgressAfter(LinesOf(steps)), MessageEnd(m, client, code))
    ensures AllFair(RunOf(steps) + Received(OnMessageEnd(AssemblyAfter(LinesOf(steps)), m, client, code).1))
  {
    var events := OnMessageEnd(AssemblyAfter(LinesOf(steps)), m, client, code).1;
    var e := UserMessage(MessageID(m), PlainBlocks(m.content), client, "");
    assert events == [e];
    assert Received([e]) == [Runs.Receive(e)] by {
      assert [e][..0] == [];
    }
    MessagesAreForeign(m);
    PromptsAreOwn(RunOf(steps));
    WatchedIsLive(steps);
    FitsWellFormed(steps);
    UserIsNew(LinesOf(steps), m, client, code);
    RunGrows(RunOf(steps), Runs.Receive(e));
  }

  lemma OwnIsFair(steps: seq<Step>, client: string, blocks: seq<UserBlock>)
    requires StepsFit(steps) && AllFair(RunOf(steps)) && client != "" && PromptID(client) !in Runs.Prompts(RunOf(steps))
    ensures AllFair(RunOf(steps) + [Runs.Show(client, blocks)])
  {
    WatchedIsLive(steps);
    FitsWellFormed(steps);
    SeenIsForeign(LinesOf(steps));
    RunGrows(RunOf(steps), Runs.Show(client, blocks));
  }

  lemma {:induction false} FitsIsFair(steps: seq<Step>)
    requires StepsFit(steps)
    ensures AllFair(RunOf(steps))
  {
    if steps != [] {
      var before, step := steps[..|steps| - 1], steps[|steps| - 1];
      FitsIsFair(before);
      match step {
        case Own(client, blocks) => OwnIsFair(before, client, blocks);
        case Says(line) =>
          if line.MessageEnd? && line.message.role.UserRole? {
            UserIsFair(before, line.message, line.client, line.code);
          } else {
            LineForeign(AssemblyAfter(LinesOf(before)), line);
            QuietIsFair(RunOf(before), OnLine(AssemblyAfter(LinesOf(before)), line).1);
          }
      }
    }
  }

  /** With the owner's prompts echoed, their client shows what a watcher shows exactly
      when nothing came on screen past a prompt that waited; and then it shows what
      the session file replays, the prompts under the ids they have there. */
  lemma SenderEqualsReplay(steps: seq<Step>)
    requires StepsFit(steps) && ProgressAfter(LinesOf(steps)).current == None && Queue(RunOf(steps)) == []
    ensures var run, file := RunOf(steps), Fold(EMPTY, Replay(LinesOf(steps)));
      && (Named(Runs.After(run), Names(run)) == Fold(EMPTY, Live(LinesOf(steps))) <==> AllLand(run))
      && (AllLand(run) ==> Erase(Named(Runs.After(run), Names(run)).items) == file.items
                           && Named(Runs.After(run), Names(run)).seen == file.seen)
  {
    FitsIsFair(steps);
    SenderShowsWatched(RunOf(steps));
    WatchedIsLive(steps);
    FitsWellFormed(steps);
    LiveEqualsReplay(LinesOf(steps));
  }

  lemma UserStep(steps: seq<Step>, m: Message, client: string, code: string)
    requires m.role.UserRole?
    ensures RunOf(steps + [Says(MessageEnd(m, client, code))])
            == RunOf(steps) + [Runs.Receive(UserMessage(MessageID(m), PlainBlocks(m.content), client, ""))]
  {
    var e := UserMessage(MessageID(m), PlainBlocks(m.content), client, "");
    assert (steps + [Says(MessageEnd(m, client, code))])[..|steps|] == steps;
    assert OnMessageEnd(AssemblyAfter(LinesOf(steps)), m, client, code).1 == [e];
    assert [e][..0] == [] && Received([e]) == [Runs.Receive(e)];
  }

  /** A prompt that waits is answered by the user message pi ends for it: it waits no
      more, and it is that message. */
  lemma EchoEnds(steps: seq<Step>, m: Message, client: string, code: string)
    requires m.role.UserRole? && client in Queue(RunOf(steps))
    ensures var run := RunOf(steps + [Says(MessageEnd(m, client, code))]);
      && Queue(run) == Removed(Queue(RunOf(steps)), client)
      && PromptID(client) in Names(run) && Names(run)[PromptID(client)] == MessageID(m)
  {
    UserStep(steps, m, client, code);
    RunGrows(RunOf(steps), Runs.Receive(UserMessage(MessageID(m), PlainBlocks(m.content), client, "")));
  }
}
