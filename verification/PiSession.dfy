/**
 A pi session as one object. Each method is one handler, or one of the two
 halves of a prompt, held to the step it makes; what it publishes is kept by
 kind in the order it went out. The steps made so far are kept as well, so that
 whatever is called in whatever order is a run of the step machines.
 */
module PiSession {
  import opened Transcript
  import PiMapping
  import PiStream
  import PiTurns
  import PiDialogs

  /** Each of some dialogs was resolved once. */
  ghost predicate EachResolved(before: seq<PiDialogs.Step>, ids: set<string>, after: seq<PiDialogs.Step>) {
    exists resolved: seq<PiDialogs.Step> ::
      && after == before + resolved && |resolved| == |ids|
      && forall step <- resolved :: step.Resolve? && step.id in ids
  }

  lemma EachOfNone(before: seq<PiDialogs.Step>)
    ensures forall ids: set<string> :: EachResolved(before, ids - ids, before)
  {
    assert before + [] == before;
  }

  lemma EachMore(before: seq<PiDialogs.Step>, ids: set<string>, after: seq<PiDialogs.Step>, id: string)
    requires EachResolved(before, ids, after) && id !in ids
    ensures EachResolved(before, ids + {id}, after + [PiDialogs.Resolve(id)])
  {
    var resolved :| after == before + resolved && |resolved| == |ids|
                    && forall step <- resolved :: step.Resolve? && step.id in ids;
    var longer := resolved + [PiDialogs.Resolve(id)];
    assert after + [PiDialogs.Resolve(id)] == before + longer;
  }

  /** A dialog not resolved yet is among those being resolved. */
  lemma TakenStill(resolving: multiset<string>, ids: set<string>, waiting: set<string>, id: string)
    requires multiset(ids) <= resolving && waiting <= ids && id in waiting
    ensures id in resolving - multiset(ids - waiting)
    ensures ids - (waiting - {id}) == (ids - waiting) + {id} && id !in ids - waiting
    ensures resolving - multiset(ids - (waiting - {id})) == resolving - multiset(ids - waiting) - multiset{id}
  {
    assert multiset(ids)[id] == 1;
    assert ids - (waiting - {id}) == (ids - waiting) + {id};
    assert multiset((ids - waiting) + {id}) == multiset(ids - waiting) + multiset{id};
  }

  /** The dialogs waiting were taken at once and then resolved one by one. */
  ghost predicate Cancelled(before: seq<PiDialogs.Step>, waiting: set<string>, after: seq<PiDialogs.Step>) {
    EachResolved(before + [PiDialogs.CancelPending], waiting, after)
  }

  class Session {
    var turn: string
    var running: bool
    var interrupted: bool
    var echoed: bool
    var turnFailed: bool
    var turnUsage: PiTurns.Usage
    var turnCost: real
    var turnStarted: nat
    /** The prompts between their claim and their verdict. */
    ghost var inFlight: seq<string>

    var pending: set<string>
    ghost var asked: seq<string>
    ghost var requesting: set<string>
    ghost var resolving: multiset<string>

    var messageID: string
    var blockTools: map<nat, string>
    var toolOutput: map<string, string>

    var turnEvents: seq<PiTurns.Published>
    var transcriptEvents: seq<Event>
    var published: seq<PiDialogs.Publication>

    ghost var turnRun: seq<PiTurns.Step>
    ghost var dialogRun: seq<PiDialogs.Step>

    ghost function Turns(): PiTurns.Turns
      reads `turn, `running, `interrupted, `echoed, `turnFailed, `turnUsage, `turnCost, `turnStarted, `inFlight
    {
      PiTurns.Turns(turn, running, interrupted, echoed, turnFailed, turnUsage, turnCost, turnStarted, inFlight)
    }

    ghost function Dialogs(): PiDialogs.Dialogs
      reads `asked, `requesting, `pending, `resolving, `published
    {
      PiDialogs.Dialogs(asked, requesting, pending, resolving, published)
    }

    /** The session is where its turn steps have brought it. */
    ghost predicate TurnsRun()
      reads `turn, `running, `interrupted, `echoed, `turnFailed, `turnUsage, `turnCost, `turnStarted, `inFlight,
            `turnEvents, `turnRun
    {
      PiTurns.Legal(turnRun) && Turns() == PiTurns.After(turnRun) && turnEvents == PiTurns.Output(turnRun)
    }

    ghost predicate DialogsRun()
      reads `asked, `requesting, `pending, `resolving, `published, `dialogRun
    {
      PiDialogs.Legal(dialogRun) && Dialogs() == PiDialogs.After(dialogRun)
    }

    function Assembly(): PiStream.Assembly
      reads `messageID, `blockTools, `toolOutput
    {
      PiStream.Assembly(messageID, blockTools, toolOutput)
    }

    constructor ()
      ensures Turns() == PiTurns.FRESH && Dialogs() == PiDialogs.NONE_YET && Assembly() == PiStream.IDLE
      ensures turnEvents == [] && transcriptEvents == []
      ensures TurnsRun() && turnRun == [] && DialogsRun() && dialogRun == []
    {
      turn, running, interrupted, echoed, turnFailed := "", false, false, false, false;
      turnUsage, turnCost, turnStarted, inFlight := PiTurns.NOTHING, 0.0, 0, [];
      pending, asked, requesting, resolving, published := {}, [], {}, multiset{}, [];
      turnRun, dialogRun := [], [];
      messageID, blockTools, toolOutput := "", map[], map[];
      turnEvents, transcriptEvents := [], [];
    }

    /** Enters a step that has been made into the run. */
    ghost method Note(before: PiTurns.Turns, events: seq<PiTurns.Published>, step: PiTurns.Step)
      requires PiTurns.Legal(turnRun) && before == PiTurns.After(turnRun) && events == PiTurns.Output(turnRun)
      requires PiTurns.Enabled(before, step) && Turns() == PiTurns.Apply(before, step).0
      requires turnEvents == events + PiTurns.Apply(before, step).1
      modifies `turnRun
      ensures TurnsRun() && turnRun == old(turnRun) + [step]
    {
      PiTurns.OneMore(turnRun, step);
      turnRun := turnRun + [step];
    }

    /** The state a turn starts from, whoever opens it. */
    method BeginTurn(client: string, now: nat)
      modifies `turn, `running, `interrupted, `echoed, `turnUsage, `turnCost, `turnFailed, `turnStarted
      ensures Turns() == PiTurns.Open(old(Turns()), client, now)
    {
      turn, running, interrupted, echoed := client, true, false, false;
      turnUsage, turnCost, turnFailed := PiTurns.NOTHING, 0.0, false;
      turnStarted := now;
    }

    /** Claims the turn for a prompt, or refuses it as busy. */
    method ClaimTurn(client: string, now: nat) returns (busy: bool)
      requires TurnsRun()
      requires now > 0
      modifies `turn, `running, `interrupted, `echoed, `turnUsage, `turnCost, `turnFailed, `turnStarted, `inFlight,
          `turnRun
      ensures busy == old(running)
      ensures Turns() == PiTurns.Apply(old(Turns()), PiTurns.Claim(client, now)).0
      ensures TurnsRun() && turnRun == old(turnRun) + [PiTurns.Claim(client, now)]
    {
      if running {
        Note(old(Turns()), old(turnEvents), PiTurns.Claim(client, now));
        return true;
      }
      BeginTurn(client, now);
      inFlight := inFlight + [client];
      Note(old(Turns()), old(turnEvents), PiTurns.Claim(client, now));
      return false;
    }

    /** Pi took the prompt: its turn is announced. */
    method AcceptTurn(client: string, ghost k: nat)
      requires TurnsRun()
      requires k < |inFlight| && inFlight[k] == client
      modifies `turnEvents, `inFlight, `turnRun
      ensures var (t, events) := PiTurns.Apply(old(Turns()), PiTurns.Accept(k));
        Turns() == t && turnEvents == old(turnEvents) + events
      ensures TurnsRun() && turnRun == old(turnRun) + [PiTurns.Accept(k)]
    {
      inFlight := inFlight[..k] + inFlight[k + 1..];
      turnEvents := turnEvents + [PiTurns.Started(client)];
      Note(old(Turns()), old(turnEvents), PiTurns.Accept(k));
    }

    method AbandonTurn(ghost k: nat)
      requires TurnsRun()
      requires k < |inFlight|
      modifies `turn, `running, `interrupted, `turnStarted, `inFlight, `turnRun
      ensures Turns() == PiTurns.Apply(old(Turns()), PiTurns.Refuse(k)).0
      ensures TurnsRun() && turnRun == old(turnRun) + [PiTurns.Refuse(k)]
    {
      inFlight := inFlight[..k] + inFlight[k + 1..];
      var _ := ClearTurn();
      Note(old(Turns()), old(turnEvents), PiTurns.Refuse(k));
    }

    method OnAgentStart(now: nat)
      requires TurnsRun()
      requires now > 0
      modifies `turn, `running, `interrupted, `echoed, `turnUsage, `turnCost, `turnFailed, `turnStarted, `turnEvents,
          `turnRun
      ensures var (t, events) := PiTurns.Apply(old(Turns()), PiTurns.AgentStart(now));
        Turns() == t && turnEvents == old(turnEvents) + events
      ensures TurnsRun() && turnRun == old(turnRun) + [PiTurns.AgentStart(now)]
    {
      if running {
        Note(old(Turns()), old(turnEvents), PiTurns.AgentStart(now));
        return;
      }
      BeginTurn("", now);
      turnEvents := turnEvents + [PiTurns.Started("")];
      Note(old(Turns()), old(turnEvents), PiTurns.AgentStart(now));
    }

    method OnMessageStart(m: PiMapping.Message)
      modifies `messageID, `blockTools
      ensures Assembly() == PiStream.OnLine(old(Assembly()), PiStream.MessageStart(m)).0
    {
      if m.role.AssistantRole? {
        messageID := PiMapping.MessageID(m);
        blockTools := map[];
      }
    }

    method OnMessageUpdate(update: PiStream.Update)
      modifies `blockTools, `transcriptEvents
      ensures var (t, events) := PiStream.OnUpdate(old(Assembly()), update);
        Assembly() == t && transcriptEvents == old(transcriptEvents) + events
    {
      if update.CallStart? {
        blockTools := blockTools[update.index := update.id];
      }
      match update {
        case TextUpdate(index, delta) =>
          transcriptEvents := transcriptEvents + [TextDelta(messageID, index, delta, "")];
        case ThinkingUpdate(index, delta) =>
          transcriptEvents := transcriptEvents + [ThinkingDelta(messageID, index, delta, "")];
        case CallStart(index, id, name) =>
          transcriptEvents :=
            transcriptEvents + [ToolUseStart(messageID, index, id, name, PiMapping.ToolKind(name), "")];
        case CallDelta(index, delta) =>
          if index in blockTools && blockTools[index] != "" {
            transcriptEvents := transcriptEvents + [ToolInputDelta(blockTools[index], delta)];
          }
        case CallEnd(id, arguments) =>
          var input := if arguments == "" then "{}" else arguments;
          transcriptEvents := transcriptEvents + [ToolUseEnd(id, input)];
      }
    }

    /** The owner's prompt comes back as the turn's first user message. */
    method EchoPrompt() returns (client: string)
      requires TurnsRun()
      modifies `echoed, `turnEvents, `turnRun
      ensures client == if old(echoed) then "" else turn
      ensures var (t, events) := PiTurns.Apply(old(Turns()), PiTurns.UserEnd);
        Turns() == t && turnEvents == old(turnEvents) + events
      ensures TurnsRun() && turnRun == old(turnRun) + [PiTurns.UserEnd]
    {
      client := "";
      if !echoed {
        client := turn;
      }
      echoed := true;
      turnEvents := turnEvents + [PiTurns.Echoed(client)];
      Note(old(Turns()), old(turnEvents), PiTurns.UserEnd);
    }

    /** A reply adds to what the turn has spent. */
    method CountReply(reply: PiTurns.Reply)
      requires TurnsRun()
      modifies `turnUsage, `turnCost, `turnFailed, `turnEvents, `turnRun
      ensures var (t, events) := PiTurns.Apply(old(Turns()), PiTurns.AssistantEnd(reply));
        Turns() == t && turnEvents == old(turnEvents) + events
      ensures TurnsRun() && turnRun == old(turnRun) + [PiTurns.AssistantEnd(reply)]
    {
      if reply.usage.Some? {
        turnUsage := PiTurns.Add(turnUsage, reply.usage.value);
        turnCost := turnCost + reply.cost;
        turnEvents := turnEvents + [PiTurns.Spent(turn, turnUsage)];
      }
      if reply.failed {
        turnFailed := true;
      }
      Note(old(Turns()), old(turnEvents), PiTurns.AssistantEnd(reply));
    }

    /** The entry a message becomes, and the error it failed with. */
    method PublishMessage(m: PiMapping.Message, client: string, code: string)
      modifies `toolOutput, `transcriptEvents
      ensures var (t, events) := PiStream.OnMessageEnd(old(Assembly()), m, client, code);
        Assembly() == t && transcriptEvents == old(transcriptEvents) + events
    {
      if m.role.ToolResultRole? {
        toolOutput := toolOutput - {m.toolCallID};
      }
      transcriptEvents := transcriptEvents + PiMapping.MessageEntry(m, client);
      if m.role.AssistantRole? && m.failed {
        var message := if m.errorMessage != "" then m.errorMessage else "pi reported an error without a message";
        transcriptEvents := transcriptEvents + [StreamError(code, message, false)];
      }
    }

    /** What a message that ended means for its turn, and the prompt it echoes. */
    method CountMessage(m: PiMapping.Message, reply: PiTurns.Reply) returns (client: string)
      requires TurnsRun()
      modifies `echoed, `turnUsage, `turnCost, `turnFailed, `turnEvents, `turnRun
      ensures client == if m.role.UserRole? && !old(echoed) then turn else ""
      ensures TurnsRun()
      ensures turnRun == old(turnRun) + (if m.role.UserRole? then [PiTurns.UserEnd]
                                         else if m.role.AssistantRole? then [PiTurns.AssistantEnd(reply)] else [])
    {
      client := "";
      if m.role.UserRole? {
        client := EchoPrompt();
      } else if m.role.AssistantRole? {
        CountReply(reply);
      }
    }

    /** Settles one message. */
    method OnMessageEnd(m: PiMapping.Message, reply: PiTurns.Reply, code: string)
      requires TurnsRun() && reply.failed == m.failed
      modifies `echoed, `turnUsage, `turnCost, `turnFailed, `toolOutput, `turnEvents, `transcriptEvents, `turnRun
      ensures TurnsRun()
      ensures turnRun == old(turnRun) + (if m.role.UserRole? then [PiTurns.UserEnd]
                                         else if m.role.AssistantRole? then [PiTurns.AssistantEnd(reply)] else [])
      ensures var client := if m.role.UserRole? && !old(echoed) then old(turn) else "";
        var (t, events) := PiStream.OnMessageEnd(old(Assembly()), m, client, code);
        Assembly() == t && transcriptEvents == old(transcriptEvents) + events
    {
      var client := CountMessage(m, reply);
      PublishMessage(m, client, code);
    }

    method OnToolUpdate(toolCallID: string, snapshot: string)
      modifies `toolOutput, `transcriptEvents
      ensures var (t, events) := PiStream.OnToolUpdate(old(Assembly()), toolCallID, snapshot);
        Assembly() == t && transcriptEvents == old(transcriptEvents) + events
    {
      if toolCallID == "" {
        return;
      }
      var previous := if toolCallID in toolOutput then toolOutput[toolCallID] else "";
      toolOutput := toolOutput[toolCallID := snapshot];
      var delta := snapshot;
      if previous <= snapshot {
        delta := snapshot[|previous|..];
      }
      if delta == "" {
        return;
      }
      transcriptEvents := transcriptEvents + [ToolOutputDelta(toolCallID, delta)];
    }

    method TurnStatus() returns (status: PiTurns.Status)
      ensures status == PiTurns.Verdict(Turns())
      ensures status == PiTurns.Interrupted <==> interrupted
      ensures status == PiTurns.Failed <==> turnFailed && !interrupted
    {
      status := PiTurns.Completed;
      if interrupted {
        status := PiTurns.Interrupted;
      } else if turnFailed {
        status := PiTurns.Failed;
      }
    }

    /** Closes the turn with its summary. */
    method FinishTurn()
      modifies `turn, `running, `interrupted, `turnStarted, `messageID, `blockTools, `turnEvents
      ensures var (t, events) := PiTurns.Apply(old(Turns()), PiTurns.Settled);
        Turns() == t && turnEvents == old(turnEvents) + events
      ensures Assembly() == if old(running) then PiStream.OnLine(old(Assembly()), PiStream.AgentSettled).0
                            else old(Assembly())
    {
      if !running {
        return;
      }
      var status := TurnStatus();
      var finished := PiTurns.Finished(turn, status, turnUsage, turnCost);
      var _ := ClearTurn();
      messageID, blockTools := "", map[];
      turnEvents := turnEvents + [finished];
    }

    method CloseTurn()
      requires TurnsRun()
      modifies `turn, `running, `interrupted, `turnStarted, `messageID, `blockTools, `turnEvents, `turnRun
      ensures TurnsRun() && turnRun == old(turnRun) + [PiTurns.Settled]
      ensures Assembly() == if old(running) then PiStream.OnLine(old(Assembly()), PiStream.AgentSettled).0
                            else old(Assembly())
    {
      FinishTurn();
      Note(old(Turns()), old(turnEvents), PiTurns.Settled);
    }

    method OnSettled()
      requires TurnsRun() && DialogsRun()
      modifies `pending, `resolving, `published, `dialogRun
      modifies `turn, `running, `interrupted, `turnStarted, `messageID, `blockTools, `turnEvents, `turnRun
      ensures DialogsRun() && pending == {} && Cancelled(old(dialogRun), old(pending), dialogRun)
      ensures TurnsRun() && turnRun == old(turnRun) + [PiTurns.Settled]
      ensures Assembly() == if old(running) then PiStream.OnLine(old(Assembly()), PiStream.AgentSettled).0
                            else old(Assembly())
    {
      CancelPending();
      assert Turns() == old(Turns()) && TurnsRun();
      CloseTurn();
      assert DialogsRun();
    }

    method ClearTurn() returns (wasRunning: bool)
      modifies `turn, `running, `interrupted, `turnStarted
      ensures wasRunning == old(running) && Turns() == PiTurns.Close(old(Turns()))
    {
      wasRunning := running;
      turn, running, interrupted := "", false, false;
      turnStarted := 0;
    }

    method OnExit()
      requires TurnsRun() && DialogsRun()
      modifies `pending, `resolving, `published, `dialogRun
      modifies `turn, `running, `interrupted, `turnStarted, `turnEvents, `turnRun
      ensures DialogsRun() && pending == {} && Cancelled(old(dialogRun), old(pending), dialogRun)
      ensures TurnsRun() && turnRun == old(turnRun) + [PiTurns.Exit]
    {
      var wasRunning := ClearTurn();
      CancelPending();
      ReportExit(wasRunning, old(Turns()));
    }

    method ReportExit(wasRunning: bool, ghost before: PiTurns.Turns)
      requires PiTurns.Legal(turnRun) && before == PiTurns.After(turnRun) && turnEvents == PiTurns.Output(turnRun)
      requires wasRunning == before.running && Turns() == PiTurns.Close(before)
      modifies `turnEvents, `turnRun
      ensures TurnsRun() && turnRun == old(turnRun) + [PiTurns.Exit]
    {
      if wasRunning {
        turnEvents := turnEvents + [PiTurns.HarnessExited];
      }
      Note(before, old(turnEvents), PiTurns.Exit);
    }

    method MarkInterrupted()
      requires TurnsRun()
      modifies `interrupted, `turnRun
      ensures TurnsRun() && turnRun == old(turnRun) + [PiTurns.Interrupt]
    {
      if running {
        interrupted := true;
      }
      Note(old(Turns()), old(turnEvents), PiTurns.Interrupt);
    }

    /** Marks the turn; with a live process the dialogs are cancelled too. */
    method OnInterrupt(alive: bool)
      requires TurnsRun() && DialogsRun()
      modifies `pending, `resolving, `published, `dialogRun, `interrupted, `turnRun
      ensures DialogsRun()
      ensures alive && running ==> pending == {} && Cancelled(old(dialogRun), old(pending), dialogRun)
      ensures !(alive && running) ==> pending == old(pending) && dialogRun == old(dialogRun)
      ensures TurnsRun() && turnRun == old(turnRun) + [PiTurns.Interrupt]
    {
      MarkInterrupted();
      if alive && running {
        CancelPending();
      }
    }

    /** A dialog comes: under the lock it becomes pending. */
    method AskDialog(id: string)
      requires DialogsRun() && id !in asked
      modifies `pending, `asked, `requesting, `dialogRun
      ensures DialogsRun() && dialogRun == old(dialogRun) + [PiDialogs.Ask(id)]
    {
      pending := pending + {id};
      asked, requesting := asked + [id], requesting + {id};
      PiDialogs.OneMore(dialogRun, PiDialogs.Ask(id));
      dialogRun := dialogRun + [PiDialogs.Ask(id)];
    }

    /** Once the lock is released its request is published. */
    method AnnounceDialog(id: string)
      requires DialogsRun() && id in requesting
      modifies `requesting, `published, `dialogRun
      ensures DialogsRun() && dialogRun == old(dialogRun) + [PiDialogs.Request(id)]
    {
      published := published + [PiDialogs.Requested(id)];
      requesting := requesting - {id};
      PiDialogs.OneMore(dialogRun, PiDialogs.Request(id));
      dialogRun := dialogRun + [PiDialogs.Request(id)];
    }

    method OnUIRequest(id: string)
      requires DialogsRun() && id !in asked
      modifies `pending, `asked, `requesting, `published, `dialogRun
      ensures DialogsRun() && dialogRun == old(dialogRun) + [PiDialogs.Ask(id)] + [PiDialogs.Request(id)]
    {
      AskDialog(id);
      assert requesting == PiDialogs.After(dialogRun).requesting;
      AnnounceDialog(id);
    }

    /** Takes one dialog under the lock; false says it was not pending. */
    method TakeDialog(id: string) returns (won: bool)
      requires DialogsRun()
      modifies `pending, `resolving, `dialogRun
      ensures won == (id in old(pending))
      ensures resolving == old(resolving) + if won then multiset{id} else multiset{}
      ensures DialogsRun() && dialogRun == old(dialogRun) + [PiDialogs.Respond(id)]
    {
      won := id in pending;
      pending := pending - {id};
      if won {
        resolving := resolving + multiset{id};
      }
      PiDialogs.OneMore(dialogRun, PiDialogs.Respond(id));
      dialogRun := dialogRun + [PiDialogs.Respond(id)];
    }

    method ResolveDialog(id: string)
      requires DialogsRun() && id in resolving
      modifies `resolving, `published, `dialogRun
      ensures DialogsRun() && dialogRun == old(dialogRun) + [PiDialogs.Resolve(id)]
      ensures resolving == old(resolving) - multiset{id}
      ensures published == old(published) + [PiDialogs.Resolved(id)]
    {
      published := published + [PiDialogs.Resolved(id)];
      resolving := resolving - multiset{id};
      PiDialogs.OneMore(dialogRun, PiDialogs.Resolve(id));
      dialogRun := dialogRun + [PiDialogs.Resolve(id)];
    }

    /** Answers one dialog; false says it was not pending. */
    method Respond(id: string) returns (won: bool)
      requires DialogsRun()
      modifies `pending, `resolving, `published, `dialogRun
      ensures won == (id in old(pending))
      ensures DialogsRun()
      ensures dialogRun == old(dialogRun) + [PiDialogs.Respond(id)] + if won then [PiDialogs.Resolve(id)] else []
    {
      won := TakeDialog(id);
      if won {
        ResolveDialog(id);
      }
    }

    /** Resolves dialogs that were taken, one by one. */
    method ResolveEach(ids: set<string>)
      requires DialogsRun() && multiset(ids) <= resolving
      modifies `resolving, `published, `dialogRun
      ensures DialogsRun() && resolving == old(resolving) - multiset(ids)
      ensures EachResolved(old(dialogRun), ids, dialogRun)
    {
      var waiting := ids;
      EachOfNone(dialogRun);
      while waiting != {}
        invariant DialogsRun() && waiting <= ids
        invariant resolving == old(resolving) - multiset(ids - waiting)
        invariant EachResolved(old(dialogRun), ids - waiting, dialogRun)
        decreases |waiting|
      {
        var id :| id in waiting;
        TakenStill(old(resolving), ids, waiting, id);
        EachMore(old(dialogRun), ids - waiting, dialogRun, id);
        ResolveDialog(id);
        waiting := waiting - {id};
      }
      assert ids - waiting == ids;
    }

    /** Takes every pending dialog at once, then resolves them. */
    method CancelPending()
      requires DialogsRun()
      modifies `pending, `resolving, `published, `dialogRun
      ensures DialogsRun() && pending == {} && resolving == old(resolving)
      ensures Cancelled(old(dialogRun), old(pending), dialogRun)
    {
      var waiting := pending;
      pending := {};
      resolving := resolving + multiset(waiting);
      PiDialogs.OneMore(dialogRun, PiDialogs.CancelPending);
      dialogRun := dialogRun + [PiDialogs.CancelPending];
      ResolveEach(waiting);
    }
  }
}
