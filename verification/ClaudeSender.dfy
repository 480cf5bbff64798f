/**
 A claude thread on the screen of the client whose prompts they are, which shows them
 before the session has sent them: starting claude can take long.
 */
module ClaudeSender {

  import opened Basics
  import opened Transcript
  import opened Trees
  import opened PromptNames
  import opened OwnPrompts
  import opened ClaudeScreen
  import Runs = TranscriptRuns
  import Live = ClaudeLive
  import ClaudeOrder

  /** What the session prints or is sent, and what the client shows by itself. */
  datatype Move = Did(step: Live.Step) | Own(client: string, blocks: seq<UserBlock>)

  function StepsOf(moves: seq<Move>): seq<Live.Step> {
    if moves == [] then []
    else StepsOf(moves[..|moves| - 1]) + if moves[|moves| - 1].Did? then [moves[|moves| - 1].step] else []
  }

  function MoveActions(before: seq<Move>, move: Move): seq<Runs.Action> {
    match move
    case Did(step) => Received(Live.StepEvents(StepsOf(before), step))
    case Own(client, blocks) => [Runs.Show(client, blocks)]
  }

  /** The run of the client. */
  function RunOf(moves: seq<Move>): seq<Runs.Action> {
    if moves == [] then [] else RunOf(moves[..|moves| - 1]) + MoveActions(moves[..|moves| - 1], moves[|moves| - 1])
  }

  /** The prompts are the moves' own, not the steps'. */
  predicate NotMine(moves: seq<Move>) {
    forall move <- moves :: move.Did? && move.step.Prompt? ==> !move.step.mine
  }

  lemma {:induction false} WatchedIsClient(moves: seq<Move>)
    requires NotMine(moves)
    ensures Watched(RunOf(moves)) == Live.Client(StepsOf(moves))
  {
    if moves != [] {
      var before, move := moves[..|moves| - 1], moves[|moves| - 1];
      assert forall other <- before :: other in moves;
      WatchedIsClient(before);
      match move {
        case Own(client, blocks) =>
          RunGrows(RunOf(before), Runs.Show(client, blocks));
          assert StepsOf(before) + [] == StepsOf(before);
        case Did(step) =>
          WatchedMore(RunOf(before), Live.StepEvents(StepsOf(before), step));
          Live.ClientSnoc(StepsOf(before), step);
          assert move in moves;
      }
    }
  }

  /** With every prompt echoed, their client shows what a watcher shows exactly when
      nothing came on screen past a prompt that waited; and then it shows what the
      file replays exactly when every step landed for the watcher. */
  lemma SenderEqualsReplay(moves: seq<Move>, names: map<string, string>)
    requires NotMine(moves) && AllFair(RunOf(moves)) && Queue(RunOf(moves)) == []
    requires Live.Complete(StepsOf(moves)) && Live.OfPrompts(names, StepsOf(moves))
    requires InOrder(Live.Sent(StepsOf(moves))) && InOrder(Live.LinesOf(StepsOf(moves), names))
    ensures var run, steps := RunOf(moves), StepsOf(moves);
      && (Named(Runs.After(run), Names(run)) == Live.Client(steps) <==> AllLand(run))
      && (AllLand(run) ==>
            (Fold(EMPTY, History(Live.LinesOf(steps, names))) == Named(Named(Runs.After(run), Names(run)), names)
             <==> Live.InPlace(steps)))
  {
    WatchedIsClient(moves);
    SenderShowsWatched(RunOf(moves));
    ClaudeOrder.LiveEqualsReplay(StepsOf(moves), names);
  }

  /** A run the theorem is about, in which every step lands. */
  ghost predicate Lands(moves: seq<Move>) {
    && NotMine(moves) && AllFair(RunOf(moves)) && Queue(RunOf(moves)) == [] && AllLand(RunOf(moves))
    && Live.Complete(StepsOf(moves)) && Live.InPlace(StepsOf(moves))
  }

  /** A prompt that is shown, and then sent and echoed, is such a run. */
  lemma EchoedLater(client: string, blocks: seq<UserBlock>)
    requires client != "" && UserBlocks(blocks) != []
    ensures Lands([Own(client, blocks), Did(Live.Prompt(client, blocks, false))])
  {
    var own, did := Own(client, blocks), Did(Live.Prompt(client, blocks, false));
    TwoMoves(own, did);
    ShownThenEchoed([own, did], did.step);
  }

  lemma ShownThenEchoed(moves: seq<Move>, step: Live.Step)
    requires StepsOf(moves) == [step] && step.Prompt? && step.client != "" && !step.mine
    requires RunOf(moves) == [Runs.Show(step.client, step.blocks), Runs.Receive(Echo(step))]
    requires UserBlocks(step.blocks) != [] && NotMine(moves)
    ensures Lands(moves)
  {
    OnePrompt(step);
    OneEcho(step.client, step.blocks);
  }

  function Echo(step: Live.Step): Event
    requires step.Prompt?
  {
    UserMessage(PromptID(step.client), step.blocks, step.client, "")
  }

  lemma TwoMoves(own: Move, did: Move)
    requires own.Own? && did.Did? && did.step.Prompt?
    ensures StepsOf([own, did]) == [did.step]
    ensures RunOf([own, did]) == [Runs.Show(own.client, own.blocks), Runs.Receive(Echo(did.step))]
  {
    MoveGrows([], own);
    MoveGrows([own], did);
    assert [] + [own] == [own] && [own] + [did] == [own, did];
    ReceivedOne(Echo(did.step));
  }

  lemma MoveGrows(before: seq<Move>, move: Move)
    ensures StepsOf(before + [move]) == StepsOf(before) + if move.Did? then [move.step] else []
    ensures RunOf(before + [move]) == RunOf(before) + MoveActions(before, move)
  {
    assert (before + [move])[..|before|] == before;
  }

  lemma ReceivedOne(e: Event)
    ensures Received([e]) == [Runs.Receive(e)]
  {
    ReceivedGrows([], [], e);
    assert [] + [e] == [e] && [] + Received([e]) == Received([e]) && Received([]) == [];
  }

  lemma OnePrompt(step: Live.Step)
    requires step.Prompt? && step.client != "" && !step.mine && UserBlocks(step.blocks) != []
    ensures Live.Complete([step]) && Live.InPlace([step])
  {
    var steps := [step];
    assert steps[..|steps| - 1] == [] && steps[|steps| - 1] == step;
    assert Live.EarlyIn([]) == [];
    assert Live.Fits([], Live.ToldBy(steps)) && Live.InPlace([]);
  }

  lemma OneEcho(client: string, blocks: seq<UserBlock>)
    requires client != "" && UserBlocks(blocks) != []
    ensures var run := [Runs.Show(client, blocks), Runs.Receive(UserMessage(PromptID(client), blocks, client, ""))];
      AllFair(run) && Queue(run) == [] && AllLand(run)
  {
    var show, echo := Runs.Show(client, blocks), Runs.Receive(UserMessage(PromptID(client), blocks, client, ""));
    ShownFirst(client, blocks);
    RunGrows([show], echo);
    assert [show] + [echo] == [show, echo];
  }
}
