/**
 What claude prints is on screen as it prints it.
 */
module ClaudeWriting {

  import opened Basics
  import opened Transcript
  import opened Trees
  import opened ToolTree
  import opened Sieves
  import opened ClaudeAssembly
  import opened ClaudeScreen
  import opened ClaudeLive
  import S = Streaming

  // ------------------------------------------------------------ texts and thoughts

  predicate Written(step: Step) { step.Say? || step.Think? }

  ghost predicate AllWritten(more: seq<Step>) { forall i | 0 <= i < |more| :: Written(more[i]) }

  lemma WrittenBut(more: seq<Step>)
    requires AllWritten(more) && more != []
    ensures AllWritten(more[..|more| - 1]) && Written(more[|more| - 1])
  {
  }

  function PieceOf(step: Step, m: string): Event
    requires Written(step)
  {
    if step.Say? then TextDelta(m, step.index, step.text, "") else ThinkingDelta(m, step.index, step.text, "")
  }

  /** The pieces of a message, texts as texts and thoughts as thoughts. */
  ghost function Pieced(more: seq<Step>, m: string): (r: seq<Event>)
    requires AllWritten(more)
    ensures S.Pieces(r, m)
  {
    if more == [] then [] else Pieced(more[..|more| - 1], m) + [PieceOf(more[|more| - 1], m)]
  }

  lemma OneStep(steps: seq<Step>, step: Step)
    ensures Client(steps + [step]) == Fold(WithOwn(Client(steps), step), StepEvents(steps, step))
  {
    assert (steps + [step])[..|steps|] == steps;
  }

  lemma WrittenIs(steps: seq<Step>, step: Step)
    requires Written(step)
    ensures StepEvents(steps, step) == [PieceOf(step, Now(steps).messageID)]
    ensures Now(steps + [step]) == Now(steps) && WithOwn(Client(steps), step) == Client(steps)
  {
    assert (steps + [step])[..|steps|] == steps;
  }

  /** What is on screen after some pieces. */
  ghost predicate Continues(steps: seq<Step>, on: seq<Step>, es: seq<Event>) {
    Now(on) == Now(steps) && Client(on) == Fold(Client(steps), es)
  }

  lemma {:induction false} WrittenAsPieces(steps: seq<Step>, more: seq<Step>)
    requires AllWritten(more)
    ensures Continues(steps, steps + more, Pieced(more, Now(steps).messageID))
    decreases |more|
  {
    if more == [] {
      assert steps + [] == steps;
    } else {
      var before, step := more[..|more| - 1], more[|more| - 1];
      WrittenBut(more);
      WrittenAsPieces(steps, before);
      WrittenOne(steps, steps + before, step, Pieced(before, Now(steps).messageID));
      PiecedMore(before, step, Now(steps).messageID);
      Rejoined(steps, before, more);
    }
  }

  lemma Rejoined(steps: seq<Step>, before: seq<Step>, more: seq<Step>)
    requires more != [] && before == more[..|more| - 1]
    ensures steps + more == (steps + before) + [more[|more| - 1]] && more == before + [more[|more| - 1]]
  {
  }

  lemma WrittenOne(steps: seq<Step>, on: seq<Step>, step: Step, es: seq<Event>)
    requires Written(step) && Continues(steps, on, es)
    ensures Continues(steps, on + [step], es + [PieceOf(step, Now(steps).messageID)])
  {
    OneStep(on, step);
    WrittenIs(on, step);
    FoldAppend(Client(steps), es, [PieceOf(step, Now(steps).messageID)]);
  }

  lemma PiecedMore(more: seq<Step>, step: Step, m: string)
    requires Written(step) && AllWritten(more)
    ensures Pieced(more + [step], m) == Pieced(more, m) + [PieceOf(step, m)]
  {
    assert (more + [step])[..|more|] == more;
  }

  /** Whatever a client has on screen, what claude prints next of its message goes behind
      what is there of it, each position with its own, texts as texts and thoughts as
      thoughts, and nothing else on screen changes. */
  lemma WritingShows(steps: seq<Step>, more: seq<Step>)
    requires AllWritten(more)
    ensures var m, t, after := Now(steps).messageID, Client(steps), Client(steps + more);
      && after.seen == t.seen && S.Beside(t.items, after.items, m)
      && S.Streamed(S.PartsOf(t.items, m), S.PartsOf(after.items, m), Pieced(more, m))
  {
    WrittenAsPieces(steps, more);
    S.PiecesAccumulate(Client(steps), Pieced(more, Now(steps).messageID), Now(steps).messageID);
  }

  /** The message printed is the one that started last. */
  lemma {:induction false} StartedLast(steps: seq<Step>, k: nat)
    requires k < |steps| && steps[k].Start? && forall i | k < i < |steps| :: !steps[i].Start?
    ensures Now(steps).messageID == steps[k].messageID
  {
    if k < |steps| - 1 {
      StartedLast(steps[..|steps| - 1], k);
    }
  }

  // ------------------------------------------------------------------------ calls

  function Filling(index: nat, texts: seq<string>): seq<Step> {
    if texts == [] then [] else Filling(index, texts[..|texts| - 1]) + [Fill(index, texts[|texts| - 1])]
  }

  lemma FillIs(steps: seq<Step>, index: nat, text: string, id: string)
    requires id != "" && index in Now(steps).tools && Now(steps).tools[index] == id
    ensures Now(steps + [Fill(index, text)]) == Now(steps)
    ensures Client(steps + [Fill(index, text)]) == Apply(Client(steps), ToolInputDelta(id, text))
  {
    OneStep(steps, Fill(index, text));
    FoldOne(Client(steps), ToolInputDelta(id, text));
    assert (steps + [Fill(index, text)])[..|steps|] == steps;
  }

  lemma {:induction false} FillingIsInput(steps: seq<Step>, index: nat, id: string, texts: seq<string>)
    requires id != "" && index in Now(steps).tools && Now(steps).tools[index] == id
    ensures Now(steps + Filling(index, texts)) == Now(steps)
    ensures Client(steps + Filling(index, texts)) == Fold(Client(steps), S.Inputs(id, texts))
    decreases |texts|
  {
    if texts == [] {
      assert steps + [] == steps;
    } else {
      var before, text := texts[..|texts| - 1], texts[|texts| - 1];
      FillingIsInput(steps, index, id, before);
      assert steps + Filling(index, texts) == (steps + Filling(index, before)) + [Fill(index, text)];
      FillIs(steps + Filling(index, before), index, text, id);
      assert S.Inputs(id, texts)[..|S.Inputs(id, texts)| - 1] == S.Inputs(id, before);
    }
  }

  lemma OpenIs(steps: seq<Step>, step: Step)
    requires step.Open?
    ensures var now := Now(steps + [step]);
      && now.messageID == Now(steps).messageID && step.index in now.tools && now.tools[step.index] == step.toolUseID
      && Client(steps + [step])
         == Apply(Client(steps), ToolUseStart(now.messageID, step.index, step.toolUseID, step.name, step.kind, ""))
  {
    OneStep(steps, step);
    assert (steps + [step])[..|steps|] == steps;
    FoldOne(Client(steps), StepEvents(steps, step)[0]);
    assert StepEvents(steps, step) == [StepEvents(steps, step)[0]];
  }

  /** A call claude begins at a new position is on screen at once, and what comes of its
      input stands there one piece behind the other. */
  lemma CallShows(steps: seq<Step>, step: Step, texts: seq<string>)
    requires step.Open? && step.toolUseID != "" && FindTool(Client(steps).items, step.toolUseID).None?
    requires step.index >= |S.PartsOf(Client(steps).items, Now(steps).messageID)|
    ensures FindTool(Client(steps + [step] + Filling(step.index, texts)).items, step.toolUseID)
            == Some(Tool(step.toolUseID, step.name, step.kind, "{}", Some(S.Joined(texts)), None, None, []))
  {
    OpenIs(steps, step);
    FillingIsInput(steps + [step], step.index, step.toolUseID, texts);
    var m := Now(steps).messageID;
    var start := ToolUseStart(m, step.index, step.toolUseID, step.name, step.kind, "");
    S.StartShows(Client(steps), start, m);
    S.InputFound(Apply(Client(steps), start), step.toolUseID, texts,
                 Tool(step.toolUseID, step.name, step.kind, "{}", Some(""), None, None, []));
    assert "" + S.Joined(texts) == S.Joined(texts);
  }

  predicate EndsCall(raw: ContentBlock, e: Event) { raw.ToolUse? && e == ToolUseEnd(raw.id, raw.input) }

  lemma {:induction false} EndsAreSieved(content: seq<ContentBlock>)
    ensures Sieved(content, Ends(content), EndsCall)
  {
    if content == [] {
      NothingSieved(EndsCall);
    } else {
      var before, last := content[..|content| - 1], content[|content| - 1];
      EndsAreSieved(before);
      assert content == before + [last];
      if last.ToolUse? {
        KeepsLast(before, Ends(before), last, ToolUseEnd(last.id, last.input), EndsCall);
      } else {
        SkipsLast(before, Ends(before), last, EndsCall);
        assert Ends(before) + [] == Ends(before);
      }
    }
  }

  lemma ToldSoFar(before: seq<Line>, line: Line)
    requires line.AssistantLine?
    ensures Whole(AssembledAfter(before), line.messageID) + line.content
            == Told((before + [line])[TurnStart(before)..], line.messageID)
  {
    AssembledIsTold(before, line.messageID);
    var turn := before[TurnStart(before)..];
    assert (before + [line])[TurnStart(before)..] == turn + [line];
    assert (turn + [line])[..|turn|] == turn;
  }

  /** A line of a message completes each of its calls, in order, and then tells the whole
      message of the turn so far. */
  lemma LineTells(steps: seq<Step>, line: Line) returns (ends: seq<Event>, whole: seq<ContentBlock>)
    requires line.AssistantLine?
    ensures StepEvents(steps, Printed(line)) == ends + [AssistantMessage(line.messageID, whole, "")]
    ensures Sieved(line.content, ends, EndsCall)
    ensures whole == Told((Sent(steps) + [line])[TurnStart(Sent(steps))..], line.messageID)
  {
    EndsAreSieved(line.content);
    ToldSoFar(Sent(steps), line);
    ends := Ends(line.content);
    whole := Whole(AssembledAfter(Sent(steps)), line.messageID) + line.content;
  }

  /** Once a turn has its result nothing streams any more on any client, whatever was left
      half said. */
  lemma ResultIsStill(steps: seq<Step>)
    ensures Still(Client(steps + [Printed(ResultLine)]).items)
  {
    OneStep(steps, Printed(ResultLine));
    FoldOne(Client(steps), TurnFinished);
    StopIsStill(Client(steps).items);
  }
}
