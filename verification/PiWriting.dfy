/**
 What pi writes is on screen as it writes it.
 */
module PiWriting {

  import opened Basics
  import opened Transcript
  import opened Trees
  import opened ToolTree
  import opened Streaming
  import opened PiMapping
  import opened PiStream
  import opened PiLive
  import PiScreen

  // ------------------------------------------------------------ texts and thoughts

  predicate Written(u: Update) { u.TextUpdate? || u.ThinkingUpdate? }

  function PieceOf(u: Update, m: string): Event
    requires Written(u)
  {
    if u.TextUpdate? then TextDelta(m, u.index, u.delta, "") else ThinkingDelta(m, u.index, u.delta, "")
  }

  /** The pieces of a message, texts as texts and thoughts as thoughts. */
  function Pieced(us: seq<Update>, m: string): (r: seq<Event>)
    requires forall u <- us :: Written(u)
    ensures Pieces(r, m)
  {
    if us == [] then [] else Pieced(us[..|us| - 1], m) + [PieceOf(us[|us| - 1], m)]
  }

  function Updating(us: seq<Update>): seq<Line> {
    if us == [] then [] else Updating(us[..|us| - 1]) + [MessageUpdate(us[|us| - 1])]
  }

  lemma OneLine(lines: seq<Line>, line: Line)
    ensures Live(lines + [line]) == Live(lines) + OnLine(AssemblyAfter(lines), line).1
    ensures AssemblyAfter(lines + [line]) == OnLine(AssemblyAfter(lines), line).0
  {
    assert (lines + [line])[..|lines|] == lines;
  }

  lemma UpdateTold(on: seq<Line>, u: Update, told: seq<Event>, more: seq<Event>)
    requires Live(on) == told + more
    ensures Live(on + [MessageUpdate(u)]) == told + (more + OnUpdate(AssemblyAfter(on), u).1)
    ensures AssemblyAfter(on + [MessageUpdate(u)]) == OnUpdate(AssemblyAfter(on), u).0
  {
    OneLine(on, MessageUpdate(u));
    Associates(told, more, OnUpdate(AssemblyAfter(on), u).1);
  }

  lemma UpdatingMore(lines: seq<Line>, us: seq<Update>, u: Update)
    ensures lines + Updating(us + [u]) == lines + Updating(us) + [MessageUpdate(u)]
  {
    assert (us + [u])[..|us|] == us;
    Associates(lines, Updating(us), [MessageUpdate(u)]);
  }

  lemma WrittenIs(s: Assembly, u: Update)
    requires Written(u)
    ensures OnUpdate(s, u) == (s, [PieceOf(u, s.messageID)])
  {
  }

  lemma PiecedMore(us: seq<Update>, u: Update, m: string)
    requires Written(u) && forall x <- us :: Written(x)
    ensures Pieced(us + [u], m) == Pieced(us, m) + [PieceOf(u, m)]
  {
    assert (us + [u])[..|us|] == us;
  }

  lemma {:induction false} WrittenAsPieces(lines: seq<Line>, us: seq<Update>)
    requires forall u <- us :: Written(u)
    ensures AssemblyAfter(lines + Updating(us)) == AssemblyAfter(lines)
    ensures Live(lines + Updating(us)) == Live(lines) + Pieced(us, AssemblyAfter(lines).messageID)
    decreases |us|
  {
    if us == [] {
      assert lines + [] == lines && Live(lines) + [] == Live(lines);
    } else {
      var before, u := us[..|us| - 1], us[|us| - 1];
      WrittenAsPieces(lines, before);
      var m := AssemblyAfter(lines).messageID;
      UpdatingMore(lines, before, u);
      WrittenIs(AssemblyAfter(lines), u);
      PiecedMore(before, u, m);
      UpdateTold(lines + Updating(before), u, Live(lines), Pieced(before, m));
      assert us == before + [u];
    }
  }

  /** Whatever else pi wrote before, what it writes next of its message goes behind what
      is there, each position with its own, texts as texts and thoughts as thoughts, and
      nothing else on screen changes. */
  lemma WritingShows(lines: seq<Line>, us: seq<Update>)
    requires WellFormed(lines) && ProgressAfter(lines).current.Some? && forall u <- us :: Written(u)
    ensures var m := MessageID(ProgressAfter(lines).current.value);
      var t, after := Fold(EMPTY, Live(lines)), Fold(EMPTY, Live(lines + Updating(us)));
      && after.seen == t.seen && Beside(t.items, after.items, m)
      && Streamed(PartsOf(t.items, m), PartsOf(after.items, m), Pieced(us, m))
  {
    var m := MessageID(ProgressAfter(lines).current.value);
    var v := TraceInStep(lines);
    WrittenAsPieces(lines, us);
    FoldAppend(EMPTY, Live(lines), Pieced(us, m));
    PiecesAccumulate(Fold(EMPTY, Live(lines)), Pieced(us, m), m);
  }

  // ------------------------------------------------------------------------ calls

  function Feeding(index: nat, texts: seq<string>): seq<Update> {
    if texts == [] then [] else Feeding(index, texts[..|texts| - 1]) + [CallDelta(index, texts[|texts| - 1])]
  }

  lemma FeedOne(on: seq<Line>, index: nat, text: string, id: string, told: seq<Event>, texts: seq<string>)
    requires id != "" && index in AssemblyAfter(on).blockTools && AssemblyAfter(on).blockTools[index] == id
    requires Live(on) == told + Inputs(id, texts)
    ensures AssemblyAfter(on + [MessageUpdate(CallDelta(index, text))]) == AssemblyAfter(on)
    ensures Live(on + [MessageUpdate(CallDelta(index, text))]) == told + Inputs(id, texts + [text])
  {
    UpdateTold(on, CallDelta(index, text), told, Inputs(id, texts));
    assert (texts + [text])[..|texts|] == texts;
  }

  lemma {:induction false} FeedingIsInput(lines: seq<Line>, index: nat, id: string, texts: seq<string>)
    requires id != "" && index in AssemblyAfter(lines).blockTools && AssemblyAfter(lines).blockTools[index] == id
    ensures AssemblyAfter(lines + Updating(Feeding(index, texts))) == AssemblyAfter(lines)
    ensures Live(lines + Updating(Feeding(index, texts))) == Live(lines) + Inputs(id, texts)
    decreases |texts|
  {
    if texts == [] {
      assert lines + [] == lines && Live(lines) + [] == Live(lines);
    } else {
      var before, text := texts[..|texts| - 1], texts[|texts| - 1];
      FeedingIsInput(lines, index, id, before);
      UpdatingMore(lines, Feeding(index, before), CallDelta(index, text));
      FeedOne(lines + Updating(Feeding(index, before)), index, text, id, Live(lines), before);
      assert texts == before + [text];
    }
  }

  lemma StartIsTold(lines: seq<Line>, index: nat, id: string, name: string)
    ensures var m, begun := AssemblyAfter(lines).messageID, lines + [MessageUpdate(CallStart(index, id, name))];
      && Live(begun) == Live(lines) + [ToolUseStart(m, index, id, name, ToolKind(name), "")]
      && index in AssemblyAfter(begun).blockTools && AssemblyAfter(begun).blockTools[index] == id
  {
    OneLine(lines, MessageUpdate(CallStart(index, id, name)));
  }

  lemma EndIsTold(lines: seq<Line>, id: string, arguments: string)
    ensures Live(lines + [MessageUpdate(CallEnd(id, arguments))])
            == Live(lines) + [ToolUseEnd(id, Arguments(arguments))]
  {
    OneLine(lines, MessageUpdate(CallEnd(id, arguments)));
  }

  /** A call pi begins at a new position is on screen at once, under its name; what comes
      of its input stands there one piece behind the other. */
  lemma CallShows(lines: seq<Line>, index: nat, id: string, name: string, texts: seq<string>)
    requires WellFormed(lines) && ProgressAfter(lines).current.Some? && id != ""
    requires FindTool(Fold(EMPTY, Live(lines)).items, id).None?
    requires index >= |PartsOf(Fold(EMPTY, Live(lines)).items, MessageID(ProgressAfter(lines).current.value))|
    ensures var fed := lines + [MessageUpdate(CallStart(index, id, name))] + Updating(Feeding(index, texts));
      var now := FindTool(Fold(EMPTY, Live(fed)).items, id);
      && now.Some? && PiScreen.Kind(name, now.value.kind)
      && now.value == Tool(id, name, now.value.kind, "{}", Some(Joined(texts)), None, None, [])
  {
    var m := MessageID(ProgressAfter(lines).current.value);
    var v := TraceInStep(lines);
    var begun := lines + [MessageUpdate(CallStart(index, id, name))];
    var start, t := ToolUseStart(m, index, id, name, ToolKind(name), ""), Fold(EMPTY, Live(lines));
    StartIsTold(lines, index, id, name);
    FeedingIsInput(begun, index, id, texts);
    CallFolds(EMPTY, Live(lines), start, id, texts);
    StartShows(t, start, m);
    InputFound(Apply(t, start), id, texts, Tool(id, name, ToolKind(name), "{}", Some(""), None, None, []));
    assert "" + Joined(texts) == Joined(texts);
  }

  /** Once the call is complete it shows the arguments as a whole. */
  lemma CallEndShows(lines: seq<Line>, id: string, arguments: string)
    requires FindTool(Fold(EMPTY, Live(lines)).items, id).Some?
    ensures var was := FindTool(Fold(EMPTY, Live(lines)).items, id).value;
      FindTool(Fold(EMPTY, Live(lines + [MessageUpdate(CallEnd(id, arguments))])).items, id)
      == Some(was.(input := if arguments == "" then "{}" else arguments, partialJson := None))
  {
    var t, e := Fold(EMPTY, Live(lines)), ToolUseEnd(id, Arguments(arguments));
    EndIsTold(lines, id, arguments);
    FoldAppend(EMPTY, Live(lines), [e]);
    FoldOne(t, e);
    FindIsFirst(t.items, id);
    EndFound(t, id, Arguments(arguments), FindTool(t.items, id).value);
  }

  // ------------------------------------------------------------ where it starts over

  /** Once pi has settled nothing streams any more, whatever it left half said. */
  lemma SettledIsStill(lines: seq<Line>)
    ensures Still(Fold(EMPTY, Live(lines + [AgentSettled])).items)
  {
    OneLine(lines, AgentSettled);
    EndsStill(EMPTY, Live(lines));
  }

  lemma EndsStill(t: State, told: seq<Event>)
    ensures Still(Fold(t, told + [TurnFinished]).items)
  {
    FoldAppend(t, told, [TurnFinished]);
    FoldOne(Fold(t, told), TurnFinished);
    StopIsStill(Fold(t, told).items);
  }

  /** A piece of input at a position whose call pi has not begun since its message
      started, or since it settled, is for no call. */
  lemma InputStartsOver(lines: seq<Line>, line: Line, index: nat, text: string)
    requires line.AgentSettled? || (line.MessageStart? && line.message.role.AssistantRole?)
    ensures Live(lines + [line] + [MessageUpdate(CallDelta(index, text))]) == Live(lines + [line])
  {
    OneLine(lines, line);
    OneLine(lines + [line], MessageUpdate(CallDelta(index, text)));
  }

  /** Once a tool has its result, output under its id is output from the start. */
  lemma OutputStartsOver(lines: seq<Line>, m: Message, client: string, code: string, snapshot: string)
    requires m.role.ToolResultRole? && m.toolCallID != "" && snapshot != ""
    ensures var ended := lines + [MessageEnd(m, client, code)];
      Live(ended + [ToolUpdate(m.toolCallID, snapshot)]) == Live(ended) + [ToolOutputDelta(m.toolCallID, snapshot)]
  {
    OneLine(lines, MessageEnd(m, client, code));
    OneLine(lines + [MessageEnd(m, client, code)], ToolUpdate(m.toolCallID, snapshot));
    assert snapshot[|""|..] == snapshot;
  }
}
