/**
 What a claude thread's transcript file looks like on screen: drawn entry by entry,
 and kept drawn as the entries grow line by line.
 */
module ClaudeScreen {

  import opened Basics
  import opened Transcript
  import opened Trees
  import opened Settling
  import opened HistoryPages
  import opened ClaudeAssembly

  // ------------------------------------------------- what history looks like

  type Results = map<string, Result>

  /** A settled block with the result its tool has had. */
  function DrawBlock(raw: ContentBlock, results: Results): UiBlock {
    match raw
    case ToolUse(id, name, kind, input) =>
      ToolCall(Tool(id, name, kind, input, None, None, if id in results then Some(results[id]) else None, []))
    case _ => if ToUiBlock(raw).Some? then ToUiBlock(raw).value else BLANK
  }

  function DrawBlocks(raws: seq<ContentBlock>, results: Results): (r: seq<UiBlock>)
    ensures |r| == |raws| && forall i | 0 <= i < |r| :: r[i] == DrawBlock(raws[i], results)
  {
    if raws == [] then [] else [DrawBlock(raws[0], results)] + DrawBlocks(raws[1..], results)
  }

  function DrawEntry(e: Event, results: Results): seq<Item> {
    match e
    case AssistantMessage(id, content, _) => [Assistant(id, DrawBlocks(content, results), false)]
    case UserMessage(id, blocks, _, _) => if UserBlocks(blocks) == [] then [] else [User(id, UserBlocks(blocks), "")]
    case ContextBoundary(tokens) => [Note("", tokens, true, "")]
    case BackgroundTaskFinished(summary, status) => [Note(summary, None, false, status)]
    case _ => []
  }

  function Draw(entries: seq<Event>, results: Results): seq<Item> {
    if entries == [] then []
    else Draw(entries[..|entries| - 1], results) + DrawEntry(entries[|entries| - 1], results)
  }

  function ResultsOf(entries: seq<Event>): Results {
    if entries == [] then map[]
    else
      var before, last := ResultsOf(entries[..|entries| - 1]), entries[|entries| - 1];
      if last.ToolResult? then before[last.toolUseID := last.result] else before
  }

  predicate HasID(e: Event) { e.AssistantMessage? || e.UserMessage? }

  function IdsOf(entries: seq<Event>): set<string> {
    set e | e in entries && HasID(e) :: e.messageID
  }

  function ToolsOf(entries: seq<Event>): set<string> {
    set e, raw | e in entries && e.AssistantMessage? && raw in e.content && raw.ToolUse? :: raw.id
  }

  /** The transcript some entries show. */
  function Shown(entries: seq<Event>): State { State(Draw(entries, ResultsOf(entries)), IdsOf(entries)) }

  /** An entry that may follow others: messages and tools have ids of their own,
      and a tool is told of before its result. */
  ghost predicate Follows(entries: seq<Event>, e: Event) {
    match e
    case AssistantMessage(id, content, parent) =>
      && parent == "" && id !in IdsOf(entries) && DistinctTools(content)
      && ToolIDs(content) !! ToolsOf(entries) && ToolIDs(content) !! ResultsOf(entries).Keys
    case UserMessage(id, _, clientMessageID, parent) => clientMessageID == "" && parent == "" && id !in IdsOf(entries)
    case ToolResult(_, _) | ContextBoundary(_) | BackgroundTaskFinished(_, _) => true
    case _ => false
  }

  ghost predicate Tidy(entries: seq<Event>) {
    entries == [] || (Tidy(entries[..|entries| - 1]) && Follows(entries[..|entries| - 1], entries[|entries| - 1]))
  }

  lemma IdsSnoc(entries: seq<Event>, e: Event)
    ensures IdsOf(entries + [e]) == IdsOf(entries) + if HasID(e) then {e.messageID} else {}
    ensures ToolsOf(entries + [e]) == ToolsOf(entries) + if e.AssistantMessage? then ToolIDs(e.content) else {}
  {
    assert e in entries + [e];
    forall f | f in entries ensures f in entries + [e] {
    }
  }

  // --------------------------------------------------------- drawn histories

  /** A drawn item is settled, has no subagents, and is known by its id. */
  ghost predicate Plainly(item: Item, ids: set<string>) {
    && (IsMessage(item) ==> item.id in ids)
    && (item.Assistant? ==> !item.streaming && FlatParts(item.parts))
  }

  lemma EntryPlainly(e: Event, results: Results)
    ensures forall item <- DrawEntry(e, results) :: Plainly(item, if HasID(e) then {e.messageID} else {})
  {
  }

  lemma {:induction false} DrawnPlainly(entries: seq<Event>, results: Results)
    ensures forall item <- Draw(entries, results) :: Plainly(item, IdsOf(entries))
  {
    if entries != [] {
      var n := |entries| - 1;
      DrawnPlainly(entries[..n], results);
      EntryPlainly(entries[n], results);
      IdsSnoc(entries[..n], entries[n]);
      assert entries == entries[..n] + [entries[n]];
    }
  }

  /** Results of tools nobody was told of show nowhere. */
  lemma {:induction false} DrawAgrees(entries: seq<Event>, a: Results, b: Results)
    requires forall id <- ToolsOf(entries) :: (id in a <==> id in b) && (id in a ==> a[id] == b[id])
    ensures Draw(entries, a) == Draw(entries, b)
  {
    if entries != [] {
      var n := |entries| - 1;
      var e := entries[n];
      IdsSnoc(entries[..n], e);
      assert entries == entries[..n] + [e];
      DrawAgrees(entries[..n], a, b);
      if e.AssistantMessage? {
        BlocksAgree(e.content, a, b);
      }
    }
  }

  lemma BlocksAgree(raws: seq<ContentBlock>, a: Results, b: Results)
    requires forall id <- ToolIDs(raws) :: (id in a <==> id in b) && (id in a ==> a[id] == b[id])
    ensures DrawBlocks(raws, a) == DrawBlocks(raws, b)
  {
    forall i | 0 <= i < |raws| ensures DrawBlock(raws[i], a) == DrawBlock(raws[i], b) {
      assert raws[i] in raws;
      assert raws[i].ToolUse? ==> raws[i].id in ToolIDs(raws);
    }
  }

  function WithResult(id: string, result: Result): Tool -> Tool { EditByEvent(ToolResult(id, result)) }

  lemma DrawnOnlyAt(raws: seq<ContentBlock>, results: Results, id: string, i: nat)
    requires DistinctTools(raws) && i < |raws| && raws[i].ToolUse? && raws[i].id == id
    ensures OnlyAt(DrawBlocks(raws, results), id, i) && IsTool(DrawBlocks(raws, results), i, id)
  {
    var parts := DrawBlocks(raws, results);
    assert FindTool([], id) == None;
    forall j | 0 <= j < |parts| && parts[j].ToolCall?
      ensures (parts[j].tool.id == id ==> j == i) && parts[j].tool.children == []
    {
      assert parts[j] == DrawBlock(raws[j], results);
      assert raws[j].ToolUse? && parts[j].tool.id == raws[j].id;
    }
  }

  lemma DrawnNowhere(raws: seq<ContentBlock>, results: Results, id: string)
    requires id !in ToolIDs(raws)
    ensures FindInParts(DrawBlocks(raws, results), id) == None
  {
    var parts := DrawBlocks(raws, results);
    assert FindTool([], id) == None;
    forall j | 0 <= j < |parts| && parts[j].ToolCall?
      ensures parts[j].tool.id != id && FindTool(parts[j].tool.children, id) == None
    {
      assert raws[j] in raws;
    }
    FindNone(parts, id);
  }

  /** Giving a message's tool its result. */
  lemma ResultInBlocks(raws: seq<ContentBlock>, results: Results, id: string, result: Result)
    requires DistinctTools(raws) && id in ToolIDs(raws)
    ensures FindInParts(DrawBlocks(raws, results), id).Some?
    ensures EditInParts(DrawBlocks(raws, results), id, WithResult(id, result))
            == DrawBlocks(raws, results[id := result])
  {
    var parts := DrawBlocks(raws, results);
    var raw :| raw in raws && raw.ToolUse? && raw.id == id;
    var i: nat :| i < |raws| && raws[i] == raw;
    DrawnOnlyAt(raws, results, id, i);
    FindOnly(parts, id, i);
    EditOnly(parts, id, i, WithResult(id, result));
    ResultAt(raws, results, i, result);
  }

  lemma ResultAt(raws: seq<ContentBlock>, results: Results, i: nat, result: Result)
    requires DistinctTools(raws) && i < |raws| && raws[i].ToolUse?
    ensures DrawBlocks(raws, results)[i := ToolCall(WithResult(raws[i].id, result)(DrawBlocks(raws, results)[i].tool))]
         == DrawBlocks(raws, results[raws[i].id := result])
  {
    var id := raws[i].id;
    var drawn := DrawBlocks(raws, results);
    var landed := drawn[i := ToolCall(WithResult(id, result)(drawn[i].tool))];
    forall k | 0 <= k < |raws| ensures landed[k] == DrawBlock(raws[k], results[id := result]) {
      assert k != i && raws[k].ToolUse? ==> raws[k].id != id;
    }
  }

  lemma {:induction false} FoundIfTold(entries: seq<Event>, results: Results, id: string)
    requires Tidy(entries)
    ensures FindTool(Draw(entries, results), id).Some? <==> id in ToolsOf(entries)
  {
    if entries != [] {
      var n := |entries| - 1;
      var e := entries[n];
      IdsSnoc(entries[..n], e);
      assert entries == entries[..n] + [e];
      FoundIfTold(entries[..n], results, id);
      FindAppend(Draw(entries[..n], results), DrawEntry(e, results), id);
      FoundInEntry(e, results, id);
    }
  }

  lemma FoundInEntry(e: Event, results: Results, id: string)
    requires e.AssistantMessage? ==> DistinctTools(e.content)
    ensures FindTool(DrawEntry(e, results), id).Some? <==> e.AssistantMessage? && id in ToolIDs(e.content)
  {
    assert FindTool([], id) == None;
    var drawn := DrawEntry(e, results);
    if e.AssistantMessage? {
      assert drawn[1..] == [];
      if id in ToolIDs(e.content) {
        ResultInBlocks(e.content, results, id, Result([], false));
      } else {
        DrawnNowhere(e.content, results, id);
      }
    } else if drawn != [] {
      assert drawn[1..] == [];
    }
  }

  lemma ResultInEntry(e: Event, results: Results, id: string, result: Result)
    requires e.AssistantMessage? ==> DistinctTools(e.content)
    ensures EditTool(DrawEntry(e, results), id, WithResult(id, result)) == DrawEntry(e, results[id := result])
  {
    var drawn := DrawEntry(e, results);
    FoundInEntry(e, results, id);
    if e.AssistantMessage? && id in ToolIDs(e.content) {
      assert drawn[1..] == [] && EditTool([], id, WithResult(id, result)) == [];
      ResultInBlocks(e.content, results, id, result);
    } else {
      EditNothing(drawn, id, WithResult(id, result));
      if e.AssistantMessage? {
        BlocksAgree(e.content, results, results[id := result]);
      }
    }
  }

  /** A tool's result lands on the one tool it names, if that is on screen. */
  lemma {:induction false} ResultLands(entries: seq<Event>, results: Results, id: string, result: Result)
    requires Tidy(entries)
    ensures EditTool(Draw(entries, results), id, WithResult(id, result)) == Draw(entries, results[id := result])
  {
    if entries != [] {
      var n := |entries| - 1;
      var e, before := entries[n], Draw(entries[..n], results);
      IdsSnoc(entries[..n], e);
      ResultLands(entries[..n], results, id, result);
      FoundIfTold(entries[..n], results, id);
      if id in ToolsOf(entries[..n]) {
        EditFirst(before, DrawEntry(e, results), id, WithResult(id, result));
        if e.AssistantMessage? {
          BlocksAgree(e.content, results, results[id := result]);
        }
      } else {
        EditAppend(before, DrawEntry(e, results), id, WithResult(id, result));
        EditNothing(before, id, WithResult(id, result));
        ResultInEntry(e, results, id, result);
      }
    }
  }

  // ---------------------------------------------------- one more entry

  lemma ShownSnoc(entries: seq<Event>, e: Event)
    ensures Shown(entries + [e]) == State(
      Draw(entries, ResultsOf(entries + [e])) + DrawEntry(e, ResultsOf(entries + [e])),
      IdsOf(entries) + if HasID(e) then {e.messageID} else {})
    ensures ResultsOf(entries + [e])
            == if e.ToolResult? then ResultsOf(entries)[e.toolUseID := e.result] else ResultsOf(entries)
  {
    IdsSnoc(entries, e);
    assert (entries + [e])[..|entries|] == entries;
  }

  lemma UnseenAssistant(entries: seq<Event>, results: Results, id: string)
    requires id !in IdsOf(entries)
    ensures !HasAssistant(Draw(entries, results), id)
  {
    DrawnPlainly(entries, results);
  }

  lemma DrawnOwnPlaces(told: seq<ContentBlock>, more: seq<ContentBlock>, results: Results)
    requires DistinctTools(told + more)
    ensures OwnPlaces(DrawBlocks(told, results), told + more)
  {
    var parts, raws := DrawBlocks(told, results), told + more;
    forall i | 0 <= i < |raws| && raws[i].ToolUse? ensures OnlyAt(parts, raws[i].id, i) {
      assert FindTool([], raws[i].id) == None;
      forall j | 0 <= j < |parts| && parts[j].ToolCall?
        ensures (parts[j].tool.id == raws[i].id ==> j == i) && parts[j].tool.children == []
      {
        assert parts[j] == DrawBlock(raws[j], results);
      }
    }
  }

  /** Settling the blocks told so far as the whole that has now been told. */
  lemma SettleDrawn(told: seq<ContentBlock>, more: seq<ContentBlock>, results: Results)
    requires DistinctTools(told + more) && ToolIDs(more) !! results.Keys
    ensures Settle(DrawBlocks(told, results), told + more) == DrawBlocks(told + more, results)
  {
    var parts, raws := DrawBlocks(told, results), told + more;
    DrawnOwnPlaces(told, more, results);
    SettleIsPointwise(parts, raws);
    forall i | 0 <= i < |raws| ensures SettledAt(parts, raws, i) == DrawBlock(raws[i], results) {
      if i >= |told| && raws[i].ToolUse? {
        assert raws[i] == more[i - |told|] && raws[i] in more;
        assert raws[i].id in ToolIDs(more);
      }
    }
  }

  lemma MessageAppended(items: seq<Item>, id: string, content: seq<ContentBlock>, results: Results)
    requires !HasAssistant(items, id) && DistinctTools(content) && ToolIDs(content) !! results.Keys
    ensures WithAssistant(items, id, false, SettleItem(content))
         == items + [Assistant(id, DrawBlocks(content, results), false)]
  {
    assert [] + content == content;
    SettleDrawn([], content, results);
  }

  lemma PushAssistant(entries: seq<Event>, e: Event)
    requires e.AssistantMessage? && Follows(entries, e)
    ensures Apply(Shown(entries), e) == Shown(entries + [e])
  {
    var results := ResultsOf(entries);
    ShownSnoc(entries, e);
    UnseenAssistant(entries, results, e.messageID);
    MessageAppended(Draw(entries, results), e.messageID, e.content, results);
  }

  lemma PushUser(entries: seq<Event>, e: Event)
    requires e.UserMessage? && Follows(entries, e)
    ensures Apply(Shown(entries), e) == Shown(entries + [e])
  {
    ShownSnoc(entries, e);
  }

  lemma PushResult(entries: seq<Event>, e: Event)
    requires Tidy(entries) && e.ToolResult?
    ensures Apply(Shown(entries), e) == Shown(entries + [e])
  {
    var results, items := ResultsOf(entries), Draw(entries, ResultsOf(entries));
    ShownSnoc(entries, e);
    ResultLands(entries, results, e.toolUseID, e.result);
    assert e == ToolResult(e.toolUseID, e.result);
  }

  lemma PushNote(entries: seq<Event>, e: Event)
    requires e.ContextBoundary? || e.BackgroundTaskFinished?
    ensures Apply(Shown(entries), e) == Shown(entries + [e])
  {
    var t := Shown(entries);
    ShownSnoc(entries, e);
    assert DrawEntry(e, ResultsOf(entries)) == DrawEntry(e, map[]);
    assert Apply(t, e).items == t.items + DrawEntry(e, map[]) && Apply(t, e).seen == t.seen;
  }

  lemma TidySnoc(entries: seq<Event>, e: Event)
    requires Tidy(entries) && Follows(entries, e)
    ensures Tidy(entries + [e])
  {
    assert (entries + [e])[..|entries|] == entries;
  }

  lemma Push(entries: seq<Event>, e: Event)
    requires Tidy(entries) && Follows(entries, e)
    ensures Apply(Shown(entries), e) == Shown(entries + [e]) && Tidy(entries + [e])
  {
    TidySnoc(entries, e);
    match e {
      case AssistantMessage(_, _, _) => PushAssistant(entries, e);
      case UserMessage(_, _, _, _) => PushUser(entries, e);
      case ToolResult(_, _) => PushResult(entries, e);
      case _ => PushNote(entries, e);
    }
  }

  /** Replaying a tidy history shows it. */
  lemma {:induction false} ReplayShows(entries: seq<Event>)
    requires Tidy(entries)
    ensures Fold(EMPTY, entries) == Shown(entries)
  {
    if entries == [] {
      assert Shown([]).items == [];
    } else {
      var n := |entries| - 1;
      ReplayShows(entries[..n]);
      Push(entries[..n], entries[n]);
      assert entries == entries[..n] + [entries[n]];
    }
  }

  // ---------------------------------------------------- a message that grows

  /** More of a message than its entry has told: of tools nobody knows yet. */
  ghost predicate Grows(entries: seq<Event>, at: nat, more: seq<ContentBlock>) {
    && at < |entries| && entries[at].AssistantMessage? && DistinctTools(entries[at].content + more)
    && ToolIDs(more) !! ToolsOf(entries) && ToolIDs(more) !! ResultsOf(entries).Keys
  }

  function GrownAt(entries: seq<Event>, at: nat, more: seq<ContentBlock>): seq<Event>
    requires at < |entries| && entries[at].AssistantMessage?
  {
    entries[at := Grown(entries[at], more)]
  }

  lemma ToolIDsJoin(a: seq<ContentBlock>, b: seq<ContentBlock>)
    ensures ToolIDs(a + b) == ToolIDs(a) + ToolIDs(b)
  {
  }

  lemma ShorterGrows(entries: seq<Event>, at: nat, more: seq<ContentBlock>)
    requires Grows(entries, at, more) && at < |entries| - 1
    ensures Grows(entries[..|entries| - 1], at, more)
    ensures GrownAt(entries, at, more) == GrownAt(entries[..|entries| - 1], at, more) + [entries[|entries| - 1]]
  {
    var n := |entries| - 1;
    IdsSnoc(entries[..n], entries[n]);
    assert entries == entries[..n] + [entries[n]];
  }

  lemma GrownKeepsLast(entries: seq<Event>, e: Event, more: seq<ContentBlock>)
    requires e.AssistantMessage?
    ensures IdsOf(entries + [Grown(e, more)]) == IdsOf(entries + [e])
    ensures ToolsOf(entries + [Grown(e, more)]) == ToolsOf(entries + [e]) + ToolIDs(more)
  {
    IdsSnoc(entries, e);
    IdsSnoc(entries, Grown(e, more));
    ToolIDsJoin(e.content, more);
  }

  lemma {:induction false} GrownKeepsResults(entries: seq<Event>, at: nat, more: seq<ContentBlock>)
    requires at < |entries| && entries[at].AssistantMessage?
    ensures ResultsOf(GrownAt(entries, at, more)) == ResultsOf(entries)
  {
    var n, grown := |entries| - 1, GrownAt(entries, at, more);
    if at == n {
      assert grown[..n] == entries[..n];
    } else {
      assert grown[..n] == GrownAt(entries[..n], at, more);
      GrownKeepsResults(entries[..n], at, more);
    }
  }

  lemma {:induction false} GrownKeeps(entries: seq<Event>, at: nat, more: seq<ContentBlock>)
    requires at < |entries| && entries[at].AssistantMessage?
    ensures IdsOf(GrownAt(entries, at, more)) == IdsOf(entries)
    ensures ToolsOf(GrownAt(entries, at, more)) == ToolsOf(entries) + ToolIDs(more)
  {
    var n, grown := |entries| - 1, GrownAt(entries, at, more);
    assert entries == entries[..n] + [entries[n]];
    if at == n {
      assert grown == entries[..n] + [Grown(entries[n], more)];
      GrownKeepsLast(entries[..n], entries[n], more);
    } else {
      assert grown == GrownAt(entries[..n], at, more) + [entries[n]];
      GrownKeeps(entries[..n], at, more);
      IdsSnoc(entries[..n], entries[n]);
      IdsSnoc(GrownAt(entries[..n], at, more), entries[n]);
    }
  }

  lemma {:induction false} GrownTidy(entries: seq<Event>, at: nat, more: seq<ContentBlock>)
    requires Tidy(entries) && Grows(entries, at, more)
    ensures Tidy(GrownAt(entries, at, more))
  {
    var n, grown := |entries| - 1, GrownAt(entries, at, more);
    IdsSnoc(entries[..n], entries[n]);
    assert entries == entries[..n] + [entries[n]];
    if at == n {
      assert grown[..n] == entries[..n];
      ToolIDsJoin(entries[n].content, more);
    } else {
      ShorterGrows(entries, at, more);
      GrownTidy(entries[..n], at, more);
      GrownKeeps(entries[..n], at, more);
      GrownKeepsResults(entries[..n], at, more);
      assert grown[..n] == GrownAt(entries[..n], at, more);
    }
  }

  /** The drawn history with a message's item replaced. */
  ghost predicate Redrawn(drawn: seq<Item>, grown: seq<Item>, id: string, item: Item, after: Item) {
    var k := AssistantAt(drawn, id);
    k < |drawn| && drawn[k] == item && grown == drawn[k := after]
  }

  lemma RedrawnLast(before: seq<Item>, item: Item, after: Item)
    requires item.Assistant?
    ensures Redrawn(before + [item], before + [after], item.id, item, after)
  {
    assert (before + [item])[..|before + [item]| - 1] == before;
  }

  lemma RedrawnEarlier(drawn: seq<Item>, grown: seq<Item>, id: string, item: Item, after: Item, tail: seq<Item>)
    requires Redrawn(drawn, grown, id, item, after) && |tail| <= 1 && !HasAssistant(tail, id)
    ensures Redrawn(drawn + tail, grown + tail, id, item, after)
  {
    NotTheLast(drawn, tail, id);
  }

  lemma LaterIsAnother(entries: seq<Event>, at: nat, results: Results)
    requires Tidy(entries) && at < |entries| - 1 && entries[at].AssistantMessage?
    ensures |DrawEntry(entries[|entries| - 1], results)| <= 1
    ensures !HasAssistant(DrawEntry(entries[|entries| - 1], results), entries[at].messageID)
  {
    var n := |entries| - 1;
    assert entries[..n][at] == entries[at] && entries[at] in entries[..n];
    assert entries[at].messageID in IdsOf(entries[..n]);
  }

  /** The item a message is drawn as, with more told of it. */
  function DrawnWith(e: Event, more: seq<ContentBlock>, results: Results): Item
    requires e.AssistantMessage?
  {
    Assistant(e.messageID, DrawBlocks(e.content + more, results), false)
  }

  lemma DrawSnoc(entries: seq<Event>, e: Event, results: Results)
    ensures Draw(entries + [e], results) == Draw(entries, results) + DrawEntry(e, results)
  {
    assert (entries + [e])[..|entries|] == entries;
  }

  lemma GrownDrawnLast(entries: seq<Event>, e: Event, more: seq<ContentBlock>, results: Results)
    requires e.AssistantMessage?
    ensures Redrawn(Draw(entries + [e], results), Draw(entries + [Grown(e, more)], results), e.messageID,
                    DrawnWith(e, [], results), DrawnWith(e, more, results))
  {
    DrawSnoc(entries, e, results);
    DrawSnoc(entries, Grown(e, more), results);
    assert e.content + [] == e.content;
    RedrawnLast(Draw(entries, results), DrawnWith(e, [], results), DrawnWith(e, more, results));
  }

  /** Where the message is drawn, before and after it grows. */
  lemma {:induction false} GrownDrawn(entries: seq<Event>, at: nat, more: seq<ContentBlock>, results: Results)
    requires Tidy(entries) && Grows(entries, at, more)
    ensures Redrawn(Draw(entries, results), Draw(GrownAt(entries, at, more), results), entries[at].messageID,
                    DrawnWith(entries[at], [], results), DrawnWith(entries[at], more, results))
  {
    var n := |entries| - 1;
    var init, e := entries[..n], entries[n];
    assert entries == init + [e];
    if at == n {
      GrownDrawnLast(init, e, more, results);
      assert GrownAt(entries, at, more) == init + [Grown(e, more)];
    } else {
      ShorterGrows(entries, at, more);
      GrownDrawn(init, at, more, results);
      LaterIsAnother(entries, at, results);
      DrawSnoc(init, e, results);
      DrawSnoc(GrownAt(init, at, more), e, results);
      RedrawnEarlier(Draw(init, results), Draw(GrownAt(init, at, more), results), entries[at].messageID,
                     DrawnWith(entries[at], [], results), DrawnWith(entries[at], more, results), DrawEntry(e, results));
    }
  }

  lemma NotTheLast(items: seq<Item>, tail: seq<Item>, id: string)
    requires |tail| <= 1 && !HasAssistant(tail, id) && HasAssistant(items, id)
    ensures AssistantAt(items + tail, id) == AssistantAt(items, id)
  {
    if tail == [] {
      assert items + tail == items;
    } else {
      assert (items + tail)[..|items|] == items;
      assert AssistantAt(tail, id) == 1;
      assert !(tail[0].Assistant? && tail[0].id == id);
    }
  }

  lemma MessageRegrown(items: seq<Item>, e: Event, more: seq<ContentBlock>, results: Results, grown: seq<Item>)
    requires e.AssistantMessage? && DistinctTools(e.content + more) && ToolIDs(more) !! results.Keys
    requires Redrawn(items, grown, e.messageID, DrawnWith(e, [], results), DrawnWith(e, more, results))
    ensures WithAssistant(items, e.messageID, false, SettleItem(e.content + more)) == grown
    ensures HasAssistant(items, e.messageID)
  {
    assert e.content + [] == e.content;
    SettleDrawn(e.content, more, results);
  }

  /** Publishing the whole message so far makes the screen the one that the grown
      entry shows. */
  lemma {:induction false} Grow(entries: seq<Event>, at: nat, more: seq<ContentBlock>)
    requires Tidy(entries) && Grows(entries, at, more)
    ensures Apply(Shown(entries), AssistantMessage(entries[at].messageID, entries[at].content + more, ""))
         == Shown(GrownAt(entries, at, more))
    ensures Tidy(GrownAt(entries, at, more))
  {
    var results, grown := ResultsOf(entries), GrownAt(entries, at, more);
    GrownKeeps(entries, at, more);
    GrownKeepsResults(entries, at, more);
    GrownTidy(entries, at, more);
    GrownDrawn(entries, at, more, results);
    MessageRegrown(Draw(entries, results), entries[at], more, results, Draw(grown, results));
    assert entries[at] in entries;
    assert IdsOf(entries) + {entries[at].messageID} == IdsOf(entries);
  }

  // ------------------------------------------------------------ line by line

  function History(lines: seq<Line>): seq<Event> { Events(ReadAll(lines).entries) }

  /** A tool call's input is complete once its line comes. */
  function End(raw: ContentBlock): seq<Event> { if raw.ToolUse? then [ToolUseEnd(raw.id, raw.input)] else [] }

  function Ends(content: seq<ContentBlock>): seq<Event> {
    if content == [] then [] else Ends(content[..|content| - 1]) + End(content[|content| - 1])
  }

  /** What the session publishes to the transcript with a line. */
  function LineEvents(before: seq<Line>, line: Line): seq<Event> {
    match line
    case AssistantLine(id, content, _, _) =>
      Ends(content) + [AssistantMessage(id, Whole(AssembledAfter(before), id) + content, "")]
    case OtherLine(entries, _, _) => entries
    case ResultLine => [TurnFinished]
  }

  ghost predicate FollowAll(entries: seq<Event>, more: seq<Event>) {
    more == [] ||
      (var n := |more| - 1;
       FollowAll(entries, more[..n]) && !more[n].AssistantMessage? && Follows(entries + more[..n], more[n]))
  }

  /** Only the conversation itself, and every message with an id. */
  predicate MainOnly(lines: seq<Line>) {
    forall i | 0 <= i < |lines| ::
      && (lines[i].AssistantLine? ==> !lines[i].sidechain && lines[i].messageID != "")
      && (lines[i].OtherLine? ==> !lines[i].sidechain)
  }

  /** Tools and messages have ids of their own, a tool's result comes after the
      tool, and no message outlasts its turn. */
  ghost predicate Comes(before: seq<Line>, line: Line) {
    var entries := History(before);
    match line
    case AssistantLine(id, content, _, _) =>
      && DistinctTools(content)
      && ToolIDs(content) !! ToolsOf(entries) && ToolIDs(content) !! ResultsOf(entries).Keys
      && Told(before[..TurnStart(before)], id) == []
      && (id in ReadAll(before).assistantAt || id !in IdsOf(entries))
    case OtherLine(more, _, _) => FollowAll(entries, more)
    case ResultLine => true
  }

  ghost predicate InOrder(lines: seq<Line>) {
    lines == [] || (InOrder(lines[..|lines| - 1]) && Comes(lines[..|lines| - 1], lines[|lines| - 1]))
  }

  ghost predicate Tells(r: Reader, lines: seq<Line>, id: string)
    requires ReaderOk(r)
  {
    && (id in r.assistantAt ==>
          id != "" && r.entries[r.assistantAt[id]].entry == AssistantMessage(id, Told(lines, id), ""))
    && (id !in r.assistantAt ==> Told(lines, id) == [])
  }

  lemma LineTells(r: Reader, before: seq<Line>, line: Line, id: string)
    requires Apart(r) && Tells(r, before, id)
    requires line.AssistantLine? ==> !line.sidechain && line.messageID != ""
    ensures Tells(ReadLine(r, line), before + [line], id)
  {
    assert (before + [line])[..|before|] == before;
    if line.AssistantLine? {
      if line.messageID == id {
        LineTellsMore(r, before, line);
      } else {
        assert Told(before + [line], id) == Told(before, id);
      }
    }
  }

  lemma LineTellsMore(r: Reader, before: seq<Line>, line: Line)
    requires ReaderOk(r) && line.AssistantLine? && !line.sidechain && line.messageID != ""
    requires Tells(r, before, line.messageID)
    ensures Tells(ReadLine(r, line), before + [line], line.messageID)
  {
    assert (before + [line])[..|before|] == before;
    assert Told(before + [line], line.messageID) == Told(before, line.messageID) + line.content;
    if line.messageID !in r.assistantAt {
      assert [] + line.content == line.content;
    }
  }

  lemma {:induction false} ReaderTells(lines: seq<Line>, id: string)
    requires MainOnly(lines)
    ensures Tells(ReadAll(lines), lines, id)
  {
    if lines != [] {
      var n := |lines| - 1;
      ReaderTells(lines[..n], id);
      AlwaysApart(lines[..n]);
      LineTells(ReadAll(lines[..n]), lines[..n], lines[n], id);
      assert lines == lines[..n] + [lines[n]];
    }
  }

  lemma {:induction false} TidyAt(entries: seq<Event>, at: nat)
    requires Tidy(entries) && at < |entries| && entries[at].AssistantMessage?
    ensures DistinctTools(entries[at].content)
  {
    if at < |entries| - 1 {
      TidyAt(entries[..|entries| - 1], at);
    }
  }

  /** The session's whole is what was told of the message, all in this turn. */
  lemma WholeIsTold(before: seq<Line>, id: string)
    requires Told(before[..TurnStart(before)], id) == []
    ensures Whole(AssembledAfter(before), id) == Told(before, id)
  {
    AssembledIsTold(before, id);
    ToldSplit(before, TurnStart(before), id);
  }

  lemma EntryGrows(r: Reader, line: Line)
    requires ReaderOk(r) && line.AssistantLine? && !line.sidechain && line.messageID != ""
    requires line.messageID in r.assistantAt
    ensures Events(ReadLine(r, line).entries)
         == GrownAt(Events(r.entries), r.assistantAt[line.messageID], line.content)
  {
  }

  lemma EntryOpens(r: Reader, line: Line)
    requires ReaderOk(r) && line.AssistantLine? && !line.sidechain && line.messageID !in r.assistantAt
    ensures Events(ReadLine(r, line).entries)
         == Events(r.entries) + [AssistantMessage(line.messageID, line.content, "")]
  {
  }

  lemma HistoryGrows(before: seq<Line>, line: Line)
    requires line.AssistantLine? && !line.sidechain && line.messageID != ""
    ensures var r, id := ReadAll(before), line.messageID;
      History(before + [line]) ==
        if id in r.assistantAt then GrownAt(History(before), r.assistantAt[id], line.content)
        else History(before) + [AssistantMessage(id, line.content, "")]
  {
    assert (before + [line])[..|before|] == before;
    if line.messageID in ReadAll(before).assistantAt {
      EntryGrows(ReadAll(before), line);
    } else {
      EntryOpens(ReadAll(before), line);
    }
  }

  lemma GrownDistinct(entries: seq<Event>, at: nat, more: seq<ContentBlock>)
    requires at < |entries| && entries[at].AssistantMessage? && DistinctTools(entries[at].content)
    requires DistinctTools(more) && ToolIDs(more) !! ToolsOf(entries)
    ensures DistinctTools(entries[at].content + more)
  {
    var content := entries[at].content;
    assert entries[at] in entries;
    forall i, j | 0 <= i < |content| && 0 <= j < |more| && content[i].ToolUse? && more[j].ToolUse?
      ensures content[i].id != more[j].id
    {
      assert content[i].id in ToolsOf(entries) && more[j].id in ToolIDs(more);
    }
  }

  lemma HistoryAdds(before: seq<Line>, line: Line)
    requires line.OtherLine? && !line.sidechain
    ensures History(before + [line]) == History(before) + line.entries
  {
    assert (before + [line])[..|before|] == before;
  }
}
