/**
 A transcript with messages still streaming in, beside the one drawn from what has
 been told of them: what each event does to the first when it does nothing, or its
 own thing, to the second.
 */
module ClaudeDrafts {

  import opened Basics
  import opened Transcript
  import opened Trees
  import opened Settling
  import opened ClaudeScreen

  /** The content every message will have been told to hold. */
  type Plan = string -> seq<ContentBlock>

  /** A block streamed where `raw` will settle: a tool only where it will, with
      nothing attached to it, and where nothing will be drawn only padding. */
  predicate Drafted(part: UiBlock, raw: ContentBlock) {
    && (part.ToolCall? ==>
          && raw.ToolUse? && part.tool.id == raw.id && part.tool.name == raw.name && part.tool.kind == raw.kind
          && part.tool.output == None && part.tool.result == None && part.tool.children == [])
    && (ToUiBlock(raw).None? ==> part == BLANK)
  }

  /** The parts of a message on screen: those already told, and drafts past them. */
  ghost predicate LikeParts(live: seq<UiBlock>, told: seq<UiBlock>, raws: seq<ContentBlock>) {
    && told <= live && FlatParts(told) && |live| <= |raws|
    && forall j | |told| <= j < |live| :: Drafted(live[j], raws[j])
  }

  ghost predicate Like(live: Item, drawn: Item, plan: Plan) {
    if !drawn.Assistant? then live == drawn
    else
      && live.Assistant? && live.id == drawn.id && LikeParts(live.parts, drawn.parts, plan(drawn.id))
      && !drawn.streaming && (live.streaming ==> |drawn.parts| < |live.parts|)
  }

  ghost predicate On(live: seq<Item>, drawn: seq<Item>, plan: Plan) {
    |live| == |drawn| && forall i | 0 <= i < |live| :: Like(live[i], drawn[i], plan)
  }

  // ------------------------------------------------------------- the list

  lemma OnPush(live: seq<Item>, drawn: seq<Item>, x: Item, y: Item, plan: Plan)
    requires On(live, drawn, plan) && Like(x, y, plan)
    ensures On(live + [x], drawn + [y], plan)
  {
  }

  lemma {:induction false} OnAt(live: seq<Item>, drawn: seq<Item>, id: string, plan: Plan)
    requires On(live, drawn, plan)
    ensures AssistantAt(live, id) == AssistantAt(drawn, id)
    decreases |live|
  {
    if live != [] {
      var n := |live| - 1;
      assert Like(live[n], drawn[n], plan);
      OnAt(live[..n], drawn[..n], id, plan);
    }
  }

  lemma OnSet(live: seq<Item>, drawn: seq<Item>, k: nat, x: Item, y: Item, plan: Plan)
    requires On(live, drawn, plan) && k < |live| && Like(x, y, plan)
    ensures On(live[k := x], drawn[k := y], plan)
  {
  }

  lemma OnTail(live: seq<Item>, drawn: seq<Item>, plan: Plan)
    requires On(live, drawn, plan) && live != []
    ensures On(live[1..], drawn[1..], plan) && Like(live[0], drawn[0], plan)
  {
  }

  lemma OnCons(x: Item, y: Item, live: seq<Item>, drawn: seq<Item>, plan: Plan)
    requires On(live, drawn, plan) && Like(x, y, plan)
    ensures On([x] + live, [y] + drawn, plan)
  {
  }

  // ------------------------------------------------------ events of a stream

  /** It streams a block that something will be drawn at, past what is told. */
  predicate Ahead(e: Event, told: nat, raws: seq<ContentBlock>) {
    && IsStream(e) && told <= e.index < |raws| && ToUiBlock(raws[e.index]).Some?
    && (e.ToolUseStart? ==>
          raws[e.index].ToolUse? && raws[e.index].id == e.toolUseID
          && raws[e.index].name == e.name && raws[e.index].kind == e.kind)
  }

  lemma BlockLike(live: seq<UiBlock>, told: seq<UiBlock>, raws: seq<ContentBlock>, index: nat, made: UiBlock)
    requires LikeParts(live, told, raws) && |told| <= index < |raws| && Drafted(made, raws[index])
    ensures LikeParts(BlockAt(live, index, made), told, raws)
  {
    var r := BlockAt(live, index, made);
    assert forall j | 0 <= j < |live| :: r[j] == r[..|live|][j];
  }

  lemma RewriteLike(live: seq<UiBlock>, told: seq<UiBlock>, raws: seq<ContentBlock>, index: nat, made: UiBlock)
    requires LikeParts(live, told, raws) && |told| <= index < |live| && Drafted(made, raws[index])
    ensures LikeParts(live[index := made], told, raws)
  {
    assert live[index := made][..|told|] == live[..|told|];
  }

  lemma StreamLike(e: Event, item: Item, drawn: Item, plan: Plan)
    requires item.Assistant? && drawn.Assistant? && !drawn.streaming && item.id == drawn.id
    requires LikeParts(item.parts, drawn.parts, plan(drawn.id)) && Ahead(e, |drawn.parts|, plan(drawn.id))
    ensures Like(StreamItem(e)(item), drawn, plan) && StreamItem(e)(item).parts != []
  {
    var raws := plan(drawn.id);
    match e {
      case TextDelta(_, index, text, _) =>
        BlockLike(item.parts, drawn.parts, raws, index, Text("", false));
        var r := BlockAt(item.parts, index, Text("", false));
        if r[index].Text? {
          RewriteLike(r, drawn.parts, raws, index, Text(r[index].text + text, r[index].final));
        }
      case ThinkingDelta(_, index, text, _) =>
        BlockLike(item.parts, drawn.parts, raws, index, Thinking("", false));
        var r := BlockAt(item.parts, index, Thinking("", false));
        if r[index].Thinking? {
          RewriteLike(r, drawn.parts, raws, index, Thinking(r[index].text + text, r[index].final));
        }
      case ToolUseStart(_, index, id, name, kind, _) =>
        BlockLike(item.parts, drawn.parts, raws, index, ToolCall(Tool(id, name, kind, "{}", Some(""), None, None, [])));
    }
  }

  // -------------------------------------------------------- edits of a tool

  lemma {:induction false} FindPartsAppend(told: seq<UiBlock>, more: seq<UiBlock>, id: string)
    ensures FindInParts(told + more, id)
            == if FindInParts(told, id).Some? then FindInParts(told, id) else FindInParts(more, id)
  {
    if told == [] {
      assert told + more == more;
    } else {
      assert (told + more)[1..] == told[1..] + more;
      FindPartsAppend(told[1..], more, id);
    }
  }

  lemma {:induction false} PartsAppend(told: seq<UiBlock>, more: seq<UiBlock>, id: string, edit: Tool -> Tool)
    ensures EditInParts(told + more, id, edit)
            == if FindInParts(told, id).Some? then EditInParts(told, id, edit) + more
               else told + EditInParts(more, id, edit)
  {
    if told == [] {
      assert told + more == more;
    } else {
      var head, rest := told[0], told[1..];
      assert (told + more)[0] == head && (told + more)[1..] == rest + more;
      PartsAppend(rest, more, id, edit);
      if head.ToolCall? && head.tool.id == id {
        Associates([ToolCall(edit(head.tool))], rest, more);
      } else if head.ToolCall? && FindTool(head.tool.children, id).Some? {
        Associates([ToolCall(head.tool.(children := EditTool(head.tool.children, id, edit)))], rest, more);
      } else if FindInParts(rest, id).Some? {
        Associates([head], EditInParts(rest, id, edit), more);
      } else {
        Associates([head], rest, EditInParts(more, id, edit));
        assert told == [head] + rest;
      }
    }
  }

  /** Nothing but what is still missing of a call, or comes only while it runs. */
  ghost predicate Harmless(edit: Tool -> Tool) {
    forall tool: Tool ::
      && edit(tool).id == tool.id && edit(tool).name == tool.name && edit(tool).kind == tool.kind
      && edit(tool).output == tool.output && edit(tool).result == tool.result && edit(tool).children == tool.children
  }

  lemma {:induction false} EditDrafts(parts: seq<UiBlock>, raws: seq<ContentBlock>, id: string, edit: Tool -> Tool)
    requires |parts| <= |raws| && Harmless(edit)
    requires forall j | 0 <= j < |parts| :: Drafted(parts[j], raws[j])
    ensures forall j | 0 <= j < |parts| :: Drafted(EditInParts(parts, id, edit)[j], raws[j])
  {
    if parts != [] {
      EditDrafts(parts[1..], raws[1..], id, edit);
      assert FindTool([], id) == None;
      assert Drafted(parts[0], raws[0]);
      var r := EditInParts(parts, id, edit);
      forall j | 0 <= j < |parts| ensures Drafted(r[j], raws[j]) {
        if j > 0 {
          assert Drafted(parts[j], raws[j]) && parts[1..][j - 1] == parts[j] && raws[1..][j - 1] == raws[j];
        }
      }
    }
  }

  lemma EditPartsLike(live: seq<UiBlock>, told: seq<UiBlock>, raws: seq<ContentBlock>, id: string, edit: Tool -> Tool)
    requires LikeParts(live, told, raws) && Harmless(edit) && FindInParts(told, id) == None
    ensures LikeParts(EditInParts(live, id, edit), told, raws)
  {
    var more := live[|told|..];
    assert live == told + more;
    PartsAppend(told, more, id, edit);
    forall j | 0 <= j < |more| ensures Drafted(more[j], raws[|told|..][j]) {
      assert more[j] == live[|told| + j];
    }
    EditDrafts(more, raws[|told|..], id, edit);
    var r := EditInParts(live, id, edit);
    forall j | |told| <= j < |r| ensures Drafted(r[j], raws[j]) {
      assert r[j] == EditInParts(more, id, edit)[j - |told|] && raws[j] == raws[|told|..][j - |told|];
    }
  }

  /** What is said of a tool before its line changes nothing that is told. */
  lemma {:induction false} EditOn(live: seq<Item>, drawn: seq<Item>, id: string, edit: Tool -> Tool, plan: Plan)
    requires On(live, drawn, plan) && Harmless(edit) && FindTool(drawn, id) == None
    ensures On(EditTool(live, id, edit), drawn, plan)
  {
    if live != [] {
      OnTail(live, drawn, plan);
      EditOn(live[1..], drawn[1..], id, edit, plan);
      assert drawn == [drawn[0]] + drawn[1..];
      if live[0].Assistant? {
        EditPartsLike(live[0].parts, drawn[0].parts, plan(drawn[0].id), id, edit);
        OnCons(live[0].(parts := EditInParts(live[0].parts, id, edit)), drawn[0], live[1..], drawn[1..], plan);
      }
      OnCons(live[0], drawn[0], EditTool(live[1..], id, edit), drawn[1..], plan);
    }
  }

  /** No draft is of this tool. */
  ghost predicate NoDraft(plan: Plan, drawn: seq<Item>, id: string) {
    forall i, j | 0 <= i < |drawn| && drawn[i].Assistant? && |drawn[i].parts| <= j < |plan(drawn[i].id)| ::
      plan(drawn[i].id)[j].ToolUse? ==> plan(drawn[i].id)[j].id != id
  }

  lemma DraftsWithout(live: seq<UiBlock>, told: seq<UiBlock>, raws: seq<ContentBlock>, id: string)
    requires LikeParts(live, told, raws)
    requires forall j | |told| <= j < |raws| && raws[j].ToolUse? :: raws[j].id != id
    ensures FindInParts(live[|told|..], id) == None
  {
    var more := live[|told|..];
    assert FindTool([], id) == None;
    forall j | 0 <= j < |more| && more[j].ToolCall?
      ensures more[j].tool.id != id && FindTool(more[j].tool.children, id) == None
    {
      assert Drafted(live[|told| + j], raws[|told| + j]);
    }
    FindNone(more, id);
  }

  /** A tool on screen that nothing is told of is somebody's draft. */
  lemma {:induction false} DraftOf(live: seq<Item>, drawn: seq<Item>, id: string, plan: Plan) returns (i: nat)
    requires On(live, drawn, plan) && FindTool(live, id).Some? && FindTool(drawn, id) == None
    ensures i < |live| && live[i].Assistant?
    ensures exists j | 0 <= j < |plan(live[i].id)| :: plan(live[i].id)[j].ToolUse? && plan(live[i].id)[j].id == id
    decreases |live|
  {
    OnTail(live, drawn, plan);
    if live[0].Assistant? && FindInParts(live[0].parts, id).Some? {
      DraftInParts(live[0].parts, drawn[0].parts, plan(live[0].id), id);
      i := 0;
    } else {
      var k := DraftOf(live[1..], drawn[1..], id, plan);
      i := k + 1;
    }
  }

  lemma DraftInParts(live: seq<UiBlock>, told: seq<UiBlock>, raws: seq<ContentBlock>, id: string)
    requires LikeParts(live, told, raws) && FindInParts(live, id).Some? && FindInParts(told, id) == None
    ensures exists j | 0 <= j < |raws| :: raws[j].ToolUse? && raws[j].id == id
  {
    if forall j | |told| <= j < |raws| && raws[j].ToolUse? :: raws[j].id != id {
      assert live == told + live[|told|..];
      FindPartsAppend(told, live[|told|..], id);
      DraftsWithout(live, told, raws, id);
      assert false;
    }
  }

  lemma ResultPartsLike(live: seq<UiBlock>, told: seq<UiBlock>, raws: seq<ContentBlock>, id: string, result: Result)
    requires LikeParts(live, told, raws)
    requires forall j | |told| <= j < |raws| && raws[j].ToolUse? :: raws[j].id != id
    ensures FindInParts(live, id) == FindInParts(told, id)
    ensures FindInParts(told, id).Some? ==>
              LikeParts(EditInParts(live, id, WithResult(id, result)),
                        EditInParts(told, id, WithResult(id, result)), raws)
  {
    var more, edit := live[|told|..], WithResult(id, result);
    assert live == told + more;
    FindPartsAppend(told, more, id);
    PartsAppend(told, more, id, edit);
    DraftsWithout(live, told, raws, id);
    if FindInParts(told, id).Some? {
      EditKeepsFlat(told, id, result);
      LikeAfter(live, told, EditInParts(told, id, edit), raws);
    }
  }

  lemma LikeAfter(live: seq<UiBlock>, told: seq<UiBlock>, after: seq<UiBlock>, raws: seq<ContentBlock>)
    requires LikeParts(live, told, raws) && FlatParts(after) && |after| == |told|
    ensures LikeParts(after + live[|told|..], after, raws)
  {
    var r := after + live[|told|..];
    forall j | |told| <= j < |r| ensures Drafted(r[j], raws[j]) {
      assert r[j] == live[j] && Drafted(live[j], raws[j]);
    }
  }

  lemma {:induction false} EditKeepsFlat(parts: seq<UiBlock>, id: string, result: Result)
    requires FlatParts(parts)
    ensures FlatParts(EditInParts(parts, id, WithResult(id, result)))
  {
    if parts != [] {
      EditKeepsFlat(parts[1..], id, result);
      assert FindTool([], id) == None;
      assert parts[0].ToolCall? ==> parts[0].tool.children == [];
    }
  }

  /** A result lands on the same told tool, drafts or not. */
  lemma {:induction false} ResultOn(live: seq<Item>, drawn: seq<Item>, id: string, result: Result, plan: Plan)
    requires On(live, drawn, plan) && NoDraft(plan, drawn, id)
    ensures On(EditTool(live, id, WithResult(id, result)), EditTool(drawn, id, WithResult(id, result)), plan)
  {
    if live != [] {
      var edit := WithResult(id, result);
      OnTail(live, drawn, plan);
      forall i, j | 0 <= i < |drawn[1..]| && drawn[1..][i].Assistant?
          && |drawn[1..][i].parts| <= j < |plan(drawn[1..][i].id)|
        ensures plan(drawn[1..][i].id)[j].ToolUse? ==> plan(drawn[1..][i].id)[j].id != id
      {
        assert drawn[1..][i] == drawn[i + 1];
      }
      ResultOn(live[1..], drawn[1..], id, result, plan);
      if live[0].Assistant? {
        ResultPartsLike(live[0].parts, drawn[0].parts, plan(drawn[0].id), id, result);
      }
      if live[0].Assistant? && FindInParts(live[0].parts, id).Some? {
        OnCons(live[0].(parts := EditInParts(live[0].parts, id, edit)),
               drawn[0].(parts := EditInParts(drawn[0].parts, id, edit)), live[1..], drawn[1..], plan);
      } else {
        OnCons(live[0], drawn[0], EditTool(live[1..], id, edit), EditTool(drawn[1..], id, edit), plan);
      }
    }
  }

  // -------------------------------------------------------- the turn ends

  lemma LikeIsFlat(live: Item, drawn: Item, plan: Plan)
    requires Like(live, drawn, plan) && drawn.Assistant?
    ensures FlatParts(live.parts)
  {
    forall j | 0 <= j < |live.parts| && live.parts[j].ToolCall? ensures live.parts[j].tool.children == [] {
      if j < |drawn.parts| {
        assert live.parts[j] == drawn.parts[j];
      } else {
        assert Drafted(live.parts[j], plan(drawn.id)[j]);
      }
    }
  }

  lemma {:induction false} StopOn(live: seq<Item>, drawn: seq<Item>, plan: Plan)
    requires On(live, drawn, plan)
    ensures On(Stop(live), drawn, plan)
    ensures forall i | 0 <= i < |live| && live[i].Assistant? :: Stop(live)[i] == live[i].(streaming := false)
  {
    if live != [] {
      OnTail(live, drawn, plan);
      StopOn(live[1..], drawn[1..], plan);
      var stopped := if live[0].Assistant? then live[0].(streaming := false) else live[0];
      if live[0].Assistant? {
        LikeIsFlat(live[0], drawn[0], plan);
        StopFlatParts(live[0].parts);
      }
      assert Stop(live) == [stopped] + Stop(live[1..]);
      assert drawn == [drawn[0]] + drawn[1..];
      OnCons(stopped, drawn[0], Stop(live[1..]), drawn[1..], plan);
    }
  }

  // ----------------------------------------------------------- a line settles

  /** Some blocks as they are drawn. */
  ghost predicate Draws(parts: seq<UiBlock>, raws: seq<ContentBlock>, results: Results) {
    |parts| <= |raws| && forall i | 0 <= i < |parts| :: parts[i] == DrawBlock(raws[i], results)
  }

  lemma LikeOwnPlaces(live: seq<UiBlock>, told: seq<UiBlock>, whole: seq<ContentBlock>, results: Results,
                      raws: seq<ContentBlock>)
    requires LikeParts(live, told, raws) && Draws(told, raws, results) && whole <= raws && DistinctTools(raws)
    ensures OwnPlaces(live, whole)
  {
    forall i | 0 <= i < |whole| && whole[i].ToolUse? ensures OnlyAt(live, whole[i].id, i) {
      assert FindTool([], whole[i].id) == None;
      forall j | 0 <= j < |live| && live[j].ToolCall?
        ensures (live[j].tool.id == whole[i].id ==> j == i) && FindTool(live[j].tool.children, whole[i].id) == None
      {
        if j < |told| {
          assert live[j] == told[j] == DrawBlock(raws[j], results);
        } else {
          assert Drafted(live[j], raws[j]);
        }
      }
    }
  }

  lemma SettledBlock(live: seq<UiBlock>, told: seq<UiBlock>, whole: seq<ContentBlock>, results: Results,
                     raws: seq<ContentBlock>, i: nat)
    requires LikeParts(live, told, raws) && Draws(told, raws, results) && whole <= raws && i < |whole|
    requires i >= |told| && whole[i].ToolUse? ==> whole[i].id !in results
    ensures SettledAt(live, whole, i) == DrawBlock(whole[i], results)
  {
    assert whole[i] == raws[i];
    if i < |told| {
      assert live[i] == told[i] == DrawBlock(raws[i], results);
    } else if i < |live| {
      assert Drafted(live[i], raws[i]);
    }
  }

  /** Settling a longer part of the array: what is told of it, and drafts past it. */
  lemma SettleLike(live: seq<UiBlock>, told: seq<UiBlock>, whole: seq<ContentBlock>, results: Results,
                   raws: seq<ContentBlock>)
    requires LikeParts(live, told, raws) && Draws(told, raws, results) && whole <= raws && DistinctTools(raws)
    requires |told| <= |whole|
    requires forall i | |told| <= i < |whole| && whole[i].ToolUse? :: whole[i].id !in results
    ensures var r := Settle(live, whole);
      |r| >= |whole| && Draws(r[..|whole|], raws, results) && LikeParts(r, r[..|whole|], raws)
  {
    var r := Settle(live, whole);
    LikeOwnPlaces(live, told, whole, results, raws);
    SettleIsPointwise(live, whole);
    forall i | 0 <= i < |whole| ensures r[i] == DrawBlock(raws[i], results) {
      SettledBlock(live, told, whole, results, raws, i);
      assert whole[i] == raws[i];
    }
    forall j | |whole| <= j < |r| ensures Drafted(r[j], raws[j]) {
      assert r[j] == live[j] && Drafted(live[j], raws[j]);
    }
    forall i | 0 <= i < |whole| && r[i].ToolCall? ensures r[i].tool.children == [] {
      assert r[i] == DrawBlock(raws[i], results);
    }
  }

  lemma DrawsIsDrawn(parts: seq<UiBlock>, raws: seq<ContentBlock>, results: Results, k: nat)
    requires Draws(parts, raws, results) && |parts| == k
    ensures parts == DrawBlocks(raws[..k], results)
  {
  }

  /** A message's line: the item it is drawn as grows, whatever drafts it had. */
  lemma SettleItemLike(item: Item, drawn: Item, told: seq<ContentBlock>, whole: seq<ContentBlock>, results: Results,
                       plan: Plan)
    requires drawn.Assistant? && drawn == Assistant(drawn.id, DrawBlocks(told, results), false)
    requires item.Assistant? && item.id == drawn.id && LikeParts(item.parts, drawn.parts, plan(drawn.id))
    requires told <= whole <= plan(drawn.id) && DistinctTools(plan(drawn.id))
    requires forall i | |told| <= i < |whole| && whole[i].ToolUse? :: whole[i].id !in results
    ensures Like(SettleItem(whole)(item), Assistant(drawn.id, DrawBlocks(whole, results), false), plan)
  {
    var raws := plan(drawn.id);
    PrefixDraws(told, raws, results);
    SettleLike(item.parts, drawn.parts, whole, results, raws);
    var r := Settle(item.parts, whole);
    DrawsIsDrawn(r[..|whole|], raws, results, |whole|);
    assert raws[..|whole|] == whole;
  }

  lemma PrefixDraws(told: seq<ContentBlock>, raws: seq<ContentBlock>, results: Results)
    requires told <= raws
    ensures Draws(DrawBlocks(told, results), raws, results)
  {
  }
}
