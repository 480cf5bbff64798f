/**
 What settling an assistant message makes of the blocks streamed before it, one
 position at a time.
 */
module Settling {
  import opened Basics
  import opened Transcript

  predicate IsTool(parts: seq<UiBlock>, i: nat, id: string) {
    i < |parts| && parts[i].ToolCall? && parts[i].tool.id == id
  }

  /** No tool with this id anywhere but at top-level position `i`. */
  ghost predicate OnlyAt(parts: seq<UiBlock>, id: string, i: nat) {
    forall j | 0 <= j < |parts| && parts[j].ToolCall? ::
      (parts[j].tool.id == id ==> j == i) && FindTool(parts[j].tool.children, id) == None
  }

  lemma {:induction false} FindOnly(parts: seq<UiBlock>, id: string, i: nat)
    requires OnlyAt(parts, id, i)
    ensures FindInParts(parts, id) == if IsTool(parts, i, id) then Some(parts[i].tool) else None
  {
    if parts != [] && i > 0 {
      FindOnly(parts[1..], id, i - 1);
    } else if parts != [] {
      FindNone(parts[1..], id);
    }
  }

  lemma {:induction false} FindNone(parts: seq<UiBlock>, id: string)
    requires forall j | 0 <= j < |parts| && parts[j].ToolCall? ::
               parts[j].tool.id != id && FindTool(parts[j].tool.children, id) == None
    ensures FindInParts(parts, id) == None
  {
    if parts != [] {
      FindNone(parts[1..], id);
    }
  }

  lemma {:induction false} EditOnly(parts: seq<UiBlock>, id: string, i: nat, edit: Tool -> Tool)
    requires OnlyAt(parts, id, i) && IsTool(parts, i, id)
    ensures EditInParts(parts, id, edit) == parts[i := ToolCall(edit(parts[i].tool))]
  {
    if i > 0 {
      EditOnly(parts[1..], id, i - 1, edit);
    }
  }

  // -------------------------------------------------- what each position shows

  /** The tools of a content array have distinct ids, and each one that is
      already on screen stands at its own position. */
  ghost predicate OwnPlaces(parts: seq<UiBlock>, raws: seq<ContentBlock>) {
    && (forall i | 0 <= i < |raws| && raws[i].ToolUse? :: OnlyAt(parts, raws[i].id, i))
    && (forall i, j | 0 <= i < j < |raws| && raws[i].ToolUse? && raws[j].ToolUse? :: raws[i].id != raws[j].id)
  }

  /** The block position `i` shows once the message has settled. */
  function SettledAt(parts: seq<UiBlock>, raws: seq<ContentBlock>, i: nat): UiBlock
    requires i < |parts| || i < |raws|
  {
    if i >= |raws| then parts[i]
    else match raws[i]
      case ToolUse(id, name, kind, input) =>
        if IsTool(parts, i, id)
        then ToolCall(parts[i].tool.(input := input, partialJson := None))
        else ToolCall(Tool(id, name, kind, input, None, None, None, []))
      case _ =>
        if ToUiBlock(raws[i]).Some? then ToUiBlock(raws[i]).value
        else if i < |parts| then parts[i] else BLANK
  }

  function Longer(a: nat, b: nat): nat { if a >= b then a else b }

  ghost predicate SettledUpTo(parts: seq<UiBlock>, raws: seq<ContentBlock>, k: nat, r: seq<UiBlock>)
    requires k <= |raws|
  {
    && |r| == Longer(|parts|, k)
    && (forall i | 0 <= i < |r| :: r[i] == if i < k then SettledAt(parts, raws, i) else parts[i])
  }

  lemma SettleOneStep(parts: seq<UiBlock>, raws: seq<ContentBlock>, k: nat, r: seq<UiBlock>)
    requires OwnPlaces(parts, raws) && k < |raws| && SettledUpTo(parts, raws, k, r)
    ensures SettledUpTo(parts, raws, k + 1, SettleOne(r, k, raws[k]))
  {
    if raws[k].ToolUse? {
      var id := raws[k].id;
      assert OnlyAt(parts, id, k);
      assert FindTool([], id) == None;
      forall j | 0 <= j < |r| && r[j].ToolCall?
        ensures (r[j].tool.id == id ==> j == k) && FindTool(r[j].tool.children, id) == None
      {
        assert r[j] == if j < k then SettledAt(parts, raws, j) else parts[j];
      }
      FindOnly(r, id, k);
      if IsTool(r, k, id) {
        EditOnly(r, id, k, (t: Tool) => Settled(t, raws[k].input));
      }
    }
  }

  lemma {:induction false} SettleSteps(parts: seq<UiBlock>, raws: seq<ContentBlock>, k: nat, r: seq<UiBlock>)
    requires OwnPlaces(parts, raws) && k <= |raws| && SettledUpTo(parts, raws, k, r)
    ensures SettledUpTo(parts, raws, |raws|, SettleFrom(r, k, raws))
    decreases |raws| - k
  {
    if k < |raws| {
      SettleOneStep(parts, raws, k, r);
      SettleSteps(parts, raws, k + 1, SettleOne(r, k, raws[k]));
    }
  }

  /** Settling decides every position of the content array on its own: a block
      with something to draw replaces what was streamed there, a tool keeps the
      result, output and children attached to it, an empty block leaves what was
      streamed, and nothing past the array is touched or left out. */
  lemma SettleIsPointwise(parts: seq<UiBlock>, raws: seq<ContentBlock>)
    requires OwnPlaces(parts, raws)
    ensures |Settle(parts, raws)| == Longer(|parts|, |raws|)
    ensures forall i | 0 <= i < |Settle(parts, raws)| :: Settle(parts, raws)[i] == SettledAt(parts, raws, i)
  {
    SettleSteps(parts, raws, 0, parts);
  }

  lemma OwnPlacesKept(parts: seq<UiBlock>, raws: seq<ContentBlock>, k: nat)
    requires OwnPlaces(parts, raws) && k <= |raws|
    ensures OwnPlaces(parts, raws[..k])
    ensures OwnPlaces(Settle(parts, raws[..k]), raws)
  {
    var head := raws[..k];
    assert OwnPlaces(parts, head) by {
      forall i | 0 <= i < |head| && head[i].ToolUse? ensures OnlyAt(parts, head[i].id, i) {
        assert OnlyAt(parts, raws[i].id, i);
      }
    }
    SettleIsPointwise(parts, head);
    var r := Settle(parts, head);
    forall i | 0 <= i < |raws| && raws[i].ToolUse? ensures OnlyAt(r, raws[i].id, i) {
      assert OnlyAt(parts, raws[i].id, i);
      assert FindTool([], raws[i].id) == None;
      forall j | 0 <= j < |r| && r[j].ToolCall?
        ensures (r[j].tool.id == raws[i].id ==> j == i) && FindTool(r[j].tool.children, raws[i].id) == None
      {
        assert r[j] == SettledAt(parts, head, j);
        if j < k && raws[j].ToolUse? {
          assert r[j].tool.id == raws[j].id;
        }
      }
    }
  }

  /** A message revealed block by block settles as it would have in one piece. */
  lemma GrownArray(parts: seq<UiBlock>, raws: seq<ContentBlock>, k: nat)
    requires OwnPlaces(parts, raws) && k <= |raws|
    ensures Settle(Settle(parts, raws[..k]), raws) == Settle(parts, raws)
  {
    var head := raws[..k];
    OwnPlacesKept(parts, raws, k);
    SettleIsPointwise(parts, head);
    SettleIsPointwise(parts, raws);
    SettleIsPointwise(Settle(parts, head), raws);
    var r := Settle(parts, head);
    forall i | 0 <= i < |Settle(r, raws)| ensures Settle(r, raws)[i] == Settle(parts, raws)[i] {
      if i < |r| {
        assert r[i] == SettledAt(parts, head, i);
      }
      assert Settle(r, raws)[i] == SettledAt(r, raws, i);
    }
  }

  lemma SettleIdempotent(parts: seq<UiBlock>, raws: seq<ContentBlock>)
    requires OwnPlaces(parts, raws)
    ensures Settle(Settle(parts, raws), raws) == Settle(parts, raws)
  {
    assert raws[..|raws|] == raws;
    GrownArray(parts, raws, |raws|);
  }

  // -------------------------------------------------------- after streaming

  ghost predicate DistinctTools(raws: seq<ContentBlock>) {
    forall i, j | 0 <= i < j < |raws| && raws[i].ToolUse? && raws[j].ToolUse? :: raws[i].id != raws[j].id
  }

  function ToolIDs(raws: seq<ContentBlock>): set<string> {
    set raw | raw in raws && raw.ToolUse? :: raw.id
  }

  /** Everything in a content array has something to draw. */
  ghost predicate Survives(raws: seq<ContentBlock>) {
    forall i | 0 <= i < |raws| :: ToUiBlock(raws[i]).Some?
  }

  /** What streaming can leave of a message before it settles: blocks within the
      array, its own tools at their positions, with nothing attached to them but
      streamed output. */
  ghost predicate Draft(parts: seq<UiBlock>, raws: seq<ContentBlock>) {
    && |parts| <= |raws|
    && (forall i | 0 <= i < |parts| && parts[i].ToolCall? ::
          && raws[i].ToolUse? && raws[i].id == parts[i].tool.id
          && raws[i].name == parts[i].tool.name && raws[i].kind == parts[i].tool.kind
          && parts[i].tool.result == None && parts[i].tool.children == [])
  }

  /** A message nobody saw stream in. */
  function Drawn(raws: seq<ContentBlock>): seq<UiBlock> {
    Settle([], raws)
  }

  function Quiet(block: UiBlock): UiBlock {
    if block.ToolCall? then ToolCall(block.tool.(output := None)) else block
  }

  function QuietParts(parts: seq<UiBlock>): seq<UiBlock> {
    seq(|parts|, i requires 0 <= i < |parts| => Quiet(parts[i]))
  }

  lemma DrawnIsPointwise(raws: seq<ContentBlock>)
    requires DistinctTools(raws) && Survives(raws)
    ensures |Drawn(raws)| == |raws|
    ensures forall i | 0 <= i < |raws| :: Drawn(raws)[i] == ToUiBlock(raws[i]).value
    ensures QuietParts(Drawn(raws)) == Drawn(raws)
  {
    SettleIsPointwise([], raws);
  }

  /** Whatever was streamed, the settled message shows what a client that saw
      none of it shows, streamed tool output apart. */
  lemma StreamingAbsorbed(parts: seq<UiBlock>, raws: seq<ContentBlock>)
    requires Draft(parts, raws) && DistinctTools(raws) && Survives(raws)
    ensures QuietParts(Settle(parts, raws)) == Drawn(raws)
    ensures forall i | 0 <= i < |Settle(parts, raws)| && Settle(parts, raws)[i].ToolCall? ::
              Settle(parts, raws)[i].tool.children == []
  {
    forall i | 0 <= i < |raws| && raws[i].ToolUse? ensures OnlyAt(parts, raws[i].id, i) {
      assert FindTool([], raws[i].id) == None;
    }
    SettleIsPointwise(parts, raws);
    DrawnIsPointwise(raws);
  }

  /** Filling a position within the array, with its own tool if with a tool. */
  lemma BlockKeepsDraft(parts: seq<UiBlock>, raws: seq<ContentBlock>, index: nat, made: UiBlock)
    requires Draft(parts, raws) && index < |raws|
    requires made.ToolCall? ==>
               && raws[index].ToolUse? && raws[index].id == made.tool.id
               && raws[index].name == made.tool.name && raws[index].kind == made.tool.kind
               && made.tool.result == None && made.tool.children == []
    ensures Draft(BlockAt(parts, index, made), raws)
  {
    var r := BlockAt(parts, index, made);
    forall i | 0 <= i < |parts| ensures r[i] == parts[i] {
      assert r[..|parts|][i] == parts[i];
    }
  }

  /** Rewriting a block that is no tool, with none. */
  lemma TextKeepsDraft(parts: seq<UiBlock>, raws: seq<ContentBlock>, index: nat, text: UiBlock)
    requires Draft(parts, raws) && index < |parts| && !text.ToolCall?
    ensures Draft(parts[index := text], raws)
  {
  }

  /** Streaming one block keeps a message a draft of its content. */
  lemma StreamKeepsDraft(parts: seq<UiBlock>, raws: seq<ContentBlock>, event: Event, item: Item)
    requires item.Assistant? && item.parts == parts && Draft(parts, raws)
    requires event.TextDelta? || event.ThinkingDelta? || event.ToolUseStart?
    requires event.index < |raws|
    requires event.ToolUseStart? ==>
               && raws[event.index].ToolUse? && raws[event.index].id == event.toolUseID
               && raws[event.index].name == event.name && raws[event.index].kind == event.kind
    ensures StreamItem(event)(item).Assistant? && StreamItem(event)(item).id == item.id
    ensures StreamItem(event)(item).parts != [] && Draft(StreamItem(event)(item).parts, raws)
  {
    match event {
      case TextDelta(_, index, text, _) =>
        BlockKeepsDraft(parts, raws, index, Text("", false));
        var r := BlockAt(parts, index, Text("", false));
        if r[index].Text? {
          TextKeepsDraft(r, raws, index, Text(r[index].text + text, r[index].final));
        }
      case ThinkingDelta(_, index, text, _) =>
        BlockKeepsDraft(parts, raws, index, Thinking("", false));
        var r := BlockAt(parts, index, Thinking("", false));
        if r[index].Thinking? {
          TextKeepsDraft(r, raws, index, Thinking(r[index].text + text, r[index].final));
        }
      case ToolUseStart(_, index, id, name, kind, _) =>
        BlockKeepsDraft(parts, raws, index, ToolCall(Tool(id, name, kind, "{}", Some(""), None, None, [])));
    }
  }
}
