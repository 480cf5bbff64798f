/**
 A message while it streams: whatever order its pieces come in, each position shows its
 own pieces one behind the other.
 */
module Streaming {

  import opened Basics
  import opened Transcript
  import opened Trees
  import opened ToolTree

  // ------------------------------------------------------------------ pieces

  /** A piece of text or of a thought, of a message of the conversation itself. */
  predicate Piece(e: Event, m: string) { (e.TextDelta? || e.ThinkingDelta?) && e.messageID == m && e.parent == "" }

  ghost predicate Pieces(es: seq<Event>, m: string) { forall e <- es :: Piece(e, m) }

  /** The texts for a position, joined. */
  function Said(es: seq<Event>, i: nat): string {
    if es == [] then ""
    else
      var last := es[|es| - 1];
      Said(es[..|es| - 1], i) + if last.TextDelta? && last.index == i then last.text else ""
  }

  /** The thoughts for a position, joined. */
  function Thought(es: seq<Event>, i: nat): string {
    if es == [] then ""
    else
      var last := es[|es| - 1];
      Thought(es[..|es| - 1], i) + if last.ThinkingDelta? && last.index == i then last.text else ""
  }

  /** The piece a position comes into being with: the first for it or a later one. */
  function Opener(es: seq<Event>, i: nat): (r: Option<Event>)
    ensures r.Some? ==> (r.value.TextDelta? || r.value.ThinkingDelta?) && r.value.index >= i
  {
    if es == [] then None
    else
      var before, last := Opener(es[..|es| - 1], i), es[|es| - 1];
      if before.Some? then before
      else if (last.TextDelta? || last.ThinkingDelta?) && last.index >= i then Some(last) else None
  }

  lemma PieceSnoc(es: seq<Event>, e: Event, i: nat)
    ensures Said(es + [e], i) == Said(es, i) + if e.TextDelta? && e.index == i then e.text else ""
    ensures Thought(es + [e], i) == Thought(es, i) + if e.ThinkingDelta? && e.index == i then e.text else ""
    ensures Opener(es + [e], i) == if Opener(es, i).Some? then Opener(es, i)
              else if (e.TextDelta? || e.ThinkingDelta?) && e.index >= i then Some(e) else None
  {
    assert (es + [e])[..|es|] == es;
  }

  /** A position after some pieces: what it showed goes on with the pieces of its own kind;
      where there was none, it shows its pieces, of the kind it was opened with, and a
      position passed over waits as an empty text. */
  ghost predicate Shows(was: seq<UiBlock>, now: UiBlock, es: seq<Event>, i: nat) {
    if i < |was| then
      match was[i]
      case Text(text, final) => now == Text(text + Said(es, i), final)
      case Thinking(text, final) => now == Thinking(text + Thought(es, i), final)
      case ToolCall(_) => now == was[i]
    else
      Opener(es, i).Some? &&
        (var first := Opener(es, i).value;
         if first.ThinkingDelta? && first.index == i then now == Thinking(Thought(es, i), false)
         else now == Text(Said(es, i), first.index > i))
  }

  ghost predicate Streamed(was: seq<UiBlock>, now: seq<UiBlock>, es: seq<Event>) {
    forall i: nat ::
      (i < |now| <==> i < |was| || Opener(es, i).Some?) && (i < |now| ==> Shows(was, now[i], es, i))
  }

  function WithPiece(parts: seq<UiBlock>, e: Event): seq<UiBlock> {
    if e.TextDelta? then TextAt(parts, e.index, e.text)
    else if e.ThinkingDelta? then ThinkingAt(parts, e.index, e.text) else parts
  }

  /** What one piece does to each position. */
  lemma PieceAt(parts: seq<UiBlock>, e: Event, m: string, i: nat)
    requires Piece(e, m)
    ensures var next := WithPiece(parts, e);
      && |next| == (if e.index < |parts| then |parts| else e.index + 1)
      && (i < |parts| && i != e.index ==> next[i] == parts[i])
      && (|parts| <= i < e.index ==> next[i] == Text("", true))
      && (i == e.index ==> next[i] == Grown(if i < |parts| then Some(parts[i]) else None, e))
  {
    assert "" + e.text == e.text;
  }

  /** The position a piece is for. */
  function Grown(was: Option<UiBlock>, e: Event): UiBlock
    requires e.TextDelta? || e.ThinkingDelta?
  {
    if was.None? then (if e.TextDelta? then Text(e.text, false) else Thinking(e.text, false))
    else if e.TextDelta? && was.value.Text? then Text(was.value.text + e.text, was.value.final)
    else if e.ThinkingDelta? && was.value.Thinking? then Thinking(was.value.text + e.text, was.value.final)
    else was.value
  }

  lemma OldGrows(was: seq<UiBlock>, now: UiBlock, es: seq<Event>, e: Event, m: string, i: nat)
    requires Shows(was, now, es, i) && Piece(e, m) && e.index == i
    ensures Shows(was, Grown(Some(now), e), es + [e], i)
  {
    PieceSnoc(es, e, i);
    if i < |was| && !was[i].ToolCall? {
      Associates(was[i].text, if was[i].Text? then Said(es, i) else Thought(es, i), e.text);
    }
  }

  lemma OthersStay(was: seq<UiBlock>, now: UiBlock, es: seq<Event>, e: Event, m: string, i: nat)
    requires Shows(was, now, es, i) && Piece(e, m) && e.index != i
    ensures Shows(was, now, es + [e], i)
  {
    PieceSnoc(es, e, i);
    assert Said(es, i) + "" == Said(es, i) && Thought(es, i) + "" == Thought(es, i);
  }

  lemma NewShows(was: seq<UiBlock>, es: seq<Event>, e: Event, m: string, i: nat)
    requires i >= |was| && Opener(es, i).None? && Piece(e, m) && e.index >= i
    ensures Shows(was, if e.index == i then Grown(None, e) else Text("", true), es + [e], i)
  {
    PieceSnoc(es, e, i);
    NothingYet(es, i);
  }

  lemma {:induction false} NothingYet(es: seq<Event>, i: nat)
    requires Opener(es, i).None?
    ensures Said(es, i) == "" && Thought(es, i) == ""
  {
    if es != [] {
      NothingYet(es[..|es| - 1], i);
    }
  }

  lemma PieceShows(was: seq<UiBlock>, now: seq<UiBlock>, es: seq<Event>, e: Event, m: string, i: nat)
    requires Streamed(was, now, es) && Piece(e, m)
    ensures var next := WithPiece(now, e);
      (i < |next| <==> i < |was| || Opener(es + [e], i).Some?) && (i < |next| ==> Shows(was, next[i], es + [e], i))
  {
    PieceSnoc(es, e, i);
    PieceAt(now, e, m, i);
    if i < |now| {
      assert Shows(was, now[i], es, i);
      if i == e.index {
        OldGrows(was, now[i], es, e, m, i);
      } else {
        OthersStay(was, now[i], es, e, m, i);
      }
    } else if i <= e.index {
      NewShows(was, es, e, m, i);
    }
  }

  // ---------------------------------------------------------------- on screen

  function PartsOf(items: seq<Item>, m: string): seq<UiBlock> {
    if HasAssistant(items, m) then items[AssistantAt(items, m)].parts else []
  }

  /** The other items, each in its place. */
  ghost predicate Beside(was: seq<Item>, now: seq<Item>, m: string) {
    && |was| <= |now| <= |was| + 1
    && (|now| > |was| ==> !HasAssistant(was, m) && AssistantAt(now, m) == |was|)
    && (HasAssistant(was, m) ==> AssistantAt(now, m) == AssistantAt(was, m))
    && forall i | 0 <= i < |was| && i != AssistantAt(was, m) :: now[i] == was[i]
  }

  lemma OnePiece(t: State, e: Event, m: string)
    requires Piece(e, m)
    ensures var items, now := t.items, Apply(t, e).items;
      && Apply(t, e).seen == t.seen && Beside(items, now, m) && HasAssistant(now, m)
      && now[AssistantAt(now, m)] == Assistant(m, WithPiece(PartsOf(items, m), e), true)
  {
    var items, at := t.items, AssistantAt(t.items, m);
    var now := WithAssistant(items, m, true, StreamItem(e));
    assert Apply(t, e) == t.(items := now);
    assert now[at] == Assistant(m, WithPiece(PartsOf(items, m), e), true);
    assert forall i | 0 <= i < |items| && i != at :: now[i] == items[i];
    LastOfAll(now, m, at);
  }

  lemma LastOfAll(items: seq<Item>, m: string, at: nat)
    requires at < |items| && items[at].Assistant? && items[at].id == m
    requires forall i | at < i < |items| :: !(items[i].Assistant? && items[i].id == m)
    ensures AssistantAt(items, m) == at
  {
  }

  lemma BesideOn(was: seq<Item>, now: seq<Item>, next: seq<Item>, m: string)
    requires Beside(was, now, m) && Beside(now, next, m) && (HasAssistant(now, m) || now == was)
    ensures Beside(was, next, m)
  {
  }

  /** Pieces of a message, in any order of positions: they are all in one item, each
      position shows its own one behind the other, and nothing else on screen changes. */
  lemma {:induction false} PiecesAccumulate(t: State, es: seq<Event>, m: string)
    requires Pieces(es, m)
    ensures var after := Fold(t, es);
      && after.seen == t.seen && Beside(t.items, after.items, m)
      && Streamed(PartsOf(t.items, m), PartsOf(after.items, m), es)
      && (es != [] ==> HasAssistant(after.items, m) && after.items[AssistantAt(after.items, m)].streaming)
    decreases |es|
  {
    if es != [] {
      var before, e := es[..|es| - 1], es[|es| - 1];
      assert es == before + [e];
      PiecesAccumulate(t, before, m);
      var now := Fold(t, before);
      OnePiece(now, e, m);
      if before != [] {
        BesideOn(t.items, now.items, Apply(now, e).items, m);
      }
      MorePieces(PartsOf(t.items, m), PartsOf(now.items, m), before, e, m);
    }
  }

  lemma MorePieces(was: seq<UiBlock>, now: seq<UiBlock>, es: seq<Event>, e: Event, m: string)
    requires Streamed(was, now, es) && Piece(e, m)
    ensures Streamed(was, WithPiece(now, e), es + [e])
  {
    forall i: nat
      ensures var next := WithPiece(now, e);
        (i < |next| <==> i < |was| || Opener(es + [e], i).Some?) && (i < |next| ==> Shows(was, next[i], es + [e], i))
    {
      PieceShows(was, now, es, e, m, i);
    }
  }

  // --------------------------------------------------------------- tool calls

  /** The start of a tool call nobody has seen opens it where it says, under its name and
      kind, with no input yet; positions passed over wait as empty texts. */
  lemma CallOpens(t: State, e: Event, m: string)
    requires e.ToolUseStart? && e.messageID == m && e.parent == "" && FindTool(t.items, e.toolUseID).None?
    requires e.index >= |PartsOf(t.items, m)|
    ensures var items, now := t.items, Apply(t, e).items;
      && Beside(items, now, m) && HasAssistant(now, m)
      && (var was, parts := PartsOf(items, m), PartsOf(now, m);
          && |parts| == e.index + 1 && parts[..|was|] == was
          && (forall i | |was| <= i < e.index :: parts[i] == Text("", true))
          && parts[e.index] == ToolCall(Tool(e.toolUseID, e.name, e.kind, "{}", Some(""), None, None, [])))
  {
    var items, at := t.items, AssistantAt(t.items, m);
    var now := WithAssistant(items, m, true, StreamItem(e));
    assert Apply(t, e) == t.(items := now);
    assert forall i | 0 <= i < |items| && i != at :: now[i] == items[i];
    LastOfAll(now, m, at);
  }

  function Joined(texts: seq<string>): string {
    if texts == [] then "" else Joined(texts[..|texts| - 1]) + texts[|texts| - 1]
  }

  function Inputs(id: string, texts: seq<string>): seq<Event> {
    if texts == [] then [] else Inputs(id, texts[..|texts| - 1]) + [ToolInputDelta(id, texts[|texts| - 1])]
  }

  /** The tool with pieces of input behind what it has. */
  function Fed(tool: Tool, texts: seq<string>): Tool {
    if texts == [] then tool
    else tool.(partialJson := Some((if tool.partialJson.Some? then tool.partialJson.value else "") + Joined(texts)))
  }

  /** The pieces of a call's input stand one behind the other, on the one tool they are
      for. */
  lemma {:induction false} InputAccumulates(t: State, id: string, texts: seq<string>)
    requires First(ToolList(t.items), id) < |ToolList(t.items)|
    ensures var was, k := ToolList(t.items), First(ToolList(t.items), id);
      ToolList(Fold(t, Inputs(id, texts)).items) == was[k := Fed(was[k], texts)]
    decreases |texts|
  {
    var was, k := ToolList(t.items), First(ToolList(t.items), id);
    if texts == [] {
      assert was[k := was[k]] == was;
    } else {
      var before, text := texts[..|texts| - 1], texts[|texts| - 1];
      InputAccumulates(t, id, before);
      InputsFold(t, id, before, text);
      OneMore(Fold(t, Inputs(id, before)), was, k, id, before, text);
      assert texts == before + [text];
    }
  }

  lemma InputsFold(t: State, id: string, texts: seq<string>, text: string)
    ensures Fold(t, Inputs(id, texts + [text])) == Apply(Fold(t, Inputs(id, texts)), ToolInputDelta(id, text))
  {
    assert (texts + [text])[..|texts|] == texts;
    FoldAppend(t, Inputs(id, texts), [ToolInputDelta(id, text)]);
    FoldOne(Fold(t, Inputs(id, texts)), ToolInputDelta(id, text));
  }

  lemma OneMore(now: State, was: seq<Tool>, k: nat, id: string, texts: seq<string>, text: string)
    requires k < |was| && k == First(was, id) && ToolList(now.items) == was[k := Fed(was[k], texts)]
    ensures ToolList(Apply(now, ToolInputDelta(id, text)).items) == was[k := Fed(was[k], texts + [text])]
  {
    StillFirst(was, ToolList(now.items), id);
    UpdateTouchesOne(now, ToolInputDelta(id, text));
    FedMore(was[k], texts, text);
  }

  lemma FedMore(tool: Tool, texts: seq<string>, text: string)
    ensures var fed := Fed(tool, texts);
      fed.(partialJson := Some((if fed.partialJson.Some? then fed.partialJson.value else "") + text))
      == Fed(tool, texts + [text])
  {
    assert (texts + [text])[..|texts|] == texts;
    var start := if tool.partialJson.Some? then tool.partialJson.value else "";
    Associates(start, Joined(texts), text);
    assert "" + text == text;
  }

  lemma StillFirst(was: seq<Tool>, now: seq<Tool>, id: string)
    requires |was| == |now| && forall i | 0 <= i < |was| :: was[i].id == now[i].id
    ensures First(was, id) == First(now, id)
  {
  }

  /** Once the call has ended its input is the one it ended with, whatever came before. */
  lemma InputSettles(t: State, id: string, texts: seq<string>, input: string)
    requires First(ToolList(t.items), id) < |ToolList(t.items)|
    ensures var was, k := ToolList(t.items), First(ToolList(t.items), id);
      ToolList(Apply(Fold(t, Inputs(id, texts)), ToolUseEnd(id, input)).items)
      == was[k := was[k].(input := input, partialJson := None)]
  {
    InputAccumulates(t, id, texts);
    var now := Fold(t, Inputs(id, texts));
    StillFirst(ToolList(t.items), ToolList(now.items), id);
    UpdateTouchesOne(now, ToolUseEnd(id, input));
  }

  // ------------------------------------------------------- a call looked up

  lemma {:induction false} FirstInParts(parts: seq<UiBlock>, index: nat, tool: Tool)
    requires index < |parts| && parts[index] == ToolCall(tool) && FindInParts(parts[..index], tool.id).None?
    ensures FindInParts(parts, tool.id) == Some(tool)
  {
    if index > 0 {
      assert parts[..index][1..] == parts[1..][..index - 1] && parts[..index][0] == parts[0];
      FirstInParts(parts[1..], index - 1, tool);
    }
  }

  lemma {:induction false} NoneWithBlanks(was: seq<UiBlock>, parts: seq<UiBlock>, id: string)
    requires |was| <= |parts| && parts[..|was|] == was && FindInParts(was, id).None?
    requires forall i | |was| <= i < |parts| :: parts[i] == Text("", true)
    ensures FindInParts(parts, id).None?
  {
    if parts != [] {
      if was == [] {
        NoneWithBlanks([], parts[1..], id);
      } else {
        assert parts[0] == was[0] && parts[1..][..|was| - 1] == was[1..];
        NoneWithBlanks(was[1..], parts[1..], id);
      }
    }
  }

  lemma {:induction false} NoneInItem(items: seq<Item>, at: nat, id: string)
    requires FindTool(items, id).None? && at < |items| && items[at].Assistant?
    ensures FindInParts(items[at].parts, id).None?
  {
    if at > 0 {
      NoneInItem(items[1..], at - 1, id);
    }
  }

  lemma {:induction false} FoundInItem(was: seq<Item>, now: seq<Item>, at: nat, id: string)
    requires FindTool(was, id).None? && |was| <= |now| <= |was| + 1 && at < |now| && (|now| > |was| ==> at == |was|)
    requires (forall i | 0 <= i < |was| && i != at :: now[i] == was[i]) && now[at].Assistant?
    requires FindInParts(now[at].parts, id).Some?
    ensures FindTool(now, id) == FindInParts(now[at].parts, id)
  {
    if at > 0 {
      assert now[0] == was[0];
      FoundInItem(was[1..], now[1..], at - 1, id);
    }
  }

  lemma StartShows(t: State, e: Event, m: string)
    requires e.ToolUseStart? && e.messageID == m && e.parent == "" && FindTool(t.items, e.toolUseID).None?
    requires e.index >= |PartsOf(t.items, m)|
    ensures FindTool(Apply(t, e).items, e.toolUseID)
            == Some(Tool(e.toolUseID, e.name, e.kind, "{}", Some(""), None, None, []))
  {
    CallOpens(t, e, m);
    var was, now := PartsOf(t.items, m), Apply(t, e).items;
    var parts, tool := PartsOf(now, m), Tool(e.toolUseID, e.name, e.kind, "{}", Some(""), None, None, []);
    if HasAssistant(t.items, m) {
      NoneInItem(t.items, AssistantAt(t.items, m), e.toolUseID);
    }
    assert parts[..e.index][..|was|] == was;
    NoneWithBlanks(was, parts[..e.index], e.toolUseID);
    FirstInParts(parts, e.index, tool);
    FoundInItem(t.items, now, AssistantAt(now, m), e.toolUseID);
  }

  lemma {:induction false} InputFound(t: State, id: string, texts: seq<string>, tool: Tool)
    requires FindTool(t.items, id) == Some(tool) && tool.id == id
    ensures FindTool(Fold(t, Inputs(id, texts)).items, id) == Some(Fed(tool, texts))
    decreases |texts|
  {
    if texts != [] {
      var before, text := texts[..|texts| - 1], texts[|texts| - 1];
      InputFound(t, id, before, tool);
      InputsFold(t, id, before, text);
      InputFoundMore(Fold(t, Inputs(id, before)), id, before, text, tool);
      assert before + [text] == texts;
    }
  }

  lemma InputFoundMore(now: State, id: string, texts: seq<string>, text: string, tool: Tool)
    requires FindTool(now.items, id) == Some(Fed(tool, texts)) && tool.id == id
    ensures FindTool(Apply(now, ToolInputDelta(id, text)).items, id) == Some(Fed(tool, texts + [text]))
  {
    FoundIsEdited(now.items, id, EditByEvent(ToolInputDelta(id, text)));
    FedMore(tool, texts, text);
  }

  lemma EndFound(now: State, id: string, input: string, tool: Tool)
    requires FindTool(now.items, id) == Some(tool) && tool.id == id
    ensures FindTool(Apply(now, ToolUseEnd(id, input)).items, id) == Some(tool.(input := input, partialJson := None))
  {
    FoundIsEdited(now.items, id, EditByEvent(ToolUseEnd(id, input)));
  }

  lemma CallFolds(t: State, told: seq<Event>, start: Event, id: string, texts: seq<string>)
    ensures Fold(t, told + [start] + Inputs(id, texts)) == Fold(Apply(Fold(t, told), start), Inputs(id, texts))
  {
    FoldAppend(t, told + [start], Inputs(id, texts));
    FoldAppend(t, told, [start]);
    FoldOne(Fold(t, told), start);
  }
}
