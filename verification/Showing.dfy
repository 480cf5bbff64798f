/**
 What an event leaves on screen, in terms of the event itself.
 */
module Showing {

  import opened Basics
  import opened Transcript
  import opened Trees
  import opened Settling
  import opened Sieves
  import opened ToolTree

  // ---------------------------------------------------------- settled messages

  /** A block of a message as it is drawn: prose as prose, a thought as a thought, a call
      as a tool without result, output or subagent yet; where there is nothing to show,
      an empty text holds the position. */
  ghost predicate Draws(raw: ContentBlock, block: UiBlock) {
    match raw
    case TextContent(text) => block == Text(text, true)
    case ThinkingContent(text) => block == if text == "" then Text("", true) else Thinking(text, true)
    case ToolUse(id, name, kind, input) => block == ToolCall(Tool(id, name, kind, input, None, None, None, []))
    case OtherContent(_) => block == Text("", true)
  }

  lemma {:induction false} SettledDraws(parts: seq<UiBlock>, index: nat, raws: seq<ContentBlock>)
    requires index == |parts| <= |raws| && DistinctTools(raws)
    requires forall i | 0 <= i < index :: Draws(raws[i], parts[i])
    ensures var r := SettleFrom(parts, index, raws);
      |r| == |raws| && forall i | 0 <= i < |raws| :: Draws(raws[i], r[i])
    decreases |raws| - index
  {
    if index < |raws| {
      OneDraws(parts, raws, index);
      SettledDraws(SettleOne(parts, index, raws[index]), index + 1, raws);
    }
  }

  lemma {:induction false} NotAmong(parts: seq<UiBlock>, id: string)
    requires forall i | 0 <= i < |parts| && parts[i].ToolCall? :: parts[i].tool.id != id && parts[i].tool.children == []
    ensures FindInParts(parts, id) == None
  {
    if parts != [] {
      assert FindTool([], id) == None;
      NotAmong(parts[1..], id);
    }
  }

  lemma OneDraws(parts: seq<UiBlock>, raws: seq<ContentBlock>, index: nat)
    requires index == |parts| < |raws| && DistinctTools(raws)
    requires forall i | 0 <= i < index :: Draws(raws[i], parts[i])
    ensures var r := SettleOne(parts, index, raws[index]);
      |r| == index + 1 && forall i | 0 <= i <= index :: Draws(raws[i], r[i])
  {
    if raws[index].ToolUse? {
      forall i | 0 <= i < |parts| && parts[i].ToolCall?
        ensures parts[i].tool.id != raws[index].id && parts[i].tool.children == []
      {
        assert Draws(raws[i], parts[i]) && raws[i].ToolUse?;
      }
      NotAmong(parts, raws[index].id);
    }
  }

  /** A message nobody has seen comes at the end, block by block as it is. */
  lemma MessageShows(t: State, m: string, content: seq<ContentBlock>)
    requires m !in t.seen && !HasAssistant(t.items, m) && DistinctTools(content)
    ensures var now := Apply(t, AssistantMessage(m, content, ""));
      && now.seen == t.seen + {m} && |now.items| == |t.items| + 1 && now.items[..|t.items|] == t.items
      && var item := now.items[|t.items|];
         && item.Assistant? && item.id == m && !item.streaming && |item.parts| == |content|
         && forall i | 0 <= i < |content| :: Draws(content[i], item.parts[i])
  {
    SettledDraws([], 0, content);
    var now := Apply(t, AssistantMessage(m, content, ""));
    assert now.items == t.items + [SettleItem(content)(Assistant(m, [], false))];
  }

  // ------------------------------------------------------------- user messages

  /** A block of a user message that can be seen is drawn as it is. */
  predicate Seen(raw: UserBlock, block: UserBlock) { block == raw && raw != UserText("") }

  lemma {:induction false} VisibleAreSieved(blocks: seq<UserBlock>)
    ensures Sieved(blocks, UserBlocks(blocks), Seen)
  {
    if blocks == [] {
      NothingSieved(Seen);
    } else {
      VisibleAreSieved(blocks[1..]);
      assert blocks == [blocks[0]] + blocks[1..];
      if blocks[0] == UserText("") {
        Skips(blocks[0], blocks[1..], UserBlocks(blocks[1..]), Seen);
        assert [] + UserBlocks(blocks[1..]) == UserBlocks(blocks[1..]);
      } else {
        Keeps(blocks[0], blocks[0], blocks[1..], UserBlocks(blocks[1..]), Seen);
      }
    }
  }

  /** What becomes of a user message: what can be seen of it, behind the items, or nothing
      when that is nothing. */
  ghost predicate UserAdded(was: seq<Item>, now: seq<Item>, id: string, blocks: seq<UserBlock>) {
    if forall i | 0 <= i < |blocks| :: blocks[i] == UserText("") then now == was
    else
      now != [] && now == was + [now[|now| - 1]] &&
        (var item := now[|now| - 1];
         item.User? && item.id == id && item.clientMessageID == "" && Sieved(blocks, item.blocks, Seen))
  }

  lemma NothingVisible(blocks: seq<UserBlock>)
    ensures UserBlocks(blocks) == [] <==> forall i | 0 <= i < |blocks| :: blocks[i] == UserText("")
  {
    VisibleAreSieved(blocks);
    EmptySieve(blocks, UserBlocks(blocks), Seen);
    if UserBlocks(blocks) == [] {
      forall i | 0 <= i < |blocks| ensures blocks[i] == UserText("") {
        assert !Seen(blocks[i], blocks[i]);
      }
    }
  }

  /** A user message nobody has seen comes at the end. */
  lemma UserShows(t: State, id: string, blocks: seq<UserBlock>)
    requires id !in t.seen
    ensures var now := Apply(t, UserMessage(id, blocks, "", ""));
      now.seen == t.seen + {id} && UserAdded(t.items, now.items, id, blocks)
  {
    VisibleAreSieved(blocks);
    NothingVisible(blocks);
    if UserBlocks(blocks) != [] {
      Pushed(t.items, User(id, UserBlocks(blocks), ""));
    }
  }

  lemma Pushed(items: seq<Item>, item: Item)
    ensures (items + [item])[|items + [item]| - 1] == item
  {
  }

  // ----------------------------------------------------------- notes and alerts

  /** Notes and alerts come at the end as they are. */
  lemma NotesShow(t: State, e: Event)
    ensures var now := Apply(t, e);
      match e
      case ContextBoundary(tokens) => now == State(t.items + [Note("", tokens, true, "")], t.seen)
      case Notice(message) => now == State(t.items + [Note(message, None, false, "")], t.seen)
      case BackgroundTaskFinished(summary, status) =>
        now == State(t.items + [Note(summary, None, false, status)], t.seen)
      case StreamError(code, message, fatal) => now == State(t.items + [Alert(code, message, fatal)], t.seen)
      case OtherEvent => now == t
      case _ => true
  {
  }

  /** The notes and alerts among items, in order. */
  function Asides(items: seq<Item>): seq<Item> {
    if items == [] then []
    else (if items[0].Note? || items[0].Alert? then [items[0]] else []) + Asides(items[1..])
  }

  function AsideOf(e: Event): seq<Item> {
    match e
    case ContextBoundary(tokens) => [Note("", tokens, true, "")]
    case Notice(message) => [Note(message, None, false, "")]
    case BackgroundTaskFinished(summary, status) => [Note(summary, None, false, status)]
    case StreamError(code, message, fatal) => [Alert(code, message, fatal)]
    case _ => []
  }

  lemma {:induction false} AsidesPush(items: seq<Item>, item: Item)
    ensures Asides(items + [item]) == Asides(items) + if item.Note? || item.Alert? then [item] else []
  {
    if items == [] {
      assert [item][1..] == [];
    } else {
      var first := if items[0].Note? || items[0].Alert? then [items[0]] else [];
      assert (items + [item])[1..] == items[1..] + [item] && (items + [item])[0] == items[0];
      AsidesPush(items[1..], item);
      Associates(first, Asides(items[1..]), if item.Note? || item.Alert? then [item] else []);
    }
  }

  /** An item as far as notes and alerts go. */
  predicate SameAside(was: Item, now: Item) {
    if was.Note? || was.Alert? then now == was else !now.Note? && !now.Alert?
  }

  lemma {:induction false} AsidesSame(was: seq<Item>, now: seq<Item>)
    requires |was| == |now| && forall i | 0 <= i < |was| :: SameAside(was[i], now[i])
    ensures Asides(now) == Asides(was)
  {
    if was != [] {
      AsidesSame(was[1..], now[1..]);
    }
  }

  lemma {:induction false} EditKeepsAsides(items: seq<Item>, id: string, edit: Tool -> Tool)
    ensures forall i | 0 <= i < |items| :: SameAside(items[i], EditTool(items, id, edit)[i])
  {
    if items != [] {
      EditKeepsAsides(items[1..], id, edit);
      var r := EditTool(items, id, edit);
      assert forall i | 1 <= i < |items| :: items[i] == items[1..][i - 1];
      if !(items[0].Assistant? && FindInParts(items[0].parts, id).Some?) {
        assert r[1..] == EditTool(items[1..], id, edit);
        assert forall i | 1 <= i < |items| :: r[i] == r[1..][i - 1];
      }
    }
  }

  lemma MessageKeepsAsides(items: seq<Item>, m: string, streaming: bool, edit: Item -> Item)
    requires forall item: Item | item.Assistant? :: edit(item).Assistant?
    ensures Asides(WithAssistant(items, m, streaming, edit)) == Asides(items)
  {
    var at := AssistantAt(items, m);
    if at < |items| {
      AsidesSame(items, items[at := edit(items[at])]);
    } else {
      AsidesPush(items, edit(Assistant(m, [], streaming)));
    }
  }

  lemma UserKeepsAsides(t: State, e: Event)
    requires e.UserMessage? && e.parent == ""
    ensures Asides(Apply(t, e).items) == Asides(t.items)
  {
    var at := if e.clientMessageID != "" then LocalEcho(t.items, e.clientMessageID) else |t.items|;
    if at < |t.items| {
      AsidesSame(t.items, Apply(t, e).items);
    } else if Apply(t, e).items != t.items {
      AsidesPush(t.items, User(e.messageID, UserBlocks(e.blocks), ""));
    }
  }

  predicate Outer(e: Event) { !(e.UserMessage? || e.AssistantMessage? || IsStream(e)) || e.parent == "" }

  lemma NoteGrows(t: State, e: Event)
    requires Outer(e) && !IsStream(e) && !Updates(e)
    ensures Asides(Apply(t, e).items) == Asides(t.items) + AsideOf(e)
  {
    match e {
      case UserMessage(_, _, _, _) => UserKeepsAsides(t, e);
      case AssistantMessage(id, content, _) => MessageKeepsAsides(t.items, id, false, SettleItem(content));
      case ContextBoundary(tokens) => AsidesPush(t.items, Note("", tokens, true, ""));
      case Notice(message) => AsidesPush(t.items, Note(message, None, false, ""));
      case BackgroundTaskFinished(summary, status) => AsidesPush(t.items, Note(summary, None, false, status));
      case StreamError(code, message, fatal) => AsidesPush(t.items, Alert(code, message, fatal));
      case TurnFinished =>
        StopKeepsPlaces(t.items);
        AsidesSame(t.items, Stop(t.items));
      case _ =>
    }
  }

  /** What comes of an event to the notes and alerts on screen. */
  lemma AsidesGrow(t: State, e: Event)
    requires Outer(e)
    ensures Asides(Apply(t, e).items) == Asides(t.items) + AsideOf(e)
  {
    if IsStream(e) {
      MessageKeepsAsides(t.items, e.messageID, true, StreamItem(e));
    } else if Updates(e) {
      EditKeepsAsides(t.items, e.toolUseID, EditByEvent(e));
      AsidesSame(t.items, EditTool(t.items, e.toolUseID, EditByEvent(e)));
    } else {
      NoteGrows(t, e);
    }
  }

  function AsidesOf(events: seq<Event>): seq<Item> {
    if events == [] then [] else AsidesOf(events[..|events| - 1]) + AsideOf(events[|events| - 1])
  }

  lemma {:induction false} AsidesFold(t: State, events: seq<Event>)
    requires forall e <- events :: Outer(e)
    ensures Asides(Fold(t, events).items) == Asides(t.items) + AsidesOf(events)
    decreases |events|
  {
    if events != [] {
      var before, last := events[..|events| - 1], events[|events| - 1];
      AsidesFold(t, before);
      AsidesGrow(Fold(t, before), last);
      Associates(Asides(t.items), AsidesOf(before), AsideOf(last));
    }
  }

  // ------------------------------------------------------------ the end of a turn

  lemma {:induction false} StopKeepsTools(items: seq<Item>)
    ensures ToolList(Stop(items)) == ToolList(items) && Prose(Stop(items)) == Prose(items)
    decreases items
  {
    if items != [] {
      StopKeepsTools(items[1..]);
      assert Stop(items)[1..] == Stop(items[1..]);
      if items[0].Assistant? {
        StopInKeepsTools(items[0].parts);
      }
    }
  }

  lemma {:induction false} StopInKeepsTools(parts: seq<UiBlock>)
    ensures PartTools(StopParts(parts)) == PartTools(parts) && PartProse(StopParts(parts)) == PartProse(parts)
    decreases parts
  {
    if parts != [] {
      StopInKeepsTools(parts[1..]);
      assert StopParts(parts)[1..] == StopParts(parts[1..]);
      if parts[0].ToolCall? {
        assert (parts[0] decreases to parts[0].tool);
        StopKeepsTools(parts[0].tool.children);
      }
    }
  }

  lemma {:induction false} StopKeepsPlaces(items: seq<Item>)
    ensures forall i | 0 <= i < |items| ::
              if items[i].Assistant?
              then Stop(items)[i].Assistant? && Stop(items)[i].id == items[i].id
                   && |Stop(items)[i].parts| == |items[i].parts| && !Stop(items)[i].streaming
              else Stop(items)[i] == items[i]
  {
    if items != [] {
      StopKeepsPlaces(items[1..]);
      assert Stop(items)[1..] == Stop(items[1..]);
      forall i | 1 <= i < |items|
        ensures if items[i].Assistant?
                then Stop(items)[i].Assistant? && Stop(items)[i].id == items[i].id
                     && |Stop(items)[i].parts| == |items[i].parts| && !Stop(items)[i].streaming
                else Stop(items)[i] == items[i]
      {
        assert Stop(items)[i] == Stop(items)[1..][i - 1] && items[i] == items[1..][i - 1];
      }
    }
  }

  /** The end of a turn stops what streams, and takes no word, tool or place away. */
  lemma TurnEndShows(t: State)
    ensures var now := Apply(t, TurnFinished);
      && now.seen == t.seen && |now.items| == |t.items| && Still(now.items)
      && ToolList(now.items) == ToolList(t.items) && Prose(now.items) == Prose(t.items)
      && forall i | 0 <= i < |t.items| && !t.items[i].Assistant? :: now.items[i] == t.items[i]
  {
    StopIsStill(t.items);
    StopKeepsTools(t.items);
    StopKeepsPlaces(t.items);
  }

  // ----------------------------------------------------------------- subagents

  /** The event as it would be in the conversation itself. */
  function Outside(e: Event): Event {
    match e
    case UserMessage(id, blocks, clientMessageID, _) => UserMessage(id, blocks, clientMessageID, "")
    case AssistantMessage(id, content, _) => AssistantMessage(id, content, "")
    case TextDelta(id, index, text, _) => TextDelta(id, index, text, "")
    case ThinkingDelta(id, index, text, _) => ThinkingDelta(id, index, text, "")
    case _ => e
  }

  /** Below a tool there is a transcript of its own: an event of a subagent does to it what
      it would do to one. */
  lemma NestedShows(t: State, e: Event)
    requires e.UserMessage? || e.AssistantMessage? || e.TextDelta? || e.ThinkingDelta?
    requires e.parent != "" && FindTool(t.items, e.parent).Some?
    requires e.UserMessage? ==> e.clientMessageID == ""
    ensures var below, now := FindTool(t.items, e.parent).value.children, Apply(t, e);
      && FindTool(now.items, e.parent).Some?
      && State(FindTool(now.items, e.parent).value.children, now.seen) == Apply(State(below, t.seen), Outside(e))
  {
    var tool := FindTool(t.items, e.parent).value;
    FindIsFirst(t.items, e.parent);
    var below := Apply(State(tool.children, t.seen), Outside(e)).items;
    var edit := (x: Tool) => x.(children := below);
    FoundIsEdited(t.items, e.parent, edit);
    match e {
      case UserMessage(_, _, _, _) => NestedUser(t, e, tool.children);
      case AssistantMessage(_, _, _) => NestedMessage(t, e, tool.children);
      case _ => NestedPiece(t, e, tool.children);
    }
  }

  lemma NestedUser(t: State, e: Event, below: seq<Item>)
    requires e.UserMessage? && e.clientMessageID == "" && e.parent != ""
    requires FindTool(t.items, e.parent).Some? && FindTool(t.items, e.parent).value.children == below
    ensures var inner := Apply(State(below, t.seen), Outside(e));
      && Apply(t, e).seen == inner.seen
      && (Apply(t, e).items == EditTool(t.items, e.parent, (x: Tool) => x.(children := inner.items))
          || (Apply(t, e).items == t.items && inner.items == below))
  {
  }

  lemma NestedMessage(t: State, e: Event, below: seq<Item>)
    requires e.AssistantMessage? && e.parent != ""
    requires FindTool(t.items, e.parent).Some? && FindTool(t.items, e.parent).value.children == below
    ensures var inner := Apply(State(below, t.seen), Outside(e));
      && Apply(t, e).seen == inner.seen
      && (Apply(t, e).items == EditTool(t.items, e.parent, (x: Tool) => x.(children := inner.items))
          || (Apply(t, e).items == t.items && inner.items == below))
  {
  }

  lemma NestedPiece(t: State, e: Event, below: seq<Item>)
    requires (e.TextDelta? || e.ThinkingDelta?) && e.parent != ""
    requires FindTool(t.items, e.parent).Some? && FindTool(t.items, e.parent).value.children == below
    ensures var inner := Apply(State(below, t.seen), Outside(e));
      && Apply(t, e).seen == inner.seen
      && Apply(t, e).items == EditTool(t.items, e.parent, (x: Tool) => x.(children := inner.items))
  {
    forall item: Item ensures StreamItem(Outside(e))(item) == StreamItem(e)(item) {
    }
    assert WithAssistant(below, e.messageID, true, StreamItem(e))
           == WithAssistant(below, e.messageID, true, StreamItem(Outside(e)));
  }
}
