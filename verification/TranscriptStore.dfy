/**
 The transcript as the program keeps it: one object whose items and seen ids the
 reducer changes step by step. Each method is held to the fold it implements.
 */
module TranscriptStore {
  import opened Basics
  import opened Transcript

  lemma SettleUnfolds(parts: seq<UiBlock>, index: nat, raws: seq<ContentBlock>)
    requires index < |raws| && index <= |parts|
    ensures SettleFrom(parts, index, raws) == SettleFrom(SettleOne(parts, index, raws[index]), index + 1, raws)
  {
  }

  /** Settles the blocks of a message one by one, in order. Every write lands
      inside the list or just past its end, so no position is left empty. */
  method SettleBlocks(parts: seq<UiBlock>, raws: seq<ContentBlock>) returns (r: seq<UiBlock>)
    ensures r == Settle(parts, raws)
  {
    r := parts;
    for index := 0 to |raws|
      invariant index <= |r|
      invariant SettleFrom(r, index, raws) == Settle(parts, raws)
    {
      SettleUnfolds(r, index, raws);
      var next := ToUiBlock(raws[index]);
      if next == None {
        if index == |r| {
          r := r + [BLANK];
        }
      } else if next.value.ToolCall? && FindInParts(r, next.value.tool.id).Some? {
        var tool := next.value.tool;
        var existing := Settled(FindInParts(r, tool.id).value, tool.input);
        r := EditInParts(r, tool.id, (t: Tool) => Settled(t, tool.input));
        r := if index < |r| then r[index := ToolCall(existing)] else r + [ToolCall(existing)];
      } else {
        r := if index < |r| then r[index := next.value] else r + [next.value];
      }
    }
  }

  /** Searches from the end, as a message being streamed is the last one. */
  method AssistantIndex(list: seq<Item>, messageID: string) returns (at: nat)
    ensures at == AssistantAt(list, messageID)
  {
    var i := |list|;
    while i > 0
      invariant 0 <= i <= |list|
      invariant forall k | i <= k < |list| :: !(list[k].Assistant? && list[k].id == messageID)
    {
      i := i - 1;
      if list[i].Assistant? && list[i].id == messageID {
        return i;
      }
    }
    return |list|;
  }

  method VisibleBlocks(blocks: seq<UserBlock>) returns (r: seq<UserBlock>)
    ensures r == UserBlocks(blocks)
  {
    r := [];
    for i := 0 to |blocks|
      invariant r + UserBlocks(blocks[i..]) == UserBlocks(blocks)
    {
      assert blocks[i..][1..] == blocks[i + 1..];
      if blocks[i] != UserText("") {
        r := r + [blocks[i]];
      }
    }
  }

  class Store {
    var items: seq<Item>
    var seen: set<string>

    function View(): State
      reads this
    {
      State(items, seen)
    }

    constructor ()
      ensures View() == EMPTY
    {
      items, seen := [], {};
    }

    method ShowPrompt(clientMessageID: string, blocks: seq<UserBlock>)
      modifies this
      ensures View() == LocalPrompt(old(View()), clientMessageID, blocks)
    {
      var id := PromptID(clientMessageID);
      seen := seen + {id};
      items := items + [User(id, blocks, clientMessageID)];
    }

    method DropPrompt(clientMessageID: string)
      modifies this
      ensures View() == DropLocalPrompt(old(View()), clientMessageID)
    {
      var at := LocalEcho(items, clientMessageID);
      if at == |items| {
        return;
      }
      seen := seen - {items[at].id};
      items := items[..at] + items[at + 1..];
    }

    method ReceiveUser(e: Event)
      requires e.UserMessage?
      modifies this
      ensures View() == Apply(old(View()), e)
    {
      var blocks := VisibleBlocks(e.blocks);
      if e.clientMessageID != "" {
        var at := LocalEcho(items, e.clientMessageID);
        if at < |items| {
          var claimed := items[at].(clientMessageID := "");
          if blocks != [] {
            claimed := claimed.(blocks := blocks);
          }
          items := items[at := claimed];
          seen := seen + {e.messageID};
          return;
        }
      }
      if e.messageID in seen {
        return;
      }
      seen := seen + {e.messageID};
      var list := ListFor(items, e.parent);
      if list == None || blocks == [] {
        return;
      }
      items := WithList(items, e.parent, list.value + [User(e.messageID, blocks, "")]);
    }

    method ReceiveAssistant(e: Event)
      requires e.AssistantMessage?
      modifies this
      ensures View() == Apply(old(View()), e)
    {
      var list := ListFor(items, e.parent);
      if list == None {
        return;
      }
      var at := AssistantIndex(list.value, e.messageID);
      if e.messageID in seen && at == |list.value| {
        return;
      }
      seen := seen + {e.messageID};
      var grown := list.value;
      if at == |grown| {
        grown := grown + [Assistant(e.messageID, [], false)];
      }
      var parts := SettleBlocks(grown[at].parts, e.content);
      grown := grown[at := grown[at].(parts := parts, streaming := false)];
      assert grown == WithAssistant(list.value, e.messageID, false, SettleItem(e.content));
      items := WithList(items, e.parent, grown);
    }

    method ReceiveStream(e: Event)
      requires e.TextDelta? || e.ThinkingDelta? || e.ToolUseStart?
      modifies this
      ensures View() == Apply(old(View()), e)
    {
      var list := ListFor(items, e.parent);
      if list == None {
        return;
      }
      if e.ToolUseStart? && FindTool(items, e.toolUseID) != None {
        return;
      }
      var at := AssistantIndex(list.value, e.messageID);
      var grown := list.value;
      if at == |grown| {
        grown := grown + [Assistant(e.messageID, [], true)];
      }
      grown := grown[at := StreamItem(e)(grown[at])];
      assert grown == WithAssistant(list.value, e.messageID, true, StreamItem(e));
      items := WithList(items, e.parent, grown);
    }

    method Receive(e: Event)
      modifies this
      ensures View() == Apply(old(View()), e)
    {
      match e {
        case UserMessage(_, _, _, _) => ReceiveUser(e);
        case AssistantMessage(_, _, _) => ReceiveAssistant(e);
        case TextDelta(_, _, _, _) | ThinkingDelta(_, _, _, _) | ToolUseStart(_, _, _, _, _, _) => ReceiveStream(e);
        case ToolInputDelta(_, _) | ToolUseEnd(_, _) | ToolOutputDelta(_, _) | ToolResult(_, _) =>
          items := EditTool(items, e.toolUseID, EditByEvent(e));
        case ContextBoundary(tokens) => items := items + [Note("", tokens, true, "")];
        case Notice(message) => items := items + [Note(message, None, false, "")];
        case BackgroundTaskFinished(summary, status) => items := items + [Note(summary, None, false, status)];
        case StreamError(code, message, fatal) => items := items + [Alert(code, message, fatal)];
        case TurnFinished => items := Stop(items);
        case OtherEvent =>
      }
    }

    /** What an older store adds to this one. */
    method Novel(older: Store) returns (novel: seq<Item>)
      ensures novel == FreshItems(older.items, seen)
    {
      novel := [];
      for i := 0 to |older.items|
        invariant novel + FreshItems(older.items[i..], seen) == FreshItems(older.items, seen)
      {
        var item := older.items[i];
        assert older.items[i..][1..] == older.items[i + 1..];
        if !(IsMessage(item) && item.id in seen) {
          novel := novel + [item];
        }
      }
    }

    /** Folds a page on its own, then puts what is new of it in front. */
    method PrependHistory(page: seq<Event>)
      modifies this
      ensures View() == Prepend(old(View()), page)
    {
      var older := new Store();
      for i := 0 to |page|
        invariant fresh(older) && older.View() == Fold(EMPTY, page[..i])
        invariant View() == old(View())
      {
        assert page[..i + 1][..i] == page[..i];
        older.Receive(page[i]);
      }
      assert page[..|page|] == page;
      var novel := Novel(older);
      seen := seen + older.seen;
      items := novel + items;
    }
  }
}
