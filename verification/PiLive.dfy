/**
 A pi thread watched live and the same thread loaded from its session file show
 the same transcript.

 The live tree is held against the replayed one line by line. What the stream
 alone shows is erased first: notices, alerts and the output of running tools.
 What is left mirrors the replayed items, except around the message being
 streamed, whose draft stands where its settled form will: after the items that
 were there when its first delta came, and before whatever only the stream shows.
 A line keeps the two in step, and a message's end settles its draft.
 */
module PiLive {
  import opened Basics
  import opened Transcript
  import opened Settling
  import opened Trees
  import Paging
  import opened PiMapping
  import opened PiStream

  // ------------------------------------------- what history does not hold

  /** Notices and alerts are the stream's alone; a context boundary is not. */
  predicate Kept(item: Item) { IsMessage(item) || (item.Note? && item.boundary) }

  function EraseItem(item: Item): Item {
    if item.Assistant? then item.(parts := QuietParts(item.parts)) else item
  }

  /** The items without notices, alerts and streamed tool output. */
  function Erase(items: seq<Item>): seq<Item> {
    if items == [] then []
    else (if Kept(items[0]) then [EraseItem(items[0])] else []) + Erase(items[1..])
  }

  lemma {:induction false} EraseAppend(a: seq<Item>, b: seq<Item>)
    ensures Erase(a + b) == Erase(a) + Erase(b)
  {
    if a == [] {
      assert a + b == b;
    } else {
      var first := if Kept(a[0]) then [EraseItem(a[0])] else [];
      assert (a + b)[1..] == a[1..] + b && (a + b)[0] == a[0];
      EraseAppend(a[1..], b);
      Associates(first, Erase(a[1..]), Erase(b));
    }
  }

  lemma ErasePush(items: seq<Item>, item: Item)
    ensures Erase(items + [item]) == Erase(items) + if Kept(item) then [EraseItem(item)] else []
  {
    EraseAppend(items, [item]);
    assert [item][1..] == [];
  }

  function Quieted(tool: Tool): Tool { tool.(output := None) }

  /** An edit that does not depend on the output and leaves ids and children. */
  ghost predicate Commutes(edit: Tool -> Tool) {
    forall t: Tool :: Quieted(edit(t)) == edit(Quieted(t)) && edit(t).id == t.id && edit(t).children == t.children
  }

  /** An edit that shows in the output only. */
  ghost predicate Hidden(edit: Tool -> Tool) {
    forall t: Tool :: Quieted(edit(t)) == Quieted(t)
  }

  lemma QuietTail(parts: seq<UiBlock>)
    requires parts != []
    ensures QuietParts(parts)[1..] == QuietParts(parts[1..])
    ensures QuietParts(parts)[0] == Quiet(parts[0])
  {
  }

  lemma {:induction false} QuietFind(parts: seq<UiBlock>, id: string)
    requires FlatParts(parts)
    ensures FindInParts(QuietParts(parts), id).Some? <==> FindInParts(parts, id).Some?
  {
    if parts != [] {
      QuietTail(parts);
      QuietFind(parts[1..], id);
      assert FindTool([], id) == None;
    }
  }

  lemma EraseHead(items: seq<Item>)
    requires items != []
    ensures !Kept(items[0]) ==> Erase(items) == Erase(items[1..])
    ensures Kept(items[0]) ==>
              Erase(items) != [] && Erase(items)[0] == EraseItem(items[0]) && Erase(items)[1..] == Erase(items[1..])
  {
  }

  lemma {:induction false} CommutingParts(parts: seq<UiBlock>, id: string, edit: Tool -> Tool)
    requires FlatParts(parts) && Commutes(edit)
    ensures QuietParts(EditInParts(parts, id, edit)) == EditInParts(QuietParts(parts), id, edit)
    ensures FlatParts(EditInParts(parts, id, edit))
  {
    if parts != [] {
      QuietTail(parts);
      assert FindTool([], id) == None;
      var r := EditInParts(parts, id, edit);
      QuietTail(r);
      if parts[0].ToolCall? && parts[0].tool.id == id {
        var t := parts[0].tool;
        assert Quieted(edit(t)) == edit(Quieted(t));
        assert edit(t).children == t.children;
        assert r[1..] == parts[1..];
      } else {
        CommutingParts(parts[1..], id, edit);
        assert r[1..] == EditInParts(parts[1..], id, edit);
      }
      forall i | 0 <= i < |r| && r[i].ToolCall? ensures r[i].tool.children == [] {
        if i > 0 {
          assert r[i] == r[1..][i - 1];
        }
      }
    }
  }

  lemma {:induction false} CommutingItems(items: seq<Item>, id: string, edit: Tool -> Tool)
    requires Flat(items) && Commutes(edit)
    ensures Erase(EditTool(items, id, edit)) == EditTool(Erase(items), id, edit)
    ensures Flat(EditTool(items, id, edit))
  {
    if items != [] {
      var r := EditTool(items, id, edit);
      if items[0].Assistant? && FindInParts(items[0].parts, id).Some? {
        QuietFind(items[0].parts, id);
        CommutingParts(items[0].parts, id, edit);
        assert r[1..] == items[1..];
      } else {
        CommutingItems(items[1..], id, edit);
        if items[0].Assistant? {
          QuietFind(items[0].parts, id);
        }
        assert r[1..] == EditTool(items[1..], id, edit);
      }
      EraseHead(items);
      EraseHead(r);
      assert forall i | 1 <= i < |r| :: r[i] == r[1..][i - 1];
    }
  }

  lemma {:induction false} HidingParts(parts: seq<UiBlock>, id: string, edit: Tool -> Tool)
    requires FlatParts(parts) && Hidden(edit)
    ensures QuietParts(EditInParts(parts, id, edit)) == QuietParts(parts)
    ensures FlatParts(EditInParts(parts, id, edit))
  {
    if parts != [] {
      QuietTail(parts);
      assert FindTool([], id) == None;
      var r := EditInParts(parts, id, edit);
      QuietTail(r);
      if parts[0].ToolCall? && parts[0].tool.id == id {
        var t := parts[0].tool;
        assert Quieted(edit(t)) == Quieted(t);
        assert Quieted(edit(t)).children == t.children;
        assert r[1..] == parts[1..];
      } else {
        HidingParts(parts[1..], id, edit);
        assert r[1..] == EditInParts(parts[1..], id, edit);
      }
      forall i | 0 <= i < |r| && r[i].ToolCall? ensures r[i].tool.children == [] {
        if i > 0 {
          assert r[i] == r[1..][i - 1];
        }
      }
    }
  }

  lemma {:induction false} HidingItems(items: seq<Item>, id: string, edit: Tool -> Tool)
    requires Flat(items) && Hidden(edit)
    ensures Erase(EditTool(items, id, edit)) == Erase(items)
    ensures Flat(EditTool(items, id, edit))
  {
    if items != [] {
      var r := EditTool(items, id, edit);
      if items[0].Assistant? && FindInParts(items[0].parts, id).Some? {
        QuietFind(items[0].parts, id);
        HidingParts(items[0].parts, id, edit);
        assert r[1..] == items[1..];
      } else {
        HidingItems(items[1..], id, edit);
        if items[0].Assistant? {
          QuietFind(items[0].parts, id);
        }
        assert r[1..] == EditTool(items[1..], id, edit);
      }
      EraseHead(items);
      EraseHead(r);
      assert forall i | 1 <= i < |r| :: r[i] == r[1..][i - 1];
    }
  }

  lemma {:induction false} EraseFind(items: seq<Item>, id: string)
    requires Flat(items)
    ensures FindTool(Erase(items), id).Some? <==> FindTool(items, id).Some?
  {
    if items != [] {
      EraseFind(items[1..], id);
      EraseHead(items);
      if items[0].Assistant? {
        QuietFind(items[0].parts, id);
      }
    }
  }

  lemma {:induction false} ErasedEmpty(items: seq<Item>, id: string)
    requires Erase(items) == []
    ensures FindTool(items, id) == None
    ensures forall i | 0 <= i < |items| :: !IsMessage(items[i])
  {
    if items != [] {
      ErasedEmpty(items[1..], id);
      forall i | 0 <= i < |items| ensures !IsMessage(items[i]) {
        if i > 0 {
          assert items[i] == items[1..][i - 1];
        }
      }
    }
  }

  lemma {:induction false} ErasedKeeps(items: seq<Item>)
    ensures forall item <- items :: Kept(item) ==> EraseItem(item) in Erase(items)
  {
    if items != [] {
      ErasedKeeps(items[1..]);
    }
  }

  // ----------------------------------------------------- well-formed traces

  /** Which assistant message is being streamed, and the message and tool ids
      of those that ended. `current` is the message as it will end. */
  datatype Progress = Progress(current: Option<Message>, ids: set<string>, tools: set<string>)

  function Raws(m: Message): seq<ContentBlock> { ContentBlocks(m.content) }

  /** A message no earlier one shares an id with, itself or through its tools,
      and whose every block has something to draw. */
  ghost predicate NewMessage(p: Progress, m: Message) {
    && MessageID(m) !in p.ids
    && ToolIDs(Raws(m)) !! p.tools
    && DistinctTools(Raws(m)) && Survives(Raws(m))
  }

  /** A delta within the array the message ends with. */
  ghost predicate FitsContent(update: Update, raws: seq<ContentBlock>) {
    match update
    case TextUpdate(index, _) => index < |raws|
    case ThinkingUpdate(index, _) => index < |raws|
    case CallStart(index, id, name) =>
      index < |raws| && raws[index].ToolUse? && raws[index].id == id && raws[index].name == name
    case CallDelta(_, _) => true
    case CallEnd(id, _) => id in ToolIDs(raws)
  }

  /** Pi writes one message after the other: nothing else ends, settles or is
      compacted while an assistant message streams. Tool output, retries and
      errors may come at any time. */
  ghost predicate Fits(p: Progress, line: Line) {
    match line
    case MessageStart(m) => m.role.AssistantRole? ==> p.current == None && NewMessage(p, m)
    case MessageUpdate(update) => p.current.Some? && FitsContent(update, Raws(p.current.value))
    case MessageEnd(m, _, _) =>
      (match m.role
       case AssistantRole => p.current == Some(m) || (p.current == None && NewMessage(p, m))
       case UserRole => p.current == None && MessageID(m) !in p.ids
       case ToolResultRole => p.current == None
       case OtherRole => true)
    case AgentSettled => p.current == None
    case CompactionEnd(_) => p.current == None
    case _ => true
  }

  function Advance(p: Progress, line: Line): Progress {
    match line
    case MessageStart(m) => if m.role.AssistantRole? then p.(current := Some(m)) else p
    case MessageEnd(m, _, _) =>
      (match m.role
       case AssistantRole => Progress(None, p.ids + {MessageID(m)}, p.tools + ToolIDs(Raws(m)))
       case UserRole => p.(ids := p.ids + {MessageID(m)})
       case _ => p)
    case _ => p
  }

  const START := Progress(None, {}, {})

  function ProgressAfter(lines: seq<Line>): Progress {
    if lines == [] then START else Advance(ProgressAfter(lines[..|lines| - 1]), lines[|lines| - 1])
  }

  ghost predicate WellFormed(lines: seq<Line>) {
    lines == [] || (WellFormed(lines[..|lines| - 1]) && Fits(ProgressAfter(lines[..|lines| - 1]), lines[|lines| - 1]))
  }

  // ------------------------------------------------------------ the mirror

  /** The live items around the message being streamed, if it is on screen. */
  datatype View = View(before: seq<Item>, draft: seq<Item>, after: seq<Item>)

  ghost predicate IsDraft(item: Item, m: Message) {
    item.Assistant? && item.id == MessageID(m) && item.parts != [] && Draft(item.parts, Raws(m))
  }

  ghost predicate Mirror(l: State, r: State, current: Option<Message>, v: View) {
    && l.items == v.before + v.draft + v.after && l.seen == r.seen
    && Erase(v.before) == r.items && Flat(v.before) && Erase(v.after) == []
    && (v.draft == [] || (|v.draft| == 1 && current.Some? && IsDraft(v.draft[0], current.value)))
  }

  /** What replay leaves: no streaming, and only ids of messages that ended. */
  ghost predicate Replayed(r: State, p: Progress) {
    && Paging.Known(r) && r.seen <= p.ids && Flat(r.items)
    && (forall i | 0 <= i < |r.items| && r.items[i].Assistant? :: !r.items[i].streaming)
    && (forall id :: FindTool(r.items, id).Some? ==> id in p.tools)
  }

  lemma FlatAfter(items: seq<Item>)
    requires Erase(items) == []
    ensures Flat(items)
  {
    ErasedEmpty(items, "");
  }

  lemma FlatJoin(a: seq<Item>, b: seq<Item>)
    requires Flat(a) && Flat(b)
    ensures Flat(a + b)
  {
  }

  lemma AllBefore(l: State, r: State, any: Option<Message>)
    requires l.seen == r.seen && Erase(l.items) == r.items && Flat(l.items)
    ensures Mirror(l, r, any, View(l.items, [], []))
  {
    assert l.items + [] + [] == l.items && Erase([]) == [];
  }

  /** With no message on screen in part, everything is before it. */
  lemma Gather(l: State, r: State, current: Option<Message>, v: View)
    requires Mirror(l, r, current, v) && v.draft == []
    ensures Mirror(l, r, current, View(l.items, [], []))
    ensures forall any: Option<Message> :: Mirror(l, r, any, View(l.items, [], []))
  {
    assert l.items == v.before + v.after;
    EraseAppend(v.before, v.after);
    assert Erase(l.items) == r.items;
    FlatAfter(v.after);
    FlatJoin(v.before, v.after);
    forall any: Option<Message> ensures Mirror(l, r, any, View(l.items, [], [])) {
      AllBefore(l, r, any);
    }
  }

  lemma UnseenMessage(r: State, before: seq<Item>, id: string)
    requires Paging.Known(r) && Erase(before) == r.items && id !in r.seen
    ensures !HasAssistant(before, id)
  {
    ErasedKeeps(before);
    forall item <- before | IsMessage(item) ensures item.id != id {
      assert EraseItem(item) in r.items;
    }
  }

  lemma NoAssistantAfter(after: seq<Item>, id: string)
    requires Erase(after) == []
    ensures !HasAssistant(after, id)
  {
    ErasedEmpty(after, id);
  }

  lemma DraftComesFirst(draft: Item, after: seq<Item>, id: string)
    requires draft.Assistant? && draft.id == id && Erase(after) == []
    ensures AssistantAt([draft] + after, id) == 0
  {
    ErasedEmpty(after, id);
    assert ([draft] + after)[0] == draft;
    assert forall i | 1 <= i < |[draft] + after| :: ([draft] + after)[i] == after[i - 1];
  }

  /** The message with an unseen id is the draft, or nowhere. */
  lemma FindDraft(r: State, id: string, v: View)
    requires Paging.Known(r) && id !in r.seen && Erase(v.before) == r.items && Erase(v.after) == []
    requires v.draft == [] || (|v.draft| == 1 && v.draft[0].Assistant? && v.draft[0].id == id)
    ensures AssistantAt(v.before + (v.draft + v.after), id)
            == if v.draft == [] then |v.before| + |v.after| else |v.before|
  {
    UnseenMessage(r, v.before, id);
    DraftAt(v.draft, v.after, id);
    Paging.AssistantAppend(v.before, v.draft + v.after, id);
  }

  lemma DraftAt(draft: seq<Item>, after: seq<Item>, id: string)
    requires Erase(after) == []
    requires draft == [] || (|draft| == 1 && draft[0].Assistant? && draft[0].id == id)
    ensures AssistantAt(draft + after, id) == if draft == [] then |after| else 0
  {
    if draft == [] {
      NoAssistantAfter(after, id);
      assert draft + after == after;
    } else {
      DraftComesFirst(draft[0], after, id);
      assert draft == [draft[0]];
    }
  }

  /** Editing that message edits the draft, or a new item at the end. */
  lemma EditDraft(v: View, id: string, streaming: bool, edit: Item -> Item)
    requires AssistantAt(v.before + (v.draft + v.after), id)
             == if v.draft == [] then |v.before| + |v.after| else |v.before|
    requires |v.draft| <= 1
    ensures WithAssistant(v.before + (v.draft + v.after), id, streaming, edit)
            == if v.draft == [] then v.before + v.after + [edit(Assistant(id, [], streaming))]
               else v.before + [edit(v.draft[0])] + v.after
  {
    var items := v.before + (v.draft + v.after);
    if v.draft == [] {
      assert items == v.before + v.after;
    } else {
      assert items[|v.before|] == v.draft[0];
      assert items[|v.before| := edit(v.draft[0])] == v.before + [edit(v.draft[0])] + v.after;
    }
  }

  // ------------------------------------------------------------ one event

  /** A delta or a tool start of the message being streamed. */
  lemma StreamStep(l: State, r: State, m: Message, v: View, e: Event) returns (w: View)
    requires Mirror(l, r, Some(m), v) && Paging.Known(r) && MessageID(m) !in r.seen
    requires e.TextDelta? || e.ThinkingDelta? || e.ToolUseStart?
    requires e.parent == "" && e.messageID == MessageID(m) && e.index < |Raws(m)|
    requires e.ToolUseStart? ==>
               && Raws(m)[e.index].ToolUse? && Raws(m)[e.index].id == e.toolUseID
               && Raws(m)[e.index].name == e.name && Raws(m)[e.index].kind == e.kind
    ensures Mirror(Apply(l, e), r, Some(m), w)
  {
    if e.ToolUseStart? && FindTool(l.items, e.toolUseID).Some? {
      w := v;
    } else {
      var item := if v.draft == [] then Assistant(MessageID(m), [], true) else v.draft[0];
      StreamKeepsDraft(item.parts, Raws(m), e, item);
      StreamItems(l, r, m, v, e);
      w := Redraft(l, r, m, v, StreamItem(e)(item));
    }
  }

  function Redrafted(v: View, item: Item): seq<Item> {
    if v.draft == [] then v.before + v.after + [item] else v.before + [item] + v.after
  }

  lemma StreamApplies(l: State, e: Event)
    requires e.TextDelta? || e.ThinkingDelta? || e.ToolUseStart?
    requires e.parent == "" && !(e.ToolUseStart? && FindTool(l.items, e.toolUseID).Some?)
    ensures Apply(l, e) == l.(items := WithAssistant(l.items, e.messageID, true, StreamItem(e)))
  {
  }

  lemma WithDraft(r: State, id: string, v: View, edit: Item -> Item)
    requires Paging.Known(r) && id !in r.seen && Erase(v.before) == r.items && Erase(v.after) == []
    requires v.draft == [] || (|v.draft| == 1 && v.draft[0].Assistant? && v.draft[0].id == id)
    ensures WithAssistant(v.before + (v.draft + v.after), id, true, edit)
         == Redrafted(v, edit(if v.draft == [] then Assistant(id, [], true) else v.draft[0]))
  {
    FindDraft(r, id, v);
    EditDraft(v, id, true, edit);
  }

  lemma StreamItems(l: State, r: State, m: Message, v: View, e: Event)
    requires Mirror(l, r, Some(m), v) && Paging.Known(r) && MessageID(m) !in r.seen
    requires e.TextDelta? || e.ThinkingDelta? || e.ToolUseStart?
    requires e.parent == "" && e.messageID == MessageID(m)
    requires !(e.ToolUseStart? && FindTool(l.items, e.toolUseID).Some?)
    ensures var item := if v.draft == [] then Assistant(MessageID(m), [], true) else v.draft[0];
      Apply(l, e) == l.(items := Redrafted(v, StreamItem(e)(item)))
  {
    Associates(v.before, v.draft, v.after);
    StreamApplies(l, e);
    WithDraft(r, MessageID(m), v, StreamItem(e));
  }

  lemma Redraft(l: State, r: State, m: Message, v: View, item: Item) returns (w: View)
    requires Mirror(l, r, Some(m), v) && IsDraft(item, m)
    ensures Mirror(l.(items := Redrafted(v, item)), r, Some(m), w)
  {
    if v.draft == [] {
      assert l.items == v.before + v.after;
      w := DraftOpened(l, r, m, v, item);
    } else {
      w := View(v.before, [item], v.after);
    }
  }

  lemma DraftOpened(l: State, r: State, m: Message, v: View, item: Item) returns (w: View)
    requires Mirror(l, r, Some(m), v) && v.draft == [] && IsDraft(item, m)
    ensures Mirror(l.(items := l.items + [item]), r, Some(m), w)
  {
    Gather(l, r, Some(m), v);
    w := View(l.items, [item], []);
    assert l.items + [item] + [] == l.items + [item];
  }

  lemma EditSplit(v: View, id: string, edit: Tool -> Tool)
    requires Erase(v.after) == []
    ensures EditTool(v.before + v.draft + v.after, id, edit) ==
            if FindTool(v.before, id).Some? then EditTool(v.before, id, edit) + v.draft + v.after
            else v.before + EditTool(v.draft, id, edit) + v.after
  {
    ErasedEmpty(v.after, id);
    EditNothing(v.after, id, edit);
    var items := v.before + (v.draft + v.after);
    assert v.before + v.draft + v.after == items;
    if FindTool(v.before, id).Some? {
      EditFirst(v.before, v.draft + v.after, id, edit);
    } else {
      EditAppend(v.before, v.draft + v.after, id, edit);
      if FindTool(v.draft, id).Some? {
        EditFirst(v.draft, v.after, id, edit);
      } else {
        EditAppend(v.draft, v.after, id, edit);
        EditNothing(v.draft, id, edit);
      }
    }
  }

  /** An edit of a draft's tools that attaches nothing to them. */
  ghost predicate KeepsCall(edit: Tool -> Tool) {
    forall t: Tool ::
      && edit(t).id == t.id && edit(t).name == t.name && edit(t).kind == t.kind
      && edit(t).result == t.result && edit(t).children == t.children
  }

  lemma {:induction false} EditKeepsDraft(parts: seq<UiBlock>, id: string, edit: Tool -> Tool)
    requires KeepsCall(edit) && FlatParts(parts)
    ensures forall i | 0 <= i < |parts| ::
              var e := EditInParts(parts, id, edit);
              e[i] == parts[i] || (parts[i].ToolCall? && e[i] == ToolCall(edit(parts[i].tool)))
  {
    if parts != [] {
      assert FindTool([], id) == None;
      EditKeepsDraft(parts[1..], id, edit);
      var e := EditInParts(parts, id, edit);
      forall i | 0 <= i < |parts|
        ensures e[i] == parts[i] || (parts[i].ToolCall? && e[i] == ToolCall(edit(parts[i].tool)))
      {
        if i > 0 && !(parts[0].ToolCall? && parts[0].tool.id == id) {
          assert e[i] == EditInParts(parts[1..], id, edit)[i - 1];
        }
      }
    }
  }

  lemma DraftEdited(item: Item, m: Message, id: string, edit: Tool -> Tool)
    requires IsDraft(item, m) && KeepsCall(edit)
    ensures EditTool([item], id, edit) == [EditTool([item], id, edit)[0]]
    ensures IsDraft(EditTool([item], id, edit)[0], m)
  {
    EditKeepsDraft(item.parts, id, edit);
  }

  /** Input streamed for a call of the message being streamed. */
  lemma CallStep(l: State, r: State, p: Progress, m: Message, v: View, e: Event) returns (w: View)
    requires Mirror(l, r, Some(m), v) && Replayed(r, p)
    requires e.ToolInputDelta? || e.ToolUseEnd?
    requires e.toolUseID !in p.tools
    ensures Mirror(Apply(l, e), r, Some(m), w)
  {
    var id, edit := e.toolUseID, EditByEvent(e);
    EraseFind(v.before, id);
    EditSplit(v, id, edit);
    if v.draft == [] {
      w := v;
    } else {
      assert v.draft == [v.draft[0]];
      DraftEdited(v.draft[0], m, id, edit);
      w := View(v.before, EditTool(v.draft, id, edit), v.after);
    }
  }

  /** Streamed tool output, of any tool. */
  lemma OutputStep(l: State, r: State, current: Option<Message>, v: View, e: Event) returns (w: View)
    requires Mirror(l, r, current, v) && e.ToolOutputDelta?
    ensures Mirror(Apply(l, e), r, current, w)
  {
    var id, edit := e.toolUseID, EditByEvent(e);
    EditSplit(v, id, edit);
    if FindTool(v.before, id).Some? {
      HidingItems(v.before, id, edit);
      w := View(EditTool(v.before, id, edit), v.draft, v.after);
    } else if v.draft == [] {
      w := v;
    } else {
      assert v.draft == [v.draft[0]];
      DraftEdited(v.draft[0], current.value, id, edit);
      w := View(v.before, EditTool(v.draft, id, edit), v.after);
    }
  }

  /** A notice or an alert. */
  lemma NoiseStep(l: State, r: State, current: Option<Message>, v: View, item: Item) returns (w: View)
    requires Mirror(l, r, current, v) && !Kept(item)
    ensures Mirror(l.(items := l.items + [item]), r, current, w)
  {
    w := View(v.before, v.draft, v.after + [item]);
    ErasePush(v.after, item);
  }

  /** A user message, or a context boundary, between two messages. */
  lemma PushStep(l: State, r: State, v: View, item: Item, seen: set<string>)
    requires Mirror(l, r, None, v) && Kept(item) && !item.Assistant?
    ensures Mirror(State(l.items + [item], seen), State(r.items + [item], seen), None, View(l.items + [item], [], []))
  {
    Gather(l, r, None, v);
    ErasePush(l.items, item);
  }

  lemma ResultStep(l: State, r: State, v: View, e: Event)
    requires Mirror(l, r, None, v) && e.ToolResult?
    ensures Mirror(Apply(l, e), Apply(r, e), None, View(Apply(l, e).items, [], []))
  {
    Gather(l, r, None, v);
    CommutingItems(l.items, e.toolUseID, EditByEvent(e));
  }

  /** An assistant message settles. */
  lemma SettleStep(l: State, r: State, p: Progress, m: Message, v: View) returns (w: View)
    requires Mirror(l, r, Some(m), v) && Replayed(r, p) && NewMessage(p, m)
    ensures var e := AssistantMessage(MessageID(m), Raws(m), "");
      Mirror(Apply(l, e), Apply(r, e), None, w)
      && Apply(r, e) == State(r.items + [Assistant(MessageID(m), Drawn(Raws(m)), false)], r.seen + {MessageID(m)})
  {
    var id := MessageID(m);
    var item := if v.draft == [] then Assistant(id, [], false) else v.draft[0];
    UnseenInReplay(r, id);
    SettleItems(l, r, m, v);
    SettledItem(item.parts, m);
    w := Finish(l, r, m, v, SettleItem(Raws(m))(item));
  }

  lemma SettleItems(l: State, r: State, m: Message, v: View)
    requires Mirror(l, r, Some(m), v) && Paging.Known(r) && MessageID(m) !in r.seen
    ensures var item := if v.draft == [] then Assistant(MessageID(m), [], false) else v.draft[0];
      Apply(l, AssistantMessage(MessageID(m), Raws(m), ""))
      == State(Redrafted(v, SettleItem(Raws(m))(item)), l.seen + {MessageID(m)})
  {
    var id, edit := MessageID(m), SettleItem(Raws(m));
    FindDraft(r, id, v);
    EditWhole(l.items, v, id, false, edit);
    NewAssistant(l, id, Raws(m));
  }

  lemma EditWhole(items: seq<Item>, v: View, id: string, streaming: bool, edit: Item -> Item)
    requires items == v.before + v.draft + v.after && |v.draft| <= 1
    requires AssistantAt(v.before + (v.draft + v.after), id)
             == if v.draft == [] then |v.before| + |v.after| else |v.before|
    ensures WithAssistant(items, id, streaming, edit)
            == Redrafted(v, edit(if v.draft == [] then Assistant(id, [], streaming) else v.draft[0]))
  {
    Associates(v.before, v.draft, v.after);
    EditDraft(v, id, streaming, edit);
  }

  lemma NewAssistant(l: State, id: string, raws: seq<ContentBlock>)
    requires id !in l.seen
    ensures Apply(l, AssistantMessage(id, raws, ""))
         == State(WithAssistant(l.items, id, false, SettleItem(raws)), l.seen + {id})
  {
  }

  /** The message leaves its draft behind. */
  lemma FinishDraft(l: State, r: State, m: Message, v: View, item: Item)
    requires Mirror(l, r, Some(m), v) && item.Assistant? && FlatParts(item.parts) && v.draft != []
    ensures Mirror(State(v.before + [item] + v.after, l.seen + {item.id}),
                   State(r.items + [EraseItem(item)], r.seen + {item.id}), None, View(v.before + [item], [], v.after))
  {
    ErasePush(v.before, item);
    FlatPush(v.before, item);
    assert v.before + [item] + [] == v.before + [item];
  }

  lemma Finish(l: State, r: State, m: Message, v: View, item: Item) returns (w: View)
    requires Mirror(l, r, Some(m), v) && item.Assistant? && FlatParts(item.parts)
    ensures Mirror(State(Redrafted(v, item), l.seen + {item.id}),
                   State(r.items + [EraseItem(item)], r.seen + {item.id}), None, w)
  {
    if v.draft == [] {
      Gather(l, r, Some(m), v);
      ErasePush(l.items, item);
      FlatPush(l.items, item);
      assert l.items == v.before + v.after;
      w := View(l.items + [item], [], []);
    } else {
      FinishDraft(l, r, m, v, item);
      w := View(v.before + [item], [], v.after);
    }
  }

  lemma UnseenInReplay(r: State, id: string)
    requires Paging.Known(r) && id !in r.seen
    ensures !HasAssistant(r.items, id)
  {
  }

  lemma SettledItem(parts: seq<UiBlock>, m: Message)
    requires Draft(parts, Raws(m)) && DistinctTools(Raws(m)) && Survives(Raws(m))
    ensures QuietParts(Settle(parts, Raws(m))) == Drawn(Raws(m))
    ensures FlatParts(Settle(parts, Raws(m)))
  {
    StreamingAbsorbed(parts, Raws(m));
  }

  lemma {:induction false} ErasedStreaming(items: seq<Item>)
    requires forall i | 0 <= i < |Erase(items)| && Erase(items)[i].Assistant? :: !Erase(items)[i].streaming
    ensures forall i | 0 <= i < |items| && items[i].Assistant? :: !items[i].streaming
  {
    ErasedKeeps(items);
    forall i | 0 <= i < |items| && items[i].Assistant? ensures !items[i].streaming {
      assert EraseItem(items[i]) in Erase(items);
    }
  }

  lemma TurnStep(l: State, r: State, p: Progress, v: View)
    requires Mirror(l, r, None, v) && Replayed(r, p)
    ensures Apply(l, TurnFinished) == l
  {
    Gather(l, r, None, v);
    ErasedStreaming(l.items);
    StopFlat(l.items);
  }

  // ------------------------------------------------------ what replay keeps

  lemma ReplayedPush(r: State, p: Progress, item: Item, seen: set<string>, q: Progress)
    requires Replayed(r, p) && !item.Assistant? && (item.User? ==> item.clientMessageID == "" && item.id in seen)
    requires r.seen <= seen <= q.ids && p.tools <= q.tools
    ensures Replayed(State(r.items + [item], seen), q)
  {
    forall id ensures FindTool(r.items + [item], id) == FindTool(r.items, id) {
      FindAppend(r.items, [item], id);
      assert [item][1..] == [];
      assert FindTool([], id) == None;
    }
  }

  lemma {:induction false} FoundAmong(parts: seq<UiBlock>, id: string)
    requires FlatParts(parts) && FindInParts(parts, id).Some?
    ensures exists i | 0 <= i < |parts| :: IsTool(parts, i, id)
  {
    assert FindTool([], id) == None;
    if parts[0].ToolCall? && parts[0].tool.id == id {
      assert IsTool(parts, 0, id);
    } else {
      FoundAmong(parts[1..], id);
      var i :| 0 <= i < |parts[1..]| && IsTool(parts[1..], i, id);
      assert IsTool(parts, i + 1, id);
    }
  }

  lemma FoundInDrawn(items: seq<Item>, item: Item, raws: seq<ContentBlock>, id: string)
    requires item.Assistant? && item.parts == Drawn(raws) && FlatParts(item.parts)
    requires DistinctTools(raws) && Survives(raws)
    requires FindTool(items + [item], id).Some?
    ensures FindTool(items, id).Some? || id in ToolIDs(raws)
  {
    FindAppend(items, [item], id);
    if !FindTool(items, id).Some? {
      assert FindTool([item], id).Some?;
      assert [item][1..] == [];
      assert FindTool([], id) == None;
      FoundAmong(item.parts, id);
      DrawnIsPointwise(raws);
      var i :| 0 <= i < |item.parts| && IsTool(item.parts, i, id);
      assert raws[i].id == id && raws[i] in raws;
    }
  }

  lemma SettledAtEnd(r: State, item: Item)
    requires Paging.Known(r) && Flat(r.items) && item.Assistant? && FlatParts(item.parts) && !item.streaming
    requires forall i | 0 <= i < |r.items| && r.items[i].Assistant? :: !r.items[i].streaming
    ensures Paging.Known(State(r.items + [item], r.seen + {item.id})) && Flat(r.items + [item])
    ensures forall i | 0 <= i < |r.items + [item]|
            && (r.items + [item])[i].Assistant? :: !(r.items + [item])[i].streaming
  {
  }

  lemma DrawnIsFlat(raws: seq<ContentBlock>)
    requires DistinctTools(raws) && Survives(raws)
    ensures FlatParts(Drawn(raws))
  {
    DrawnIsPointwise(raws);
  }

  lemma ReplayedSettle(r: State, p: Progress, m: Message)
    requires Replayed(r, p) && NewMessage(p, m)
    ensures Replayed(State(r.items + [Assistant(MessageID(m), Drawn(Raws(m)), false)], r.seen + {MessageID(m)}),
                     Progress(None, p.ids + {MessageID(m)}, p.tools + ToolIDs(Raws(m))))
  {
    var item := Assistant(MessageID(m), Drawn(Raws(m)), false);
    DrawnIsFlat(Raws(m));
    SettledAtEnd(r, item);
    forall id | FindTool(r.items + [item], id).Some? ensures id in p.tools + ToolIDs(Raws(m)) {
      FoundInDrawn(r.items, item, Raws(m), id);
    }
  }

  lemma {:induction false} EditKeepsFound(items: seq<Item>, id: string, edit: Tool -> Tool, other: string)
    requires Flat(items) && Commutes(edit)
    requires FindTool(EditTool(items, id, edit), other).Some?
    ensures FindTool(items, other).Some?
  {
    var r := EditTool(items, id, edit);
    if items[0].Assistant? && FindInParts(items[0].parts, id).Some? {
      assert r[1..] == items[1..];
      if FindInParts(r[0].parts, other).Some? {
        EditKeepsFoundIn(items[0].parts, id, edit, other);
      }
    } else {
      assert r[1..] == EditTool(items[1..], id, edit);
      if !(items[0].Assistant? && FindInParts(items[0].parts, other).Some?) {
        EditKeepsFound(items[1..], id, edit, other);
      }
    }
  }

  lemma {:induction false} EditKeepsFoundIn(parts: seq<UiBlock>, id: string, edit: Tool -> Tool, other: string)
    requires FlatParts(parts) && Commutes(edit)
    requires FindInParts(EditInParts(parts, id, edit), other).Some?
    ensures FindInParts(parts, other).Some?
  {
    var r := EditInParts(parts, id, edit);
    assert FindTool([], id) == None && FindTool([], other) == None;
    if parts[0].ToolCall? && parts[0].tool.id == id {
      assert r[1..] == parts[1..];
      assert edit(parts[0].tool).id == id && edit(parts[0].tool).children == [];
    } else {
      assert r[1..] == EditInParts(parts[1..], id, edit);
      if !(parts[0].ToolCall? && parts[0].tool.id == other) {
        EditKeepsFoundIn(parts[1..], id, edit, other);
      }
    }
  }

  lemma ReplayedResult(r: State, p: Progress, e: Event)
    requires Replayed(r, p) && e.ToolResult?
    ensures Replayed(Apply(r, e), p)
  {
    var edit := EditByEvent(e);
    CommutingItems(r.items, e.toolUseID, edit);
    EditStaysStill(r.items, e.toolUseID, edit);
    Paging.EditKeepsItems(r.items, e.toolUseID, edit);
    forall id | FindTool(Apply(r, e).items, id).Some? ensures id in p.tools {
      EditKeepsFound(r.items, e.toolUseID, edit, id);
    }
  }

  lemma EditStaysStill(items: seq<Item>, id: string, edit: Tool -> Tool)
    requires forall i | 0 <= i < |items| && items[i].Assistant? :: !items[i].streaming
    ensures var r := EditTool(items, id, edit);
      forall i | 0 <= i < |r| && r[i].Assistant? :: !r[i].streaming
  {
    Paging.EditKeepsItems(items, id, edit);
    var r := EditTool(items, id, edit);
    forall i | 0 <= i < |r| && r[i].Assistant? ensures !r[i].streaming {
      assert Paging.SameButParts(r[i], items[i]);
    }
  }

  // ------------------------------------------------------------- one line

  ghost predicate MidStream(s: Assembly, p: Progress) {
    p.current.Some? ==>
      var m := p.current.value;
      && m.role.AssistantRole? && s.messageID == MessageID(m) && NewMessage(p, m)
      && (forall k <- s.blockTools :: s.blockTools[k] in ToolIDs(Raws(m)))
  }

  ghost predicate InStep(l: State, r: State, s: Assembly, p: Progress, v: View) {
    Mirror(l, r, p.current, v) && Replayed(r, p) && MidStream(s, p)
  }

  lemma UpdateLine(l: State, r: State, s: Assembly, p: Progress, v: View, update: Update) returns (w: View)
    requires InStep(l, r, s, p, v) && Fits(p, MessageUpdate(update))
    ensures var (t, events) := OnUpdate(s, update);
      InStep(Fold(l, events), r, t, p, w)
  {
    var m := p.current.value;
    var (t, events) := OnUpdate(s, update);
    if events == [] {
      w := v;
    } else {
      FoldOne(l, events[0]);
      assert events == [events[0]];
      match update {
        case TextUpdate(_, _) => w := StreamStep(l, r, m, v, events[0]);
        case ThinkingUpdate(_, _) => w := StreamStep(l, r, m, v, events[0]);
        case CallStart(index, _, _) =>
          w := StreamStep(l, r, m, v, events[0]);
          assert Raws(m)[index] in Raws(m);
        case CallDelta(_, _) => w := CallStep(l, r, p, m, v, events[0]);
        case CallEnd(_, _) => w := CallStep(l, r, p, m, v, events[0]);
      }
    }
  }

  lemma NoisyTail(l: State, r: State, current: Option<Message>, v: View, code: string, message: string)
    returns (w: View)
    requires Mirror(l, r, current, v)
    ensures Mirror(Apply(l, StreamError(code, message, false)), r, current, w)
  {
    w := NoiseStep(l, r, current, v, Alert(code, message, false));
  }

  lemma AssistantEnd(l: State, r: State, s: Assembly, p: Progress, v: View, m: Message) returns (w: View)
    requires InStep(l, r, s, p, v) && m.role.AssistantRole?
    requires p.current == Some(m) || (p.current == None && NewMessage(p, m))
    ensures var entry := MessageEntry(m, "");
      InStep(Fold(l, entry), Fold(r, entry), s, Progress(None, p.ids + {MessageID(m)}, p.tools + ToolIDs(Raws(m))), w)
  {
    if m.content == [] {
      assert v.draft == [];
      Gather(l, r, p.current, v);
      w := View(l.items, [], []);
      assert Fold(l, []) == l && Fold(r, []) == r;
    } else {
      assert Mirror(l, r, Some(m), v);
      FoldOne(l, MessageEntry(m, "")[0]);
      FoldOne(r, MessageEntry(m, "")[0]);
      w := SettleStep(l, r, p, m, v);
      ReplayedSettle(r, p, m);
    }
  }

  /** Nobody else's prompt waits on screen for the echo. */
  lemma UserEnd(l: State, r: State, s: Assembly, p: Progress, v: View, m: Message, client: string)
    requires InStep(l, r, s, p, v) && m.role.UserRole? && p.current == None && MessageID(m) !in p.ids
    ensures var after := Fold(l, MessageEntry(m, client));
      InStep(after, Fold(r, MessageEntry(m, "")), s, p.(ids := p.ids + {MessageID(m)}), View(after.items, [], []))
  {
    var id, blocks := MessageID(m), UserBlocks(PlainBlocks(m.content));
    FoldOne(l, MessageEntry(m, client)[0]);
    FoldOne(r, MessageEntry(m, "")[0]);
    Gather(l, r, None, v);
    ErasedKeeps(l.items);
    assert client != "" ==> LocalEcho(l.items, client) == |l.items| by {
      forall item <- l.items | item.User? ensures item.clientMessageID == "" {
        assert item in r.items;
      }
    }
    if blocks == [] {
      assert Apply(l, MessageEntry(m, client)[0]) == l.(seen := l.seen + {id});
      assert Apply(r, MessageEntry(m, "")[0]) == r.(seen := r.seen + {id});
    } else {
      var item := User(id, blocks, "");
      assert Apply(l, MessageEntry(m, client)[0]) == State(l.items + [item], l.seen + {id});
      assert Apply(r, MessageEntry(m, "")[0]) == State(r.items + [item], r.seen + {id});
      PushStep(l, r, v, item, l.seen + {id});
      ReplayedPush(r, p, item, r.seen + {id}, p.(ids := p.ids + {id}));
    }
  }

  lemma ResultEnd(l: State, r: State, s: Assembly, p: Progress, v: View, m: Message, client: string)
    requires InStep(l, r, s, p, v) && m.role.ToolResultRole? && p.current == None
    ensures var after := Fold(l, MessageEntry(m, client));
      InStep(after, Fold(r, MessageEntry(m, "")), s.(toolOutput := s.toolOutput - {m.toolCallID}), p,
             View(after.items, [], []))
  {
    var e := MessageEntry(m, "")[0];
    FoldOne(l, e);
    FoldOne(r, e);
    ResultStep(l, r, v, e);
    ReplayedResult(r, p, e);
  }

  lemma EndLine(l: State, r: State, s: Assembly, p: Progress, v: View, m: Message, client: string, code: string)
    returns (w: View)
    requires InStep(l, r, s, p, v) && Fits(p, MessageEnd(m, client, code))
    ensures var (t, events) := OnMessageEnd(s, m, client, code);
      InStep(Fold(l, events), Fold(r, MessageEntry(m, "")), t, Advance(p, MessageEnd(m, client, code)), w)
  {
    var entry := MessageEntry(m, client);
    var (t, events) := OnMessageEnd(s, m, client, code);
    assert Fold(l, []) == l && Fold(r, []) == r;
    assert entry + [] == entry;
    match m.role {
      case AssistantRole =>
        w := AssistantEnd(l, r, s, p, v, m);
        if m.failed {
          var alert := events[|entry|];
          FoldAppend(l, entry, [alert]);
          FoldOne(Fold(l, entry), alert);
          w := NoisyTail(Fold(l, entry), Fold(r, entry), None, w, alert.code, alert.message);
        }
      case UserRole =>
        UserEnd(l, r, s, p, v, m, client);
        w := View(Fold(l, entry).items, [], []);
      case ToolResultRole =>
        ResultEnd(l, r, s, p, v, m, client);
        w := View(Fold(l, entry).items, [], []);
      case OtherRole => w := v;
    }
  }

  lemma LineStep(l: State, r: State, s: Assembly, p: Progress, v: View, line: Line) returns (w: View)
    requires InStep(l, r, s, p, v) && Fits(p, line)
    ensures var (t, events) := OnLine(s, line);
      InStep(Fold(l, events), Fold(r, Stored(line)), t, Advance(p, line), w)
  {
    assert Fold(l, []) == l && Fold(r, []) == r;
    match line {
      case MessageStart(m) =>
        if m.role.AssistantRole? {
          Gather(l, r, None, v);
          w := View(l.items, [], []);
        } else {
          w := v;
        }
      case MessageUpdate(update) => w := UpdateLine(l, r, s, p, v, update);
      case MessageEnd(m, client, code) => w := EndLine(l, r, s, p, v, m, client, code);
      case ToolUpdate(id, snapshot) =>
        var (_, events) := OnToolUpdate(s, id, snapshot);
        if events == [] {
          w := v;
        } else {
          FoldOne(l, events[0]);
          assert events == [events[0]];
          w := OutputStep(l, r, p.current, v, events[0]);
        }
      case AgentSettled =>
        FoldOne(l, TurnFinished);
        TurnStep(l, r, p, v);
        w := v;
      case CompactionEnd(tokens) =>
        var note := Note("", Some(tokens), true, "");
        FoldOne(l, ContextBoundary(Some(tokens)));
        FoldOne(r, ContextBoundary(Some(tokens)));
        PushStep(l, r, v, note, l.seen);
        ReplayedPush(r, p, note, r.seen, p);
        w := View(l.items + [note], [], []);
      case AutoRetry(text) =>
        FoldOne(l, Notice(text));
        w := NoiseStep(l, r, p.current, v, Note(text, None, false, ""));
      case Unreadable(text) =>
        FoldOne(l, StreamError("unrenderable", text, false));
        w := NoisyTail(l, r, p.current, v, "unrenderable", text);
    }
  }

  lemma {:induction false} TraceInStep(lines: seq<Line>) returns (v: View)
    requires WellFormed(lines)
    ensures InStep(Fold(EMPTY, Live(lines)), Fold(EMPTY, Replay(lines)), AssemblyAfter(lines), ProgressAfter(lines), v)
  {
    if lines == [] {
      assert FindTool([], "") == None;
      v := View([], [], []);
    } else {
      var before, line := lines[..|lines| - 1], lines[|lines| - 1];
      var u := TraceInStep(before);
      v := LineStep(Fold(EMPTY, Live(before)), Fold(EMPTY, Replay(before)), AssemblyAfter(before),
                    ProgressAfter(before), u, line);
      FoldAppend(EMPTY, Live(before), OnLine(AssemblyAfter(before), line).1);
      FoldAppend(EMPTY, Replay(before), Stored(line));
    }
  }
}
