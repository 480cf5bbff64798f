/**
 Runs of a client: events it receives, pages of history it loads, prompts it puts
 on screen itself, and prompts it takes off again. What came before a page decides
 whether the page can show a message twice.
 */
module TranscriptRuns {

  import opened Basics
  import opened Transcript
  import opened Trees
  import opened Paging

  datatype Action =
    | Receive(event: Event)
    | Load(page: seq<Event>)
    | Show(client: string, blocks: seq<UserBlock>)
    | Take(client: string)

  function Act(t: State, a: Action): State {
    match a
    case Receive(e) => Apply(t, e)
    case Load(page) => Prepend(t, page)
    case Show(client, blocks) => LocalPrompt(t, client, blocks)
    case Take(client) => DropLocalPrompt(t, client)
  }

  function After(run: seq<Action>): State {
    if run == [] then EMPTY else Act(After(run[..|run| - 1]), run[|run| - 1])
  }

  // ------------------------------------------------------- what a run names

  function Incoming(a: Action): seq<Event> {
    if a.Receive? then [a.event] else if a.Load? then a.page else []
  }

  function UserNames(events: seq<Event>): set<string> {
    set e | e in events && e.UserMessage? :: e.messageID
  }

  function AssistantNames(events: seq<Event>): set<string> {
    set e | e in events && (e.AssistantMessage? || IsStream(e)) :: e.messageID
  }

  function Users(run: seq<Action>): set<string> {
    if run == [] then {} else Users(run[..|run| - 1]) + UserNames(Incoming(run[|run| - 1]))
  }

  function Assistants(run: seq<Action>): set<string> {
    if run == [] then {} else Assistants(run[..|run| - 1]) + AssistantNames(Incoming(run[|run| - 1]))
  }

  function Prompts(run: seq<Action>): set<string> {
    if run == [] then {}
    else Prompts(run[..|run| - 1]) + if run[|run| - 1].Show? then {PromptID(run[|run| - 1].client)} else {}
  }

  /** A prompt goes on screen once, before any user message bears its id, as the
      echo of it may. */
  ghost predicate Fits(before: seq<Action>, a: Action) {
    match a
    case Receive(_) => true
    case Load(page) => Entries(page)
    case Show(client, _) => client != "" && PromptID(client) !in Users(before) + Prompts(before)
    case Take(client) => client != ""
  }

  ghost predicate InTurn(run: seq<Action>) {
    run != [] ==> InTurn(run[..|run| - 1]) && Fits(run[..|run| - 1], run[|run| - 1])
  }

  /** User and assistant messages have ids apart. */
  ghost predicate Proper(run: seq<Action>) {
    InTurn(run) && Users(run) !! Assistants(run) && Prompts(run) !! Assistants(run)
  }

  /** A delta or a tool start that puts a message on screen, if it is not there:
      any but the start of a tool that is. */
  predicate Streams(t: State, e: Event, m: string) {
    && IsStream(e) && e.messageID == m && e.parent == ""
    && (e.ToolUseStart? ==> FindTool(t.items, e.toolUseID).None?)
  }

  /** A settled message that is taken in: any but one of an unknown subagent. */
  predicate Settles(t: State, e: Event, m: string) {
    e.AssistantMessage? && e.messageID == m && ListFor(t.items, e.parent).Some?
  }

  predicate Streamed(run: seq<Action>, m: string) {
    run != [] &&
      (var before, last := run[..|run| - 1], run[|run| - 1];
       Streamed(before, m) || (last.Receive? && Streams(After(before), last.event, m)))
  }

  predicate SettledIn(run: seq<Action>, m: string) {
    run != [] &&
      (var before, last := run[..|run| - 1], run[|run| - 1];
       SettledIn(before, m) || (last.Receive? && Settles(After(before), last.event, m)))
  }

  /** A page of the run named it, in a place the page could put it. */
  predicate Brought(run: seq<Action>, m: string) {
    run != [] &&
      (var before, last := run[..|run| - 1], run[|run| - 1];
       Brought(before, m) || (last.Load? && m in Fold(EMPTY, last.page).seen))
  }

  /** On screen from its deltas alone. */
  predicate Loose(run: seq<Action>, m: string) {
    Streamed(run, m) && !SettledIn(run, m) && !Brought(run, m)
  }

  predicate NoneLoose(run: seq<Action>, page: seq<Event>) {
    forall item <- Fold(EMPTY, page).items :: IsMessage(item) ==> !Loose(run, item.id)
  }

  /** No page of the run brings a message that was loose when it was loaded. */
  predicate Clean(run: seq<Action>) {
    run == [] ||
      (var before, last := run[..|run| - 1], run[|run| - 1];
       Clean(before) && (last.Load? ==> NoneLoose(before, last.page)))
  }

  // ------------------------------------------------------- what an event does

  /** An item that is still the one it was. */
  predicate SameMessage(a: Item, b: Item) {
    || a == b
    || (a.Assistant? && b.Assistant? && a.id == b.id)
    || (a.User? && b.User? && a.id == b.id && (a.clientMessageID == b.clientMessageID || a.clientMessageID == ""))
  }

  ghost predicate Top(items: seq<Item>, after: seq<Item>, more: seq<Item>) {
    && |after| == |items| + |more| && after[|items|..] == more
    && forall i | 0 <= i < |items| :: SameMessage(after[i], items[i])
  }

  /** What an event adds at the end: nothing, or an item nobody knows yet. */
  ghost predicate Novel(t: State, e: Event, more: seq<Item>) {
    && |more| <= 1
    && forall item <- more ::
         && (item.User? ==> e.UserMessage? && item.id == e.messageID)
         && (item.User? ==> item.id !in t.seen && item.clientMessageID == "")
         && (item.Assistant? ==>
               !HasAssistant(t.items, item.id) && (Settles(t, e, item.id) || Streams(t, e, item.id)))
  }

  lemma EditTop(items: seq<Item>, id: string, edit: Tool -> Tool)
    ensures Top(items, EditTool(items, id, edit), [])
  {
    EditKeepsItems(items, id, edit);
    forall i | 0 <= i < |items| ensures SameMessage(EditTool(items, id, edit)[i], items[i]) {
      assert SameButParts(EditTool(items, id, edit)[i], items[i]);
    }
  }

  lemma UserTop(t: State, e: Event) returns (more: seq<Item>)
    requires e.UserMessage?
    ensures Top(t.items, Apply(t, e).items, more) && Novel(t, e, more)
  {
    var after := Apply(t, e).items;
    more := after[|t.items|..];
    if e.parent != "" {
      var list := ListFor(t.items, e.parent);
      if list.Some? {
        var grown := list.value + [User(e.messageID, UserBlocks(e.blocks), "")];
        EditTop(t.items, e.parent, (tool: Tool) => tool.(children := grown));
      }
    }
  }

  lemma WithAssistantTop(items: seq<Item>, messageID: string, streaming: bool,
      edit: Item -> Item) returns (more: seq<Item>)
    requires forall item: Item | item.Assistant? :: edit(item).Assistant? && edit(item).id == item.id
    ensures Top(items, WithAssistant(items, messageID, streaming, edit), more) && |more| <= 1
    ensures more != [] ==> !HasAssistant(items, messageID) && more[0].Assistant? && more[0].id == messageID
    ensures HasAssistant(items, messageID) ==> more == []
    ensures HasAssistant(WithAssistant(items, messageID, streaming, edit), messageID)
  {
    var after := WithAssistant(items, messageID, streaming, edit);
    more := after[|items|..];
    var k := if HasAssistant(items, messageID) then AssistantAt(items, messageID) else |items|;
    assert after[k].Assistant? && after[k].id == messageID;
  }

  lemma AssistantInside(t: State, e: Event)
    requires e.AssistantMessage? && e.parent != ""
    ensures Top(t.items, Apply(t, e).items, [])
  {
    var list := ListFor(t.items, e.parent);
    if list.Some? && !(e.messageID in t.seen && !HasAssistant(list.value, e.messageID)) {
      var settled := WithAssistant(list.value, e.messageID, false, SettleItem(e.content));
      EditTop(t.items, e.parent, (tool: Tool) => tool.(children := settled));
    }
  }

  lemma SettleOutside(t: State, e: Event)
    requires e.AssistantMessage? && e.parent == ""
    ensures Apply(t, e).items == if e.messageID in t.seen && !HasAssistant(t.items, e.messageID) then t.items
                                 else WithAssistant(t.items, e.messageID, false, SettleItem(e.content))
  {
  }

  lemma AssistantOutside(t: State, e: Event) returns (more: seq<Item>)
    requires e.AssistantMessage? && e.parent == ""
    ensures Top(t.items, Apply(t, e).items, more) && Novel(t, e, more)
  {
    var id, edit := e.messageID, SettleItem(e.content);
    SettleOutside(t, e);
    if id in t.seen && !HasAssistant(t.items, id) {
      more := [];
    } else {
      more := WithAssistantTop(t.items, id, false, edit);
      NovelMessage(t, e, id, more);
    }
  }

  lemma AssistantTop(t: State, e: Event) returns (more: seq<Item>)
    requires e.AssistantMessage?
    ensures Top(t.items, Apply(t, e).items, more) && Novel(t, e, more)
  {
    if e.parent == "" {
      more := AssistantOutside(t, e);
    } else {
      AssistantInside(t, e);
      more := [];
    }
  }

  lemma StreamInside(t: State, e: Event)
    requires IsStream(e) && e.parent != ""
    ensures Top(t.items, Apply(t, e).items, [])
  {
    var list := ListFor(t.items, e.parent);
    if list.Some? && !(e.ToolUseStart? && FindTool(t.items, e.toolUseID).Some?) {
      var streamed := WithAssistant(list.value, e.messageID, true, StreamItem(e));
      EditTop(t.items, e.parent, (tool: Tool) => tool.(children := streamed));
    }
  }

  lemma StreamOutside(t: State, e: Event)
    requires IsStream(e) && Streams(t, e, e.messageID)
    ensures Apply(t, e) == t.(items := WithAssistant(t.items, e.messageID, true, StreamItem(e)))
  {
  }

  lemma StreamKeeps(e: Event)
    requires IsStream(e)
    ensures forall item: Item | item.Assistant? :: StreamItem(e)(item).Assistant? && StreamItem(e)(item).id == item.id
  {
  }

  lemma NovelMessage(t: State, e: Event, id: string, more: seq<Item>)
    requires |more| <= 1 && (Settles(t, e, id) || (IsStream(e) && Streams(t, e, id)))
    requires more != [] ==> !HasAssistant(t.items, id) && more[0].Assistant? && more[0].id == id
    ensures Novel(t, e, more)
  {
  }

  lemma StreamOpens(t: State, e: Event) returns (more: seq<Item>)
    requires IsStream(e) && Streams(t, e, e.messageID)
    ensures Top(t.items, Apply(t, e).items, more) && Novel(t, e, more)
    ensures HasAssistant(Apply(t, e).items, e.messageID)
  {
    var id, edit := e.messageID, StreamItem(e);
    StreamKeeps(e);
    more := WithAssistantTop(t.items, id, true, edit);
    NovelMessage(t, e, id, more);
    StreamOutside(t, e);
  }

  lemma StreamTop(t: State, e: Event) returns (more: seq<Item>)
    requires IsStream(e)
    ensures Top(t.items, Apply(t, e).items, more) && Novel(t, e, more)
    ensures Streams(t, e, e.messageID) ==> HasAssistant(Apply(t, e).items, e.messageID)
  {
    if Streams(t, e, e.messageID) {
      more := StreamOpens(t, e);
    } else {
      more := [];
      if e.parent != "" {
        StreamInside(t, e);
      } else {
        StreamIgnored(t, e);
      }
    }
  }

  lemma StreamIgnored(t: State, e: Event)
    requires IsStream(e) && e.parent == "" && !Streams(t, e, e.messageID)
    ensures Apply(t, e) == t
  {
  }

  lemma {:induction false} StopTop(items: seq<Item>)
    ensures Top(items, Stop(items), [])
  {
    if items != [] {
      StopTop(items[1..]);
      var after := Stop(items);
      forall i | 0 <= i < |items| ensures SameMessage(after[i], items[i]) {
        if i > 0 {
          assert after[i] == Stop(items[1..])[i - 1] && items[i] == items[1..][i - 1];
        }
      }
    }
  }

  lemma EventTop(t: State, e: Event) returns (more: seq<Item>)
    ensures Top(t.items, Apply(t, e).items, more) && Novel(t, e, more)
    ensures IsStream(e) && Streams(t, e, e.messageID) ==> HasAssistant(Apply(t, e).items, e.messageID)
  {
    match e {
      case UserMessage(_, _, _, _) => more := UserTop(t, e);
      case AssistantMessage(_, _, _) => more := AssistantTop(t, e);
      case TextDelta(_, _, _, _) | ThinkingDelta(_, _, _, _) | ToolUseStart(_, _, _, _, _, _) =>
        more := StreamTop(t, e);
      case ToolInputDelta(id, _) => more := []; EditTop(t.items, id, EditByEvent(e));
      case ToolUseEnd(id, _) => more := []; EditTop(t.items, id, EditByEvent(e));
      case ToolOutputDelta(id, _) => more := []; EditTop(t.items, id, EditByEvent(e));
      case ToolResult(id, _) => more := []; EditTop(t.items, id, EditByEvent(e));
      case TurnFinished => more := []; StopTop(t.items);
      case _ => more := Apply(t, e).items[|t.items|..];
    }
  }

  lemma EventSeen(t: State, e: Event)
    ensures t.seen <= Apply(t, e).seen
    ensures forall m ::
              m in Apply(t, e).seen <==> m in t.seen || (e.UserMessage? && m == e.messageID) || Settles(t, e, m)
  {
  }

  // ------------------------------------------------------------ the invariant

  ghost predicate UserOk(run: seq<Action>, seen: set<string>, item: Item) {
    item.User? ==>
      && item.id in seen && item.id in Users(run) + Prompts(run)
      && (item.clientMessageID != "" ==> item.id == PromptID(item.clientMessageID))
  }

  ghost predicate AssistantOk(run: seq<Action>, seen: set<string>, item: Item) {
    item.Assistant? ==> item.id in Assistants(run) && (item.id in seen || Streamed(run, item.id))
  }

  /** Two messages of one id are both assistant messages. */
  ghost predicate UsersApart(items: seq<Item>) {
    forall i, j | 0 <= i < j < |items| && IsMessage(items[i]) && IsMessage(items[j]) && items[i].id == items[j].id ::
      items[i].Assistant? && items[j].Assistant?
  }

  ghost predicate ItemOk(run: seq<Action>, seen: set<string>, item: Item) {
    UserOk(run, seen, item) && AssistantOk(run, seen, item)
  }

  ghost predicate ItemsOk(run: seq<Action>, t: State) {
    forall i | 0 <= i < |t.items| :: ItemOk(run, t.seen, t.items[i])
  }

  ghost predicate Inv(run: seq<Action>, t: State) {
    && ItemsOk(run, t) && UsersApart(t.items) && (Distinct(t.items) <==> Clean(run))
    && t.seen <= Users(run) + Prompts(run) + Assistants(run)
    && (forall m | m !in Users(run) + Prompts(run) :: m in t.seen <==> SettledIn(run, m) || Brought(run, m))
    && (forall m | Streamed(run, m) :: HasAssistant(t.items, m))
  }

  lemma NamesSnoc(run: seq<Action>, a: Action)
    ensures Users(run + [a]) == Users(run) + UserNames(Incoming(a))
    ensures Assistants(run + [a]) == Assistants(run) + AssistantNames(Incoming(a))
    ensures Prompts(run + [a]) == Prompts(run) + if a.Show? then {PromptID(a.client)} else {}
    ensures a.Receive? ==> UserNames(Incoming(a)) == if a.event.UserMessage? then {a.event.messageID} else {}
    ensures a.Receive? && (a.event.AssistantMessage? || IsStream(a.event)) ==>
              AssistantNames(Incoming(a)) == {a.event.messageID}
    ensures a.Receive? && !(a.event.AssistantMessage? || IsStream(a.event)) ==> AssistantNames(Incoming(a)) == {}
    ensures !a.Receive? && !a.Load? ==> UserNames(Incoming(a)) == AssistantNames(Incoming(a)) == {}
  {
    assert (run + [a])[..|run|] == run;
  }

  lemma HasKept(items: seq<Item>, after: seq<Item>, more: seq<Item>, m: string)
    requires Top(items, after, more) && HasAssistant(items, m)
    ensures HasAssistant(after, m)
  {
    var k := AssistantAt(items, m);
    assert SameMessage(after[k], items[k]);
  }

  /** An item nobody bears the id of leaves the repeats what they were. */
  lemma ApartKept(items: seq<Item>, after: seq<Item>, more: seq<Item>)
    requires Top(items, after, more) && UsersApart(items) && |more| <= 1
    requires forall item <- more, i | 0 <= i < |items| && IsMessage(item)
             && IsMessage(items[i]) :: items[i].id != item.id
    ensures UsersApart(after)
    ensures Distinct(after) <==> Distinct(items)
  {
    assert more != [] ==> after[|items|] == more[0];
    forall i, j | 0 <= i < j < |after| && IsMessage(after[i]) && IsMessage(after[j]) && after[i].id == after[j].id
      ensures j < |items| && items[i].id == items[j].id && after[i].Assistant? && after[j].Assistant?
              && IsMessage(items[i]) && IsMessage(items[j])
    {
      assert SameMessage(after[i], items[i]);
      assert j < |items| ==> SameMessage(after[j], items[j]);
    }
    forall i, j | 0 <= i < j < |items| && IsMessage(items[i]) && IsMessage(items[j]) && items[i].id == items[j].id
      ensures IsMessage(after[i]) && IsMessage(after[j]) && after[i].id == after[j].id
    {
      assert SameMessage(after[i], items[i]) && SameMessage(after[j], items[j]);
    }
  }

  lemma RunSnoc(run: seq<Action>, a: Action, m: string)
    ensures After(run + [a]) == Act(After(run), a)
    ensures Streamed(run + [a], m) <==> Streamed(run, m) || (a.Receive? && Streams(After(run), a.event, m))
    ensures SettledIn(run + [a], m) <==> SettledIn(run, m) || (a.Receive? && Settles(After(run), a.event, m))
    ensures Brought(run + [a], m) <==> Brought(run, m) || (a.Load? && m in Fold(EMPTY, a.page).seen)
    ensures Clean(run + [a]) <==> Clean(run) && (a.Load? ==> NoneLoose(run, a.page))
  {
    assert (run + [a])[..|run|] == run;
  }

  lemma ProperBefore(run: seq<Action>, a: Action)
    requires Proper(run + [a])
    ensures Proper(run) && Fits(run, a)
    ensures a.Show? ==> PromptID(a.client) !in Assistants(run)
  {
    assert (run + [a])[..|run|] == run;
    NamesSnoc(run, a);
  }

  lemma ReceiveApart(run: seq<Action>, t: State, e: Event, more: seq<Item>)
    requires Proper(run + [Receive(e)]) && Inv(run, t)
    requires Top(t.items, Apply(t, e).items, more) && Novel(t, e, more)
    ensures UsersApart(Apply(t, e).items) && (Distinct(Apply(t, e).items) <==> Distinct(t.items))
  {
    forall item <- more, i | 0 <= i < |t.items| && IsMessage(item)
        && IsMessage(t.items[i]) ensures t.items[i].id != item.id {
      FreshItem(run, t, e, item, i);
    }
    ApartKept(t.items, Apply(t, e).items, more);
  }

  lemma NewItem(run: seq<Action>, t: State, e: Event, more: seq<Item>, item: Item)
    requires t == After(run) && Novel(t, e, more) && item in more
    ensures ItemOk(run + [Receive(e)], Apply(t, e).seen, item)
  {
    EventSeen(t, e);
    NamesSnoc(run, Receive(e));
    RunSnoc(run, Receive(e), if item.Assistant? then item.id else "");
  }

  lemma ReceiveItem(run: seq<Action>, t: State, e: Event, items: seq<Item>, more: seq<Item>, i: nat)
    requires ItemsOk(run, t) && t == After(run)
    requires Top(t.items, items, more) && Novel(t, e, more) && i < |items|
    ensures ItemOk(run + [Receive(e)], Apply(t, e).seen, items[i])
  {
    if i < |t.items| {
      assert ItemOk(run, t.seen, t.items[i]);
      OldItem(run, t, e, items[i], t.items[i]);
    } else {
      assert items[i] == items[|t.items|..][0];
      NewItem(run, t, e, more, items[i]);
    }
  }

  lemma ReceiveItems(run: seq<Action>, t: State, e: Event, more: seq<Item>)
    requires ItemsOk(run, t) && t == After(run)
    requires Top(t.items, Apply(t, e).items, more) && Novel(t, e, more)
    ensures ItemsOk(run + [Receive(e)], Apply(t, e))
  {
    forall i | 0 <= i < |Apply(t, e).items|
      ensures ItemOk(run + [Receive(e)], Apply(t, e).seen, Apply(t, e).items[i])
    {
      ReceiveItem(run, t, e, Apply(t, e).items, more, i);
    }
  }

  lemma OldItem(run: seq<Action>, t: State, e: Event, after: Item, item: Item)
    requires SameMessage(after, item) && ItemOk(run, t.seen, item)
    ensures ItemOk(run + [Receive(e)], Apply(t, e).seen, after)
  {
    EventSeen(t, e);
    NamesSnoc(run, Receive(e));
    if item.Assistant? {
      RunSnoc(run, Receive(e), item.id);
    }
  }

  /** What an event adds bears an id no item bears. */
  lemma FreshItem(run: seq<Action>, t: State, e: Event, item: Item, i: nat)
    requires Proper(run + [Receive(e)]) && Inv(run, t)
    requires i < |t.items| && IsMessage(item) && IsMessage(t.items[i]) && Novel(t, e, [item])
    ensures t.items[i].id != item.id
  {
    NamesSnoc(run, Receive(e));
    assert item in [item];
    assert ItemOk(run, t.seen, t.items[i]);
  }

  lemma ReceiveSeen(run: seq<Action>, t: State, e: Event, m: string)
    requires Inv(run, t) && t == After(run)
    requires m !in Users(run + [Receive(e)]) + Prompts(run)
    ensures m in Apply(t, e).seen <==> SettledIn(run + [Receive(e)], m) || Brought(run + [Receive(e)], m)
  {
    EventSeen(t, e);
    NamesSnoc(run, Receive(e));
    RunSnoc(run, Receive(e), m);
  }

  lemma ReceiveStreamed(run: seq<Action>, t: State, e: Event, m: string)
    requires Inv(run, t) && t == After(run)
    ensures Streamed(run + [Receive(e)], m) ==> HasAssistant(Apply(t, e).items, m)
  {
    var more := EventTop(t, e);
    RunSnoc(run, Receive(e), m);
    if Streamed(run, m) {
      HasKept(t.items, Apply(t, e).items, more, m);
    }
  }

  lemma SeenNamed(run: seq<Action>, t: State, e: Event)
    requires t.seen <= Users(run) + Prompts(run) + Assistants(run)
    ensures var longer := run + [Receive(e)];
      Apply(t, e).seen <= Users(longer) + Prompts(longer) + Assistants(longer) && Prompts(longer) == Prompts(run)
  {
    EventSeen(t, e);
    NamesSnoc(run, Receive(e));
  }

  lemma ReceiveKeeps(run: seq<Action>, t: State, e: Event)
    requires Proper(run + [Receive(e)]) && Inv(run, t) && t == After(run)
    ensures Inv(run + [Receive(e)], Apply(t, e))
  {
    var longer, u := run + [Receive(e)], Apply(t, e);
    var more := EventTop(t, e);
    ReceiveApart(run, t, e, more);
    ReceiveItems(run, t, e, more);
    SeenNamed(run, t, e);
    RunSnoc(run, Receive(e), "");
    forall m | m !in Users(longer) + Prompts(longer)
      ensures m in u.seen <==> SettledIn(longer, m) || Brought(longer, m)
    {
      ReceiveSeen(run, t, e, m);
    }
    forall m | Streamed(longer, m) ensures HasAssistant(u.items, m) {
      ReceiveStreamed(run, t, e, m);
    }
  }

  lemma ShowItems(run: seq<Action>, t: State, client: string, blocks: seq<UserBlock>)
    requires ItemsOk(run, t)
    ensures ItemsOk(run + [Show(client, blocks)], LocalPrompt(t, client, blocks))
  {
    var a, u := Show(client, blocks), LocalPrompt(t, client, blocks);
    NamesSnoc(run, a);
    forall i | 0 <= i < |u.items|
      ensures ItemOk(run + [a], u.seen, u.items[i])
    {
      if i < |t.items| {
        assert ItemOk(run, t.seen, t.items[i]);
        RunSnoc(run, a, if t.items[i].Assistant? then t.items[i].id else "");
      }
    }
  }

  lemma ShowApart(run: seq<Action>, t: State, client: string, blocks: seq<UserBlock>)
    requires ItemsOk(run, t) && UsersApart(t.items)
    requires PromptID(client) !in Users(run) + Prompts(run) + Assistants(run)
    ensures var items := LocalPrompt(t, client, blocks).items;
      UsersApart(items) && (Distinct(items) <==> Distinct(t.items))
  {
    forall i | 0 <= i < |t.items| && IsMessage(t.items[i]) ensures t.items[i].id != PromptID(client) {
      assert ItemOk(run, t.seen, t.items[i]);
    }
    ApartKept(t.items, LocalPrompt(t, client, blocks).items, [User(PromptID(client), blocks, client)]);
  }

  lemma ShowKeeps(run: seq<Action>, t: State, client: string, blocks: seq<UserBlock>)
    requires Proper(run + [Show(client, blocks)]) && Inv(run, t)
    ensures Inv(run + [Show(client, blocks)], LocalPrompt(t, client, blocks))
  {
    var a, u := Show(client, blocks), LocalPrompt(t, client, blocks);
    ProperBefore(run, a);
    NamesSnoc(run, a);
    ShowApart(run, t, client, blocks);
    ShowItems(run, t, client, blocks);
    RunSnoc(run, a, "");
    forall m ensures
        && (m !in Users(run + [a]) + Prompts(run + [a]) ==>
              (m in u.seen <==> SettledIn(run + [a], m) || Brought(run + [a], m)))
        && (Streamed(run + [a], m) ==> HasAssistant(u.items, m))
    {
      RunSnoc(run, a, m);
      if Streamed(run, m) {
        HasKept(t.items, u.items, [User(PromptID(client), blocks, client)], m);
      }
    }
  }

  /** The items once a prompt has been taken off, and the place each one had. */
  function Without(items: seq<Item>, at: nat): (r: seq<Item>)
    requires at < |items|
    ensures |r| == |items| - 1
    ensures forall i | 0 <= i < |r| :: r[i] == items[if i < at then i else i + 1]
  {
    items[..at] + items[at + 1..]
  }

  lemma TakeNames(run: seq<Action>, client: string)
    requires Proper(run + [Take(client)])
    ensures var longer := run + [Take(client)];
      Users(longer) == Users(run) && Assistants(longer) == Assistants(run) && Prompts(longer) == Prompts(run)
    ensures client != ""
  {
    NamesSnoc(run, Take(client));
    ProperBefore(run, Take(client));
  }

  lemma TakeSnoc(run: seq<Action>, client: string, m: string)
    ensures var longer := run + [Take(client)];
      && (Streamed(longer, m) <==> Streamed(run, m)) && (SettledIn(longer, m) <==> SettledIn(run, m))
      && (Brought(longer, m) <==> Brought(run, m)) && (Clean(longer) <==> Clean(run))
  {
    RunSnoc(run, Take(client), m);
  }

  lemma TakeNone(run: seq<Action>, t: State, client: string)
    requires Proper(run + [Take(client)]) && Inv(run, t) && LocalEcho(t.items, client) == |t.items|
    ensures Inv(run + [Take(client)], t)
  {
    TakeNames(run, client);
    forall m ensures (Streamed(run + [Take(client)], m) <==> Streamed(run, m))
                  && (SettledIn(run + [Take(client)], m) <==> SettledIn(run, m))
                  && (Brought(run + [Take(client)], m) <==> Brought(run, m)) {
      TakeSnoc(run, client, m);
    }
    TakeSnoc(run, client, "");
  }

  lemma TakenApart(items: seq<Item>, at: nat, j: nat)
    requires UsersApart(items) && at < |items| && j < |items| && j != at && items[at].User?
    ensures IsMessage(items[j]) ==> items[j].id != items[at].id
  {
  }

  lemma ItemWithout(run: seq<Action>, client: string, seen: set<string>, item: Item, id: string)
    requires ItemOk(run, seen, item) && (IsMessage(item) ==> item.id != id)
    requires Proper(run + [Take(client)])
    ensures ItemOk(run + [Take(client)], seen - {id}, item)
  {
    TakeNames(run, client);
    if item.Assistant? {
      TakeSnoc(run, client, item.id);
    }
  }

  /** What is left after a prompt nobody has echoed is taken off. */
  lemma TakeItems(run: seq<Action>, t: State, client: string, at: nat)
    requires Proper(run + [Take(client)]) && ItemsOk(run, t) && UsersApart(t.items)
    requires at < |t.items| && t.items[at].User?
    ensures ItemsOk(run + [Take(client)], State(Without(t.items, at), t.seen - {t.items[at].id}))
  {
    var items := Without(t.items, at);
    forall i | 0 <= i < |items|
      ensures ItemOk(run + [Take(client)], t.seen - {t.items[at].id}, items[i])
    {
      var j := if i < at then i else i + 1;
      TakenApart(t.items, at, j);
      ItemWithout(run, client, t.seen, t.items[j], t.items[at].id);
    }
  }

  lemma TakeSeen(run: seq<Action>, t: State, client: string, id: string, m: string)
    requires Proper(run + [Take(client)]) && Inv(run, t) && id in Users(run) + Prompts(run)
    requires m !in Users(run) + Prompts(run)
    ensures m in t.seen - {id} <==> SettledIn(run + [Take(client)], m) || Brought(run + [Take(client)], m)
  {
    TakeSnoc(run, client, m);
  }

  lemma TakeStreamed(run: seq<Action>, t: State, client: string, at: nat, m: string)
    requires Inv(run, t) && at < |t.items| && t.items[at].User?
    ensures Streamed(run + [Take(client)], m) ==> HasAssistant(Without(t.items, at), m)
  {
    TakeSnoc(run, client, m);
    if Streamed(run, m) {
      AssistantStays(t.items, at, m);
    }
  }

  /** Only a prompt no event has settled is taken off, and only once. */
  lemma TakeKeeps(run: seq<Action>, t: State, client: string)
    requires Proper(run + [Take(client)]) && Inv(run, t)
    ensures Inv(run + [Take(client)], DropLocalPrompt(t, client))
  {
    var at := LocalEcho(t.items, client);
    if at == |t.items| {
      TakeNone(run, t, client);
    } else {
      TakeOne(run, t, client, at);
      assert DropLocalPrompt(t, client) == State(Without(t.items, at), t.seen - {t.items[at].id});
    }
  }

  lemma TakeOne(run: seq<Action>, t: State, client: string, at: nat)
    requires Proper(run + [Take(client)]) && Inv(run, t)
    requires at < |t.items| && t.items[at].User?
    ensures Inv(run + [Take(client)], State(Without(t.items, at), t.seen - {t.items[at].id}))
  {
    var id := t.items[at].id;
    assert UserOk(run, t.seen, t.items[at]);
    TakeNames(run, client);
    TakeItems(run, t, client, at);
    ApartWithout(t.items, at);
    TakeSnoc(run, client, "");
    forall m | m !in Users(run) + Prompts(run)
      ensures m in t.seen - {id} <==> SettledIn(run + [Take(client)], m) || Brought(run + [Take(client)], m)
    {
      TakeSeen(run, t, client, id, m);
    }
    forall m | Streamed(run + [Take(client)], m) ensures HasAssistant(Without(t.items, at), m) {
      TakeStreamed(run, t, client, at, m);
    }
  }

  lemma AssistantStays(items: seq<Item>, at: nat, m: string)
    requires at < |items| && items[at].User? && HasAssistant(items, m)
    ensures HasAssistant(Without(items, at), m)
  {
    var k := AssistantAt(items, m);
    assert Without(items, at)[if k < at then k else k - 1] == items[k];
  }

  lemma ApartWithout(items: seq<Item>, at: nat)
    requires UsersApart(items) && at < |items| && items[at].User?
    ensures UsersApart(Without(items, at)) && (Distinct(Without(items, at)) <==> Distinct(items))
  {
    var left := Without(items, at);
    if Distinct(left) {
      forall i, j | 0 <= i < j < |items| && IsMessage(items[i]) && IsMessage(items[j])
        ensures items[i].id != items[j].id
      {
        if i == at {
          TakenApart(items, at, j);
        } else if j == at {
          TakenApart(items, at, i);
        } else {
          assert left[if i < at then i else i - 1] == items[i] && left[if j < at then j else j - 1] == items[j];
        }
      }
    }
  }

  // ------------------------------------------------------------------- pages

  ghost predicate NamedBy(item: Item, events: seq<Event>) {
    (item.User? ==> item.id in UserNames(events)) && (item.Assistant? ==> item.id in AssistantNames(events))
  }

  lemma PageFromNext(t: State, before: seq<Event>, e: Event)
    requires Entry(e)
    requires forall item <- t.items :: NamedBy(item, before)
    ensures forall item <- Apply(t, e).items :: NamedBy(item, before + [e])
  {
    var more := EventTop(t, e);
    NamedLonger(before, e);
    AllNamed(t.items, Apply(t, e).items, more, before, e);
  }

  lemma NamedLonger(before: seq<Event>, e: Event)
    ensures UserNames(before) <= UserNames(before + [e]) && AssistantNames(before) <= AssistantNames(before + [e])
    ensures e.UserMessage? ==> e.messageID in UserNames(before + [e])
    ensures e.AssistantMessage? ==> e.messageID in AssistantNames(before + [e])
  {
    assert e in before + [e];
  }

  lemma AllNamed(items: seq<Item>, after: seq<Item>, more: seq<Item>, before: seq<Event>, e: Event)
    requires Top(items, after, more)
    requires forall item <- items :: NamedBy(item, before)
    requires UserNames(before) <= UserNames(before + [e]) && AssistantNames(before) <= AssistantNames(before + [e])
    requires forall item <- more :: NamedBy(item, before + [e])
    ensures forall item <- after :: NamedBy(item, before + [e])
  {
    forall i | 0 <= i < |after| ensures NamedBy(after[i], before + [e]) {
      if i < |items| {
        assert SameMessage(after[i], items[i]) && NamedBy(items[i], before);
      } else {
        assert after[i] == after[|items|..][i - |items|];
      }
    }
  }

  /** What a page puts on screen is what its user and assistant messages name. */
  lemma {:induction false} PageFrom(page: seq<Event>)
    requires Entries(page)
    ensures forall item <- Fold(EMPTY, page).items :: NamedBy(item, page)
  {
    if page != [] {
      var before, e := page[..|page| - 1], page[|page| - 1];
      PageFrom(before);
      assert page == before + [e];
      PageFromNext(Fold(EMPTY, before), before, e);
    }
  }

  lemma PageSeen(page: seq<Event>)
    requires Entries(page)
    ensures Fold(EMPTY, page).seen <= UserNames(page) + AssistantNames(page)
  {
    PageInv(page);
    forall id | id in Fold(EMPTY, page).seen ensures id in UserNames(page) + AssistantNames(page) {
      var e :| e in page && (e.UserMessage? || e.AssistantMessage?) && e.messageID == id;
    }
  }

  /** What a page adds: messages it knows, under ids not known before. */
  lemma PageAdds(t: State, page: seq<Event>, item: Item)
    requires Entries(page) && item in FreshItems(Fold(EMPTY, page).items, t.seen) && IsMessage(item)
    ensures item.id in Fold(EMPTY, page).seen && item.id !in t.seen
    ensures item.User? ==> item.id in UserNames(page) && item.clientMessageID == ""
    ensures item.Assistant? ==> item.id in AssistantNames(page)
  {
    FreshIsFiltered(Fold(EMPTY, page).items, t.seen);
    PageFrom(page);
    PageInv(page);
  }

  lemma LoadItem(run: seq<Action>, t: State, page: seq<Event>, item: Item)
    requires ItemOk(run, t.seen, item)
    ensures var longer, seen := run + [Load(page)], t.seen + Fold(EMPTY, page).seen;
      ItemOk(longer, seen, item)
  {
    NamesSnoc(run, Load(page));
    if item.Assistant? {
      RunSnoc(run, Load(page), item.id);
    }
  }

  lemma LoadItems(run: seq<Action>, t: State, page: seq<Event>)
    requires Entries(page) && ItemsOk(run, t)
    ensures ItemsOk(run + [Load(page)], Prepend(t, page))
  {
    var u, novel := Prepend(t, page), FreshItems(Fold(EMPTY, page).items, t.seen);
    NamesSnoc(run, Load(page));
    forall i | 0 <= i < |u.items|
      ensures ItemOk(run + [Load(page)], u.seen, u.items[i])
    {
      if i >= |novel| {
        LoadItem(run, t, page, t.items[i - |novel|]);
      } else if IsMessage(novel[i]) {
        PageAdds(t, page, novel[i]);
      }
    }
  }

  /** A user message a page adds is nobody's twin. */
  lemma AddedApart(run: seq<Action>, t: State, page: seq<Event>, item: Item, i: nat)
    requires Proper(run + [Load(page)]) && Entries(page) && ItemsOk(run, t)
    requires item in FreshItems(Fold(EMPTY, page).items, t.seen) && IsMessage(item)
    requires i < |t.items| && IsMessage(t.items[i]) && t.items[i].id == item.id
    ensures item.Assistant? && t.items[i].Assistant?
  {
    NamesSnoc(run, Load(page));
    PageAdds(t, page, item);
    assert ItemOk(run, t.seen, t.items[i]);
  }

  lemma JoinApart(a: seq<Item>, b: seq<Item>)
    requires Distinct(a) && UsersApart(b)
    requires forall item, i | item in a && 0 <= i < |b| && IsMessage(item) && IsMessage(b[i]) && b[i].id == item.id ::
               item.Assistant? && b[i].Assistant?
    ensures UsersApart(a + b)
  {
  }

  lemma LoadApart(run: seq<Action>, t: State, page: seq<Event>)
    requires Proper(run + [Load(page)]) && Entries(page) && ItemsOk(run, t) && UsersApart(t.items)
    ensures UsersApart(Prepend(t, page).items)
  {
    var novel := FreshItems(Fold(EMPTY, page).items, t.seen);
    PageInv(page);
    FreshDistinct(Fold(EMPTY, page).items, t.seen);
    forall item, i | item in novel && 0 <= i < |t.items| && IsMessage(item) && IsMessage(t.items[i])
                     && t.items[i].id == item.id
      ensures item.Assistant? && t.items[i].Assistant?
    {
      AddedApart(run, t, page, item, i);
    }
    JoinApart(novel, t.items);
  }

  /** What is on screen and not known by its id, for a run with the invariant. */
  lemma UnknownIsLoose(run: seq<Action>, t: State, m: string)
    requires Inv(run, t) && (Users(run) + Prompts(run)) !! Assistants(run)
    ensures (exists item <- t.items :: IsMessage(item) && item.id == m && m !in t.seen) <==> Loose(run, m)
  {
    StreamedIsAssistant(run, m);
    if item :| item in t.items && IsMessage(item) && item.id == m && m !in t.seen {
      var i :| 0 <= i < |t.items| && t.items[i] == item;
      assert ItemOk(run, t.seen, t.items[i]);
    }
    if Loose(run, m) {
      var k := AssistantAt(t.items, m);
      assert t.items[k] in t.items;
    }
  }

  lemma {:induction false} StreamedIsAssistant(run: seq<Action>, m: string)
    ensures Streamed(run, m) ==> m in Assistants(run)
  {
    if run != [] {
      var before, a := run[..|run| - 1], run[|run| - 1];
      assert run == before + [a];
      NamesSnoc(before, a);
      StreamedIsAssistant(before, m);
    }
  }

  lemma PageLoose(run: seq<Action>, t: State, page: seq<Event>)
    requires Inv(run, t) && (Users(run) + Prompts(run)) !! Assistants(run)
    ensures Unrecognised(t, page) <==> !NoneLoose(run, page)
  {
    forall item | item in Fold(EMPTY, page).items && IsMessage(item)
      ensures Loose(run, item.id) <==>
              exists shown <- t.items :: IsMessage(shown) && item.id == shown.id && item.id !in t.seen
    {
      UnknownIsLoose(run, t, item.id);
    }
  }

  lemma RepeatsStay(a: seq<Item>, b: seq<Item>)
    requires !Distinct(b)
    ensures !Distinct(a + b)
  {
    var i, j :| 0 <= i < j < |b| && IsMessage(b[i]) && IsMessage(b[j]) && b[i].id == b[j].id;
    assert (a + b)[|a| + i] == b[i] && (a + b)[|a| + j] == b[j];
  }

  /** A page leaves no repeats exactly when there were none and it brings nothing loose. */
  lemma LoadDoubles(run: seq<Action>, t: State, page: seq<Event>)
    requires Inv(run, t) && (Users(run) + Prompts(run)) !! Assistants(run) && Entries(page)
    ensures Distinct(Prepend(t, page).items) <==> Clean(run) && NoneLoose(run, page)
  {
    PageLoose(run, t, page);
    if Distinct(t.items) {
      ReplayDoublesNothing(t, page);
    } else {
      RepeatsStay(FreshItems(Fold(EMPTY, page).items, t.seen), t.items);
    }
  }

  lemma LoadSeen(run: seq<Action>, t: State, page: seq<Event>, m: string)
    requires Inv(run, t) && m !in Users(run) + Prompts(run)
    ensures m in Prepend(t, page).seen <==> SettledIn(run + [Load(page)], m) || Brought(run + [Load(page)], m)
  {
    RunSnoc(run, Load(page), m);
  }

  lemma LoadStreamed(run: seq<Action>, t: State, page: seq<Event>, m: string)
    requires Inv(run, t)
    ensures Streamed(run + [Load(page)], m) ==> HasAssistant(Prepend(t, page).items, m)
  {
    RunSnoc(run, Load(page), m);
    if Streamed(run, m) {
      var k, novel := AssistantAt(t.items, m), FreshItems(Fold(EMPTY, page).items, t.seen);
      assert Prepend(t, page).items[|novel| + k] == t.items[k];
    }
  }

  lemma LoadKeeps(run: seq<Action>, t: State, page: seq<Event>)
    requires Proper(run + [Load(page)]) && Inv(run, t)
    ensures Inv(run + [Load(page)], Prepend(t, page))
  {
    var longer, u := run + [Load(page)], Prepend(t, page);
    ProperBefore(run, Load(page));
    NamesSnoc(run, Load(page));
    LoadItems(run, t, page);
    LoadApart(run, t, page);
    LoadDoubles(run, t, page);
    RunSnoc(run, Load(page), "");
    PageSeen(page);
    forall m | m !in Users(longer) + Prompts(longer)
      ensures m in u.seen <==> SettledIn(longer, m) || Brought(longer, m)
    {
      LoadSeen(run, t, page, m);
    }
    forall m | Streamed(longer, m) ensures HasAssistant(u.items, m) {
      LoadStreamed(run, t, page, m);
    }
  }

  lemma {:induction false} AlwaysInv(run: seq<Action>)
    requires Proper(run)
    ensures Inv(run, After(run))
  {
    if run == [] {
      assert Users(run) == Prompts(run) == Assistants(run) == {};
    } else {
      var before, a := run[..|run| - 1], run[|run| - 1];
      assert run == before + [a];
      ProperBefore(before, a);
      AlwaysInv(before);
      match a {
        case Receive(e) => ReceiveKeeps(before, After(before), e);
        case Load(page) => LoadKeeps(before, After(before), page);
        case Show(client, blocks) => ShowKeeps(before, After(before), client, blocks);
        case Take(client) => TakeKeeps(before, After(before), client);
      }
    }
  }

  // ----------------------------------------------------------------- theorems

  /** A run shows a message twice exactly when a page of it brings one that was on
      screen from its deltas alone. */
  lemma RunsAreDistinct(run: seq<Action>)
    requires Proper(run)
    ensures Distinct(After(run).items) <==> Clean(run)
  {
    AlwaysInv(run);
  }

  /** A message on screen is not known by its id exactly when it was streamed and
      neither settled nor brought by a page. */
  lemma UnknownIsStreamed(run: seq<Action>, m: string)
    requires Proper(run)
    ensures (exists item <- After(run).items :: IsMessage(item) && item.id == m && m !in After(run).seen)
       <==> Streamed(run, m) && !SettledIn(run, m) && !Brought(run, m)
  {
    AlwaysInv(run);
    UnknownIsLoose(run, After(run), m);
  }

  /** So a page loaded after a run, whatever pages were loaded in it, leaves one of
      each exactly when no page did otherwise and this one brings nothing loose. */
  lemma PageDoubles(run: seq<Action>, page: seq<Event>)
    requires Proper(run) && Entries(page)
    ensures Distinct(Prepend(After(run), page).items) <==> Clean(run) && NoneLoose(run, page)
  {
    AlwaysInv(run);
    LoadDoubles(run, After(run), page);
  }

  /** One delta of a message, and then a page with that message in it. */
  lemma DoubledByDelta()
    ensures var run := [Receive(TextDelta("m", 0, "x", ""))];
      var page := [AssistantMessage("m", [TextContent("x")], "")];
      && Proper(run) && Entries(page)
      && Prepend(After(run), page).items
         == [Assistant("m", [Text("x", true)], false), Assistant("m", [Text("x", false)], true)]
  {
    ProperDelta();
    AfterDelta("m", "x");
    FoldOne(EMPTY, AssistantMessage("m", [TextContent("x")], ""));
    FirstSettled("m", [TextContent("x")]);
    SettleOneText([TextContent("x")]);
    var shown, settled := Assistant("m", [Text("x", false)], true), Assistant("m", [Text("x", true)], false);
    assert FreshItems([settled], {}) == [settled] + FreshItems([settled][1..], {});
    assert [settled] + [shown] == [settled, shown];
  }

  lemma ProperDelta()
    ensures Proper([Receive(TextDelta("m", 0, "x", ""))])
  {
    var a := Receive(TextDelta("m", 0, "x", ""));
    NamesSnoc([], a);
    assert [] + [a] == [a];
  }

  lemma AfterDelta(id: string, text: string)
    ensures After([Receive(TextDelta(id, 0, text, ""))]) == State([Assistant(id, [Text(text, false)], true)], {})
  {
    var e := TextDelta(id, 0, text, "");
    RunSnoc([], Receive(e), id);
    assert [] + [Receive(e)] == [Receive(e)] && After([]) == EMPTY;
    FirstDelta(id, text);
  }

  lemma FirstSettled(id: string, raws: seq<ContentBlock>)
    ensures Apply(EMPTY, AssistantMessage(id, raws, "")) == State([Assistant(id, Settle([], raws), false)], {id})
  {
    var items := WithAssistant([], id, false, SettleItem(raws));
    assert items == [Assistant(id, Settle([], raws), false)];
    assert {} + {id} == {id};
  }

  lemma SettleOneText(raws: seq<ContentBlock>)
    requires raws == [TextContent("x")]
    ensures Settle([], raws) == [Text("x", true)]
  {
    assert ToUiBlock(raws[0]) == Some(Text("x", true)) by {
      assert "x" != "";
    }
    assert SettleOne([], 0, raws[0]) == [Text("x", true)];
    assert SettleFrom([Text("x", true)], 1, raws) == [Text("x", true)];
  }

  /** A prompt whose echo bears the id it went on screen under, and a page that has
      it under another: two items, each known by its own id. */
  lemma PromptTwice(client: string, id: string, blocks: seq<UserBlock>)
    requires client != "" && id != PromptID(client) && UserBlocks(blocks) != []
    ensures var run := [Show(client, blocks), Receive(UserMessage(PromptID(client), blocks, client, ""))];
      && Proper(run)
      && Prepend(After(run), [UserMessage(id, blocks, "", "")]).items
         == [User(id, UserBlocks(blocks), ""), User(PromptID(client), UserBlocks(blocks), "")]
  {
    ProperEcho(client, blocks);
    Echoed(client, blocks);
    StoredPage(id, blocks);
    var settled, stored := User(PromptID(client), UserBlocks(blocks), ""), User(id, UserBlocks(blocks), "");
    FreshOne(stored, {PromptID(client)});
    assert [stored] + [settled] == [stored, settled];
  }

  lemma StoredPage(id: string, blocks: seq<UserBlock>)
    requires UserBlocks(blocks) != []
    ensures Fold(EMPTY, [UserMessage(id, blocks, "", "")]).items == [User(id, UserBlocks(blocks), "")]
  {
    FoldOne(EMPTY, UserMessage(id, blocks, "", ""));
    assert EMPTY.items + [User(id, UserBlocks(blocks), "")] == [User(id, UserBlocks(blocks), "")];
  }

  lemma FreshOne(item: Item, seen: set<string>)
    requires IsMessage(item) && item.id !in seen
    ensures FreshItems([item], seen) == [item]
  {
    assert [item][1..] == [] && FreshItems([], seen) == [];
  }

  lemma Echoed(client: string, blocks: seq<UserBlock>)
    requires client != "" && UserBlocks(blocks) != []
    ensures var run := [Show(client, blocks), Receive(UserMessage(PromptID(client), blocks, client, ""))];
      After(run) == State([User(PromptID(client), UserBlocks(blocks), "")], {PromptID(client)})
  {
    var show, echo := Show(client, blocks), UserMessage(PromptID(client), blocks, client, "");
    assert [show] + [Receive(echo)] == [show, Receive(echo)] && [] + [show] == [show];
    RunSnoc([], show, "");
    RunSnoc([show], Receive(echo), "");
    EchoSettlesPrompt(EMPTY, client, blocks, PromptID(client), blocks, []);
    var settled := User(PromptID(client), UserBlocks(blocks), "");
    assert EMPTY.items + [settled] == [settled];
  }

  lemma ProperEcho(client: string, blocks: seq<UserBlock>)
    requires client != ""
    ensures Proper([Show(client, blocks), Receive(UserMessage(PromptID(client), blocks, client, ""))])
  {
    var show, echo := Show(client, blocks), UserMessage(PromptID(client), blocks, client, "");
    assert [show] + [Receive(echo)] == [show, Receive(echo)] && [] + [show] == [show];
    NamesSnoc([], show);
    NamesSnoc([show], Receive(echo));
  }
}
