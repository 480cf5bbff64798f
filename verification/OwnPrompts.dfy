/**
 A client that puts its own prompts on screen before they are echoed, and one that
 only watches. Each prompt waits at the end of its client's screen; the echo settles
 it there, under its local id, and adds it to the other screen under the id it comes
 with. Whatever the backend, the two show the same, prompts by either name, exactly
 when nothing comes on screen past a prompt that waits.
 */
module OwnPrompts {

  import opened Basics
  import opened PromptNames
  import opened Transcript
  import opened Trees
  import opened TranscriptRuns

  // ------------------------------------------------------------------- runs

  /** What a client shows that has no prompts of its own. */
  function Watched(run: seq<Action>): State {
    if run == [] then EMPTY
    else
      var before, a := Watched(run[..|run| - 1]), run[|run| - 1];
      if a.Receive? then Apply(before, a.event) else before
  }

  function Removed(queue: seq<string>, client: string): seq<string> {
    if queue == [] then [] else if queue[0] == client then queue[1..] else [queue[0]] + Removed(queue[1..], client)
  }

  /** The event echoes a prompt that waits. */
  predicate Echoes(queue: seq<string>, a: Action) {
    a.Receive? && a.event.UserMessage? && a.event.clientMessageID in queue
  }

  /** The prompts that wait for their echo, in the order they went on screen. */
  function Queue(run: seq<Action>): seq<string> {
    if run == [] then []
    else
      var before, a := Queue(run[..|run| - 1]), run[|run| - 1];
      if a.Show? then before + [a.client]
      else if Echoes(before, a) then Removed(before, a.event.clientMessageID)
      else before
  }

  /** The ids prompts were echoed with, by those they went on screen under. */
  function Names(run: seq<Action>): map<string, string> {
    if run == [] then map[]
    else
      var before, a := run[..|run| - 1], run[|run| - 1];
      if Echoes(Queue(before), a) then Names(before)[PromptID(a.event.clientMessageID) := a.event.messageID]
      else Names(before)
  }

  /** A prompt goes on screen once, under an id no message has had and none will
      have, unless its echo bears it; and an echo is a message of the conversation
      itself, under a new id. */
  ghost predicate Fair(before: seq<Action>, a: Action) {
    match a
    case Show(client, _) => client != "" && PromptID(client) !in Prompts(before) + Watched(before).seen
    case Receive(e) =>
      if Echoes(Queue(before), a) then
        && e.parent == "" && e.messageID !in Watched(before).seen
        && (e.messageID in Prompts(before) ==> e.messageID == PromptID(e.clientMessageID))
      else Apart(e, Prompts(before))
    case _ => false
  }

  /** The event brings no message under one of the ids. */
  predicate Apart(e: Event, own: set<string>) { e.UserMessage? || e.AssistantMessage? ==> e.messageID !in own }

  ghost predicate AllFair(run: seq<Action>) {
    run != [] ==> AllFair(run[..|run| - 1]) && Fair(run[..|run| - 1], run[|run| - 1])
  }

  /** While prompts wait, nothing new comes on a watcher's screen but the first of
      them, with something to see. */
  predicate Lands(queue: seq<string>, w: State, a: Action) {
    a.Receive? ==>
      if Echoes(queue, a) then queue[0] == a.event.clientMessageID && UserBlocks(a.event.blocks) != []
      else queue == [] || |Apply(w, a.event).items| == |w.items|
  }

  predicate AllLand(run: seq<Action>) {
    run == [] ||
      (var before := run[..|run| - 1];
       AllLand(before) && Lands(Queue(before), Watched(before), run[|run| - 1]))
  }

  // ---------------------------------------------- two lists that go together

  /** One list is the beginning of the other, users' items by other names; the rest
      of the longer one is users' items. */
  ghost predicate Alike(p: seq<Item>, q: seq<Item>, names: map<string, string>) {
    && |q| <= |p|
    && (forall i | 0 <= i < |q| :: q[i] == NamedItem(p[i], names))
    && (forall i | |q| <= i < |p| :: p[i].User?)
  }

  /** After the same change of both, they go together still. */
  ghost predicate Moved(p: seq<Item>, q: seq<Item>, after: seq<Item>, other: seq<Item>, names: map<string, string>) {
    && Alike(after, other, names) && |after| - |p| == |other| - |q| >= 0
    && forall i | |q| <= i < |p| :: after[i] == p[i]
  }

  lemma {:induction false} FindAlike(p: seq<Item>, q: seq<Item>, names: map<string, string>, id: string)
    requires Alike(p, q, names)
    ensures FindTool(p, id) == FindTool(q, id)
  {
    if p != [] {
      if q == [] {
        FindAlike(p[1..], [], names, id);
      } else {
        assert q[0] == NamedItem(p[0], names);
        FindAlike(p[1..], q[1..], names, id);
      }
    }
  }

  lemma {:induction false} EditUsers(p: seq<Item>, id: string, edit: Tool -> Tool)
    requires forall i | 0 <= i < |p| :: p[i].User?
    ensures EditTool(p, id, edit) == p
  {
    if p != [] {
      EditUsers(p[1..], id, edit);
    }
  }

  lemma HeadMoves(p: seq<Item>, q: seq<Item>, after: seq<Item>, other: seq<Item>, names: map<string, string>)
    requires Alike(p, q, names) && q != [] && |after| == |p| && |other| == |q| && other[0] == NamedItem(after[0], names)
    requires Moved(p[1..], q[1..], after[1..], other[1..], names)
    ensures Moved(p, q, after, other, names)
  {
    forall i | 0 <= i < |q| ensures other[i] == NamedItem(after[i], names) {
      assert i > 0 ==> other[i] == other[1..][i - 1] && after[i] == after[1..][i - 1];
    }
    forall i | |q| <= i < |p| ensures after[i] == p[i] && after[i].User? {
      assert after[i] == after[1..][i - 1] && p[i] == p[1..][i - 1];
    }
  }

  lemma SameMoves(p: seq<Item>, q: seq<Item>, names: map<string, string>)
    requires Alike(p, q, names)
    ensures Moved(p, q, p, q, names)
  {
  }

  lemma {:induction false} EditAlike(p: seq<Item>, q: seq<Item>, names: map<string, string>, id: string,
                                     edit: Tool -> Tool)
    requires Alike(p, q, names)
    ensures Moved(p, q, EditTool(p, id, edit), EditTool(q, id, edit), names)
  {
    if q == [] {
      EditUsers(p, id, edit);
    } else {
      assert q[0] == NamedItem(p[0], names);
      var after, other := EditTool(p, id, edit), EditTool(q, id, edit);
      if p[0].Assistant? && FindInParts(p[0].parts, id).Some? {
        SameMoves(p[1..], q[1..], names);
        assert after[1..] == p[1..] && other[1..] == q[1..];
      } else {
        EditAlike(p[1..], q[1..], names, id, edit);
        assert after[1..] == EditTool(p[1..], id, edit) && other[1..] == EditTool(q[1..], id, edit);
      }
      HeadMoves(p, q, after, other, names);
    }
  }

  lemma {:induction false} StopUsers(p: seq<Item>)
    requires forall i | 0 <= i < |p| :: p[i].User?
    ensures Stop(p) == p
  {
    if p != [] {
      StopUsers(p[1..]);
    }
  }

  lemma {:induction false} StopAlike(p: seq<Item>, q: seq<Item>, names: map<string, string>)
    requires Alike(p, q, names)
    ensures Moved(p, q, Stop(p), Stop(q), names)
  {
    if q == [] {
      StopUsers(p);
    } else {
      assert q[0] == NamedItem(p[0], names);
      StopAlike(p[1..], q[1..], names);
      assert Stop(p)[1..] == Stop(p[1..]) && Stop(q)[1..] == Stop(q[1..]);
      HeadMoves(p, q, Stop(p), Stop(q), names);
    }
  }

  lemma AtAlike(p: seq<Item>, q: seq<Item>, names: map<string, string>, m: string)
    requires Alike(p, q, names)
    ensures HasAssistant(p, m) <==> HasAssistant(q, m)
    ensures HasAssistant(q, m) ==> AssistantAt(p, m) == AssistantAt(q, m)
  {
    var i, j := AssistantAt(p, m), AssistantAt(q, m);
    if i < |p| {
      assert q[i] == NamedItem(p[i], names);
    }
    if j < |q| {
      assert q[j] == NamedItem(p[j], names);
    }
  }

  lemma WithAlike(p: seq<Item>, q: seq<Item>, names: map<string, string>, m: string, streaming: bool,
                  edit: Item -> Item)
    requires Alike(p, q, names) && (HasAssistant(q, m) || |p| == |q|)
    requires forall item: Item | item.Assistant? :: edit(item).Assistant?
    ensures Moved(p, q, WithAssistant(p, m, streaming, edit), WithAssistant(q, m, streaming, edit), names)
  {
    AtAlike(p, q, names, m);
  }

  lemma PushAlike(p: seq<Item>, q: seq<Item>, names: map<string, string>, item: Item)
    requires Alike(p, q, names) && |p| == |q| && NamedItem(item, names) == item
    ensures Moved(p, q, p + [item], q + [item], names)
  {
  }

  // --------------------------------------------------- one event, both screens

  /** What is seen on both sides, but for the prompts' own ids. */
  ghost predicate SeenAlike(seen: set<string>, other: set<string>, own: set<string>) {
    seen == other + own
  }

  ghost predicate Twins(t: State, u: State, names: map<string, string>, own: set<string>) {
    Alike(t.items, u.items, names) && SeenAlike(t.seen, u.seen, own)
  }

  /** No prompt of the client waits in the list. */
  predicate NoneOf(items: seq<Item>, client: string) {
    client == "" || LocalEcho(items, client) == |items|
  }

  ghost predicate Alone(e: Event, t: State, u: State, own: set<string>) {
    && Apart(e, own)
    && (e.UserMessage? ==> NoneOf(t.items, e.clientMessageID) && NoneOf(u.items, e.clientMessageID))
    && (|t.items| == |u.items| || |Apply(u, e).items| == |u.items|)
  }

  ghost predicate TwinsStay(t: State, u: State, e: Event, names: map<string, string>, own: set<string>) {
    && Moved(t.items, u.items, Apply(t, e).items, Apply(u, e).items, names)
    && SeenAlike(Apply(t, e).seen, Apply(u, e).seen, own)
  }

  lemma UserAlike(t: State, u: State, e: Event, names: map<string, string>, own: set<string>)
    requires Twins(t, u, names, own) && names.Keys <= own && Alone(e, t, u, own) && e.UserMessage?
    ensures TwinsStay(t, u, e, names, own)
  {
    FindAlike(t.items, u.items, names, e.parent);
    var item := User(e.messageID, UserBlocks(e.blocks), "");
    if e.parent == "" {
      if |t.items| == |u.items| {
        PushAlike(t.items, u.items, names, item);
      }
    } else if FindTool(u.items, e.parent).Some? {
      var list := FindTool(u.items, e.parent).value.children + [item];
      EditAlike(t.items, u.items, names, e.parent, (tool: Tool) => tool.(children := list));
    }
  }

  lemma MessageInside(t: State, u: State, e: Event, names: map<string, string>, own: set<string>)
    requires Twins(t, u, names, own) && Alone(e, t, u, own) && e.AssistantMessage? && e.parent != ""
    ensures TwinsStay(t, u, e, names, own)
  {
    FindAlike(t.items, u.items, names, e.parent);
    if FindTool(u.items, e.parent).Some? {
      var list := WithAssistant(FindTool(u.items, e.parent).value.children, e.messageID, false, SettleItem(e.content));
      EditAlike(t.items, u.items, names, e.parent, (tool: Tool) => tool.(children := list));
    }
  }

  lemma MessageAlike(t: State, u: State, e: Event, names: map<string, string>, own: set<string>)
    requires Twins(t, u, names, own) && Alone(e, t, u, own) && e.AssistantMessage?
    ensures TwinsStay(t, u, e, names, own)
  {
    if e.parent != "" {
      MessageInside(t, u, e, names, own);
    } else {
      AtAlike(t.items, u.items, names, e.messageID);
      SettleOutside(t, e);
      SettleOutside(u, e);
      if e.messageID !in u.seen || HasAssistant(u.items, e.messageID) {
        WithAlike(t.items, u.items, names, e.messageID, false, SettleItem(e.content));
      }
    }
  }

  lemma StreamInsideAlike(t: State, u: State, e: Event, names: map<string, string>, own: set<string>)
    requires Twins(t, u, names, own) && IsStream(e) && e.parent != ""
    ensures TwinsStay(t, u, e, names, own)
  {
    FindAlike(t.items, u.items, names, e.parent);
    FindAlike(t.items, u.items, names, if e.ToolUseStart? then e.toolUseID else "");
    if FindTool(u.items, e.parent).Some? {
      var list := WithAssistant(FindTool(u.items, e.parent).value.children, e.messageID, true, StreamItem(e));
      EditAlike(t.items, u.items, names, e.parent, (tool: Tool) => tool.(children := list));
    }
  }

  lemma StreamAlike(t: State, u: State, e: Event, names: map<string, string>, own: set<string>)
    requires Twins(t, u, names, own) && Alone(e, t, u, own) && IsStream(e)
    ensures TwinsStay(t, u, e, names, own)
  {
    if e.parent != "" {
      StreamInsideAlike(t, u, e, names, own);
    } else {
      FindAlike(t.items, u.items, names, if e.ToolUseStart? then e.toolUseID else "");
      if Streams(u, e, e.messageID) {
        StreamOutside(t, e);
        StreamOutside(u, e);
        WithAlike(t.items, u.items, names, e.messageID, true, StreamItem(e));
      } else {
        StreamIgnored(t, e);
        StreamIgnored(u, e);
      }
    }
  }

  lemma ToolAlike(t: State, u: State, e: Event, id: string, names: map<string, string>, own: set<string>)
    requires Twins(t, u, names, own)
    requires Apply(t, e) == t.(items := EditTool(t.items, id, EditByEvent(e)))
    requires Apply(u, e) == u.(items := EditTool(u.items, id, EditByEvent(e)))
    ensures TwinsStay(t, u, e, names, own)
  {
    EditAlike(t.items, u.items, names, id, EditByEvent(e));
  }

  lemma EventAlike(t: State, u: State, e: Event, names: map<string, string>, own: set<string>)
    requires Twins(t, u, names, own) && names.Keys <= own && Alone(e, t, u, own)
    ensures TwinsStay(t, u, e, names, own)
  {
    match e {
      case UserMessage(_, _, _, _) => UserAlike(t, u, e, names, own);
      case AssistantMessage(_, _, _) => MessageAlike(t, u, e, names, own);
      case TextDelta(_, _, _, _) | ThinkingDelta(_, _, _, _) | ToolUseStart(_, _, _, _, _, _) =>
        StreamAlike(t, u, e, names, own);
      case ToolInputDelta(id, _) => ToolAlike(t, u, e, id, names, own);
      case ToolUseEnd(id, _) => ToolAlike(t, u, e, id, names, own);
      case ToolOutputDelta(id, _) => ToolAlike(t, u, e, id, names, own);
      case ToolResult(id, _) => ToolAlike(t, u, e, id, names, own);
      case TurnFinished => StopAlike(t.items, u.items, names);
      case OtherEvent =>
      case ContextBoundary(tokens) => PushAlike(t.items, u.items, names, Note("", tokens, true, ""));
      case Notice(message) => PushAlike(t.items, u.items, names, Note(message, None, false, ""));
      case BackgroundTaskFinished(summary, status) =>
        PushAlike(t.items, u.items, names, Note(summary, None, false, status));
      case StreamError(code, message, fatal) => PushAlike(t.items, u.items, names, Alert(code, message, fatal));
    }
  }

  // -------------------------------------------------------- what a run leaves

  lemma RunGrows(run: seq<Action>, a: Action)
    ensures After(run + [a]) == Act(After(run), a)
    ensures Watched(run + [a]) == if a.Receive? then Apply(Watched(run), a.event) else Watched(run)
    ensures Queue(run + [a]) == if a.Show? then Queue(run) + [a.client]
                                else if Echoes(Queue(run), a) then Removed(Queue(run), a.event.clientMessageID)
                                else Queue(run)
    ensures Names(run + [a]) == if Echoes(Queue(run), a)
                                then Names(run)[PromptID(a.event.clientMessageID) := a.event.messageID]
                                else Names(run)
    ensures Prompts(run + [a]) == Prompts(run) + if a.Show? then {PromptID(a.client)} else {}
    ensures AllFair(run + [a]) <==> AllFair(run) && Fair(run, a)
    ensures AllLand(run + [a]) <==> AllLand(run) && Lands(Queue(run), Watched(run), a)
  {
    assert (run + [a])[..|run|] == run;
  }

  lemma PromptsDiffer(c: string, d: string)
    ensures PromptID(c) == PromptID(d) <==> c == d
  {
    assert PromptID(c)[7..] == c && PromptID(d)[7..] == d;
  }

  function Received(events: seq<Event>): seq<Action> {
    if events == [] then [] else Received(events[..|events| - 1]) + [Receive(events[|events| - 1])]
  }

  lemma ReceivedGrows(run: seq<Action>, before: seq<Event>, e: Event)
    ensures run + Received(before + [e]) == run + Received(before) + [Receive(e)]
  {
    assert (before + [e])[..|before|] == before;
  }

  lemma {:induction false} WatchedMore(run: seq<Action>, events: seq<Event>)
    ensures Watched(run + Received(events)) == Fold(Watched(run), events)
  {
    if events == [] {
      assert run + [] == run;
    } else {
      var before, e := events[..|events| - 1], events[|events| - 1];
      assert events == before + [e];
      WatchedMore(run, before);
      ReceivedGrows(run, before, e);
      RunGrows(run + Received(before), Receive(e));
    }
  }

  ghost predicate Once(queue: seq<string>) { forall i, j | 0 <= i < j < |queue| :: queue[i] != queue[j] }

  lemma {:induction false} Removal(queue: seq<string>, c: string)
    requires Once(queue) && c in queue
    ensures Once(Removed(queue, c)) && forall x :: x in Removed(queue, c) <==> x in queue && x != c
  {
    if queue[0] == c {
      assert queue == [c] + queue[1..];
      assert c !in queue[1..];
    } else {
      assert queue == [queue[0]] + queue[1..] && queue[0] !in queue[1..];
      Removal(queue[1..], c);
    }
  }

  /** What a watcher shows and knows. */
  ghost predicate Plain(w: State) {
    forall i | 0 <= i < |w.items| && w.items[i].User? :: w.items[i].clientMessageID == "" && w.items[i].id in w.seen
  }

  /** Of the prompts shown, some wait and the others have names, known to the watcher. */
  ghost predicate Tracks(queue: seq<string>, names: map<string, string>, shown: set<string>, w: State) {
    && Once(queue) && "" !in queue
    && (forall c <- queue :: PromptID(c) in shown && PromptID(c) !in names && PromptID(c) !in w.seen)
    && (forall id <- shown :: id in names || exists c <- queue :: PromptID(c) == id)
    && (forall id <- names :: id in shown && names[id] in w.seen && (id in w.seen ==> names[id] == id))
  }

  lemma PlainStays(w: State, e: Event)
    requires Plain(w)
    ensures Plain(Apply(w, e))
  {
    var more := EventTop(w, e);
    EventSeen(w, e);
    PlainItems(w, Apply(w, e), e, more);
  }

  lemma PlainItems(w: State, u: State, e: Event, more: seq<Item>)
    requires Plain(w) && Top(w.items, u.items, more) && Novel(w, e, more) && w.seen <= u.seen
    requires e.UserMessage? ==> e.messageID in u.seen
    ensures forall i | 0 <= i < |u.items| && u.items[i].User? ::
              u.items[i].clientMessageID == "" && u.items[i].id in u.seen
  {
    forall i | 0 <= i < |u.items| && u.items[i].User?
      ensures u.items[i].clientMessageID == "" && u.items[i].id in u.seen
    {
      if i < |w.items| {
        assert SameMessage(u.items[i], w.items[i]);
      } else {
        assert u.items[i] == u.items[|w.items|..][i - |w.items|];
        assert u.items[i] in more;
      }
    }
  }

  lemma ShowTracks(queue: seq<string>, names: map<string, string>, shown: set<string>, w: State, c: string)
    requires Tracks(queue, names, shown, w) && c != "" && PromptID(c) !in shown + w.seen
    ensures Tracks(queue + [c], names, shown + {PromptID(c)}, w)
  {
    PromptsDiffer(c, c);
    forall id | id in shown + {PromptID(c)}
      ensures id in names || exists d <- queue + [c] :: PromptID(d) == id
    {
      if id == PromptID(c) {
        assert c in queue + [c];
      } else if id !in names {
        var d :| d in queue && PromptID(d) == id;
        assert d in queue + [c];
      }
    }
  }

  lemma EchoTracks(queue: seq<string>, names: map<string, string>, shown: set<string>, w: State, u: State, c: string,
                   id: string)
    requires Tracks(queue, names, shown, w) && c in queue && u.seen == w.seen + {id} && id !in w.seen
    requires id in shown ==> id == PromptID(c)
    ensures Tracks(Removed(queue, c), names[PromptID(c) := id], shown, u)
  {
    var left, named := Removed(queue, c), names[PromptID(c) := id];
    Removal(queue, c);
    forall d | d in left ensures PromptID(d) in shown && PromptID(d) !in named && PromptID(d) !in u.seen {
      PromptsDiffer(c, d);
    }
    forall other | other in shown
      ensures other in named || exists d <- left :: PromptID(d) == other
    {
      if other !in named {
        var d :| d in queue && PromptID(d) == other;
        assert d in left;
      }
    }
  }

  lemma OtherTracks(queue: seq<string>, names: map<string, string>, shown: set<string>, w: State, e: Event)
    requires Tracks(queue, names, shown, w) && Apart(e, shown)
    ensures Tracks(queue, names, shown, Apply(w, e))
  {
    EventSeen(w, e);
  }

  lemma {:induction false} AlwaysTracks(run: seq<Action>)
    requires AllFair(run)
    ensures Plain(Watched(run)) && Tracks(Queue(run), Names(run), Prompts(run), Watched(run))
  {
    if run != [] {
      var before, a := run[..|run| - 1], run[|run| - 1];
      assert run == before + [a];
      RunGrows(before, a);
      AlwaysTracks(before);
      var queue, names, shown, w := Queue(before), Names(before), Prompts(before), Watched(before);
      if a.Show? {
        ShowTracks(queue, names, shown, w, a.client);
      } else {
        PlainStays(w, a.event);
        if Echoes(queue, a) {
          EventSeen(w, a.event);
          EchoTracks(queue, names, shown, w, Apply(w, a.event), a.event.clientMessageID, a.event.messageID);
        } else {
          OtherTracks(queue, names, shown, w, a.event);
        }
      }
    }
  }

  // --------------------------------------------------------- while steps land

  predicate WaitsFor(item: Item, client: string) {
    item.User? && item.id == PromptID(client) && item.clientMessageID == client
  }

  /** The end of a list: prompts that wait, in their order. */
  ghost predicate Waits(items: seq<Item>, n: nat, queue: seq<string>) {
    |items| == n + |queue| && forall j | 0 <= j < |queue| :: WaitsFor(items[n + j], queue[j])
  }

  ghost predicate Synced(t: State, w: State, queue: seq<string>, names: map<string, string>, shown: set<string>) {
    Twins(t, w, names, shown) && Waits(t.items, |w.items|, queue)
  }

  lemma ShowSynced(t: State, w: State, queue: seq<string>, names: map<string, string>, shown: set<string>, c: string,
                   blocks: seq<UserBlock>)
    requires Synced(t, w, queue, names, shown)
    ensures Synced(LocalPrompt(t, c, blocks), w, queue + [c], names, shown + {PromptID(c)})
  {
    PromptsDiffer(c, c);
    var items := LocalPrompt(t, c, blocks).items;
    forall j | 0 <= j < |queue + [c]|
      ensures WaitsFor(items[|w.items| + j], (queue + [c])[j])
    {
      if j < |queue| {
        assert WaitsFor(t.items[|w.items| + j], queue[j]);
      }
    }
  }

  /** A client whose prompt does not wait has none on either screen. */
  lemma NoneWaits(t: State, w: State, queue: seq<string>, names: map<string, string>, shown: set<string>, c: string)
    requires Synced(t, w, queue, names, shown) && Plain(w) && c !in queue
    ensures NoneOf(t.items, c) && NoneOf(w.items, c)
  {
    var n := |w.items|;
    forall i | 0 <= i < |t.items| && t.items[i].User? && c != "" ensures t.items[i].clientMessageID != c {
      if i < n {
        assert w.items[i] == NamedItem(t.items[i], names);
      } else {
        assert WaitsFor(t.items[n + (i - n)], queue[i - n]);
      }
    }
  }

  lemma OtherSynced(t: State, w: State, queue: seq<string>, names: map<string, string>, shown: set<string>, e: Event)
    requires Synced(t, w, queue, names, shown) && Tracks(queue, names, shown, w) && Plain(w)
    requires Apart(e, shown)
    requires !Echoes(queue, Receive(e)) && Lands(queue, w, Receive(e))
    ensures Synced(Apply(t, e), Apply(w, e), queue, names, shown)
  {
    if e.UserMessage? {
      NoneWaits(t, w, queue, names, shown, e.clientMessageID);
    }
    EventAlike(t, w, e, names, shown);
  }

  /** Where the echo finds its prompt. */
  lemma EchoFinds(t: State, w: State, queue: seq<string>, names: map<string, string>, shown: set<string>)
    requires Synced(t, w, queue, names, shown) && Plain(w) && Once(queue) && queue != [] && "" !in queue
    ensures LocalEcho(t.items, queue[0]) == |w.items|
  {
    var n := |w.items|;
    assert WaitsFor(t.items[n + 0], queue[0]);
    forall i | 0 <= i < |t.items| && i != n && t.items[i].User? ensures t.items[i].clientMessageID != queue[0] {
      if i < n {
        assert w.items[i] == NamedItem(t.items[i], names);
      } else {
        assert WaitsFor(t.items[n + (i - n)], queue[i - n]);
      }
    }
  }

  lemma EchoAlike(p: seq<Item>, w: State, names: map<string, string>, c: string, id: string, blocks: seq<UserBlock>)
    requires Alike(p, w.items, names) && Plain(w) && |w.items| < |p|
    requires PromptID(c) !in names && PromptID(c) !in w.seen
    ensures Alike(p[|w.items| := User(PromptID(c), blocks, "")], w.items + [User(id, blocks, "")],
                  names[PromptID(c) := id])
  {
    var named := names[PromptID(c) := id];
    PromptsDiffer(c, c);
    forall i | 0 <= i < |w.items| ensures w.items[i] == NamedItem(p[i], named) {
      assert w.items[i] == NamedItem(p[i], names);
    }
  }

  lemma WaitsOn(items: seq<Item>, n: nat, queue: seq<string>, settled: Item)
    requires Waits(items, n, queue) && queue != []
    ensures Waits(items[n := settled], n + 1, queue[1..])
  {
    var after := items[n := settled];
    forall j | 0 <= j < |queue[1..]| ensures WaitsFor(after[n + 1 + j], queue[1..][j]) {
      assert WaitsFor(items[n + (j + 1)], queue[j + 1]);
    }
  }

  lemma EchoSynced(t: State, w: State, queue: seq<string>, names: map<string, string>, shown: set<string>, e: Event)
    requires Synced(t, w, queue, names, shown) && Tracks(queue, names, shown, w) && Plain(w)
    requires Echoes(queue, Receive(e)) && Lands(queue, w, Receive(e))
    requires e.parent == "" && e.messageID !in w.seen
    ensures Synced(Apply(t, e), Apply(w, e), queue[1..], names[PromptID(queue[0]) := e.messageID], shown)
  {
    var c, n, settled := queue[0], |w.items|, User(PromptID(queue[0]), UserBlocks(e.blocks), "");
    EchoFinds(t, w, queue, names, shown);
    assert WaitsFor(t.items[n + 0], queue[0]);
    OwnEcho(t, e, c, n);
    OtherEcho(w, e);
    EchoAlike(t.items, w, names, c, e.messageID, UserBlocks(e.blocks));
    WaitsOn(t.items, n, queue, settled);
  }

  lemma OwnEcho(t: State, e: Event, c: string, n: nat)
    requires e.UserMessage? && c != "" && c == e.clientMessageID && UserBlocks(e.blocks) != []
    requires LocalEcho(t.items, c) == n < |t.items| && t.items[n].id == PromptID(c)
    ensures Apply(t, e) == State(t.items[n := User(PromptID(c), UserBlocks(e.blocks), "")], t.seen + {e.messageID})
  {
  }

  lemma OtherEcho(w: State, e: Event)
    requires e.UserMessage? && e.parent == "" && UserBlocks(e.blocks) != [] && e.messageID !in w.seen && Plain(w)
    requires e.clientMessageID != ""
    ensures Apply(w, e) == State(w.items + [User(e.messageID, UserBlocks(e.blocks), "")], w.seen + {e.messageID})
  {
    assert LocalEcho(w.items, e.clientMessageID) == |w.items|;
  }

  lemma {:induction false} AlwaysSynced(run: seq<Action>)
    requires AllFair(run) && AllLand(run)
    ensures Synced(After(run), Watched(run), Queue(run), Names(run), Prompts(run))
  {
    if run != [] {
      var before, a := run[..|run| - 1], run[|run| - 1];
      assert run == before + [a];
      RunGrows(before, a);
      AlwaysSynced(before);
      AlwaysTracks(before);
      var t, w, queue, names, shown := After(before), Watched(before), Queue(before), Names(before), Prompts(before);
      if a.Show? {
        ShowSynced(t, w, queue, names, shown, a.client, a.blocks);
      } else if Echoes(queue, a) {
        EchoSynced(t, w, queue, names, shown, a.event);
      } else {
        OtherSynced(t, w, queue, names, shown, a.event);
      }
    }
  }

  lemma SyncedIsNamed(t: State, w: State, names: map<string, string>, shown: set<string>)
    requires Synced(t, w, [], names, shown) && Tracks([], names, shown, w) && Plain(w)
    ensures Named(t, names) == w
  {
    assert NamedItems(t.items, names) == w.items;
    forall id | id in t.seen ensures NameOf(id, names) in w.seen {
    }
    forall id | id in w.seen ensures id in t.seen && NameOf(id, names) == id {
    }
  }

  // ------------------------------------------------------ once one does not

  /** At `at` stands a prompt of the client's own, whatever its state. */
  predicate OwnAt(items: seq<Item>, at: nat, c: string) {
    at < |items| && items[at].User? && items[at].id == PromptID(c)
  }

  /** Where one screen has the prompt, the other has something else. */
  ghost predicate Overtaken(t: State, w: State, names: map<string, string>, at: nat, c: string) {
    && OwnAt(t.items, at, c) && at < |w.items|
    && (w.items[at].User? ==> w.items[at].id in w.seen)
    && (w.items[at].User? && PromptID(c) in names ==> names[PromptID(c)] != w.items[at].id)
  }

  /** The prompt is on one screen, and nowhere on the other. */
  ghost predicate Missing(t: State, w: State, names: map<string, string>, at: nat, c: string) {
    && OwnAt(t.items, at, c) && PromptID(c) in names && names[PromptID(c)] in w.seen
    && forall i | 0 <= i < |w.items| && w.items[i].User? :: w.items[i].id != names[PromptID(c)]
  }

  lemma OwnStays(t: State, a: Action, at: nat, c: string)
    requires OwnAt(t.items, at, c) && (a.Show? || a.Receive?)
    ensures OwnAt(Act(t, a).items, at, c)
  {
    if a.Receive? {
      var more := EventTop(t, a.event);
      assert SameMessage(Act(t, a).items[at], t.items[at]);
    }
  }

  lemma OtherStays(w: State, e: Event, at: nat)
    requires at < |w.items|
    ensures at < |Apply(w, e).items| && SameMessage(Apply(w, e).items[at], w.items[at]) && w.seen <= Apply(w, e).seen
  {
    var more := EventTop(w, e);
    EventSeen(w, e);
  }

  lemma NoneAdded(w: State, e: Event, id: string)
    requires id in w.seen && forall i | 0 <= i < |w.items| && w.items[i].User? :: w.items[i].id != id
    ensures forall i | 0 <= i < |Apply(w, e).items| && Apply(w, e).items[i].User? :: Apply(w, e).items[i].id != id
    ensures w.seen <= Apply(w, e).seen
  {
    var more := EventTop(w, e);
    EventSeen(w, e);
    NoneAmong(w, e, Apply(w, e).items, more, id);
  }

  lemma NoneAmong(w: State, e: Event, items: seq<Item>, more: seq<Item>, id: string)
    requires id in w.seen && Top(w.items, items, more) && Novel(w, e, more)
    requires forall i | 0 <= i < |w.items| && w.items[i].User? :: w.items[i].id != id
    ensures forall i | 0 <= i < |items| && items[i].User? :: items[i].id != id
  {
    forall i | 0 <= i < |items| && items[i].User? ensures items[i].id != id {
      if i < |w.items| {
        assert SameMessage(items[i], w.items[i]);
      } else {
        assert items[i] == items[|w.items|..][i - |w.items|];
        assert items[i] in more;
      }
    }
  }

  lemma OvertakenStays(run: seq<Action>, a: Action, at: nat, c: string)
    requires AllFair(run + [a]) && Overtaken(After(run), Watched(run), Names(run), at, c)
    ensures Overtaken(After(run + [a]), Watched(run + [a]), Names(run + [a]), at, c)
  {
    RunGrows(run, a);
    OwnStays(After(run), a, at, c);
    if a.Receive? {
      OtherStays(Watched(run), a.event, at);
      if Echoes(Queue(run), a) {
        PromptsDiffer(c, a.event.clientMessageID);
      }
    }
  }

  lemma MissingStays(run: seq<Action>, a: Action, at: nat, c: string)
    requires AllFair(run + [a]) && Missing(After(run), Watched(run), Names(run), at, c)
    ensures Missing(After(run + [a]), Watched(run + [a]), Names(run + [a]), at, c)
  {
    RunGrows(run, a);
    AlwaysTracks(run);
    OwnStays(After(run), a, at, c);
    if a.Receive? {
      NoneAdded(Watched(run), a.event, Names(run)[PromptID(c)]);
      if Echoes(Queue(run), a) {
        PromptsDiffer(c, a.event.clientMessageID);
      }
    }
  }

  /** Something new comes on screen where a prompt waits. */
  lemma NewComes(t: State, w: State, queue: seq<string>, names: map<string, string>, shown: set<string>, e: Event)
    requires Synced(t, w, queue, names, shown) && Tracks(queue, names, shown, w) && queue != []
    requires |Apply(w, e).items| != |w.items|
    ensures Overtaken(Apply(t, e), Apply(w, e), names, |w.items|, queue[0])
  {
    var more := EventTop(w, e);
    EventSeen(w, e);
    assert WaitsFor(t.items[|w.items| + 0], queue[0]);
    OwnStays(t, Receive(e), |w.items|, queue[0]);
    assert Apply(w, e).items[|w.items|] == Apply(w, e).items[|w.items|..][0];
  }

  /** Another prompt is echoed than the one that waits first. */
  lemma OtherComes(t: State, w: State, queue: seq<string>, names: map<string, string>, shown: set<string>, e: Event)
    requires Synced(t, w, queue, names, shown) && Tracks(queue, names, shown, w) && Plain(w)
    requires Echoes(queue, Receive(e)) && e.parent == "" && e.messageID !in w.seen
    requires queue[0] != e.clientMessageID && UserBlocks(e.blocks) != []
    ensures Overtaken(Apply(t, e), Apply(w, e), names[PromptID(e.clientMessageID) := e.messageID], |w.items|, queue[0])
  {
    OtherEcho(w, e);
    PromptsDiffer(queue[0], e.clientMessageID);
    NewComes(t, w, queue, names, shown, e);
  }

  /** A prompt is echoed with nothing to see. */
  lemma NothingComes(t: State, w: State, queue: seq<string>, names: map<string, string>, shown: set<string>, e: Event)
    returns (at: nat)
    requires Synced(t, w, queue, names, shown) && Tracks(queue, names, shown, w) && Plain(w)
    requires Echoes(queue, Receive(e)) && e.parent == "" && e.messageID !in w.seen && UserBlocks(e.blocks) == []
    ensures Missing(Apply(t, e), Apply(w, e), names[PromptID(e.clientMessageID) := e.messageID], at, e.clientMessageID)
  {
    var c := e.clientMessageID;
    var j :| 0 <= j < |queue| && queue[j] == c;
    at := |w.items| + j;
    assert WaitsFor(t.items[at], queue[j]);
    OwnStays(t, Receive(e), at, c);
    assert LocalEcho(w.items, c) == |w.items|;
  }

  /** After a step that does not land, a prompt stands where the watcher has it not. */
  lemma {:induction false} OutOfStep(run: seq<Action>) returns (at: nat, c: string)
    requires AllFair(run) && !AllLand(run)
    ensures Overtaken(After(run), Watched(run), Names(run), at, c)
            || Missing(After(run), Watched(run), Names(run), at, c)
    ensures PromptID(c) in Prompts(run)
  {
    var before, a := run[..|run| - 1], run[|run| - 1];
    assert run == before + [a];
    RunGrows(before, a);
    if !AllLand(before) {
      at, c := OutOfStep(before);
      if Overtaken(After(before), Watched(before), Names(before), at, c) {
        OvertakenStays(before, a, at, c);
      } else {
        MissingStays(before, a, at, c);
      }
    } else {
      at, c := Misses(before, a);
    }
  }

  /** The first step that does not land. */
  lemma Misses(run: seq<Action>, a: Action) returns (at: nat, c: string)
    requires AllFair(run + [a]) && AllLand(run) && !AllLand(run + [a])
    ensures var longer := run + [a];
      Overtaken(After(longer), Watched(longer), Names(longer), at, c)
      || Missing(After(longer), Watched(longer), Names(longer), at, c)
    ensures PromptID(c) in Prompts(run)
  {
    RunGrows(run, a);
    AlwaysSynced(run);
    AlwaysTracks(run);
    var t, w, queue, names, shown := After(run), Watched(run), Queue(run), Names(run), Prompts(run);
    if !Echoes(queue, a) {
      NewComes(t, w, queue, names, shown, a.event);
      at, c := |w.items|, queue[0];
    } else if UserBlocks(a.event.blocks) == [] {
      at := NothingComes(t, w, queue, names, shown, a.event);
      c := a.event.clientMessageID;
    } else {
      OtherComes(t, w, queue, names, shown, a.event);
      at, c := |w.items|, queue[0];
    }
  }

  lemma ShownDiffers(t: State, w: State, names: map<string, string>, at: nat, c: string)
    requires Overtaken(t, w, names, at, c) || Missing(t, w, names, at, c)
    requires PromptID(c) in names
    ensures Named(t, names) != w
  {
    assert NamedItems(t.items, names)[at] == NamedItem(t.items[at], names);
  }

  // ---------------------------------------------------------------- theorem

  /** With every prompt echoed, its client shows what a watcher shows, prompts by the
      names they were echoed under, exactly when every step landed. */
  lemma SenderShowsWatched(run: seq<Action>)
    requires AllFair(run) && Queue(run) == []
    ensures Named(After(run), Names(run)) == Watched(run) <==> AllLand(run)
  {
    AlwaysTracks(run);
    if AllLand(run) {
      AlwaysSynced(run);
      SyncedIsNamed(After(run), Watched(run), Names(run), Prompts(run));
    } else {
      var at, c := OutOfStep(run);
      ShownDiffers(After(run), Watched(run), Names(run), at, c);
    }
  }

  /** A notice that comes before the echo stands after the prompt where the prompt is
      the client's own, and before it elsewhere. */
  lemma NoticeOvertakes(client: string, id: string, text: string, message: string)
    requires client != "" && text != ""
    ensures var blocks := [UserText(text)];
      var run := [Show(client, blocks), Receive(Notice(message)), Receive(UserMessage(id, blocks, client, ""))];
      AllFair(run) && Queue(run) == [] && !AllLand(run)
  {
    var blocks := [UserText(text)];
    var before, echo := [Show(client, blocks), Receive(Notice(message))], Receive(UserMessage(id, blocks, client, ""));
    NoticeFirst(client, blocks, message);
    RunGrows(before, echo);
    assert before + [echo] == [Show(client, blocks), Receive(Notice(message)), echo];
  }

  lemma ShownFirst(client: string, blocks: seq<UserBlock>)
    requires client != ""
    ensures var run := [Show(client, blocks)];
      AllFair(run) && AllLand(run) && Queue(run) == [client] && Watched(run) == EMPTY
  {
    RunGrows([], Show(client, blocks));
    assert [] + [Show(client, blocks)] == [Show(client, blocks)];
  }

  lemma NoticeFirst(client: string, blocks: seq<UserBlock>, message: string)
    requires client != ""
    ensures var run := [Show(client, blocks), Receive(Notice(message))];
      AllFair(run) && Queue(run) == [client] && !AllLand(run) && Watched(run).seen == {}
  {
    var before, notice := [Show(client, blocks)], Receive(Notice(message));
    ShownFirst(client, blocks);
    RunGrows(before, notice);
    assert before + [notice] == [Show(client, blocks), notice];
  }
}
