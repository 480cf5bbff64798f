/**
 Replayed history: prepending pages of it is the same as folding it whole, and a
 page repeats nothing the transcript has folded in.
 */
module Paging {
  import opened Basics
  import opened Transcript
  import opened Trees

  // --------------------------------------------------- trees side by side

  lemma AssistantAppend(p: seq<Item>, q: seq<Item>, messageID: string)
    requires !HasAssistant(p, messageID)
    ensures AssistantAt(p + q, messageID) == |p| + AssistantAt(q, messageID)
  {
    var k := AssistantAt(q, messageID);
    if k < |q| {
      assert (p + q)[|p| + k] == q[k];
    }
  }

  lemma WithAssistantAppend(p: seq<Item>, q: seq<Item>, messageID: string, streaming: bool, edit: Item -> Item)
    requires !HasAssistant(p, messageID)
    ensures WithAssistant(p + q, messageID, streaming, edit) == p + WithAssistant(q, messageID, streaming, edit)
  {
    AssistantAppend(p, q, messageID);
  }

  /** An edit of a tool leaves every item what it was, up to an assistant's parts. */
  predicate SameButParts(a: Item, b: Item) {
    a == b || (a.Assistant? && b.Assistant? && a.id == b.id && a.streaming == b.streaming)
  }

  lemma {:induction false} EditKeepsItems(items: seq<Item>, id: string, edit: Tool -> Tool)
    ensures forall i | 0 <= i < |items| :: SameButParts(EditTool(items, id, edit)[i], items[i])
  {
    if items != [] {
      var r := EditTool(items, id, edit);
      if items[0].Assistant? && FindInParts(items[0].parts, id).Some? {
        forall i | 0 <= i < |items| ensures SameButParts(r[i], items[i]) {
          assert r[i] == if i == 0 then items[0].(parts := EditInParts(items[0].parts, id, edit)) else items[i];
        }
      } else {
        EditKeepsItems(items[1..], id, edit);
        forall i | 0 <= i < |items| ensures SameButParts(r[i], items[i]) {
          if i > 0 {
            assert SameButParts(EditTool(items[1..], id, edit)[i - 1], items[1..][i - 1]);
          }
        }
      }
    }
  }

  // ------------------------------------------------- what a page leaves behind

  ghost predicate Entries(page: seq<Event>) { forall e <- page :: Entry(e) }

  /** Every message on screen is known by id, and none awaits an echo. */
  ghost predicate Known(t: State) {
    forall i | 0 <= i < |t.items| && IsMessage(t.items[i]) ::
      t.items[i].id in t.seen && (t.items[i].User? ==> t.items[i].clientMessageID == "")
  }

  ghost predicate Distinct(items: seq<Item>) {
    forall i, j | 0 <= i < j < |items| && IsMessage(items[i]) && IsMessage(items[j]) :: items[i].id != items[j].id
  }

  ghost predicate Noteless(items: seq<Item>) {
    forall i | 0 <= i < |items| :: !items[i].Note?
  }

  predicate LeavesNote(e: Event) { e.ContextBoundary? || e.BackgroundTaskFinished? }

  /** What folding one entry keeps, whatever the entry. */
  ghost predicate EntryKeeps(t: State, after: State, e: Event) {
    && Known(after) && Distinct(after.items)
    && (Noteless(after.items) <==> Noteless(t.items) && !LeavesNote(e))
    && (forall i | 0 <= i < |after.items| :: after.items[i].Alert? ==> i < |t.items| && t.items[i].Alert?)
    && (forall id <- after.seen :: id in t.seen || ((e.UserMessage? || e.AssistantMessage?) && e.messageID == id))
  }

  /** The items keep their kinds, ids and claims: an edit inside a tool. */
  ghost predicate SameItems(items: seq<Item>, after: seq<Item>) {
    && |items| == |after|
    && (forall i | 0 <= i < |items| ::
          after[i] == items[i] || (after[i].Assistant? && items[i].Assistant? && after[i].id == items[i].id))
  }

  lemma SameItemsKeep(t: State, after: State, e: Event)
    requires Known(t) && Distinct(t.items) && !LeavesNote(e)
    requires SameItems(t.items, after.items) && t.seen <= after.seen
    requires forall id <- after.seen :: id in t.seen || ((e.UserMessage? || e.AssistantMessage?) && e.messageID == id)
    ensures EntryKeeps(t, after, e)
  {
    if Noteless(after.items) {
      forall i | 0 <= i < |t.items| ensures !t.items[i].Note? {
        assert !after.items[i].Note?;
      }
    }
  }

  lemma PushKeeps(t: State, after: State, e: Event, item: Item)
    requires Known(t) && Distinct(t.items) && !item.Alert? && (item.Note? <==> LeavesNote(e))
    requires IsMessage(item) ==> item.id !in t.seen && (item.User? ==> item.clientMessageID == "")
    requires after.items == t.items + [item]
    requires after.seen == if IsMessage(item) then t.seen + {item.id} else t.seen
    requires IsMessage(item) ==> (e.UserMessage? || e.AssistantMessage?) && e.messageID == item.id
    ensures EntryKeeps(t, after, e)
  {
    if Noteless(after.items) {
      assert !after.items[|t.items|].Note?;
      forall i | 0 <= i < |t.items| ensures !t.items[i].Note? {
        assert !after.items[i].Note?;
      }
    }
  }

  lemma UserStep(t: State, e: Event)
    requires Known(t) && Distinct(t.items) && e.UserMessage?
    ensures EntryKeeps(t, Apply(t, e), e)
  {
    var list, blocks := ListFor(t.items, e.parent), UserBlocks(e.blocks);
    if e.messageID in t.seen || list.None? || blocks == [] {
      SameItemsKeep(t, Apply(t, e), e);
    } else if e.parent == "" {
      PushKeeps(t, Apply(t, e), e, User(e.messageID, blocks, ""));
    } else {
      EditKeepsItems(t.items, e.parent,
                     (tool: Tool) => tool.(children := list.value + [User(e.messageID, blocks, "")]));
      SameItemsKeep(t, Apply(t, e), e);
    }
  }

  lemma AssistantStep(t: State, e: Event)
    requires Known(t) && Distinct(t.items) && e.AssistantMessage?
    ensures EntryKeeps(t, Apply(t, e), e)
  {
    var list := ListFor(t.items, e.parent);
    if list.None? || (e.messageID in t.seen && !HasAssistant(list.value, e.messageID)) {
      SameItemsKeep(t, t, e);
    } else {
      var edited := WithAssistant(list.value, e.messageID, false, SettleItem(e.content));
      if e.parent != "" {
        EditKeepsItems(t.items, e.parent, (tool: Tool) => tool.(children := edited));
        SameItemsKeep(t, Apply(t, e), e);
      } else if HasAssistant(t.items, e.messageID) {
        SameItemsKeep(t, Apply(t, e), e);
      } else {
        PushKeeps(t, Apply(t, e), e, SettleItem(e.content)(Assistant(e.messageID, [], false)));
      }
    }
  }

  lemma EntryStep(t: State, e: Event)
    requires Known(t) && Distinct(t.items) && Entry(e)
    ensures EntryKeeps(t, Apply(t, e), e)
  {
    match e {
      case UserMessage(_, _, _, _) => UserStep(t, e);
      case AssistantMessage(_, _, _) => AssistantStep(t, e);
      case ToolResult(id, _) =>
        EditKeepsItems(t.items, id, EditByEvent(e));
        SameItemsKeep(t, Apply(t, e), e);
      case ContextBoundary(tokens) => PushKeeps(t, Apply(t, e), e, Note("", tokens, true, ""));
      case BackgroundTaskFinished(summary, status) => PushKeeps(t, Apply(t, e), e, Note(summary, None, false, status));
    }
  }

  lemma {:induction false} PageInv(page: seq<Event>)
    requires Entries(page)
    ensures var t := Fold(EMPTY, page);
      && Known(t) && Distinct(t.items)
      && (Noteless(t.items) <==> forall e <- page :: !LeavesNote(e))
      && (forall i | 0 <= i < |t.items| :: !t.items[i].Alert?)
      && (forall id <- t.seen :: exists e <- page :: (e.UserMessage? || e.AssistantMessage?) && e.messageID == id)
  {
    if page != [] {
      var before, e := page[..|page| - 1], page[|page| - 1];
      PageInv(before);
      EntryStep(Fold(EMPTY, before), e);
      assert page == before + [e];
    }
  }

  // ------------------------------------------------------ paging back

  function Join(p: State, q: State): State { State(p.items + q.items, p.seen + q.seen) }

  /** The entry names no message, tool or parent that `older` introduced. */
  ghost predicate Independent(e: Event, older: State) {
    match e
    case UserMessage(id, _, _, parent) => id !in older.seen && (parent == "" || FindTool(older.items, parent) == None)
    case AssistantMessage(id, _, parent) => id !in older.seen && (parent == "" || FindTool(older.items, parent) == None)
    case ToolResult(id, _) => FindTool(older.items, id) == None
    case _ => true
  }

  /** With no prompt waiting, a user message is just pushed. */
  function PushUser(t: State, e: Event): State
    requires e.UserMessage?
  {
    var list, blocks := ListFor(t.items, e.parent), UserBlocks(e.blocks);
    if e.messageID in t.seen then t
    else if list.None? || blocks == [] then t.(seen := t.seen + {e.messageID})
    else State(WithList(t.items, e.parent, list.value + [User(e.messageID, blocks, "")]), t.seen + {e.messageID})
  }

  lemma NoEcho(t: State, e: Event)
    requires Known(t) && e.UserMessage?
    ensures Apply(t, e) == PushUser(t, e)
  {
  }

  lemma NoAssistantOf(p: State, messageID: string)
    requires Known(p) && messageID !in p.seen
    ensures !HasAssistant(p.items, messageID)
  {
  }

  lemma FrameUser(p: State, q: State, e: Event)
    requires Known(p) && Known(q) && e.UserMessage? && Independent(e, p)
    ensures Apply(Join(p, q), e) == Join(p, Apply(q, e))
  {
    NoEcho(Join(p, q), e);
    NoEcho(q, e);
    FindAppend(p.items, q.items, e.parent);
    var list := ListFor(q.items, e.parent);
    if list.Some? {
      var grown := list.value + [User(e.messageID, UserBlocks(e.blocks), "")];
      if e.parent == "" {
        assert p.items + q.items + [User(e.messageID, UserBlocks(e.blocks), "")] == p.items + grown;
      } else {
        EditAppend(p.items, q.items, e.parent, (tool: Tool) => tool.(children := grown));
      }
    }
  }

  lemma FrameAssistant(p: State, q: State, e: Event)
    requires Known(p) && Known(q) && e.AssistantMessage? && Independent(e, p)
    ensures Apply(Join(p, q), e) == Join(p, Apply(q, e))
  {
    NoAssistantOf(p, e.messageID);
    FindAppend(p.items, q.items, e.parent);
    AssistantAppend(p.items, q.items, e.messageID);
    WithAssistantAppend(p.items, q.items, e.messageID, false, SettleItem(e.content));
    var list := ListFor(q.items, e.parent);
    if e.parent != "" && list.Some? {
      var edited := WithAssistant(list.value, e.messageID, false, SettleItem(e.content));
      EditAppend(p.items, q.items, e.parent, (tool: Tool) => tool.(children := edited));
    }
  }

  lemma FrameEntry(p: State, q: State, e: Event)
    requires Known(p) && Known(q) && Entry(e) && Independent(e, p)
    ensures Apply(Join(p, q), e) == Join(p, Apply(q, e))
  {
    match e {
      case UserMessage(_, _, _, _) => FrameUser(p, q, e);
      case AssistantMessage(_, _, _) => FrameAssistant(p, q, e);
      case ToolResult(id, _) => EditAppend(p.items, q.items, id, EditByEvent(e));
      case ContextBoundary(_) | BackgroundTaskFinished(_, _) =>
    }
  }

  lemma {:induction false} FoldJoin(older: seq<Event>, newer: seq<Event>)
    requires Entries(older) && Entries(newer)
    requires forall e <- newer :: Independent(e, Fold(EMPTY, older))
    ensures Fold(EMPTY, older + newer) == Join(Fold(EMPTY, older), Fold(EMPTY, newer))
    decreases |newer|
  {
    var p := Fold(EMPTY, older);
    if newer == [] {
      assert older + newer == older;
    } else {
      var before, e := newer[..|newer| - 1], newer[|newer| - 1];
      assert (older + newer)[..|older + newer| - 1] == older + before;
      FoldJoin(older, before);
      PageInv(older);
      PageInv(before);
      FrameEntry(p, Fold(EMPTY, before), e);
    }
  }

  lemma {:induction false} FreshAppend(a: seq<Item>, b: seq<Item>, seen: set<string>)
    ensures FreshItems(a + b, seen) == FreshItems(a, seen) + FreshItems(b, seen)
  {
    if a == [] {
      assert a + b == b;
    } else {
      assert (a + b)[1..] == a[1..] + b;
      FreshAppend(a[1..], b, seen);
    }
  }

  lemma {:induction false} FreshAgrees(items: seq<Item>, seen: set<string>, more: set<string>)
    requires forall i | 0 <= i < |items| && IsMessage(items[i]) :: items[i].id !in more
    ensures FreshItems(items, seen + more) == FreshItems(items, seen)
  {
    if items != [] {
      FreshAgrees(items[1..], seen, more);
    }
  }

  lemma OlderUnnamed(older: seq<Event>, newer: seq<Event>)
    requires Entries(older) && Entries(newer)
    requires forall e <- newer :: Independent(e, Fold(EMPTY, older))
    ensures forall item <- Fold(EMPTY, older).items :: IsMessage(item) ==> item.id !in Fold(EMPTY, newer).seen
  {
    PageInv(older);
    PageInv(newer);
  }

  lemma JoinInFront(p: State, q: State, t: State)
    requires forall item <- p.items :: IsMessage(item) ==> item.id !in q.seen
    ensures InFront(p, InFront(q, t)) == InFront(Join(p, q), t)
  {
    FreshAgrees(p.items, t.seen, q.seen);
    FreshAppend(p.items, q.items, t.seen);
    assert FreshItems(p.items, t.seen) + (FreshItems(q.items, t.seen) + t.items)
        == FreshItems(p.items + q.items, t.seen) + t.items;
    assert t.seen + q.seen + p.seen == t.seen + (p.seen + q.seen);
  }

  /** Loading the newer page and then the older one leaves what loading both as
      one page leaves, on top of anything already on screen. */
  lemma PagingHomomorphism(t: State, older: seq<Event>, newer: seq<Event>)
    requires Entries(older) && Entries(newer)
    requires forall e <- newer :: Independent(e, Fold(EMPTY, older))
    ensures Prepend(Prepend(t, newer), older) == Prepend(t, older + newer)
  {
    FoldJoin(older, newer);
    OlderUnnamed(older, newer);
    JoinInFront(Fold(EMPTY, older), Fold(EMPTY, newer), t);
  }

  /** Pages as they are loaded, the newest first. */
  function PrependAll(t: State, pages: seq<seq<Event>>): State
    decreases |pages|
  {
    if pages == [] then t else PrependAll(Prepend(t, pages[0]), pages[1..])
  }

  function Whole(pages: seq<seq<Event>>): seq<Event> {
    if pages == [] then [] else Whole(pages[1..]) + pages[0]
  }

  ghost predicate PagesApart(pages: seq<seq<Event>>) {
    forall k | 0 <= k < |pages| ::
      Entries(pages[k]) && forall e <- pages[k] :: Independent(e, Fold(EMPTY, Whole(pages[k + 1..])))
  }

  lemma {:induction false} WholeEntries(pages: seq<seq<Event>>)
    requires forall k | 0 <= k < |pages| :: Entries(pages[k])
    ensures Entries(Whole(pages))
  {
    if pages != [] {
      WholeEntries(pages[1..]);
    }
  }

  /** Scrolling all the way back shows the whole history folded at once. */
  lemma {:induction false} WholeHistory(t: State, pages: seq<seq<Event>>)
    requires PagesApart(pages)
    ensures PrependAll(t, pages) == Prepend(t, Whole(pages))
    decreases |pages|
  {
    if pages != [] {
      var rest := pages[1..];
      assert PagesApart(rest) by {
        forall k | 0 <= k < |rest|
          ensures Entries(rest[k]) && forall e <- rest[k] :: Independent(e, Fold(EMPTY, Whole(rest[k + 1..])))
        {
          assert rest[k] == pages[k + 1] && rest[k + 1..] == pages[k + 2..];
        }
      }
      WholeEntries(rest);
      WholeHistory(Prepend(t, pages[0]), rest);
      PagingHomomorphism(t, Whole(rest), pages[0]);
    }
  }

  // ------------------------------------------------------------- repeats

  lemma {:induction false} FreshEmpty(items: seq<Item>, seen: set<string>)
    requires forall i | 0 <= i < |items| :: !items[i].Alert? && (IsMessage(items[i]) ==> items[i].id in seen)
    ensures FreshItems(items, seen) == [] <==> Noteless(items)
  {
    if items != [] {
      FreshEmpty(items[1..], seen);
    }
  }

  /** Loading a page again changes nothing exactly when nothing in it leaves a
      note, which has no id to be known by. */
  lemma RepeatedPage(t: State, page: seq<Event>)
    requires Entries(page)
    ensures Prepend(Prepend(t, page), page) == Prepend(t, page) <==> forall e <- page :: !LeavesNote(e)
  {
    PageInv(page);
    var older, once := Fold(EMPTY, page), Prepend(t, page);
    FreshEmpty(older.items, once.seen);
    var again := FreshItems(older.items, once.seen);
    assert |(again + once.items)| == |again| + |once.items|;
    if again == [] {
      assert again + once.items == once.items;
      assert once.seen + older.seen == once.seen;
    }
  }

  /** A page with a note in it, loaded twice, shows the note twice. */
  lemma RepeatedNote()
    ensures var page, note := [ContextBoundary(None)], Note("", None, true, "");
      Prepend(Prepend(EMPTY, page), page).items == [note, note]
  {
    var page, note := [ContextBoundary(None)], Note("", None, true, "");
    FoldOne(EMPTY, page[0]);
    assert [] + [note] == [note];
    assert FreshItems([note], {}) == [note] + FreshItems([note][1..], {}) && [note] + [] == [note];
    assert Prepend(EMPTY, page) == State([note], {});
    assert [note] + [note] == [note, note];
  }

  lemma {:induction false} FreshIsFiltered(items: seq<Item>, seen: set<string>)
    ensures forall item <- FreshItems(items, seen) :: item in items && !(IsMessage(item) && item.id in seen)
    ensures forall item <- items :: !(IsMessage(item) && item.id in seen) ==> item in FreshItems(items, seen)
  {
    if items != [] {
      FreshIsFiltered(items[1..], seen);
    }
  }

  lemma {:induction false} FreshDistinct(items: seq<Item>, seen: set<string>)
    requires Distinct(items)
    ensures Distinct(FreshItems(items, seen))
  {
    if items != [] {
      assert Distinct(items[1..]);
      FreshDistinct(items[1..], seen);
      FreshIsFiltered(items[1..], seen);
      var rest, r := FreshItems(items[1..], seen), FreshItems(items, seen);
      if |r| > |rest| {
        forall j | 1 <= j < |r| && IsMessage(r[0]) && IsMessage(r[j]) ensures r[0].id != r[j].id {
          assert r[j] == rest[j - 1];
          var k :| 0 <= k < |items[1..]| && items[1..][k] == rest[j - 1];
          assert items[k + 1] == r[j];
        }
      }
    }
  }

  /** A message of the page that is on screen already but was never folded in
      under its id, which only a message known from its deltas is. */
  ghost predicate Unrecognised(t: State, page: seq<Event>) {
    exists item, shown | item in Fold(EMPTY, page).items && shown in t.items ::
      IsMessage(item) && IsMessage(shown) && item.id == shown.id && item.id !in t.seen
  }

  lemma TwinsInJoin(a: seq<Item>, b: seq<Item>, x: Item, y: Item)
    requires x in a && y in b && IsMessage(x) && IsMessage(y) && x.id == y.id
    ensures !Distinct(a + b)
  {
    var i :| 0 <= i < |a| && a[i] == x;
    var j :| 0 <= j < |b| && b[j] == y;
    assert (a + b)[i] == x && (a + b)[|a| + j] == y;
  }

  lemma UnrecognisedDoubles(t: State, page: seq<Event>)
    requires Unrecognised(t, page)
    ensures !Distinct(Prepend(t, page).items)
  {
    var items := Fold(EMPTY, page).items;
    var novel := FreshItems(items, t.seen);
    FreshIsFiltered(items, t.seen);
    var item, shown :| item in items && shown in t.items && IsMessage(item) && IsMessage(shown)
                       && item.id == shown.id && item.id !in t.seen;
    TwinsInJoin(novel, t.items, item, shown);
  }

  /** Replay never doubles a message, exactly as long as the page repeats none
      that is known only from its deltas. */
  lemma ReplayDoublesNothing(t: State, page: seq<Event>)
    requires Entries(page) && Distinct(t.items)
    ensures Distinct(Prepend(t, page).items) <==> !Unrecognised(t, page)
  {
    if Unrecognised(t, page) {
      UnrecognisedDoubles(t, page);
    } else {
      PageInv(page);
      var items := Fold(EMPTY, page).items;
      var novel := FreshItems(items, t.seen);
      FreshIsFiltered(items, t.seen);
      FreshDistinct(items, t.seen);
      forall item, shown | item in novel && shown in t.items && IsMessage(item) && IsMessage(shown)
        ensures item.id != shown.id
      {
        assert item in items && item.id !in t.seen;
      }
      DistinctJoin(novel, t.items);
    }
  }

  lemma DistinctJoin(a: seq<Item>, b: seq<Item>)
    requires Distinct(a) && Distinct(b)
    requires forall x, y | x in a && y in b && IsMessage(x) && IsMessage(y) :: x.id != y.id
    ensures Distinct(a + b)
  {
  }

  /** What is on screen stays where it is, as the end of the list. */
  lemma ExistingItemsStay(t: State, page: seq<Event>)
    ensures |t.items| <= |Prepend(t, page).items|
    ensures Prepend(t, page).items[|Prepend(t, page).items| - |t.items|..] == t.items
    ensures t.seen <= Prepend(t, page).seen
  {
  }

  // ------------------------------------------------------- local prompts

  /** Taking a local prompt off again leaves no trace, unless its id had been
      folded in before it was put up. */
  lemma LocalPromptUndone(t: State, client: string, blocks: seq<UserBlock>)
    ensures DropLocalPrompt(LocalPrompt(t, client, blocks), client) == t <==> PromptID(client) !in t.seen
  {
    var put := LocalPrompt(t, client, blocks);
    assert put.items[..|t.items|] == t.items;
    assert put.items[..|t.items|] + put.items[|t.items| + 1..] == t.items;
  }

  /** After a prompt and its echo, history brings the prompt back exactly when it
      stores it under an id that was not folded in before, and that is neither the
      local one nor the echo's. */
  lemma PromptReturns(t: State, client: string, blocks: seq<UserBlock>, id: string, stored: string)
    requires client != "" && UserBlocks(blocks) != []
    ensures var after := Apply(LocalPrompt(t, client, blocks), UserMessage(id, blocks, client, ""));
      Prepend(after, [UserMessage(stored, blocks, "", "")]).items
      == (if stored in t.seen + {PromptID(client), id} then [] else [User(stored, UserBlocks(blocks), "")])
         + after.items
  {
    EchoSeen(t, client, blocks, id);
    UserPage(Apply(LocalPrompt(t, client, blocks), UserMessage(id, blocks, client, "")), stored, blocks);
  }

  lemma EchoSeen(t: State, client: string, blocks: seq<UserBlock>, id: string)
    requires client != ""
    ensures Apply(LocalPrompt(t, client, blocks), UserMessage(id, blocks, client, "")).seen
         == t.seen + {PromptID(client), id}
  {
    var put := LocalPrompt(t, client, blocks);
    assert LocalEcho(put.items, client) == |t.items|;
  }

  lemma UserPage(t: State, id: string, blocks: seq<UserBlock>)
    requires UserBlocks(blocks) != []
    ensures Prepend(t, [UserMessage(id, blocks, "", "")]).items
         == (if id in t.seen then [] else [User(id, UserBlocks(blocks), "")]) + t.items
  {
    var item := User(id, UserBlocks(blocks), "");
    FoldOne(EMPTY, UserMessage(id, blocks, "", ""));
    assert Fold(EMPTY, [UserMessage(id, blocks, "", "")]).items == [item];
    assert [item][1..] == [] && FreshItems([], t.seen) == [];
  }

  /** The echo of a prompt settles the item already on screen, under its local
      id, and from then on history cannot bring the message back. */
  lemma EchoSettlesPrompt(t: State, client: string, blocks: seq<UserBlock>, id: string, echoed: seq<UserBlock>,
                          page: seq<Event>)
    requires client != "" && Entries(page)
    ensures var after := Apply(LocalPrompt(t, client, blocks), UserMessage(id, echoed, client, ""));
      && after.items
         == t.items + [User(PromptID(client), if UserBlocks(echoed) == [] then blocks else UserBlocks(echoed), "")]
      && forall item <- Prepend(after, page).items[..|Prepend(after, page).items| - |after.items|] ::
           IsMessage(item) ==> item.id != id && item.id != PromptID(client)
  {
    var put := LocalPrompt(t, client, blocks);
    assert LocalEcho(put.items, client) == |t.items|;
    var after := Apply(put, UserMessage(id, echoed, client, ""));
    FreshIsFiltered(Fold(EMPTY, page).items, after.seen);
    var novel := FreshItems(Fold(EMPTY, page).items, after.seen);
    assert Prepend(after, page).items[..|novel|] == novel;
  }
}
