/**
 The screen of a client after each thing a claude session publishes, beside the
 transcript that its lines amount to.

 The two agree item by item, save that a message on screen may have drafts of the
 blocks it has still to be told, and that messages nothing is told of may stand at
 the end, in the order they came. A piece only adds to the drafts; a line settles
 those it tells and leaves the others.
 */
module ClaudeShows {

  import opened Basics
  import opened Transcript
  import opened Trees
  import opened Settling
  import opened HistoryPages
  import opened ClaudeAssembly
  import opened ClaudeScreen
  import opened ClaudeDrafts
  import opened ClaudeLines

  /** Messages on screen that nothing is told of. */
  function Blanks(ids: seq<string>): (r: seq<Item>)
    ensures |r| == |ids| && forall i | 0 <= i < |r| :: r[i] == Assistant(ids[i], [], false)
  {
    seq(|ids|, i requires 0 <= i < |ids| => Assistant(ids[i], [], false))
  }

  /** Messages that may stand at the end of the screen, unknown to the transcript. */
  ghost predicate Early(ids: seq<string>, lines: seq<Line>) {
    && (forall i | 0 <= i < |ids| :: ids[i] !in ReadAll(lines).assistantAt)
    && (forall i, j | 0 <= i < j < |ids| :: ids[i] != ids[j])
  }

  ghost predicate Shows(t: State, lines: seq<Line>, early: seq<string>, plan: Plan) {
    Early(early, lines) && t.seen == IdsOf(History(lines)) && On(t.items, Screen(lines) + Blanks(early), plan)
  }

  lemma BlanksAt(drawn: seq<Item>, early: seq<string>, id: string)
    requires forall i, j | 0 <= i < j < |early| :: early[i] != early[j]
    requires id in early ==> !HasAssistant(drawn, id)
    ensures id !in early ==> (HasAssistant(drawn + Blanks(early), id) <==> HasAssistant(drawn, id))
    ensures id !in early && HasAssistant(drawn, id) ==> AssistantAt(drawn + Blanks(early), id) == AssistantAt(drawn, id)
    ensures forall i | 0 <= i < |early| && early[i] == id :: AssistantAt(drawn + Blanks(early), id) == |drawn| + i
  {
    var all := drawn + Blanks(early);
    if HasAssistant(drawn, id) {
      assert all[AssistantAt(drawn, id)] == drawn[AssistantAt(drawn, id)];
    }
    forall i | 0 <= i < |early| && early[i] == id ensures AssistantAt(all, id) == |drawn| + i {
      assert all[|drawn| + i] == Blanks(early)[i];
    }
  }

  lemma EarlyAt(lines: seq<Line>, early: seq<string>, id: string)
    requires MainOnly(lines) && InOrder(lines) && Early(early, lines)
    ensures id in ReadAll(lines).assistantAt ==>
            AssistantAt(Screen(lines) + Blanks(early), id) == AssistantAt(Screen(lines), id) < |Screen(lines)|
    ensures forall i | 0 <= i < |early| && early[i] == id ::
              AssistantAt(Screen(lines) + Blanks(early), id) == |Screen(lines)| + i
    ensures id !in ReadAll(lines).assistantAt && id !in early ==> !HasAssistant(Screen(lines) + Blanks(early), id)
  {
    ScreenAt(lines, id);
    BlanksAt(Screen(lines), early, id);
  }

  /** A streamed piece of a message on screen. */
  lemma PieceAt(t: State, drawn: seq<Item>, e: Event, plan: Plan)
    requires IsStream(e) && e.parent == ""
    requires On(t.items, drawn, plan) && HasAssistant(drawn, e.messageID)
    requires Ahead(e, |drawn[AssistantAt(drawn, e.messageID)].parts|, plan(e.messageID))
    ensures On(Apply(t, e).items, drawn, plan) && Apply(t, e).seen == t.seen
  {
    OnAt(t.items, drawn, e.messageID, plan);
    var k := AssistantAt(drawn, e.messageID);
    assert Like(t.items[k], drawn[k], plan);
    StreamLike(e, t.items[k], drawn[k], plan);
    OnSet(t.items, drawn, k, StreamItem(e)(t.items[k]), drawn[k], plan);
    assert drawn[k := drawn[k]] == drawn;
  }

  /** The first piece of a message opens it at the end. */
  lemma FirstPiece(t: State, drawn: seq<Item>, e: Event, plan: Plan)
    requires IsStream(e) && e.parent == ""
    requires On(t.items, drawn, plan) && !HasAssistant(drawn, e.messageID)
    requires Ahead(e, 0, plan(e.messageID)) && !(e.ToolUseStart? && FindTool(t.items, e.toolUseID).Some?)
    ensures Apply(t, e).seen == t.seen
    ensures On(Apply(t, e).items, drawn + Blanks([e.messageID]), plan)
  {
    OnAt(t.items, drawn, e.messageID, plan);
    var begun, blank := Assistant(e.messageID, [], true), Assistant(e.messageID, [], false);
    StreamLike(e, begun, blank, plan);
    OnPush(t.items, drawn, StreamItem(e)(begun), blank, plan);
    assert Blanks([e.messageID]) == [blank];
  }

  /** The tool a piece starts is on screen only if its message is. */
  lemma StartedBefore(t: State, drawn: seq<Item>, e: Event, plan: Plan)
    requires e.ToolUseStart? && On(t.items, drawn, plan) && PlansApart(plan) && FindTool(drawn, e.toolUseID) == None
    requires Ahead(e, 0, plan(e.messageID)) && FindTool(t.items, e.toolUseID).Some?
    ensures HasAssistant(drawn, e.messageID)
  {
    var i := DraftOf(t.items, drawn, e.toolUseID, plan);
    var id := t.items[i].id;
    var j :| 0 <= j < |plan(id)| && plan(id)[j].ToolUse? && plan(id)[j].id == e.toolUseID;
    assert plan(id)[j] in plan(id) && plan(e.messageID)[e.index] in plan(e.messageID);
    assert e.toolUseID in ToolIDs(plan(id)) && e.toolUseID in ToolIDs(plan(e.messageID));
    OnAt(t.items, drawn, e.messageID, plan);
  }

  /** The messages opened early, once a piece of one is out. */
  function WithPiece(early: seq<string>, lines: seq<Line>, id: string): seq<string> {
    if id in ReadAll(lines).assistantAt || id in early then early else early + [id]
  }

  lemma PieceOpens(t: State, lines: seq<Line>, early: seq<string>, e: Event, plan: Plan)
    requires MainOnly(lines) && InOrder(lines) && Feasible(lines, plan) && Shows(t, lines, early, plan)
    requires IsStream(e) && e.parent == "" && Told(lines, e.messageID) == [] && Ahead(e, 0, plan(e.messageID))
    requires e.messageID !in early && !HasAssistant(Screen(lines) + Blanks(early), e.messageID)
    ensures Apply(t, e).seen == t.seen && On(Apply(t, e).items, Screen(lines) + Blanks(early + [e.messageID]), plan)
  {
    var drawn := Screen(lines) + Blanks(early);
    if e.ToolUseStart? {
      UntoldTool(lines, early, e.toolUseID);
      if FindTool(t.items, e.toolUseID).Some? {
        StartedBefore(t, drawn, e, plan);
      }
    }
    FirstPiece(t, drawn, e, plan);
    BlanksSnoc(Screen(lines), early, e.messageID);
  }

  lemma PieceThere(t: State, lines: seq<Line>, early: seq<string>, e: Event, plan: Plan)
    requires MainOnly(lines) && InOrder(lines) && Shows(t, lines, early, plan)
    requires IsStream(e) && e.parent == "" && Ahead(e, |Told(lines, e.messageID)|, plan(e.messageID))
    requires e.messageID in ReadAll(lines).assistantAt || e.messageID in early
    ensures Shows(Apply(t, e), lines, early, plan)
  {
    MessageFound(lines, early, e.messageID);
    PieceAt(t, Screen(lines) + Blanks(early), e, plan);
  }

  /** A streamed piece, in time. */
  lemma PieceShows(t: State, lines: seq<Line>, early: seq<string>, e: Event, plan: Plan)
    requires MainOnly(lines) && InOrder(lines) && Feasible(lines, plan) && Shows(t, lines, early, plan)
    requires IsStream(e) && e.parent == "" && Ahead(e, |Told(lines, e.messageID)|, plan(e.messageID))
    ensures Shows(Apply(t, e), lines, WithPiece(early, lines, e.messageID), plan)
  {
    if e.messageID in ReadAll(lines).assistantAt || e.messageID in early {
      PieceThere(t, lines, early, e, plan);
    } else {
      PieceNew(t, lines, early, e, plan);
    }
  }

  lemma PieceNew(t: State, lines: seq<Line>, early: seq<string>, e: Event, plan: Plan)
    requires MainOnly(lines) && InOrder(lines) && Feasible(lines, plan) && Shows(t, lines, early, plan)
    requires IsStream(e) && e.parent == "" && Ahead(e, |Told(lines, e.messageID)|, plan(e.messageID))
    requires e.messageID !in ReadAll(lines).assistantAt && e.messageID !in early
    ensures Shows(Apply(t, e), lines, early + [e.messageID], plan)
  {
    MessageFound(lines, early, e.messageID);
    PieceOpens(t, lines, early, e, plan);
  }

  /** Where a message is on screen, and with what, drafts apart. */
  lemma MessageFound(lines: seq<Line>, early: seq<string>, id: string)
    requires MainOnly(lines) && InOrder(lines) && Early(early, lines)
    ensures var all := Screen(lines) + Blanks(early);
      && (HasAssistant(all, id) <==> id in ReadAll(lines).assistantAt || id in early)
      && (HasAssistant(all, id) ==>
            all[AssistantAt(all, id)] == Assistant(id, DrawBlocks(Told(lines, id), ResultsOf(History(lines))), false))
      && (id !in ReadAll(lines).assistantAt ==> Told(lines, id) == [])
  {
    ReaderTells(lines, id);
    if id in early {
      FoundEarly(lines, early, id);
    } else {
      EarlyAt(lines, early, id);
      ScreenAt(lines, id);
    }
  }

  lemma FoundEarly(lines: seq<Line>, early: seq<string>, id: string)
    requires MainOnly(lines) && InOrder(lines) && Early(early, lines) && id in early
    ensures var all := Screen(lines) + Blanks(early);
      && HasAssistant(all, id) && all[AssistantAt(all, id)] == Assistant(id, [], false)
      && Told(lines, id) == []
  {
    ScreenAt(lines, id);
    ReaderTells(lines, id);
    FoundInBlanks(Screen(lines), early, id);
  }

  lemma FoundInBlanks(drawn: seq<Item>, early: seq<string>, id: string)
    requires forall i, j | 0 <= i < j < |early| :: early[i] != early[j]
    requires id in early && !HasAssistant(drawn, id)
    ensures var all := drawn + Blanks(early);
      HasAssistant(all, id) && all[AssistantAt(all, id)] == Assistant(id, [], false)
  {
    BlanksAt(drawn, early, id);
    var i :| 0 <= i < |early| && early[i] == id;
    assert (drawn + Blanks(early))[|drawn| + i] == Blanks(early)[i];
  }

  lemma BlanksSnoc(drawn: seq<Item>, early: seq<string>, id: string)
    ensures drawn + Blanks(early) + Blanks([id]) == drawn + Blanks(early + [id])
  {
  }

  // ---------------------------------------------------------- a tool's input

  lemma {:induction false} NothingInBlanks(early: seq<string>, id: string)
    ensures FindTool(Blanks(early), id) == None
  {
    if early != [] {
      NothingInBlanks(early[1..], id);
      assert Blanks(early)[1..] == Blanks(early[1..]) && FindInParts([], id) == None;
    } else {
      assert Blanks(early) == [];
    }
  }

  lemma UntoldTool(lines: seq<Line>, early: seq<string>, id: string)
    requires MainOnly(lines) && InOrder(lines) && id !in ToolsOf(History(lines))
    ensures FindTool(Screen(lines) + Blanks(early), id) == None
  {
    LinesTidy(lines);
    FoundIfTold(History(lines), ResultsOf(History(lines)), id);
    FindAppend(Screen(lines), Blanks(early), id);
    NothingInBlanks(early, id);
  }

  lemma InputShows(t: State, lines: seq<Line>, early: seq<string>, e: Event, plan: Plan)
    requires MainOnly(lines) && InOrder(lines) && Shows(t, lines, early, plan)
    requires e.ToolInputDelta? || e.ToolUseEnd?
    requires e.toolUseID !in ToolsOf(History(lines))
    ensures Shows(Apply(t, e), lines, early, plan)
  {
    UntoldTool(lines, early, e.toolUseID);
    EditOn(t.items, Screen(lines) + Blanks(early), e.toolUseID, EditByEvent(e), plan);
  }

  lemma {:induction false} EndsShow(t: State, lines: seq<Line>, early: seq<string>, content: seq<ContentBlock>,
                                    plan: Plan)
    requires MainOnly(lines) && InOrder(lines) && Shows(t, lines, early, plan)
    requires ToolIDs(content) !! ToolsOf(History(lines))
    ensures Shows(Fold(t, Ends(content)), lines, early, plan)
  {
    if content != [] {
      var n := |content| - 1;
      EndsShow(t, lines, early, content[..n], plan);
      assert content[n] in content;
      EndShows(t, lines, early, Ends(content[..n]), content[n], plan);
    }
  }

  lemma EndShows(t: State, lines: seq<Line>, early: seq<string>, ends: seq<Event>, raw: ContentBlock, plan: Plan)
    requires MainOnly(lines) && InOrder(lines) && Shows(Fold(t, ends), lines, early, plan)
    requires raw.ToolUse? ==> raw.id !in ToolsOf(History(lines))
    ensures Shows(Fold(t, ends + End(raw)), lines, early, plan)
  {
    if raw.ToolUse? {
      var e := ToolUseEnd(raw.id, raw.input);
      InputShows(Fold(t, ends), lines, early, e, plan);
      FoldAppend(t, ends, [e]);
      FoldOne(Fold(t, ends), e);
    } else {
      assert ends + [] == ends;
    }
  }

  // -------------------------------------------------------- a message's line

  /** The message settled on the screen, wherever it was. */
  lemma MessageOn(t: State, drawn: seq<Item>, id: string, told: seq<ContentBlock>, whole: seq<ContentBlock>,
                  results: Results, plan: Plan)
    requires On(t.items, drawn, plan) && told <= whole <= plan(id) && DistinctTools(plan(id))
    requires forall i | |told| <= i < |whole| && whole[i].ToolUse? :: whole[i].id !in results
    requires HasAssistant(drawn, id) ==>
             drawn[AssistantAt(drawn, id)] == Assistant(id, DrawBlocks(told, results), false)
    requires !HasAssistant(drawn, id) ==> told == [] && id !in t.seen
    ensures
      var item, after := Assistant(id, DrawBlocks(whole, results), false), Apply(t, AssistantMessage(id, whole, ""));
      && On(after.items, if HasAssistant(drawn, id) then drawn[AssistantAt(drawn, id) := item] else drawn + [item],
          plan)
      && after.seen == t.seen + {id}
  {
    OnAt(t.items, drawn, id, plan);
    var item := Assistant(id, DrawBlocks(whole, results), false);
    if HasAssistant(drawn, id) {
      SettledThere(t.items, drawn, AssistantAt(drawn, id), told, whole, results, plan);
    } else {
      SettledNew(t.items, drawn, id, whole, results, plan);
    }
  }

  lemma SettledNew(live: seq<Item>, drawn: seq<Item>, id: string, whole: seq<ContentBlock>, results: Results,
                   plan: Plan)
    requires On(live, drawn, plan) && whole <= plan(id) && DistinctTools(plan(id))
    requires forall i | 0 <= i < |whole| && whole[i].ToolUse? :: whole[i].id !in results
    ensures On(live + [SettleItem(whole)(Assistant(id, [], false))],
               drawn + [Assistant(id, DrawBlocks(whole, results), false)], plan)
  {
    var blank := Assistant(id, [], false);
    SettleItemLike(blank, blank, [], whole, results, plan);
    OnPush(live, drawn, SettleItem(whole)(blank), Assistant(id, DrawBlocks(whole, results), false), plan);
  }

  lemma SettledThere(live: seq<Item>, drawn: seq<Item>, k: nat, told: seq<ContentBlock>, whole: seq<ContentBlock>,
                     results: Results, plan: Plan)
    requires On(live, drawn, plan) && k < |drawn| && drawn[k].Assistant?
    requires drawn[k] == Assistant(drawn[k].id, DrawBlocks(told, results), false)
    requires told <= whole <= plan(drawn[k].id) && DistinctTools(plan(drawn[k].id))
    requires forall i | |told| <= i < |whole| && whole[i].ToolUse? :: whole[i].id !in results
    ensures On(live[k := SettleItem(whole)(live[k])],
               drawn[k := Assistant(drawn[k].id, DrawBlocks(whole, results), false)], plan)
  {
    assert Like(live[k], drawn[k], plan);
    SettleItemLike(live[k], drawn[k], told, whole, results, plan);
    OnSet(live, drawn, k, SettleItem(whole)(live[k]), Assistant(drawn[k].id, DrawBlocks(whole, results), false), plan);
  }

  lemma NewInLine(before: seq<Line>, line: Line, told: seq<ContentBlock>)
    requires Comes(before, line) && line.AssistantLine?
    ensures forall i | |told| <= i < |told + line.content| && (told + line.content)[i].ToolUse? ::
              (told + line.content)[i].id !in ResultsOf(History(before))
  {
    forall i | |told| <= i < |told + line.content| && (told + line.content)[i].ToolUse?
      ensures (told + line.content)[i].id !in ResultsOf(History(before))
    {
      var raw := line.content[i - |told|];
      assert (told + line.content)[i] == raw && raw in line.content && raw.id in ToolIDs(line.content);
    }
  }

  /** The messages opened early, once a line of one is out. */
  function WithLine(early: seq<string>, id: string): seq<string> {
    if early != [] && early[0] == id then early[1..] else early
  }

  /** The screen after a message's line is the longer transcript's, if the line opens
      no message but the one that comes first. */
  lemma MessageShows(t: State, before: seq<Line>, line: Line, early: seq<string>, plan: Plan)
    requires MainOnly(before + [line]) && MainOnly(before) && InOrder(before) && Comes(before, line)
             && line.AssistantLine?
    requires Shows(t, before, early, plan) && Feasible(before + [line], plan)
    requires line.messageID in ReadAll(before).assistantAt || early == [] || early[0] == line.messageID
    ensures Shows(Apply(t, AssistantMessage(line.messageID, Told(before, line.messageID) + line.content, "")),
                  before + [line], WithLine(early, line.messageID), plan)
  {
    MessageLands(t, before, line, early, plan);
    ScreenWithBlanks(before, line, early);
    LineIsMain(before, line);
    EarlyAfter(before, line, early);
  }

  lemma LineIsMain(before: seq<Line>, line: Line)
    requires MainOnly(before + [line])
    ensures line.AssistantLine? ==> !line.sidechain && line.messageID != ""
  {
    assert (before + [line])[|before|] == line;
  }

  lemma WholeFits(before: seq<Line>, line: Line, plan: Plan)
    requires line.AssistantLine? && Feasible(before + [line], plan)
    ensures Told(before, line.messageID) <= Told(before, line.messageID) + line.content <= plan(line.messageID)
    ensures DistinctTools(plan(line.messageID))
  {
    ToldSnoc(before, line, line.messageID);
    assert Told(before + [line], line.messageID) <= plan(line.messageID);
  }

  lemma MessageLands(t: State, before: seq<Line>, line: Line, early: seq<string>, plan: Plan)
    requires MainOnly(before) && InOrder(before) && Comes(before, line) && line.AssistantLine?
    requires Shows(t, before, early, plan) && Feasible(before + [line], plan)
    ensures var id, all := line.messageID, Screen(before) + Blanks(early);
      var whole := Told(before, id) + line.content;
      var item, after := Assistant(id, DrawBlocks(whole, ResultsOf(History(before))), false),
                         Apply(t, AssistantMessage(id, whole, ""));
      && On(after.items, if HasAssistant(all, id) then all[AssistantAt(all, id) := item] else all + [item], plan)
      && after.seen == t.seen + {id}
  {
    var id := line.messageID;
    MessageFound(before, early, id);
    NewInLine(before, line, Told(before, id));
    WholeFits(before, line, plan);
    MessageOn(t, Screen(before) + Blanks(early), id, Told(before, id), Told(before, id) + line.content,
              ResultsOf(History(before)), plan);
  }

  lemma ScreenWithBlanks(before: seq<Line>, line: Line, early: seq<string>)
    requires MainOnly(before + [line]) && MainOnly(before) && InOrder(before) && Comes(before, line)
             && line.AssistantLine?
    requires Early(early, before)
    requires line.messageID in ReadAll(before).assistantAt || early == [] || early[0] == line.messageID
    ensures var id, all := line.messageID, Screen(before) + Blanks(early);
      var item := Assistant(id, DrawBlocks(Told(before, id) + line.content, ResultsOf(History(before))), false);
      && Screen(before + [line]) + Blanks(WithLine(early, id))
         == (if HasAssistant(all, id) then all[AssistantAt(all, id) := item] else all + [item])
      && IdsOf(History(before + [line])) == IdsOf(History(before)) + {id}
  {
    var id := line.messageID;
    var item := Assistant(id, DrawBlocks(Told(before, id) + line.content, ResultsOf(History(before))), false);
    ScreenAt(before, id);
    ScreenGrows(before, line);
    GrownWithBlanks(Screen(before), early, id, item);
  }

  lemma EarlyAfter(before: seq<Line>, line: Line, early: seq<string>)
    requires line.AssistantLine? && !line.sidechain && line.messageID != "" && Early(early, before)
    requires line.messageID in ReadAll(before).assistantAt || early == [] || early[0] == line.messageID
    ensures Early(WithLine(early, line.messageID), before + [line])
  {
    var after := WithLine(early, line.messageID);
    forall i | 0 <= i < |after| ensures after[i] !in ReadAll(before + [line]).assistantAt {
      LineOpens(before, line, after[i]);
    }
  }

  lemma GrownWithBlanks(drawn: seq<Item>, early: seq<string>, id: string, item: Item)
    requires forall i, j | 0 <= i < j < |early| :: early[i] != early[j]
    requires if HasAssistant(drawn, id) then id !in early else early == [] || early[0] == id
    ensures var all, k := drawn + Blanks(early), AssistantAt(drawn + Blanks(early), id);
      (if HasAssistant(all, id) then all[k := item] else all + [item])
      == (if HasAssistant(drawn, id) then drawn[AssistantAt(drawn, id) := item] else drawn + [item])
         + Blanks(WithLine(early, id))
  {
    BlanksAt(drawn, early, id);
    if HasAssistant(drawn, id) {
      var k := AssistantAt(drawn, id);
      assert (drawn + Blanks(early))[k := item] == drawn[k := item] + Blanks(early);
    } else if early == [] {
      assert drawn + Blanks(early) == drawn && Blanks(early) == [];
    } else {
      assert (drawn + Blanks(early))[|drawn| := item] == drawn + [item] + Blanks(early[1..]);
    }
  }

  // ------------------------------------------------------------- other lines

  ghost predicate Drawing(t: State, entries: seq<Event>, early: seq<string>, plan: Plan) {
    t.seen == IdsOf(entries) && On(t.items, Draw(entries, ResultsOf(entries)) + Blanks(early), plan)
  }

  lemma ResultShows(t: State, entries: seq<Event>, early: seq<string>, e: Event, plan: Plan)
    requires Tidy(entries) && e.ToolResult? && Drawing(t, entries, early, plan)
    requires NoDraft(plan, Draw(entries, ResultsOf(entries)) + Blanks(early), e.toolUseID)
    ensures Drawing(Apply(t, e), entries + [e], early, plan)
  {
    var id, drawn := e.toolUseID, Draw(entries, ResultsOf(entries));
    ShownSnoc(entries, e);
    ResultOn(t.items, drawn + Blanks(early), id, e.result, plan);
    ResultLands(entries, ResultsOf(entries), id, e.result);
    BlanksUntouched(drawn, early, id, WithResult(id, e.result));
    assert e == ToolResult(id, e.result);
    assert Draw(entries, ResultsOf(entries + [e])) + [] == Draw(entries, ResultsOf(entries + [e]));
  }

  lemma BlanksUntouched(drawn: seq<Item>, early: seq<string>, id: string, edit: Tool -> Tool)
    ensures EditTool(drawn + Blanks(early), id, edit) == EditTool(drawn, id, edit) + Blanks(early)
  {
    NothingInBlanks(early, id);
    if FindTool(drawn, id).Some? {
      EditFirst(drawn, Blanks(early), id, edit);
    } else {
      EditAppend(drawn, Blanks(early), id, edit);
      EditNothing(drawn, id, edit);
      EditNothing(Blanks(early), id, edit);
    }
  }

  /** What an entry that is no tool's or message's does to the screen. */
  lemma EntryPushed(t: State, entries: seq<Event>, e: Event)
    requires Follows(entries, e) && !e.AssistantMessage? && !e.ToolResult? && t.seen == IdsOf(entries)
    ensures |DrawEntry(e, map[])| <= 1 && Apply(t, e).items == t.items + DrawEntry(e, map[])
    ensures Apply(t, e).seen == IdsOf(entries + [e])
  {
    IdsSnoc(entries, e);
  }

  /** An entry that is pushed, if it draws anything. */
  lemma EntryShows(t: State, entries: seq<Event>, early: seq<string>, e: Event, plan: Plan)
    requires Follows(entries, e) && !e.AssistantMessage? && !e.ToolResult? && Drawing(t, entries, early, plan)
    requires early == [] || DrawEntry(e, map[]) == []
    ensures Drawing(Apply(t, e), entries + [e], early, plan)
  {
    var results := ResultsOf(entries);
    var drawn, more := Draw(entries, results), DrawEntry(e, map[]);
    EntryPushed(t, entries, e);
    ShownSnoc(entries, e);
    assert DrawEntry(e, results) == more;
    OnMore(t.items, drawn, early, more, plan);
  }

  lemma OnMore(live: seq<Item>, drawn: seq<Item>, early: seq<string>, more: seq<Item>, plan: Plan)
    requires On(live, drawn + Blanks(early), plan) && (early == [] || more == [])
    requires forall item <- more :: !item.Assistant?
    ensures On(live + more, drawn + more + Blanks(early), plan)
  {
    if more == [] {
      assert live + more == live && drawn + more == drawn;
    } else {
      assert drawn + Blanks(early) == drawn && drawn + more + Blanks(early) == drawn + more;
    }
  }

  /** The messages of some entries hold what was told of them. */
  ghost predicate HoldsTold(entries: seq<Event>, told: Plan) {
    forall i | 0 <= i < |entries| && entries[i].AssistantMessage? :: entries[i].content == told(entries[i].messageID)
  }

  /** What is still to come names no tool that has had a result. */
  ghost predicate NotDue(told: Plan, plan: Plan, id: string) {
    forall m, j | |told(m)| <= j < |plan(m)| && plan(m)[j].ToolUse? :: plan(m)[j].id != id
  }

  ghost predicate Untold(early: seq<string>, told: Plan) { forall id <- early :: told(id) == [] }

  lemma NothingDue(entries: seq<Event>, early: seq<string>, told: Plan, plan: Plan, id: string)
    requires HoldsTold(entries, told) && Untold(early, told) && NotDue(told, plan, id)
    ensures NoDraft(plan, Draw(entries, ResultsOf(entries)) + Blanks(early), id)
  {
    var drawn := Draw(entries, ResultsOf(entries));
    DrawnFrom(entries, ResultsOf(entries));
    forall i | 0 <= i < |drawn + Blanks(early)| && (drawn + Blanks(early))[i].Assistant?
      ensures |(drawn + Blanks(early))[i].parts| == |told((drawn + Blanks(early))[i].id)|
    {
      if i < |drawn| {
        assert drawn[i] in drawn;
      }
    }
    DueNowhere(drawn + Blanks(early), told, plan, id);
  }

  lemma DueNowhere(items: seq<Item>, told: Plan, plan: Plan, id: string)
    requires NotDue(told, plan, id)
    requires forall i | 0 <= i < |items| && items[i].Assistant? :: |items[i].parts| == |told(items[i].id)|
    ensures NoDraft(plan, items, id)
  {
  }

  lemma HoldsJoin(entries: seq<Event>, more: seq<Event>, told: Plan)
    requires HoldsTold(entries, told) && forall i | 0 <= i < |more| :: !more[i].AssistantMessage?
    ensures HoldsTold(entries + more, told)
  {
  }

  /** One more entry after some. */
  lemma OneShows(t: State, entries: seq<Event>, early: seq<string>, e: Event, told: Plan, plan: Plan)
    requires Tidy(entries) && Follows(entries, e) && !e.AssistantMessage? && Drawing(t, entries, early, plan)
    requires HoldsTold(entries, told) && Untold(early, told)
    requires early == [] || DrawEntry(e, map[]) == []
    requires e.ToolResult? ==> NotDue(told, plan, e.toolUseID)
    ensures Drawing(Apply(t, e), entries + [e], early, plan)
  {
    if e.ToolResult? {
      NothingDue(entries, early, told, plan, e.toolUseID);
      ResultShows(t, entries, early, e, plan);
    } else {
      EntryShows(t, entries, early, e, plan);
    }
  }

  lemma {:induction false} EntriesShow(t: State, entries: seq<Event>, early: seq<string>, more: seq<Event>, told: Plan,
      plan: Plan)
    requires Tidy(entries) && FollowAll(entries, more) && Drawing(t, entries, early, plan)
    requires HoldsTold(entries, told) && Untold(early, told)
    requires early == [] || forall i | 0 <= i < |more| :: DrawEntry(more[i], map[]) == []
    requires forall i | 0 <= i < |more| && more[i].ToolResult? :: NotDue(told, plan, more[i].toolUseID)
    ensures Drawing(Fold(t, more), entries + more, early, plan)
    decreases |more|
  {
    if more == [] {
      assert entries + more == entries;
    } else {
      var before, e := LastFollower(entries, more);
      EntriesShow(t, entries, early, before, told, plan);
      NoMessages(entries, before);
      HoldsJoin(entries, before, told);
      FollowersTidy(entries, before);
      OneShows(Fold(t, before), entries + before, early, e, told, plan);
    }
  }

  lemma LinesHold(lines: seq<Line>, early: seq<string>)
    requires MainOnly(lines) && InOrder(lines) && Early(early, lines)
    ensures HoldsTold(History(lines), (id: string) => Told(lines, id)) && Untold(early, (id: string) => Told(lines, id))
  {
    forall i | 0 <= i < |History(lines)| && History(lines)[i].AssistantMessage?
      ensures History(lines)[i].content == Told(lines, History(lines)[i].messageID)
    {
      OneTold(lines, i);
    }
    forall id | id in early ensures Told(lines, id) == [] {
      ReaderTells(lines, id);
    }
  }

  lemma NoneDue(before: seq<Line>, line: Line, plan: Plan)
    requires MainOnly(before + [line]) && Comes(before, line) && line.OtherLine? && Feasible(before + [line], plan)
    ensures forall i | 0 <= i < |line.entries| && line.entries[i].ToolResult? ::
              NotDue((id: string) => Told(before, id), plan, line.entries[i].toolUseID)
  {
    assert (before + [line])[|before|] == line;
    HistoryAdds(before, line);
    ResultsKnown(History(before), line.entries);
    forall i, m, j | 0 <= i < |line.entries| && line.entries[i].ToolResult?
                     && |Told(before, m)| <= j < |plan(m)| && plan(m)[j].ToolUse?
      ensures plan(m)[j].id != line.entries[i].toolUseID
    {
      assert line.entries[i] in line.entries;
      ToldSnoc(before, line, m);
      assert plan(m)[j].id !in ResultsOf(History(before + [line])).Keys;
    }
  }

  /** Any other line of the transcript. */
  lemma OtherShows(t: State, before: seq<Line>, line: Line, early: seq<string>, plan: Plan)
    requires MainOnly(before + [line]) && MainOnly(before) && InOrder(before) && Comes(before, line) && line.OtherLine?
    requires Shows(t, before, early, plan) && Feasible(before + [line], plan)
    requires early == [] || forall e <- line.entries :: DrawEntry(e, map[]) == []
    ensures Shows(Fold(t, line.entries), before + [line], early, plan)
  {
    assert (before + [line])[|before|] == line;
    LinesTidy(before);
    LinesHold(before, early);
    NoneDue(before, line, plan);
    EntriesShow(t, History(before), early, line.entries, (id: string) => Told(before, id), plan);
    EntriesAre(before, line, early);
  }

  lemma EntriesAre(before: seq<Line>, line: Line, early: seq<string>)
    requires line.OtherLine? && !line.sidechain && Early(early, before)
    ensures History(before + [line]) == History(before) + line.entries && Early(early, before + [line])
  {
    ReadSnoc(before, line);
    HistoryAdds(before, line);
  }

  lemma TurnShows(t: State, before: seq<Line>, early: seq<string>, plan: Plan)
    requires Shows(t, before, early, plan)
    ensures Shows(Apply(t, TurnFinished), before + [ResultLine], early, plan)
  {
    assert (before + [ResultLine])[..|before|] == before;
    StopOn(t.items, Screen(before) + Blanks(early), plan);
  }

  // ----------------------------------------------------------------- prompts

  lemma NobodyWaits(t: State, lines: seq<Line>, early: seq<string>, client: string, plan: Plan)
    requires Shows(t, lines, early, plan) && client != ""
    ensures LocalEcho(t.items, client) == |t.items|
  {
    var drawn, all := Screen(lines), Screen(lines) + Blanks(early);
    NoneWaits(History(lines), ResultsOf(History(lines)));
    forall i | 0 <= i < |t.items| && t.items[i].User? ensures t.items[i].clientMessageID == "" {
      assert Like(t.items[i], all[i], plan);
      if i < |drawn| {
        assert all[i] == drawn[i] && drawn[i] in drawn;
      }
    }
  }

  /** An echo comes to a plain message, whether the prompt was on screen or not. */
  lemma EchoIsMessage(t: State, client: string, blocks: seq<UserBlock>, mine: bool)
    requires LocalEcho(t.items, client) == |t.items| && client != "" && PromptID(client) !in t.seen
    requires mine ==> UserBlocks(blocks) != []
    ensures var before := if mine then LocalPrompt(t, client, blocks) else t;
      Apply(before, UserMessage(PromptID(client), blocks, client, ""))
      == Apply(t, UserMessage(PromptID(client), blocks, "", ""))
  {
    if mine {
      var put, settled := LocalPrompt(t, client, blocks), User(PromptID(client), UserBlocks(blocks), "");
      assert LocalEcho(put.items, client) == |t.items|;
      assert put.items[|t.items| := settled] == t.items + [settled];
      assert put.seen + {PromptID(client)} == t.seen + {PromptID(client)};
    }
  }

  lemma PromptShows(t: State, before: seq<Line>, line: Line, early: seq<string>, client: string,
                    blocks: seq<UserBlock>, mine: bool, plan: Plan)
    requires line == OtherLine([UserMessage(PromptID(client), blocks, "", "")], PromptID(client), false)
    requires MainOnly(before + [line]) && MainOnly(before) && InOrder(before) && Comes(before, line)
    requires Shows(t, before, early, plan) && Feasible(before + [line], plan)
    requires client != "" && if UserBlocks(blocks) == [] then !mine else early == []
    ensures Shows(Fold(if mine then LocalPrompt(t, client, blocks) else t,
                       [UserMessage(PromptID(client), blocks, client, "")]), before + [line], early, plan)
  {
    var e := UserMessage(PromptID(client), blocks, "", "");
    assert Follows(History(before) + [e][..0], [e][0]);
    assert History(before) + [e][..0] == History(before);
    NobodyWaits(t, before, early, client, plan);
    EchoIsMessage(t, client, blocks, mine);
    FoldOne(if mine then LocalPrompt(t, client, blocks) else t, UserMessage(PromptID(client), blocks, client, ""));
    FoldOne(t, e);
    OtherShows(t, before, line, early, plan);
  }

  lemma LineShows(t: State, lines: seq<Line>, line: Line, early: seq<string>, plan: Plan)
    requires MainOnly(lines + [line]) && MainOnly(lines) && InOrder(lines) && Comes(lines, line) && line.AssistantLine?
    requires Shows(t, lines, early, plan) && Feasible(lines + [line], plan)
    requires line.messageID in ReadAll(lines).assistantAt || early == [] || early[0] == line.messageID
    ensures Shows(Fold(t, LineEvents(lines, line)), lines + [line], WithLine(early, line.messageID), plan)
  {
    var id, content := line.messageID, line.content;
    WholeIsTold(lines, id);
    var e := AssistantMessage(id, Told(lines, id) + content, "");
    FoldAppend(t, Ends(content), [e]);
    FoldOne(Fold(t, Ends(content)), e);
    EndsShow(t, lines, early, content, plan);
    MessageShows(Fold(t, Ends(content)), lines, line, early, plan);
  }
}
