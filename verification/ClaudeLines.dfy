/**
 What the lines of a claude thread add to its transcript, and what they leave
 still to be told.

 A line grows the entry of its message, opens one, or adds the entries it settles
 into. Looked at from the end of a run, every message has a content planned for
 it, of which each point of the run has told a prefix, and the tools in the rest
 are unknown to the thread so far.
 */
module ClaudeLines {

  import opened Basics
  import opened Transcript
  import opened Trees
  import opened Settling
  import opened HistoryPages
  import opened ClaudeAssembly
  import opened ClaudeScreen
  import opened ClaudeDrafts

  lemma ReadSnoc(lines: seq<Line>, line: Line)
    ensures ReadAll(lines + [line]) == ReadLine(ReadAll(lines), line)
  {
    assert (lines + [line])[..|lines|] == lines;
  }

  lemma MainJoin(a: seq<Line>, b: seq<Line>)
    requires MainOnly(a) && MainOnly(b)
    ensures MainOnly(a + b)
  {
  }

  lemma OrderSnoc(before: seq<Line>, line: Line)
    ensures InOrder(before + [line]) <==> InOrder(before) && Comes(before, line)
  {
    assert (before + [line])[..|before|] == before;
  }

  lemma MessageAdds(before: seq<Line>, line: Line)
    requires MainOnly(before) && line.AssistantLine? && !line.sidechain && line.messageID != ""
    ensures ToolsOf(History(before + [line])) == ToolsOf(History(before)) + ToolIDs(line.content)
    ensures ResultsOf(History(before + [line])) == ResultsOf(History(before))
  {
    var id, content := line.messageID, line.content;
    HistoryGrows(before, line);
    ReaderTells(before, id);
    if id in ReadAll(before).assistantAt {
      GrownKeeps(History(before), ReadAll(before).assistantAt[id], content);
      GrownKeepsResults(History(before), ReadAll(before).assistantAt[id], content);
    } else {
      IdsSnoc(History(before), AssistantMessage(id, content, ""));
      ShownSnoc(History(before), AssistantMessage(id, content, ""));
    }
  }

  /** What a line adds to what is known of the thread. */
  lemma LineAdds(before: seq<Line>, line: Line)
    requires MainOnly(before + [line]) && MainOnly(before) && Comes(before, line)
    ensures ToolsOf(History(before + [line]))
            == ToolsOf(History(before)) + if line.AssistantLine? then ToolIDs(line.content) else {}
    ensures ResultsOf(History(before)).Keys <= ResultsOf(History(before + [line])).Keys
  {
    assert (before + [line])[|before|] == line;
    match line {
      case AssistantLine(_, _, _, _) => MessageAdds(before, line);
      case OtherLine(entries, _, _) =>
        HistoryAdds(before, line);
        AddsNoTools(History(before), entries);
      case ResultLine => ReadSnoc(before, line);
    }
  }

  lemma LastFollower(entries: seq<Event>, more: seq<Event>) returns (before: seq<Event>, e: Event)
    requires FollowAll(entries, more) && more != []
    ensures more == before + [e] && entries + more == entries + before + [e]
    ensures FollowAll(entries, before) && Follows(entries + before, e) && !e.AssistantMessage?
  {
    before, e := more[..|more| - 1], more[|more| - 1];
  }

  lemma {:induction false} AddsNoTools(entries: seq<Event>, more: seq<Event>)
    requires FollowAll(entries, more)
    ensures ToolsOf(entries + more) == ToolsOf(entries)
    ensures ResultsOf(entries).Keys <= ResultsOf(entries + more).Keys
    decreases |more|
  {
    if more == [] {
      assert entries + more == entries;
    } else {
      var before, e := LastFollower(entries, more);
      AddsNoTools(entries, before);
      IdsSnoc(entries + before, e);
      ShownSnoc(entries + before, e);
    }
  }

  lemma {:induction false} FollowersTidy(entries: seq<Event>, more: seq<Event>)
    requires Tidy(entries) && FollowAll(entries, more)
    ensures Tidy(entries + more)
    decreases |more|
  {
    if more == [] {
      assert entries + more == entries;
    } else {
      var before, e := LastFollower(entries, more);
      FollowersTidy(entries, before);
      TidySnoc(entries + before, e);
    }
  }

  lemma LineTidy(before: seq<Line>, line: Line)
    requires MainOnly(before + [line]) && Comes(before, line) && Tidy(History(before))
    ensures Tidy(History(before + [line]))
  {
    assert (before + [line])[|before|] == line;
    match line {
      case AssistantLine(id, content, _, _) =>
        HistoryGrows(before, line);
        if id in ReadAll(before).assistantAt {
          GrowsHere(before, line);
          GrownTidy(History(before), ReadAll(before).assistantAt[id], content);
        } else {
          TidySnoc(History(before), AssistantMessage(id, content, ""));
        }
      case OtherLine(entries, _, _) =>
        HistoryAdds(before, line);
        FollowersTidy(History(before), entries);
      case ResultLine =>
        assert (before + [line])[..|before|] == before;
    }
  }

  lemma GrowsHere(before: seq<Line>, line: Line)
    requires MainOnly(before) && Comes(before, line) && Tidy(History(before))
    requires line.AssistantLine? && line.messageID in ReadAll(before).assistantAt
    ensures Grows(History(before), ReadAll(before).assistantAt[line.messageID], line.content)
    ensures History(before)[ReadAll(before).assistantAt[line.messageID]]
         == AssistantMessage(line.messageID, Told(before, line.messageID), "")
  {
    var at := ReadAll(before).assistantAt[line.messageID];
    ReaderTells(before, line.messageID);
    TidyAt(History(before), at);
    GrownDistinct(History(before), at, line.content);
  }

  lemma LastLine(lines: seq<Line>) returns (before: seq<Line>, line: Line)
    requires MainOnly(lines) && InOrder(lines) && lines != []
    ensures lines == before + [line] && MainOnly(before) && InOrder(before) && Comes(before, line)
  {
    before, line := lines[..|lines| - 1], lines[|lines| - 1];
    OrderLast(lines);
    MainLast(lines);
  }

  lemma MainLast(lines: seq<Line>)
    requires MainOnly(lines) && lines != []
    ensures lines == lines[..|lines| - 1] + [lines[|lines| - 1]] && MainOnly(lines[..|lines| - 1])
  {
  }

  lemma OrderLast(lines: seq<Line>)
    requires InOrder(lines) && lines != []
    ensures InOrder(lines[..|lines| - 1]) && Comes(lines[..|lines| - 1], lines[|lines| - 1])
  {
  }

  lemma {:induction false} LinesTidy(lines: seq<Line>)
    requires MainOnly(lines) && InOrder(lines)
    ensures Tidy(History(lines))
    decreases |lines|
  {
    if lines != [] {
      var before, line := LastLine(lines);
      LinesTidy(before);
      LineTidy(before, line);
    }
  }

  /** Replay shows the file. */
  lemma FileShows(lines: seq<Line>)
    requires MainOnly(lines) && InOrder(lines)
    ensures Fold(EMPTY, History(lines)) == Shown(History(lines))
  {
    LinesTidy(lines);
    ReplayShows(History(lines));
  }

  // --------------------------------------------------------- what is to come

  /** Two messages have no tool in common. */
  ghost predicate PlansApart(plan: Plan) {
    forall id, other | id != other :: ToolIDs(plan(id)) !! ToolIDs(plan(other))
  }

  /** What is still to be told names no tool the thread knows. */
  ghost predicate Feasible(lines: seq<Line>, plan: Plan) {
    && PlansApart(plan)
    && forall id ::
         && Told(lines, id) <= plan(id) && DistinctTools(plan(id))
         && forall i | |Told(lines, id)| <= i < |plan(id)| && plan(id)[i].ToolUse? ::
              plan(id)[i].id !in ToolsOf(History(lines)) && plan(id)[i].id !in ResultsOf(History(lines)).Keys
  }

  lemma {:induction false} TidyApart(entries: seq<Event>, i: nat, j: nat)
    requires Tidy(entries) && i < j < |entries| && entries[i].AssistantMessage? && entries[j].AssistantMessage?
    ensures ToolIDs(entries[i].content) !! ToolIDs(entries[j].content)
  {
    var n := |entries| - 1;
    if j == n {
      assert entries[..n][i] == entries[i] && entries[i] in entries[..n];
      assert ToolIDs(entries[i].content) <= ToolsOf(entries[..n]);
    } else {
      TidyApart(entries[..n], i, j);
    }
  }

  lemma ToldApart(lines: seq<Line>, id: string, other: string)
    requires MainOnly(lines) && InOrder(lines) && id != other
    ensures ToolIDs(Told(lines, id)) !! ToolIDs(Told(lines, other))
  {
    LinesTidy(lines);
    ReaderTells(lines, id);
    ReaderTells(lines, other);
    var r := ReadAll(lines);
    if id in r.assistantAt && other in r.assistantAt {
      EntriesApart(History(lines), r.assistantAt[id], r.assistantAt[other]);
    }
  }

  lemma EntriesApart(entries: seq<Event>, i: nat, j: nat)
    requires Tidy(entries) && i < |entries| && j < |entries|
    requires entries[i].AssistantMessage? && entries[j].AssistantMessage?
    requires entries[i].messageID != entries[j].messageID
    ensures ToolIDs(entries[i].content) !! ToolIDs(entries[j].content)
  {
    if i < j {
      TidyApart(entries, i, j);
    } else {
      TidyApart(entries, j, i);
    }
  }

  lemma FeasibleAtEnd(lines: seq<Line>, plan: Plan)
    requires MainOnly(lines) && InOrder(lines) && forall id :: plan(id) == Told(lines, id)
    ensures Feasible(lines, plan)
  {
    LinesTidy(lines);
    forall id, other | id != other ensures ToolIDs(plan(id)) !! ToolIDs(plan(other)) {
      ToldApart(lines, id, other);
    }
    forall id ensures DistinctTools(plan(id)) {
      ReaderTells(lines, id);
      if id in ReadAll(lines).assistantAt {
        TidyAt(History(lines), ReadAll(lines).assistantAt[id]);
      }
    }
  }

  lemma ToldSnoc(before: seq<Line>, line: Line, id: string)
    ensures Told(before + [line], id)
         == Told(before, id) + if line.AssistantLine? && line.messageID == id then line.content else []
  {
    assert (before + [line])[..|before|] == before;
  }

  lemma MainFirst(before: seq<Line>, line: Line)
    requires MainOnly(before + [line])
    ensures MainOnly(before)
  {
    forall i | 0 <= i < |before| ensures before[i] == (before + [line])[i] {
    }
  }

  lemma StillToCome(before: seq<Line>, line: Line, raws: seq<ContentBlock>, id: string, i: nat)
    requires MainOnly(before) && MainOnly(before + [line]) && Comes(before, line)
    requires Told(before + [line], id) <= raws && |Told(before, id)| <= i < |raws| && raws[i].ToolUse?
    requires i >= |Told(before + [line], id)| ==>
               raws[i].id !in ToolsOf(History(before + [line]))
                   && raws[i].id !in ResultsOf(History(before + [line])).Keys
    ensures raws[i].id !in ToolsOf(History(before)) && raws[i].id !in ResultsOf(History(before)).Keys
  {
    ToldSnoc(before, line, id);
    var told := Told(before + [line], id);
    if i < |told| {
      assert raws[i] == told[i] == line.content[i - |Told(before, id)|];
      assert raws[i] in line.content && raws[i].id in ToolIDs(line.content);
    } else {
      LineAdds(before, line);
    }
  }

  lemma FeasibleBefore(before: seq<Line>, line: Line, plan: Plan)
    requires MainOnly(before + [line]) && Comes(before, line) && Feasible(before + [line], plan)
    ensures Feasible(before, plan)
  {
    MainFirst(before, line);
    forall id ensures Told(before, id) <= plan(id) && DistinctTools(plan(id)) {
      ToldSnoc(before, line, id);
      assert Told(before, id) <= Told(before + [line], id) <= plan(id);
    }
    forall id, i | |Told(before, id)| <= i < |plan(id)| && plan(id)[i].ToolUse?
      ensures plan(id)[i].id !in ToolsOf(History(before)) && plan(id)[i].id !in ResultsOf(History(before)).Keys
    {
      StillToCome(before, line, plan(id), id, i);
    }
  }

  lemma FeasibleStep(lines: seq<Line>, k: nat, plan: Plan)
    requires k < |lines| && MainOnly(lines[..k + 1]) && InOrder(lines[..k + 1]) && Feasible(lines[..k + 1], plan)
    ensures MainOnly(lines[..k]) && InOrder(lines[..k]) && Feasible(lines[..k], plan)
  {
    var before, line := LastLine(lines[..k + 1]);
    assert before == lines[..k];
    FeasibleBefore(before, line, plan);
  }

  /** So it is at every point of an orderly run that ends as planned. */
  lemma {:induction false} AlwaysFeasible(lines: seq<Line>, k: nat, plan: Plan)
    requires k <= |lines| && MainOnly(lines) && InOrder(lines) && forall id :: plan(id) == Told(lines, id)
    ensures MainOnly(lines[..k]) && InOrder(lines[..k]) && Feasible(lines[..k], plan)
    decreases |lines| - k
  {
    if k == |lines| {
      assert lines[..k] == lines;
      FeasibleAtEnd(lines, plan);
    } else {
      AlwaysFeasible(lines, k + 1, plan);
      FeasibleStep(lines, k, plan);
    }
  }

  // ---------------------------------------------------- the drawn transcript

  lemma LineKnown(before: seq<Line>, line: Line)
    requires MainOnly(before + [line]) && Comes(before, line)
    requires forall i | 0 <= i < |History(before)| && History(before)[i].AssistantMessage? ::
               History(before)[i].messageID in ReadAll(before).assistantAt
    ensures forall i | 0 <= i < |History(before + [line])| && History(before + [line])[i].AssistantMessage? ::
              History(before + [line])[i].messageID in ReadAll(before + [line]).assistantAt
  {
    assert (before + [line])[..|before|] == before && (before + [line])[|before|] == line;
    match line {
      case AssistantLine(_, _, _, _) => HistoryGrows(before, line);
      case OtherLine(entries, _, _) =>
        HistoryAdds(before, line);
        NoMessages(History(before), entries);
      case ResultLine =>
        assert ReadAll(before + [line]) == ReadAll(before) && History(before + [line]) == History(before);
        forall i | 0 <= i < |History(before)| && History(before)[i].AssistantMessage?
          ensures History(before)[i].messageID in ReadAll(before + [line]).assistantAt
        {
        }
    }
  }

  lemma {:induction false} NoMessages(entries: seq<Event>, more: seq<Event>)
    requires FollowAll(entries, more)
    ensures forall i | 0 <= i < |more| :: !more[i].AssistantMessage?
  {
    if more != [] {
      NoMessages(entries, more[..|more| - 1]);
    }
  }

  lemma {:induction false} AllKnown(lines: seq<Line>)
    requires MainOnly(lines) && InOrder(lines)
    ensures forall i | 0 <= i < |History(lines)| && History(lines)[i].AssistantMessage? ::
              History(lines)[i].messageID in ReadAll(lines).assistantAt
    decreases |lines|
  {
    if lines != [] {
      var before, line := LastLine(lines);
      AllKnown(before);
      LineKnown(before, line);
    }
  }

  lemma {:induction false} DrawnFrom(entries: seq<Event>, results: Results)
    ensures forall item <- Draw(entries, results) :: item.Assistant? ==>
              exists i | 0 <= i < |entries| ::
                entries[i].AssistantMessage? && entries[i].messageID == item.id && |entries[i].content| == |item.parts|
  {
    if entries != [] {
      var n := |entries| - 1;
      DrawnFrom(entries[..n], results);
      forall item | item in Draw(entries, results) && item.Assistant?
        ensures exists i | 0 <= i < |entries| ::
                  entries[i].AssistantMessage? && entries[i].messageID == item.id
                      && |entries[i].content| == |item.parts|
      {
        if item in Draw(entries[..n], results) {
          var i :| 0 <= i < n && entries[..n][i].AssistantMessage? && entries[..n][i].messageID == item.id
                   && |entries[..n][i].content| == |item.parts|;
          assert entries[i] == entries[..n][i];
        } else {
          assert item in DrawEntry(entries[n], results);
        }
      }
    }
  }

  function Screen(lines: seq<Line>): seq<Item> { Draw(History(lines), ResultsOf(History(lines))) }

  lemma OneTold(lines: seq<Line>, i: nat)
    requires MainOnly(lines) && InOrder(lines) && i < |History(lines)| && History(lines)[i].AssistantMessage?
    ensures History(lines)[i].messageID in ReadAll(lines).assistantAt
    ensures History(lines)[i].content == Told(lines, History(lines)[i].messageID)
  {
    AllKnown(lines);
    ReaderTells(lines, History(lines)[i].messageID);
    OneEntryEach(lines, i);
  }

  /** A message has one entry. */
  lemma OneEntryEach(lines: seq<Line>, i: nat)
    requires MainOnly(lines) && InOrder(lines) && i < |History(lines)| && History(lines)[i].AssistantMessage?
    requires History(lines)[i].messageID in ReadAll(lines).assistantAt
    ensures ReadAll(lines).assistantAt[History(lines)[i].messageID] == i
  {
    var at := ReadAll(lines).assistantAt[History(lines)[i].messageID];
    ReaderTells(lines, History(lines)[i].messageID);
    LinesTidy(lines);
    if at < i {
      IdsApart(History(lines), at, i);
    } else if i < at {
      IdsApart(History(lines), i, at);
    }
  }

  lemma {:induction false} IdsApart(entries: seq<Event>, i: nat, j: nat)
    requires Tidy(entries) && i < j < |entries| && HasID(entries[i]) && HasID(entries[j])
    ensures entries[i].messageID != entries[j].messageID
  {
    var n := |entries| - 1;
    if j == n {
      assert entries[..n][i] in entries[..n];
      assert entries[i].messageID in IdsOf(entries[..n]);
    } else {
      IdsApart(entries[..n], i, j);
    }
  }

  /** Every message on screen is drawn with all it was told to hold. */
  lemma ScreenTold(lines: seq<Line>)
    requires MainOnly(lines) && InOrder(lines)
    ensures forall i | 0 <= i < |Screen(lines)| && Screen(lines)[i].Assistant? ::
              Screen(lines)[i].id in ReadAll(lines).assistantAt
              && |Screen(lines)[i].parts| == |Told(lines, Screen(lines)[i].id)|
  {
    var entries, drawn := History(lines), Screen(lines);
    DrawnFrom(entries, ResultsOf(entries));
    forall i | 0 <= i < |drawn| && drawn[i].Assistant?
      ensures drawn[i].id in ReadAll(lines).assistantAt && |drawn[i].parts| == |Told(lines, drawn[i].id)|
    {
      assert drawn[i] in drawn;
      var k: nat :| k < |entries| && entries[k].AssistantMessage? && entries[k].messageID == drawn[i].id
                    && |entries[k].content| == |drawn[i].parts|;
      OneTold(lines, k);
    }
  }

  /** Where a message is drawn. */
  lemma ScreenAt(lines: seq<Line>, id: string)
    requires MainOnly(lines) && InOrder(lines)
    ensures HasAssistant(Screen(lines), id) <==> id in ReadAll(lines).assistantAt
    ensures id in ReadAll(lines).assistantAt ==>
              Screen(lines)[AssistantAt(Screen(lines), id)]
              == Assistant(id, DrawBlocks(Told(lines, id), ResultsOf(History(lines))), false)
  {
    ScreenTold(lines);
    if id in ReadAll(lines).assistantAt {
      var at := ReadAll(lines).assistantAt[id];
      ReaderTells(lines, id);
      LinesTidy(lines);
      TidyAt(History(lines), at);
      assert Told(lines, id) + [] == Told(lines, id);
      GrownDrawn(History(lines), at, [], ResultsOf(History(lines)));
    }
  }

  // ----------------------------------------------------------- one more line

  lemma {:induction false} ResultsKnown(entries: seq<Event>, more: seq<Event>)
    ensures forall e <- more | e.ToolResult? :: e.toolUseID in ResultsOf(entries + more)
  {
    if more != [] {
      var n := |more| - 1;
      ResultsKnown(entries, more[..n]);
      assert more == more[..n] + [more[n]] && entries + more == entries + more[..n] + [more[n]];
      ShownSnoc(entries + more[..n], more[n]);
      assert more == more[..n] + [more[n]];
    }
  }

  lemma LineOpens(before: seq<Line>, line: Line, id: string)
    requires line.AssistantLine? && !line.sidechain && line.messageID != ""
    ensures id in ReadAll(before + [line]).assistantAt <==> id in ReadAll(before).assistantAt || id == line.messageID
  {
    assert (before + [line])[..|before|] == before;
  }

  lemma ScreenGrown(before: seq<Line>, line: Line, item: Item)
    requires MainOnly(before + [line]) && MainOnly(before) && InOrder(before) && Comes(before, line)
             && line.AssistantLine?
    requires line.messageID in ReadAll(before).assistantAt
    requires var whole := Told(before, line.messageID) + line.content;
             item == Assistant(line.messageID, DrawBlocks(whole, ResultsOf(History(before))), false)
    ensures HasAssistant(Screen(before), line.messageID)
    ensures Screen(before + [line]) == Screen(before)[AssistantAt(Screen(before), line.messageID) := item]
    ensures IdsOf(History(before + [line])) == IdsOf(History(before)) + {line.messageID}
  {
    var content, entries, at := line.content, History(before), ReadAll(before).assistantAt[line.messageID];
    assert (before + [line])[|before|] == line;
    LinesTidy(before);
    HistoryGrows(before, line);
    GrowsHere(before, line);
    GrownKeeps(entries, at, content);
    GrownKeepsResults(entries, at, content);
    GrownDrawn(entries, at, content, ResultsOf(entries));
    assert entries[at] in entries;
  }

  lemma DrawOpened(entries: seq<Event>, id: string, content: seq<ContentBlock>)
    ensures var e := AssistantMessage(id, content, "");
      && Draw(entries + [e], ResultsOf(entries + [e]))
         == Draw(entries, ResultsOf(entries)) + [Assistant(id, DrawBlocks(content, ResultsOf(entries)), false)]
      && IdsOf(entries + [e]) == IdsOf(entries) + {id}
  {
    ShownSnoc(entries, AssistantMessage(id, content, ""));
  }

  lemma ScreenOpened(before: seq<Line>, line: Line)
    requires line.AssistantLine? && !line.sidechain && line.messageID !in ReadAll(before).assistantAt
    ensures Screen(before + [line])
         == Screen(before) + [Assistant(line.messageID, DrawBlocks(line.content, ResultsOf(History(before))), false)]
    ensures IdsOf(History(before + [line])) == IdsOf(History(before)) + {line.messageID}
  {
    ReadSnoc(before, line);
    EntryOpens(ReadAll(before), line);
    DrawOpened(History(before), line.messageID, line.content);
  }

  /** What a message's line makes of the drawn transcript. */
  lemma ScreenGrows(before: seq<Line>, line: Line)
    requires MainOnly(before + [line]) && MainOnly(before) && InOrder(before) && Comes(before, line)
             && line.AssistantLine?
    ensures var id, drawn := line.messageID, Screen(before);
      var item := Assistant(id, DrawBlocks(Told(before, id) + line.content, ResultsOf(History(before))), false);
      && Screen(before + [line])
          == (if HasAssistant(drawn, id) then drawn[AssistantAt(drawn, id) := item] else drawn + [item])
      && IdsOf(History(before + [line])) == IdsOf(History(before)) + {id}
  {
    var id := line.messageID;
    var item := Assistant(id, DrawBlocks(Told(before, id) + line.content, ResultsOf(History(before))), false);
    ScreenAt(before, id);
    assert (before + [line])[|before|] == line;
    if id in ReadAll(before).assistantAt {
      ScreenGrown(before, line, item);
    } else {
      ReaderTells(before, id);
      assert Told(before, id) + line.content == line.content;
      ScreenOpened(before, line);
    }
  }

  lemma {:induction false} NoneWaits(entries: seq<Event>, results: Results)
    ensures forall item <- Draw(entries, results) :: item.User? ==> item.clientMessageID == ""
  {
    if entries != [] {
      NoneWaits(entries[..|entries| - 1], results);
    }
  }

  // ----------------------------------------------------- what stays as drawn

  /** The items are the ones they were, in their places, with others after them. */
  ghost predicate Extends(drawn: seq<Item>, after: seq<Item>) {
    |drawn| <= |after| && forall i | 0 <= i < |drawn| :: SameItem(after[i], drawn[i])
  }

  predicate SameItem(a: Item, b: Item) { a == b || (a.Assistant? && b.Assistant? && a.id == b.id) }

  lemma {:induction false} DrawAppend(entries: seq<Event>, more: seq<Event>, results: Results)
    ensures Draw(entries + more, results) == Draw(entries, results) + Draw(more, results)
  {
    if more == [] {
      assert entries + more == entries;
    } else {
      var n := |more| - 1;
      assert (entries + more)[..|entries + more| - 1] == entries + more[..n];
      DrawAppend(entries, more[..n], results);
      Associates(Draw(entries, results), Draw(more[..n], results), DrawEntry(more[n], results));
    }
  }

  lemma EntrySame(e: Event, a: Results, b: Results)
    ensures |DrawEntry(e, a)| == |DrawEntry(e, b)| && Extends(DrawEntry(e, a), DrawEntry(e, b))
  {
  }

  lemma SideBySide(a: seq<Item>, b: seq<Item>, x: seq<Item>, y: seq<Item>)
    requires |a| == |b| && Extends(a, b) && Extends(x, y)
    ensures Extends(a + x, b + y)
  {
  }

  lemma {:induction false} DrawSame(entries: seq<Event>, a: Results, b: Results)
    ensures |Draw(entries, a)| == |Draw(entries, b)| && Extends(Draw(entries, a), Draw(entries, b))
  {
    if entries != [] {
      var before, e := entries[..|entries| - 1], entries[|entries| - 1];
      DrawSame(before, a, b);
      EntrySame(e, a, b);
      SideBySide(Draw(before, a), Draw(before, b), DrawEntry(e, a), DrawEntry(e, b));
    }
  }

  lemma ExtendsPast(drawn: seq<Item>, same: seq<Item>, more: seq<Item>)
    requires |drawn| == |same| && Extends(drawn, same)
    ensures Extends(drawn, same + more)
  {
  }

  /** No line takes anything off or puts anything before what is drawn. */
  lemma ScreenExtends(before: seq<Line>, line: Line)
    requires MainOnly(before + [line]) && MainOnly(before) && InOrder(before) && Comes(before, line)
    ensures Extends(Screen(before), Screen(before + [line]))
  {
    assert (before + [line])[|before|] == line;
    match line {
      case AssistantLine(_, _, _, _) => ScreenGrows(before, line);
      case OtherLine(entries, _, _) => OtherExtends(before, line);
      case ResultLine => ReadSnoc(before, line);
    }
  }

  lemma OtherExtends(before: seq<Line>, line: Line)
    requires line.OtherLine? && !line.sidechain
    ensures Screen(before + [line]) == Draw(History(before), ResultsOf(History(before + [line])))
                                       + Draw(line.entries, ResultsOf(History(before + [line])))
    ensures |Draw(History(before), ResultsOf(History(before + [line])))| == |Screen(before)|
    ensures Extends(Screen(before), Screen(before + [line]))
  {
    var entries, results := History(before), ResultsOf(History(before + [line]));
    HistoryAdds(before, line);
    DrawAppend(entries, line.entries, results);
    DrawSame(entries, ResultsOf(entries), results);
    ExtendsPast(Screen(before), Draw(entries, results), Draw(line.entries, results));
  }

  lemma ExtendsOn(a: seq<Item>, b: seq<Item>, c: seq<Item>)
    requires Extends(a, b) && Extends(b, c)
    ensures Extends(a, c)
  {
    forall i | 0 <= i < |a| ensures SameItem(c[i], a[i]) {
      assert SameItem(b[i], a[i]) && SameItem(c[i], b[i]);
    }
  }

  lemma {:induction false} ScreensExtend(lines: seq<Line>, k: nat)
    requires MainOnly(lines) && InOrder(lines) && k <= |lines|
    ensures Extends(Screen(lines[..k]), Screen(lines))
    decreases |lines|
  {
    if k == |lines| {
      assert lines[..k] == lines;
    } else {
      var before, line := LastLine(lines);
      assert before == lines[..|lines| - 1] && before[..k] == lines[..k];
      ScreensExtend(before, k);
      ScreenExtends(before, line);
      ExtendsOn(Screen(lines[..k]), Screen(before), Screen(lines));
    }
  }

  lemma {:induction false} DrawsNoMessage(more: seq<Event>, results: Results)
    requires forall i | 0 <= i < |more| :: !more[i].AssistantMessage?
    ensures forall i | 0 <= i < |Draw(more, results)| :: !Draw(more, results)[i].Assistant?
  {
    if more != [] {
      DrawsNoMessage(more[..|more| - 1], results);
    }
  }

  lemma {:induction false} DrawsAll(more: seq<Event>, results: Results, i: nat)
    requires i < |more|
    ensures |DrawEntry(more[i], results)| <= |Draw(more, results)|
  {
    if i < |more| - 1 {
      DrawsAll(more[..|more| - 1], results, i);
    }
  }

  /** A line other than a message's that draws anything draws no message next. */
  lemma OtherComesNext(before: seq<Line>, line: Line, i: nat)
    requires line.OtherLine? && !line.sidechain && Comes(before, line)
    requires i < |line.entries| && DrawEntry(line.entries[i], map[]) != []
    ensures |Screen(before)| < |Screen(before + [line])| && !Screen(before + [line])[|Screen(before)|].Assistant?
  {
    var results := ResultsOf(History(before + [line]));
    OtherExtends(before, line);
    NoMessages(History(before), line.entries);
    DrawsNoMessage(line.entries, results);
    DrawsAll(line.entries, results, i);
    EntrySame(line.entries[i], map[], results);
  }

  lemma {:induction false} UsersDrawn(entries: seq<Event>, results: Results)
    ensures forall item <- Draw(entries, results) | item.User? ::
              exists i | 0 <= i < |entries| ::
                entries[i].UserMessage? && entries[i].messageID == item.id && UserBlocks(entries[i].blocks) != []
  {
    if entries != [] {
      var n := |entries| - 1;
      UsersDrawn(entries[..n], results);
      forall item | item in Draw(entries, results) && item.User?
        ensures exists i | 0 <= i < |entries| ::
                  entries[i].UserMessage? && entries[i].messageID == item.id && UserBlocks(entries[i].blocks) != []
      {
        if item in Draw(entries[..n], results) {
          var i :| 0 <= i < n && entries[..n][i].UserMessage? && entries[..n][i].messageID == item.id
                   && UserBlocks(entries[..n][i].blocks) != [];
          assert entries[i] == entries[..n][i];
        } else {
          assert item in DrawEntry(entries[n], results);
        }
      }
    }
  }

  /** A user message with nothing to see is not drawn, and nothing is under its id. */
  lemma HiddenUser(entries: seq<Event>, e: Event, results: Results)
    requires Tidy(entries) && e in entries && e.UserMessage? && UserBlocks(e.blocks) == []
    ensures forall item <- Draw(entries, results) :: item.User? ==> item.id != e.messageID
  {
    UsersDrawn(entries, results);
    var k: nat :| k < |entries| && entries[k] == e;
    forall item | item in Draw(entries, results) && item.User? ensures item.id != e.messageID {
      var i: nat :| i < |entries| && entries[i].UserMessage? && entries[i].messageID == item.id
                    && UserBlocks(entries[i].blocks) != [];
      if i < k {
        IdsApart(entries, i, k);
      } else if k < i {
        IdsApart(entries, k, i);
      }
    }
  }

  lemma EntryStays(before: seq<Line>, line: Line, e: Event)
    requires e in History(before) && !e.AssistantMessage?
    ensures e in History(before + [line])
  {
    var r := ReadAll(before);
    ReadSnoc(before, line);
    var k: nat :| k < |r.entries| && Events(r.entries)[k] == e;
    assert Events(ReadLine(r, line).entries)[k] == e;
  }
}
