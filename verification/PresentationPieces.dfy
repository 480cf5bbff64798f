/**
 What the rows of a transcript show and count, in terms of the transcript.
 */
module PresentationPieces {

  import opened Basics
  import opened Decimals
  import opened Transcript
  import opened ToolTree
  import opened Sieves
  import opened Presentation

  // ------------------------------------------------------------------ what shows

  /** A part of an item; an item without parts is one itself. */
  datatype Place = Place(item: Item, part: nat)

  function Places(items: seq<Item>): seq<Place> {
    if items == [] then [] else Places(items[..|items| - 1]) + PlacesIn(items[|items| - 1])
  }

  function PlacesIn(item: Item): seq<Place> {
    if item.Assistant? && (item.parts != [] || !item.streaming) then PartPlaces(item, |item.parts|)
    else [Place(item, 0)]
  }

  function PartPlaces(item: Item, n: nat): seq<Place> {
    if n == 0 then [] else PartPlaces(item, n - 1) + [Place(item, n - 1)]
  }

  ghost predicate HasInk(text: string) { exists c <- text :: !Space(c) }

  /** What a place shows: prose with something in it, a thought with something in it or
      that may still get it, a tool; of a message that has only begun that it thinks; and
      anything else as it is. */
  ghost predicate Pictures(place: Place, piece: Piece) {
    var item := place.item;
    if !item.Assistant? then piece == Whole(item)
    else if place.part >= |item.parts| then piece == Activity(ThinkingEntry(item.id + ":" + Decimal(0), "", true))
    else
      match item.parts[place.part]
      case Text(text, _) => HasInk(text) && piece == Prose(item.id + ":" + Decimal(place.part), text)
      case Thinking(text, final) =>
        && (HasInk(text) || item.streaming)
        && piece == Activity(ThinkingEntry(item.id + ":" + Decimal(place.part), text, item.streaming && !final))
      case ToolCall(tool) => piece == Activity(ToolEntry("tool:" + tool.id, tool))
  }

  lemma OnePlace(before: seq<Place>, shown: seq<Piece>, place: Place, more: seq<Piece>)
    requires Sieved(before, shown, Pictures)
    requires |more| <= 1 && (more == [] ==> forall piece :: !Pictures(place, piece))
    requires more != [] ==> Pictures(place, more[0])
    ensures Sieved(before + [place], shown + more, Pictures)
  {
    if more == [] {
      SkipsLast(before, shown, place, Pictures);
      assert shown + [] == shown;
    } else {
      KeepsLast(before, shown, place, more[0], Pictures);
      assert more == [more[0]];
    }
  }

  lemma BlockShows(item: Item, index: nat)
    requires item.Assistant? && index < |item.parts|
    ensures var more := VisibleBlock(item.id, item.streaming, index, item.parts[index]);
      && |more| <= 1 && (more == [] ==> forall piece :: !Pictures(Place(item, index), piece))
      && (more != [] ==> Pictures(Place(item, index), more[0]))
  {
  }

  lemma {:induction false} BlocksShow(item: Item, n: nat)
    requires item.Assistant? && n <= |item.parts|
    ensures Sieved(PartPlaces(item, n), VisibleBlocks(item.id, item.streaming, item.parts[..n]), Pictures)
  {
    if n == 0 {
      NothingSieved(Pictures);
    } else {
      BlocksShow(item, n - 1);
      BlockShows(item, n - 1);
      VisibleBlocksSnoc(item.id, item.streaming, item.parts, n - 1);
      OnePlace(PartPlaces(item, n - 1), VisibleBlocks(item.id, item.streaming, item.parts[..n - 1]),
               Place(item, n - 1), VisibleBlock(item.id, item.streaming, n - 1, item.parts[n - 1]));
    }
  }

  lemma ItemShows(item: Item)
    ensures Sieved(PlacesIn(item), VisibleItem(item), Pictures)
  {
    if item.Assistant? {
      assert item.parts[..|item.parts|] == item.parts;
      BlocksShow(item, |item.parts|);
      var shown := VisibleBlocks(item.id, item.streaming, item.parts);
      assert shown + [] == shown;
    }
    if !item.Assistant? || (item.parts == [] && item.streaming) {
      NothingSieved(Pictures);
      OnePlace([], [], Place(item, 0), VisibleItem(item));
      assert [] + VisibleItem(item) == VisibleItem(item) && [] + [Place(item, 0)] == [Place(item, 0)];
    }
  }

  /** The conversation shows what its items and their parts do, each in its place, and
      leaves out only what has nothing to see. */
  lemma {:induction false} PiecesShow(items: seq<Item>)
    ensures Sieved(Places(items), Presentation.Visible(items), Pictures)
  {
    if items == [] {
      NothingSieved(Pictures);
    } else {
      var before, last := items[..|items| - 1], items[|items| - 1];
      PiecesShow(before);
      ItemShows(last);
      SievesJoin(Places(before), Presentation.Visible(before), PlacesIn(last), VisibleItem(last), Pictures);
    }
  }

  // ---------------------------------------------------------------- what is counted

  function Bares(tools: seq<Tool>): (r: seq<Tool>)
    ensures |r| == |tools| && forall i | 0 <= i < |tools| :: r[i] == Bare(tools[i])
  {
    seq(|tools|, i requires 0 <= i < |tools| => Bare(tools[i]))
  }

  lemma BaresJoin(a: seq<Tool>, b: seq<Tool>)
    ensures Bares(a + b) == Bares(a) + Bares(b)
  {
  }

  lemma {:induction false} ToolListJoin(a: seq<Item>, b: seq<Item>)
    ensures ToolList(a + b) == ToolList(a) + ToolList(b)
  {
    if a == [] {
      assert a + b == b;
    } else {
      assert (a + b)[1..] == a[1..] + b && (a + b)[0] == a[0];
      ToolListJoin(a[1..], b);
      Associates(if a[0].Assistant? then PartTools(a[0].parts) else [], ToolList(a[1..]), ToolList(b));
    }
  }

  lemma {:induction false} PartToolsJoin(a: seq<UiBlock>, b: seq<UiBlock>)
    ensures PartTools(a + b) == PartTools(a) + PartTools(b)
  {
    if a == [] {
      assert a + b == b;
    } else {
      assert (a + b)[1..] == a[1..] + b && (a + b)[0] == a[0];
      PartToolsJoin(a[1..], b);
      Associates(PartTools([a[0]]), PartTools(a[1..]), PartTools(b));
      OnePart(a[0], a[1..]);
      OnePart((a + b)[0], (a + b)[1..]);
      assert [a[0]] + a[1..] == a && [(a + b)[0]] + (a + b)[1..] == a + b;
    }
  }

  lemma OnePart(block: UiBlock, rest: seq<UiBlock>)
    ensures PartTools([block] + rest) == PartTools([block]) + PartTools(rest)
    ensures PartTools([block]) == if block.ToolCall? then [Bare(block.tool)] + ToolList(block.tool.children) else []
  {
    assert ([block] + rest)[1..] == rest && [block][1..] == [];
    assert PartTools([]) == [];
  }

  /** The tools counted are those an event can reach. */
  lemma {:induction false} ToolsInTree(items: seq<Item>)
    ensures Bares(ToolsIn(items)) == ToolList(items)
    decreases items, 0
  {
    if items != [] {
      var before, last := items[..|items| - 1], items[|items| - 1];
      ToolsInTree(before);
      ToolListJoin(before, [last]);
      assert items == before + [last] && [last][1..] == [];
      BaresJoin(ToolsIn(before), ToolsUnder(last));
      ToolsUnderItem(last);
    }
  }

  lemma {:induction false} ToolsUnderItem(item: Item)
    ensures Bares(ToolsUnder(item)) == if item.Assistant? then PartTools(item.parts) else []
    decreases item
  {
    if item.Assistant? {
      ToolsAmongParts(item.parts);
    }
  }

  lemma {:induction false} ToolsAmongParts(parts: seq<UiBlock>)
    ensures Bares(ToolsAmong(parts)) == PartTools(parts)
    decreases parts, 0
  {
    if parts != [] {
      var before, last := parts[..|parts| - 1], parts[|parts| - 1];
      ToolsAmongParts(before);
      PartToolsJoin(before, [last]);
      assert parts == before + [last];
      BaresJoin(ToolsAmong(before), BlockTools(last));
      ToolsOfBlock(last);
    }
  }

  lemma {:induction false} ToolsOfBlock(block: UiBlock)
    ensures Bares(BlockTools(block)) == PartTools([block])
    decreases block
  {
    OnePart(block, []);
    if block.ToolCall? {
      ToolsOfTool(block.tool);
    }
  }

  lemma {:induction false} ToolsOfTool(tool: Tool)
    ensures Bares(ToolsOf(tool)) == [Bare(tool)] + ToolList(tool.children)
    decreases tool
  {
    ToolsInTree(tool.children);
    BaresJoin([tool], ToolsIn(tool.children));
  }

  // -------------------------------------------------------------------- alerts

  /** The alerts of a transcript, in document order, at any depth. */
  function AlertList(items: seq<Item>): seq<Item>
    decreases items
  {
    if items == [] then []
    else
      (if items[0].Alert? then [items[0]] else if items[0].Assistant? then PartAlerts(items[0].parts) else [])
      + AlertList(items[1..])
  }

  function PartAlerts(parts: seq<UiBlock>): seq<Item>
    decreases parts
  {
    if parts == [] then []
    else
      (if !parts[0].ToolCall? then []
       else assert (parts[0] decreases to parts[0].tool); AlertList(parts[0].tool.children))
      + PartAlerts(parts[1..])
  }

  lemma {:induction false} AlertListJoin(a: seq<Item>, b: seq<Item>)
    ensures AlertList(a + b) == AlertList(a) + AlertList(b)
  {
    if a == [] {
      assert a + b == b;
    } else {
      assert (a + b)[1..] == a[1..] + b && (a + b)[0] == a[0];
      AlertListJoin(a[1..], b);
      var first := if a[0].Alert? then [a[0]] else if a[0].Assistant? then PartAlerts(a[0].parts) else [];
      Associates(first, AlertList(a[1..]), AlertList(b));
    }
  }

  lemma OnePartAlerts(block: UiBlock, rest: seq<UiBlock>)
    ensures PartAlerts([block] + rest) == PartAlerts([block]) + PartAlerts(rest)
    ensures PartAlerts([block]) == if block.ToolCall? then AlertList(block.tool.children) else []
  {
    assert ([block] + rest)[1..] == rest && [block][1..] == [];
    assert PartAlerts([]) == [];
  }

  lemma {:induction false} PartAlertsJoin(a: seq<UiBlock>, b: seq<UiBlock>)
    ensures PartAlerts(a + b) == PartAlerts(a) + PartAlerts(b)
  {
    if a == [] {
      assert a + b == b;
    } else {
      assert (a + b)[1..] == a[1..] + b && (a + b)[0] == a[0];
      PartAlertsJoin(a[1..], b);
      Associates(PartAlerts([a[0]]), PartAlerts(a[1..]), PartAlerts(b));
      OnePartAlerts(a[0], a[1..]);
      OnePartAlerts((a + b)[0], (a + b)[1..]);
      assert [a[0]] + a[1..] == a && [(a + b)[0]] + (a + b)[1..] == a + b;
    }
  }

  lemma {:induction false} AlertsInTree(items: seq<Item>)
    ensures AlertsIn(items) == |AlertList(items)|
    decreases items, 0
  {
    if items != [] {
      var before, last := items[..|items| - 1], items[|items| - 1];
      AlertsInTree(before);
      AlertListJoin(before, [last]);
      assert items == before + [last] && [last][1..] == [];
      if last.Assistant? {
        AlertsAmongParts(last.parts);
      }
    }
  }

  lemma {:induction false} AlertsAmongParts(parts: seq<UiBlock>)
    ensures AlertsAmong(parts) == |PartAlerts(parts)|
    decreases parts, 0
  {
    if parts != [] {
      var before, last := parts[..|parts| - 1], parts[|parts| - 1];
      AlertsAmongParts(before);
      PartAlertsJoin(before, [last]);
      OnePartAlerts(last, []);
      assert parts == before + [last];
      if last.ToolCall? {
        assert (last decreases to last.tool);
        AlertsInTree(last.tool.children);
        assert AlertsOf(last.tool) == AlertsIn(last.tool.children);
      }
    }
  }

  // -------------------------------------------------------------- a group's count

  predicate Shell(tool: Tool, same: Tool) { same == tool && tool.kind == "shell" }
  predicate Failing(tool: Tool, same: Tool) { same == tool && tool.result.Some? && tool.result.value.isError }
  predicate Unended(tool: Tool, same: Tool) { same == tool && tool.result == None }

  ghost predicate Counts(tools: seq<Tool>, count: nat, which: (Tool, Tool) -> bool) {
    exists some: seq<Tool> :: Sieved(tools, some, which) && |some| == count
  }

  lemma CountsNone(which: (Tool, Tool) -> bool)
    ensures Counts([], 0, which)
  {
    NothingSieved(which);
    var none: seq<Tool> := [];
    assert Sieved([], none, which) && |none| == 0;
  }

  lemma CountsMore(tools: seq<Tool>, count: nat, tool: Tool, which: (Tool, Tool) -> bool)
    requires Counts(tools, count, which) && forall t, s :: which(t, s) ==> s == t
    ensures Counts(tools + [tool], if which(tool, tool) then count + 1 else count, which)
  {
    var some: seq<Tool> :| Sieved(tools, some, which) && |some| == count;
    if which(tool, tool) {
      KeepsLast(tools, some, tool, tool, which);
      assert Sieved(tools + [tool], some + [tool], which) && |some + [tool]| == count + 1;
    } else {
      SkipsLast(tools, some, tool, which);
    }
  }

  lemma {:induction false} CountIsSieved(tools: seq<Tool>, q: Quality, which: (Tool, Tool) -> bool)
    requires forall t, s :: which(t, s) ==> s == t
    requires forall t: Tool :: Has(t, q) <==> which(t, t)
    ensures Counts(tools, Count(tools, q), which)
  {
    if tools == [] {
      CountsNone(which);
    } else {
      var before, last := tools[..|tools| - 1], tools[|tools| - 1];
      CountIsSieved(before, q, which);
      assert tools == before + [last];
      CountsMore(before, Count(before, q), last, which);
    }
  }

  lemma {:induction false} BareCounts(tools: seq<Tool>, q: Quality)
    ensures Count(Bares(tools), q) == Count(tools, q)
  {
    if tools != [] {
      var before := tools[..|tools| - 1];
      BareCounts(before, q);
      assert Bares(tools)[..|before|] == Bares(before);
    }
  }

  /** The blocks a group is of. */
  function BlocksOf(entries: seq<ActivityEntry>): seq<UiBlock> {
    if entries == [] then []
    else
      BlocksOf(entries[..|entries| - 1])
      + match entries[|entries| - 1]
        case ThinkingEntry(_, text, streaming) => [Thinking(text, !streaming)]
        case ToolEntry(_, tool) => [ToolCall(tool)]
  }

  lemma {:induction false} GroupInTree(entries: seq<ActivityEntry>)
    ensures Bares(GroupTools(entries)) == PartTools(BlocksOf(entries))
    ensures GroupAlerts(entries) == |PartAlerts(BlocksOf(entries))|
  {
    if entries != [] {
      var before, last := entries[..|entries| - 1], entries[|entries| - 1];
      GroupInTree(before);
      var block := if last.ToolEntry? then ToolCall(last.tool) else Thinking(last.text, !last.streaming);
      PartToolsJoin(BlocksOf(before), [block]);
      PartAlertsJoin(BlocksOf(before), [block]);
      BaresJoin(GroupTools(before), EntryTools(last));
      ToolsOfBlock(block);
      OnePartAlerts(block, []);
      if last.ToolEntry? {
        AlertsInTree(last.tool.children);
      }
    }
  }

  /** A group counts the tools of its blocks at any depth, those that are commands, those
      that failed and the alerts below, and those that have not ended; and it runs if the
      turn is on and a call or a thought of its own has not ended. */
  lemma GroupCounts(entries: seq<ActivityEntry>, active: bool)
    ensures var s, tools := GroupStats(entries, active), PartTools(BlocksOf(entries));
      && s.tools == |tools| && Counts(tools, s.commands, Shell) && Counts(tools, s.pending, Unended)
      && s.failed >= |PartAlerts(BlocksOf(entries))|
      && Counts(tools, s.failed - |PartAlerts(BlocksOf(entries))|, Failing)
      && (s.running <==>
            active && exists i | 0 <= i < |entries| ::
              (entries[i].ToolEntry? && entries[i].tool.result == None)
              || (entries[i].ThinkingEntry? && entries[i].streaming))
  {
    GroupInTree(entries);
    var tools := Bares(GroupTools(entries));
    CountIsSieved(tools, Commands, Shell);
    CountIsSieved(tools, Failed, Failing);
    CountIsSieved(tools, Pending, Unended);
    BareCounts(GroupTools(entries), Commands);
    BareCounts(GroupTools(entries), Failed);
    BareCounts(GroupTools(entries), Pending);
    RunningIs(entries);
  }

  lemma RunningIs(entries: seq<ActivityEntry>)
    ensures SomeRuns(entries) <==>
              exists i | 0 <= i < |entries| ::
                (entries[i].ToolEntry? && entries[i].tool.result == None)
                || (entries[i].ThinkingEntry? && entries[i].streaming)
  {
    if SomeRuns(entries) {
      var i :| 0 <= i < |entries| && Runs(entries[i]);
      assert entries[i].ToolEntry? || entries[i].ThinkingEntry?;
    }
  }
}
