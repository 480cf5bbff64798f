/**
 The transcript as rows: items as they are, visible prose, and runs of thinking
 and tool calls gathered into one activity group each, with its statistics.
 */
module Presentation {

  import opened Basics
  import opened Decimals
  import opened Transcript

  datatype ActivityEntry =
    | ThinkingEntry(id: string, text: string, streaming: bool)
    | ToolEntry(id: string, tool: Tool)

  datatype Row =
    | ItemRow(item: Item)
    | TextRow(id: string, text: string)
    | ActivityRow(id: string, entries: seq<ActivityEntry>)

  // ------------------------------------------------------------- what shows

  /** White space as the browser trims it. */
  predicate Space(c: char) {
    c in {' ', '\t', '\n', '\r', '\U{0B}', '\U{0C}', '\U{A0}', '\U{1680}', '\U{2028}', '\U{2029}', '\U{202F}',
          '\U{205F}', '\U{3000}', '\U{FEFF}'} || '\U{2000}' <= c <= '\U{200A}'
  }

  predicate Blank(text: string) { forall c <- text :: Space(c) }

  /** One thing the conversation shows, in the order it shows them. */
  datatype Piece = Whole(item: Item) | Prose(id: string, text: string) | Activity(entry: ActivityEntry)

  function PieceID(itemID: string, index: nat): string { itemID + ":" + Decimal(index) }

  function VisibleBlock(itemID: string, streaming: bool, index: nat, block: UiBlock): seq<Piece> {
    match block
    case Text(text, _) => if Blank(text) then [] else [Prose(PieceID(itemID, index), text)]
    case Thinking(text, final) =>
      if Blank(text) && !streaming then []
      else [Activity(ThinkingEntry(PieceID(itemID, index), text, streaming && !final))]
    case ToolCall(tool) => [Activity(ToolEntry("tool:" + tool.id, tool))]
  }

  function VisibleBlocks(itemID: string, streaming: bool, parts: seq<UiBlock>): seq<Piece> {
    if parts == [] then []
    else
      var last := |parts| - 1;
      VisibleBlocks(itemID, streaming, parts[..last]) + VisibleBlock(itemID, streaming, last, parts[last])
  }

  function VisibleItem(item: Item): seq<Piece> {
    if !item.Assistant? then [Whole(item)]
    else
      VisibleBlocks(item.id, item.streaming, item.parts)
      + if item.streaming && item.parts == [] then [Activity(ThinkingEntry(PieceID(item.id, 0), "", true))] else []
  }

  function Visible(items: seq<Item>): seq<Piece> {
    if items == [] then [] else Visible(items[..|items| - 1]) + VisibleItem(items[|items| - 1])
  }

  // ------------------------------------------------------------ what rows say

  function Activities(entries: seq<ActivityEntry>): (r: seq<Piece>)
    ensures |r| == |entries| && forall i | 0 <= i < |r| :: r[i] == Activity(entries[i])
  {
    if entries == [] then [] else Activities(entries[..|entries| - 1]) + [Activity(entries[|entries| - 1])]
  }

  function RowPieces(row: Row): seq<Piece> {
    match row
    case ItemRow(item) => [Whole(item)]
    case TextRow(id, text) => [Prose(id, text)]
    case ActivityRow(_, entries) => Activities(entries)
  }

  function Expand(rows: seq<Row>): seq<Piece> {
    if rows == [] then [] else Expand(rows[..|rows| - 1]) + RowPieces(rows[|rows| - 1])
  }

  /** Whether a row may follow another: an activity group is not empty, bears the
      id of its first entry, and does not follow another group. */
  predicate Follows(rows: seq<Row>, row: Row) {
    row.ActivityRow? ==>
      && row.entries != [] && row.id == row.entries[0].id
      && (rows != [] ==> !rows[|rows| - 1].ActivityRow?)
  }

  predicate Canonical(rows: seq<Row>) {
    rows == [] || (Canonical(rows[..|rows| - 1]) && Follows(rows[..|rows| - 1], rows[|rows| - 1]))
  }

  lemma {:induction false} GroupsStandApart(rows: seq<Row>, i: nat)
    requires Canonical(rows) && i < |rows| && rows[i].ActivityRow?
    ensures rows[i].entries != [] && rows[i].id == rows[i].entries[0].id
    ensures i > 0 ==> !rows[i - 1].ActivityRow?
  {
    if i < |rows| - 1 {
      GroupsStandApart(rows[..|rows| - 1], i);
    }
  }

  /** Puts one more piece at the end. */
  function Placed(rows: seq<Row>, piece: Piece): seq<Row> {
    match piece
    case Whole(item) => rows + [ItemRow(item)]
    case Prose(id, text) => rows + [TextRow(id, text)]
    case Activity(entry) =>
      var last := |rows| - 1;
      if rows != [] && rows[last].ActivityRow?
      then rows[..last] + [ActivityRow(rows[last].id, rows[last].entries + [entry])]
      else rows + [ActivityRow(entry.id, [entry])]
  }

  lemma Snoc(rows: seq<Row>, row: Row)
    ensures Expand(rows + [row]) == Expand(rows) + RowPieces(row)
    ensures Canonical(rows) && Follows(rows, row) ==> Canonical(rows + [row])
  {
    assert (rows + [row])[..|rows|] == rows;
  }

  lemma ActivitiesSnoc(entries: seq<ActivityEntry>, entry: ActivityEntry)
    ensures Activities(entries + [entry]) == Activities(entries) + [Activity(entry)]
  {
  }

  lemma JoinedExpands(rows: seq<Row>, entry: ActivityEntry)
    requires Canonical(rows) && rows != [] && rows[|rows| - 1].ActivityRow?
    ensures Canonical(Placed(rows, Activity(entry)))
    ensures Expand(Placed(rows, Activity(entry))) == Expand(rows) + [Activity(entry)]
  {
    var before, row := rows[..|rows| - 1], rows[|rows| - 1];
    Snoc(before, ActivityRow(row.id, row.entries + [entry]));
    ActivitiesSnoc(row.entries, entry);
    Associates(Expand(before), Activities(row.entries), [Activity(entry)]);
  }

  lemma PlacedExpands(rows: seq<Row>, piece: Piece)
    requires Canonical(rows)
    ensures Canonical(Placed(rows, piece)) && Expand(Placed(rows, piece)) == Expand(rows) + [piece]
  {
    match piece {
      case Whole(item) => Snoc(rows, ItemRow(item));
      case Prose(id, text) => Snoc(rows, TextRow(id, text));
      case Activity(entry) =>
        if rows != [] && rows[|rows| - 1].ActivityRow? {
          JoinedExpands(rows, entry);
        } else {
          BegunExpands(rows, entry);
        }
    }
  }

  lemma BegunExpands(rows: seq<Row>, entry: ActivityEntry)
    requires Canonical(rows) && !(rows != [] && rows[|rows| - 1].ActivityRow?)
    ensures Canonical(Placed(rows, Activity(entry)))
    ensures Expand(Placed(rows, Activity(entry))) == Expand(rows) + [Activity(entry)]
  {
    Snoc(rows, ActivityRow(entry.id, [entry]));
    ActivitiesSnoc([], entry);
    assert [] + [entry] == [entry] && Activities([]) + [Activity(entry)] == [Activity(entry)];
  }

  /** What is shown and the shape of the rows leave no choice of rows. */
  lemma {:induction false} RowsDetermined(a: seq<Row>, b: seq<Row>)
    requires Canonical(a) && Canonical(b) && Expand(a) == Expand(b)
    ensures a == b
    decreases |a|
  {
    if a == [] || b == [] {
      if a != [] {
        SomethingShows(a);
      }
      if b != [] {
        SomethingShows(b);
      }
    } else {
      LastRowApart(a, b);
      RowsDetermined(a[..|a| - 1], b[..|b| - 1]);
      assert a == a[..|a| - 1] + [a[|a| - 1]] && b == b[..|b| - 1] + [b[|b| - 1]];
    }
  }

  lemma LastRowApart(a: seq<Row>, b: seq<Row>)
    requires Canonical(a) && Canonical(b) && Expand(a) == Expand(b) && a != [] && b != []
    ensures a[|a| - 1] == b[|b| - 1] && Expand(a[..|a| - 1]) == Expand(b[..|b| - 1])
    ensures Canonical(a[..|a| - 1]) && Canonical(b[..|b| - 1])
  {
    SameLastRow(a, b);
    Cancel(Expand(a[..|a| - 1]), Expand(b[..|b| - 1]), RowPieces(a[|a| - 1]));
  }

  lemma SomethingShows(rows: seq<Row>)
    requires Canonical(rows) && rows != []
    ensures Expand(rows) != []
  {
    assert |RowPieces(rows[|rows| - 1])| > 0;
  }

  predicate EndsInActivity(pieces: seq<Piece>) { pieces != [] && pieces[|pieces| - 1].Activity? }

  /** The pieces of the last row are the end of what is shown; a group takes all
      the activity there. */
  lemma EndsInRow(rows: seq<Row>)
    requires Canonical(rows) && rows != []
    ensures var before, row := Expand(rows[..|rows| - 1]), rows[|rows| - 1];
      && Expand(rows) == before + RowPieces(row) && RowPieces(row) != []
      && (row.ActivityRow? ==> !EndsInActivity(before))
  {
    var n := |rows| - 1;
    var before := rows[..n];
    if n > 0 && !before[n - 1].ActivityRow? {
      assert Expand(before) == Expand(before[..n - 1]) + RowPieces(before[n - 1]);
    }
  }

  lemma LongerEndsInActivity(p: seq<Piece>, x: seq<ActivityEntry>, q: seq<Piece>, y: seq<ActivityEntry>)
    requires p + Activities(x) == q + Activities(y) && |p| < |q|
    ensures EndsInActivity(q)
  {
    assert q[|q| - 1] == (p + Activities(x))[|q| - 1] == Activities(x)[|q| - 1 - |p|];
  }

  /** Two ways to end in activity alone with none before it are one. */
  lemma SameGroup(p: seq<Piece>, x: seq<ActivityEntry>, q: seq<Piece>, y: seq<ActivityEntry>)
    requires p + Activities(x) == q + Activities(y) && !EndsInActivity(p) && !EndsInActivity(q)
    ensures x == y
  {
    if |p| < |q| {
      LongerEndsInActivity(p, x, q, y);
    } else if |q| < |p| {
      LongerEndsInActivity(q, y, p, x);
    }
    forall i | 0 <= i < |x| ensures x[i] == y[i] {
      assert (p + Activities(x))[|p| + i] == Activities(x)[i];
      assert (q + Activities(y))[|q| + i] == Activities(y)[i];
    }
  }

  lemma SameLastRow(a: seq<Row>, b: seq<Row>)
    requires Canonical(a) && Canonical(b) && a != [] && b != [] && Expand(a) == Expand(b)
    ensures a[|a| - 1] == b[|b| - 1]
  {
    var x, y := a[|a| - 1], b[|b| - 1];
    EndsInRow(a);
    EndsInRow(b);
    var last := Expand(a)[|Expand(a)| - 1];
    assert last == RowPieces(x)[|RowPieces(x)| - 1];
    assert last == RowPieces(y)[|RowPieces(y)| - 1];
    if x.ActivityRow? {
      assert y.ActivityRow?;
      SameGroup(Expand(a[..|a| - 1]), x.entries, Expand(b[..|b| - 1]), y.entries);
    }
  }

  // ------------------------------------------------------------- the method

  method Act(rows: seq<Row>, entry: ActivityEntry) returns (r: seq<Row>)
    ensures r == Placed(rows, Activity(entry))
  {
    var last := |rows| - 1;
    if last >= 0 && rows[last].ActivityRow? {
      r := rows[last := ActivityRow(rows[last].id, rows[last].entries + [entry])];
      assert r == Placed(rows, Activity(entry));
    } else {
      r := rows + [ActivityRow(entry.id, [entry])];
    }
  }

  /** The rows once a block is presented. */
  method PresentBlock(before: seq<Row>, itemID: string, streaming: bool, index: nat,
      block: UiBlock) returns (rows: seq<Row>)
    requires Canonical(before)
    ensures Expand(rows) == Expand(before) + VisibleBlock(itemID, streaming, index, block) && Canonical(rows)
  {
    rows := before;
    var id := PieceID(itemID, index);
    match block {
      case Text(text, _) =>
        if !Blank(text) {
          PlacedExpands(rows, Prose(id, text));
          rows := rows + [TextRow(id, text)];
        }
      case Thinking(text, final) =>
        if !Blank(text) || streaming {
          var entry := ThinkingEntry(id, text, streaming && !final);
          PlacedExpands(rows, Activity(entry));
          rows := Act(rows, entry);
        }
      case ToolCall(tool) =>
        var entry := ToolEntry("tool:" + tool.id, tool);
        PlacedExpands(rows, Activity(entry));
        rows := Act(rows, entry);
    }
  }

  lemma VisibleBlocksSnoc(itemID: string, streaming: bool, parts: seq<UiBlock>, index: nat)
    requires index < |parts|
    ensures VisibleBlocks(itemID, streaming, parts[..index + 1])
         == VisibleBlocks(itemID, streaming, parts[..index]) + VisibleBlock(itemID, streaming, index, parts[index])
  {
    assert parts[..index + 1][..index] == parts[..index];
  }

  method PresentBlocks(before: seq<Row>, itemID: string, streaming: bool, parts: seq<UiBlock>) returns (rows: seq<Row>)
    requires Canonical(before)
    ensures Expand(rows) == Expand(before) + VisibleBlocks(itemID, streaming, parts) && Canonical(rows)
  {
    rows := before;
    ghost var shown: seq<Piece> := [];
    for index := 0 to |parts|
      invariant Canonical(rows) && Expand(rows) == Expand(before) + shown
      invariant shown == VisibleBlocks(itemID, streaming, parts[..index])
    {
      ghost var more := VisibleBlock(itemID, streaming, index, parts[index]);
      rows := PresentBlock(rows, itemID, streaming, index, parts[index]);
      VisibleBlocksSnoc(itemID, streaming, parts, index);
      Associates(Expand(before), shown, more);
      shown := shown + more;
    }
    assert parts[..|parts|] == parts;
  }

  method PresentItem(before: seq<Row>, item: Item) returns (rows: seq<Row>)
    requires Canonical(before)
    ensures Expand(rows) == Expand(before) + VisibleItem(item) && Canonical(rows)
  {
    if !item.Assistant? {
      PlacedExpands(before, Whole(item));
      return before + [ItemRow(item)];
    }
    rows := PresentBlocks(before, item.id, item.streaming, item.parts);
    if item.streaming && |item.parts| == 0 {
      var entry := ThinkingEntry(PieceID(item.id, 0), "", true);
      PlacedExpands(rows, Activity(entry));
      rows := Act(rows, entry);
    }
  }

  /** The rows of a transcript: what is visible, grouped. */
  method PresentTranscript(items: seq<Item>) returns (rows: seq<Row>)
    ensures Expand(rows) == Visible(items) && Canonical(rows)
  {
    rows := [];
    for i := 0 to |items|
      invariant Expand(rows) == Visible(items[..i]) && Canonical(rows)
    {
      assert items[..i + 1][..i] == items[..i];
      rows := PresentItem(rows, items[i]);
    }
    assert items[..|items|] == items;
  }

  // -------------------------------------------------------------- statistics

  /** Every tool of a tree, each once, parents before their children. */
  function ToolsOf(tool: Tool): seq<Tool>
    decreases tool
  {
    [tool] + ToolsIn(tool.children)
  }

  function ToolsIn(items: seq<Item>): seq<Tool>
    decreases items, 0
  {
    if items == [] then []
    else ToolsIn(items[..|items| - 1]) + ToolsUnder(items[|items| - 1])
  }

  function ToolsUnder(item: Item): seq<Tool>
    decreases item
  {
    if item.Assistant? then ToolsAmong(item.parts) else []
  }

  function ToolsAmong(parts: seq<UiBlock>): seq<Tool>
    decreases parts, 0
  {
    if parts == [] then []
    else ToolsAmong(parts[..|parts| - 1]) + BlockTools(parts[|parts| - 1])
  }

  function BlockTools(block: UiBlock): seq<Tool>
    decreases block
  {
    if block.ToolCall? then ToolsOf(block.tool) else []
  }

  /** How many alerts there are under a tool, at any depth. */
  function AlertsOf(tool: Tool): nat
    decreases tool
  {
    AlertsIn(tool.children)
  }

  function AlertsIn(items: seq<Item>): nat
    decreases items, 0
  {
    if items == [] then 0
    else AlertsIn(items[..|items| - 1]) + AlertsUnder(items[|items| - 1])
  }

  function AlertsUnder(item: Item): nat
    decreases item
  {
    if item.Assistant? then AlertsAmong(item.parts) else if item.Alert? then 1 else 0
  }

  function AlertsAmong(parts: seq<UiBlock>): nat
    decreases parts, 0
  {
    if parts == [] then 0
    else AlertsAmong(parts[..|parts| - 1]) + BlockAlerts(parts[|parts| - 1])
  }

  function BlockAlerts(block: UiBlock): nat
    decreases block
  {
    if block.ToolCall? then AlertsOf(block.tool) else 0
  }

  datatype Quality = Commands | Failed | Pending | Finished

  predicate Has(tool: Tool, q: Quality) {
    match q
    case Commands => tool.kind == "shell"
    case Failed => tool.result.Some? && tool.result.value.isError
    case Pending => tool.result.None?
    case Finished => tool.result.Some?
  }

  function Count(tools: seq<Tool>, q: Quality): nat {
    if tools == [] then 0
    else Count(tools[..|tools| - 1], q) + if Has(tools[|tools| - 1], q) then 1 else 0
  }

  lemma {:induction false} CountJoin(a: seq<Tool>, b: seq<Tool>, q: Quality)
    ensures Count(a + b, q) == Count(a, q) + Count(b, q)
  {
    if b == [] {
      assert a + b == a;
    } else {
      CountJoin(a, b[..|b| - 1], q);
      assert (a + b)[..|a + b| - 1] == a + b[..|b| - 1];
    }
  }

  datatype Stats = Stats(tools: nat, commands: nat, failed: nat, pending: nat, running: bool)

  /** The statistics with some more tools and alerts in them. */
  function Added(s: Stats, tools: seq<Tool>, alerts: nat, running: bool): Stats {
    Stats(s.tools + |tools|, s.commands + Count(tools, Commands), s.failed + Count(tools, Failed) + alerts,
          s.pending + Count(tools, Pending), s.running || running)
  }

  lemma AddedJoin(s: Stats, a: seq<Tool>, m: nat, p: bool, b: seq<Tool>, n: nat, q: bool)
    ensures Added(Added(s, a, m, p), b, n, q) == Added(s, a + b, m + n, p || q)
  {
    CountJoin(a, b, Commands);
    CountJoin(a, b, Failed);
    CountJoin(a, b, Pending);
  }

  function One(s: Stats, tool: Tool, running: bool): Stats {
    Stats(s.tools + 1, s.commands + if Has(tool, Commands) then 1 else 0,
          s.failed + if Has(tool, Failed) then 1 else 0,
          s.pending + if Has(tool, Pending) then 1 else 0, s.running || running)
  }

  lemma AddedOne(s: Stats, tool: Tool, running: bool)
    ensures Added(s, [tool], 0, running) == One(s, tool, running)
  {
    assert [tool][..|[tool]| - 1] == [];
    assert forall q :: Count([tool], q) == Count([tool][..|[tool]| - 1], q) + if Has(tool, q) then 1 else 0;
  }

  lemma ToolGrows(s: Stats, tool: Tool, running: bool)
    ensures Added(One(s, tool, running), ToolsIn(tool.children), AlertsIn(tool.children), false)
         == Added(s, ToolsOf(tool), AlertsOf(tool), running)
  {
    AddedOne(s, tool, running);
    AddedJoin(s, [tool], 0, running, ToolsIn(tool.children), AlertsIn(tool.children), false);
  }

  lemma ChildrenGrow(s: Stats, items: seq<Item>, i: nat)
    requires i < |items|
    ensures Added(Added(s, ToolsIn(items[..i]), AlertsIn(items[..i]), false), ToolsUnder(items[i]),
            AlertsUnder(items[i]), false)
         == Added(s, ToolsIn(items[..i + 1]), AlertsIn(items[..i + 1]), false)
  {
    assert items[..i + 1][..i] == items[..i];
    AddedJoin(s, ToolsIn(items[..i]), AlertsIn(items[..i]), false, ToolsUnder(items[i]), AlertsUnder(items[i]), false);
  }

  lemma BlocksGrow(s: Stats, parts: seq<UiBlock>, i: nat)
    requires i < |parts|
    ensures Added(Added(s, ToolsAmong(parts[..i]), AlertsAmong(parts[..i]), false), BlockTools(parts[i]),
            BlockAlerts(parts[i]), false)
         == Added(s, ToolsAmong(parts[..i + 1]), AlertsAmong(parts[..i + 1]), false)
  {
    assert parts[..i + 1][..i] == parts[..i];
    AddedJoin(s, ToolsAmong(parts[..i]), AlertsAmong(parts[..i]), false, BlockTools(parts[i]), BlockAlerts(parts[i]),
        false);
  }

  /** Counts a tool and all below it. Whether something runs is settled by the
      tool itself: below a finished one nothing may. */
  method Visit(before: Stats, tool: Tool, mayRun: bool) returns (s: Stats)
    ensures s == Added(before, ToolsOf(tool), AlertsOf(tool), mayRun && tool.result.None?)
    decreases tool
  {
    s := before.(tools := before.tools + 1);
    if tool.kind == "shell" {
      s := s.(commands := s.commands + 1);
    }
    if tool.result.Some? && tool.result.value.isError {
      s := s.(failed := s.failed + 1);
    }
    if tool.result.None? {
      s := s.(pending := s.pending + 1);
      if mayRun {
        s := s.(running := true);
      }
    }
    assert s == One(before, tool, mayRun && tool.result.None?);
    ToolGrows(before, tool, mayRun && tool.result.None?);
    s := VisitChildren(s, tool.children, mayRun && tool.result.None?);
  }

  method VisitChildren(before: Stats, items: seq<Item>, mayRun: bool) returns (s: Stats)
    requires mayRun ==> before.running
    ensures s == Added(before, ToolsIn(items), AlertsIn(items), false)
    decreases items
  {
    s := before;
    for i := 0 to |items|
      invariant s == Added(before, ToolsIn(items[..i]), AlertsIn(items[..i]), false)
    {
      ChildrenGrow(before, items, i);
      var child := items[i];
      if child.Alert? {
        s := s.(failed := s.failed + 1);
      }
      if child.Assistant? {
        s := VisitBlocks(s, child.parts, child.streaming, mayRun);
      }
    }
    assert items[..|items|] == items;
  }

  method VisitBlocks(before: Stats, parts: seq<UiBlock>, streaming: bool, mayRun: bool) returns (s: Stats)
    requires mayRun ==> before.running
    ensures s == Added(before, ToolsAmong(parts), AlertsAmong(parts), false)
    decreases parts
  {
    s := before;
    for i := 0 to |parts|
      invariant s == Added(before, ToolsAmong(parts[..i]), AlertsAmong(parts[..i]), false)
    {
      BlocksGrow(before, parts, i);
      var block := parts[i];
      if block.ToolCall? {
        assert (block decreases to block.tool);
        s := Visit(s, block.tool, mayRun);
      } else if mayRun && block.Thinking? && !block.final && streaming {
        s := s.(running := true);
      }
    }
    assert parts[..|parts|] == parts;
  }

  function EntryTools(entry: ActivityEntry): seq<Tool> {
    if entry.ToolEntry? then ToolsOf(entry.tool) else []
  }

  function EntryAlerts(entry: ActivityEntry): nat {
    if entry.ToolEntry? then AlertsOf(entry.tool) else 0
  }

  /** Every tool of a group. */
  function GroupTools(entries: seq<ActivityEntry>): seq<Tool> {
    if entries == [] then []
    else GroupTools(entries[..|entries| - 1]) + EntryTools(entries[|entries| - 1])
  }

  function GroupAlerts(entries: seq<ActivityEntry>): nat {
    if entries == [] then 0
    else GroupAlerts(entries[..|entries| - 1]) + EntryAlerts(entries[|entries| - 1])
  }

  predicate Runs(entry: ActivityEntry) {
    if entry.ToolEntry? then entry.tool.result.None? else entry.streaming
  }

  predicate SomeRuns(entries: seq<ActivityEntry>) { exists i | 0 <= i < |entries| :: Runs(entries[i]) }

  const ZERO := Stats(0, 0, 0, 0, false)

  function GroupStats(entries: seq<ActivityEntry>, active: bool): Stats {
    Added(ZERO, GroupTools(entries), GroupAlerts(entries), active && SomeRuns(entries))
  }

  lemma RunsSoFar(entries: seq<ActivityEntry>, i: nat)
    requires i < |entries|
    ensures SomeRuns(entries[..i + 1]) <==> SomeRuns(entries[..i]) || Runs(entries[i])
  {
    if SomeRuns(entries[..i]) {
      var k :| 0 <= k < i && Runs(entries[..i][k]);
      assert Runs(entries[..i + 1][k]);
    }
    if Runs(entries[i]) {
      assert Runs(entries[..i + 1][i]);
    }
  }

  lemma GroupGrows(entries: seq<ActivityEntry>, i: nat, active: bool)
    requires i < |entries|
    ensures Added(GroupStats(entries[..i], active), EntryTools(entries[i]), EntryAlerts(entries[i]), active
            && Runs(entries[i]))
         == GroupStats(entries[..i + 1], active)
  {
    assert entries[..i + 1][..i] == entries[..i];
    RunsSoFar(entries, i);
    AddedJoin(ZERO, GroupTools(entries[..i]), GroupAlerts(entries[..i]), active && SomeRuns(entries[..i]),
              EntryTools(entries[i]), EntryAlerts(entries[i]), active && Runs(entries[i]));
  }

  /** The statistics of a group count every tool of its trees once, and say that
      it runs when, with the turn active, one of its own entries does. */
  method ActivityStats(entries: seq<ActivityEntry>, active: bool) returns (s: Stats)
    ensures s == GroupStats(entries, active)
  {
    s := Stats(0, 0, 0, 0, false);
    for i := 0 to |entries|
      invariant s == GroupStats(entries[..i], active)
    {
      GroupGrows(entries, i, active);
      var entry := entries[i];
      if entry.ToolEntry? {
        s := Visit(s, entry.tool, active);
      } else if active && entry.streaming {
        s := s.(running := true);
      }
    }
    assert entries[..|entries|] == entries;
  }

  /** Pending and finished tools are all the tools. */
  lemma {:induction false} PendingAndFinished(tools: seq<Tool>)
    ensures Count(tools, Pending) + Count(tools, Finished) == |tools|
  {
    if tools != [] {
      PendingAndFinished(tools[..|tools| - 1]);
    }
  }
}
