/**
 What of a pi thread is on screen, in terms of what pi said: line by line, part by part.
 */
module PiScreen {

  import opened Basics
  import opened Transcript
  import opened Settling
  import opened Trees
  import opened Sieves
  import opened PiMapping
  import opened PiStream
  import opened PiLive
  import Paging
  import Showing

  // ------------------------------------------------------------------ a message

  /** A part a user or a tool can show: a text or an image, as it is. */
  predicate Plain(p: Part, block: UserBlock) {
    (p.TextPart? && block == UserText(p.text)) || (p.ImagePart? && block == UserImage(p.mediaType, p.data))
  }

  /** And one that can be seen in a user message. */
  predicate PlainSeen(p: Part, block: UserBlock) { Plain(p, block) && block != UserText("") }

  ghost predicate Kind(name: string, kind: string) {
    && (name in {"bash", "powershell"} ==> kind == "shell")
    && (name == "edit" ==> kind == "file_edit")
    && (name == "write" ==> kind == "file_write")
    && (name in {"read", "ls"} ==> kind == "file_read")
    && (name in {"grep", "find"} ==> kind == "search")
    && (name !in {"bash", "powershell", "edit", "write", "read", "ls", "grep", "find"} ==> kind == "other")
  }

  /** What a tool says of how it ended: nothing yet, or what the message of its result
      does, its texts and images in order. */
  ghost predicate Ends(result: Option<Result>, message: Option<Message>) {
    match message
    case None => result == None
    case Some(m) =>
      result.Some? && result.value.isError == m.isError && Sieved(m.content, result.value.content, Plain)
  }

  /** A part of an assistant message, on screen. What its tool put out while it ran may
      still be there. */
  ghost predicate ShowsPart(p: Part, block: UiBlock, message: Option<Message>) {
    match p
    case TextPart(text) => block == Text(text, true)
    case ThinkingPart(text) => block == if text == "" then Text("", true) else Thinking(text, true)
    case ToolCallPart(id, name, arguments) =>
      && block.ToolCall? && block.tool.id == id && block.tool.name == name && Kind(name, block.tool.kind)
      && block.tool.input == (if arguments == "" then "{}" else arguments) && block.tool.partialJson == None
      && block.tool.children == [] && Ends(block.tool.result, message)
    case ImagePart(_, _) => block == Text("", true)
    case OtherPart(kind) => block == Text("[" + kind + "]", true)
  }

  // ------------------------------------------------------------------- a thread

  /** The last result of a tool past a line. */
  function ResultAfter(lines: seq<Line>, j: nat, id: string): Option<Message>
    decreases |lines|
  {
    if |lines| <= j + 1 then None
    else
      var last := lines[|lines| - 1];
      if last.MessageEnd? && last.message.role.ToolResultRole? && last.message.toolCallID == id then Some(last.message)
      else ResultAfter(lines[..|lines| - 1], j, id)
  }

  function ResultOf(lines: seq<Line>, j: nat, p: Part): Option<Message> {
    if p.ToolCallPart? then ResultAfter(lines, j, p.id) else None
  }

  /** What a line left on screen. */
  ghost predicate Depicts(lines: seq<Line>, j: nat, item: Item)
    requires j < |lines|
  {
    match lines[j]
    case MessageEnd(m, _, _) => DepictsMessage(lines, j, m, item)
    case CompactionEnd(tokens) => item == Note("", Some(tokens), true, "")
    case _ => false
  }

  ghost predicate DepictsMessage(lines: seq<Line>, j: nat, m: Message, item: Item) {
    match m.role
    case AssistantRole =>
      && item.Assistant? && item.id == MessageID(m) && !item.streaming && |item.parts| == |m.content| > 0
      && forall i | 0 <= i < |m.content| :: ShowsPart(m.content[i], item.parts[i], ResultOf(lines, j, m.content[i]))
    case UserRole =>
      && item.User? && item.id == MessageID(m) && item.clientMessageID == ""
      && item.blocks != [] && Sieved(m.content, item.blocks, PlainSeen)
    case _ => false
  }

  /** A line that leaves no item of its own: a result is in its tool, and a message with
      nothing in it is not shown. */
  ghost predicate LeavesNone(line: Line) {
    match line
    case MessageEnd(m, _, _) =>
      (match m.role
       case AssistantRole => m.content == []
       case UserRole => Sieved(m.content, [], PlainSeen)
       case _ => true)
    case CompactionEnd(_) => false
    case _ => true
  }

  /** The items are those of the lines `from`, in order, and no other line leaves any. */
  ghost predicate Screen(lines: seq<Line>, items: seq<Item>, from: seq<nat>) {
    && |from| == |items| && Ascending(from)
    && (forall i | 0 <= i < |from| :: from[i] < |lines| && Depicts(lines, from[i], items[i]))
    && forall j | 0 <= j < |lines| && j !in from :: LeavesNone(lines[j])
  }

  // ------------------------------------------------------ what the mapping makes

  lemma {:induction false} PlainAreSieved(parts: seq<Part>)
    ensures Sieved(parts, PlainBlocks(parts), Plain)
  {
    if parts == [] {
      NothingSieved(Plain);
    } else {
      PlainAreSieved(parts[1..]);
      assert parts == [parts[0]] + parts[1..];
      var rest := PlainBlocks(parts[1..]);
      match parts[0] {
        case TextPart(text) => Keeps(parts[0], UserText(text), parts[1..], rest, Plain);
        case ImagePart(mediaType, data) => Keeps(parts[0], UserImage(mediaType, data), parts[1..], rest, Plain);
        case _ =>
          Skips(parts[0], parts[1..], rest, Plain);
          assert [] + rest == rest;
      }
    }
  }

  lemma {:induction false} PlainSeenAreSieved(parts: seq<Part>)
    ensures Sieved(parts, UserBlocks(PlainBlocks(parts)), PlainSeen)
  {
    if parts == [] {
      NothingSieved(PlainSeen);
    } else {
      PlainSeenAreSieved(parts[1..]);
      assert parts == [parts[0]] + parts[1..];
      OnePart(parts[0], parts[1..]);
    }
  }

  lemma OnePart(p: Part, parts: seq<Part>)
    requires Sieved(parts, UserBlocks(PlainBlocks(parts)), PlainSeen)
    ensures Sieved([p] + parts, UserBlocks(PlainBlocks([p] + parts)), PlainSeen)
  {
    var blocks := PlainBlocks(parts);
    PlainHead(p, parts);
    match p {
      case TextPart(text) =>
        OneBlock(UserText(text), blocks);
        if text == "" {
          Skips(p, parts, UserBlocks(blocks), PlainSeen);
        } else {
          Keeps(p, UserText(text), parts, UserBlocks(blocks), PlainSeen);
        }
      case ImagePart(mediaType, data) =>
        OneBlock(UserImage(mediaType, data), blocks);
        Keeps(p, UserImage(mediaType, data), parts, UserBlocks(blocks), PlainSeen);
      case _ => Skips(p, parts, UserBlocks(blocks), PlainSeen);
    }
  }

  lemma PlainHead(p: Part, parts: seq<Part>)
    ensures p.TextPart? ==> PlainBlocks([p] + parts) == [UserText(p.text)] + PlainBlocks(parts)
    ensures p.ImagePart? ==> PlainBlocks([p] + parts) == [UserImage(p.mediaType, p.data)] + PlainBlocks(parts)
    ensures !p.TextPart? && !p.ImagePart? ==> PlainBlocks([p] + parts) == PlainBlocks(parts)
  {
    assert ([p] + parts)[1..] == parts && ([p] + parts)[0] == p;
    assert [] + PlainBlocks(parts) == PlainBlocks(parts);
  }

  lemma OneBlock(block: UserBlock, blocks: seq<UserBlock>)
    ensures UserBlocks([block] + blocks)
            == if block == UserText("") then UserBlocks(blocks) else [block] + UserBlocks(blocks)
  {
    assert ([block] + blocks)[1..] == blocks;
    assert [] + UserBlocks(blocks) == UserBlocks(blocks);
  }

  lemma DrawnShows(p: Part, block: UiBlock)
    requires Showing.Draws(ContentOf(p), block)
    ensures ShowsPart(p, block, None)
  {
  }

  // ------------------------------------------------------------------ one line

  lemma ResultAfterMore(lines: seq<Line>, line: Line, j: nat, id: string)
    requires j < |lines|
    ensures ResultAfter(lines + [line], j, id)
            == if line.MessageEnd? && line.message.role.ToolResultRole? && line.message.toolCallID == id
               then Some(line.message) else ResultAfter(lines, j, id)
  {
    assert (lines + [line])[..|lines|] == lines;
  }

  lemma NoResultYet(lines: seq<Line>, id: string)
    ensures lines != [] ==> ResultAfter(lines, |lines| - 1, id) == None
  {
  }

  predicate IsResult(line: Line) { line.MessageEnd? && line.message.role.ToolResultRole? }

  /** Nothing but a result changes what an earlier line shows. */
  lemma DepictsStill(lines: seq<Line>, line: Line, j: nat, item: Item)
    requires j < |lines| && Depicts(lines, j, item) && !IsResult(line)
    ensures Depicts(lines + [line], j, item)
  {
    assert (lines + [line])[j] == lines[j];
    if lines[j].MessageEnd? && lines[j].message.role.AssistantRole? {
      var m := lines[j].message;
      forall i | 0 <= i < |m.content|
        ensures ShowsPart(m.content[i], item.parts[i], ResultOf(lines + [line], j, m.content[i]))
      {
        if m.content[i].ToolCallPart? {
          ResultAfterMore(lines, line, j, m.content[i].id);
        }
      }
    }
  }

  lemma ScreenStays(lines: seq<Line>, line: Line, items: seq<Item>, from: seq<nat>)
    requires Screen(lines, items, from) && !IsResult(line) && LeavesNone(line)
    ensures Screen(lines + [line], items, from)
  {
    forall i | 0 <= i < |from| ensures Depicts(lines + [line], from[i], items[i]) {
      DepictsStill(lines, line, from[i], items[i]);
    }
  }

  lemma ScreenGrows(lines: seq<Line>, line: Line, items: seq<Item>, from: seq<nat>, item: Item)
    requires Screen(lines, items, from) && !IsResult(line) && Depicts(lines + [line], |lines|, item)
    ensures Screen(lines + [line], items + [item], from + [|lines|])
  {
    forall i | 0 <= i < |from| ensures Depicts(lines + [line], from[i], items[i]) {
      DepictsStill(lines, line, from[i], items[i]);
    }
    assert (from + [|lines|])[|from|] == |lines|;
  }

  lemma AssistantDepicted(lines: seq<Line>, m: Message, client: string, code: string, item: Item)
    requires m.role.AssistantRole? && m.content != []
    requires item.Assistant? && item.id == MessageID(m) && !item.streaming && |item.parts| == |m.content|
    requires forall i | 0 <= i < |m.content| :: Showing.Draws(Raws(m)[i], item.parts[i])
    ensures Depicts(lines + [MessageEnd(m, client, code)], |lines|, item)
  {
    forall i | 0 <= i < |m.content|
      ensures ShowsPart(m.content[i], item.parts[i],
                        ResultOf(lines + [MessageEnd(m, client, code)], |lines|, m.content[i]))
    {
      DrawnShows(m.content[i], item.parts[i]);
    }
  }

  // ---------------------------------------------------------------- one result

  function Replaced(block: UiBlock, id: string, edit: Tool -> Tool): UiBlock {
    if block.ToolCall? && block.tool.id == id then ToolCall(edit(block.tool)) else block
  }

  /** The item with every tool of that id edited. */
  ghost predicate ReplacedIn(was: Item, now: Item, id: string, edit: Tool -> Tool) {
    if was.Assistant? then
      && now.Assistant? && now.id == was.id && now.streaming == was.streaming && |now.parts| == |was.parts|
      && forall x | 0 <= x < |was.parts| :: now.parts[x] == Replaced(was.parts[x], id, edit)
    else now == was
  }

  ghost predicate Among(parts: seq<UiBlock>, x: int, id: string) {
    0 <= x < |parts| && parts[x].ToolCall? && parts[x].tool.id == id
  }

  ghost predicate Within(items: seq<Item>, i: int, x: int, id: string) {
    0 <= i < |items| && items[i].Assistant? && Among(items[i].parts, x, id)
  }

  /** At most one tool bears the id. */
  ghost predicate Sole(items: seq<Item>, id: string) {
    forall i, x, j, y :: Within(items, i, x, id) && Within(items, j, y, id) ==> i == j && x == y
  }

  lemma {:induction false} FoundAt(parts: seq<UiBlock>, id: string)
    requires FlatParts(parts)
    ensures FindInParts(parts, id).Some? <==> exists x :: Among(parts, x, id)
  {
    if parts != [] {
      FoundAt(parts[1..], id);
      assert FindTool([], id) == None;
      assert forall x :: Among(parts[1..], x, id) ==> Among(parts, x + 1, id);
      assert forall x :: Among(parts, x, id) && x > 0 ==> Among(parts[1..], x - 1, id);
      assert Among(parts, 0, id) <==> parts[0].ToolCall? && parts[0].tool.id == id;
    }
  }

  lemma {:induction false} EditedParts(parts: seq<UiBlock>, id: string, edit: Tool -> Tool)
    requires FlatParts(parts) && forall x, y :: Among(parts, x, id) && Among(parts, y, id) ==> x == y
    ensures |EditInParts(parts, id, edit)| == |parts|
    ensures forall x | 0 <= x < |parts| :: EditInParts(parts, id, edit)[x] == Replaced(parts[x], id, edit)
  {
    if parts != [] {
      var r := EditInParts(parts, id, edit);
      assert FindTool([], id) == None;
      if parts[0].ToolCall? && parts[0].tool.id == id {
        assert Among(parts, 0, id);
        forall x | 0 < x < |parts| ensures r[x] == Replaced(parts[x], id, edit) {
          assert !Among(parts, x, id);
        }
      } else {
        forall x, y | Among(parts[1..], x, id) && Among(parts[1..], y, id) ensures x == y {
          assert Among(parts, x + 1, id) && Among(parts, y + 1, id);
        }
        EditedParts(parts[1..], id, edit);
        assert r[1..] == EditInParts(parts[1..], id, edit);
        assert forall x | 0 < x < |parts| :: r[x] == r[1..][x - 1] && parts[x] == parts[1..][x - 1];
      }
    }
  }

  lemma ItemUntouched(item: Item, id: string, edit: Tool -> Tool)
    requires item.Assistant? ==> forall x :: !Among(item.parts, x, id)
    ensures ReplacedIn(item, item, id, edit)
  {
    if item.Assistant? {
      forall x | 0 <= x < |item.parts| ensures item.parts[x] == Replaced(item.parts[x], id, edit) {
        assert !Among(item.parts, x, id);
      }
    }
  }

  lemma SoleTail(items: seq<Item>, id: string)
    requires items != [] && Sole(items, id)
    ensures Sole(items[1..], id)
  {
    forall i, x, j, y | Within(items[1..], i, x, id) && Within(items[1..], j, y, id) ensures i == j && x == y {
      assert Within(items, i + 1, x, id) && Within(items, j + 1, y, id);
    }
  }

  lemma {:induction false} EditedItems(items: seq<Item>, id: string, edit: Tool -> Tool)
    requires Flat(items) && Sole(items, id)
    ensures forall i | 0 <= i < |items| :: ReplacedIn(items[i], EditTool(items, id, edit)[i], id, edit)
  {
    if items != [] {
      var r := EditTool(items, id, edit);
      if items[0].Assistant? {
        FoundAt(items[0].parts, id);
      }
      if items[0].Assistant? && FindInParts(items[0].parts, id).Some? {
        EditedHead(items, id, edit);
      } else {
        SoleTail(items, id);
        EditedItems(items[1..], id, edit);
        ItemUntouched(items[0], id, edit);
        assert r[1..] == EditTool(items[1..], id, edit);
        assert forall i | 0 < i < |items| :: r[i] == r[1..][i - 1] && items[i] == items[1..][i - 1];
      }
    }
  }

  lemma EditedHead(items: seq<Item>, id: string, edit: Tool -> Tool)
    requires items != [] && Flat(items) && Sole(items, id)
    requires items[0].Assistant? && FindInParts(items[0].parts, id).Some?
    ensures forall i | 0 <= i < |items| :: ReplacedIn(items[i], EditTool(items, id, edit)[i], id, edit)
  {
    FoundAt(items[0].parts, id);
    var x :| Among(items[0].parts, x, id);
    assert Within(items, 0, x, id);
    forall y, z | Among(items[0].parts, y, id) && Among(items[0].parts, z, id) ensures y == z {
      assert Within(items, 0, y, id) && Within(items, 0, z, id);
    }
    EditedParts(items[0].parts, id, edit);
    forall i | 0 < i < |items| ensures ReplacedIn(items[i], items[i], id, edit) {
      forall y ensures items[i].Assistant? ==> !Among(items[i].parts, y, id) {
        assert !Within(items, i, y, id);
      }
      ItemUntouched(items[i], id, edit);
    }
  }

  // ---------------------------------------------- whose call a tool on screen is

  lemma {:induction false} EndedTools(lines: seq<Line>, j: nat)
    requires WellFormed(lines) && j < |lines| && lines[j].MessageEnd? && lines[j].message.role.AssistantRole?
    ensures ToolIDs(Raws(lines[j].message)) <= ProgressAfter(lines).tools
  {
    var before := lines[..|lines| - 1];
    if j < |before| {
      EndedTools(before, j);
    }
  }

  lemma EndsNew(lines: seq<Line>, m: Message, client: string, code: string)
    requires WellFormed(lines) && Fits(ProgressAfter(lines), MessageEnd(m, client, code)) && m.role.AssistantRole?
    ensures NewMessage(ProgressAfter(lines), m)
  {
    var v := TraceInStep(lines);
  }

  ghost predicate Calls(line: Line, x: int, id: string) {
    line.MessageEnd? && line.message.role.AssistantRole? && 0 <= x < |line.message.content|
    && line.message.content[x].ToolCallPart? && line.message.content[x].id == id
  }

  lemma CallIsTool(line: Line, x: int, id: string)
    requires Calls(line, x, id)
    ensures id in ToolIDs(Raws(line.message))
  {
    assert Raws(line.message)[x] in Raws(line.message);
  }

  /** The call of a message that ends now is none of an earlier one, nor twice in it. */
  lemma LastCallIsNew(before: seq<Line>, line: Line, j: nat, x: int, y: int, id: string)
    requires WellFormed(before) && Fits(ProgressAfter(before), line) && Calls(line, y, id)
    ensures Calls(line, x, id) ==> x == y
    ensures j < |before| ==> !Calls(before[j], x, id)
  {
    EndsNew(before, line.message, line.client, line.code);
    CallIsTool(line, y, id);
    if Calls(line, x, id) {
      assert Raws(line.message)[x].id == Raws(line.message)[y].id;
    }
    if j < |before| && Calls(before[j], x, id) {
      CallIsTool(before[j], x, id);
      EndedTools(before, j);
    }
  }

  /** Two calls of a thread never share an id. */
  lemma {:induction false} CallsDiffer(lines: seq<Line>, j: nat, x: int, k: nat, y: int, id: string)
    requires WellFormed(lines) && j <= k < |lines| && Calls(lines[j], x, id) && Calls(lines[k], y, id)
    ensures j == k && x == y
  {
    var before, line := lines[..|lines| - 1], lines[|lines| - 1];
    if k < |before| {
      CallsDiffer(before, j, x, k, y, id);
    } else {
      LastCallIsNew(before, line, j, x, y, id);
    }
  }

  lemma ToolHasCall(lines: seq<Line>, items: seq<Item>, from: seq<nat>, i: int, x: int, id: string)
    requires Screen(lines, items, from) && Within(items, i, x, id)
    ensures Calls(lines[from[i]], x, id)
  {
    assert Depicts(lines, from[i], items[i]);
    assert ShowsPart(lines[from[i]].message.content[x], items[i].parts[x],
                     ResultOf(lines, from[i], lines[from[i]].message.content[x]));
  }

  lemma OneToolAnID(lines: seq<Line>, items: seq<Item>, from: seq<nat>, id: string)
    requires WellFormed(lines) && Screen(lines, items, from)
    ensures Sole(items, id)
  {
    forall i, x, j, y | Within(items, i, x, id) && Within(items, j, y, id) ensures i == j && x == y {
      ToolHasCall(lines, items, from, i, x, id);
      ToolHasCall(lines, items, from, j, y, id);
      if from[i] <= from[j] {
        CallsDiffer(lines, from[i], x, from[j], y, id);
      } else {
        CallsDiffer(lines, from[j], y, from[i], x, id);
      }
    }
  }

  lemma PartEnds(lines: seq<Line>, line: Line, j: nat, p: Part, block: UiBlock, e: Event)
    requires j < |lines| && IsResult(line) && ShowsPart(p, block, ResultOf(lines, j, p))
    requires e == ToolResult(line.message.toolCallID, Result(PlainBlocks(line.message.content), line.message.isError))
    ensures ShowsPart(p, Replaced(block, e.toolUseID, EditByEvent(e)), ResultOf(lines + [line], j, p))
  {
    PlainAreSieved(line.message.content);
    if p.ToolCallPart? {
      ResultAfterMore(lines, line, j, p.id);
    }
  }

  lemma ItemEnds(lines: seq<Line>, line: Line, j: nat, was: Item, now: Item, e: Event)
    requires j < |lines| && IsResult(line) && Depicts(lines, j, was)
    requires e == ToolResult(line.message.toolCallID, Result(PlainBlocks(line.message.content), line.message.isError))
    requires ReplacedIn(was, now, e.toolUseID, EditByEvent(e))
    ensures Depicts(lines + [line], j, now)
  {
    assert (lines + [line])[j] == lines[j];
    if was.Assistant? {
      var content := lines[j].message.content;
      forall i | 0 <= i < |content|
        ensures ShowsPart(content[i], now.parts[i], ResultOf(lines + [line], j, content[i]))
      {
        PartEnds(lines, line, j, content[i], was.parts[i], e);
      }
    }
  }

  lemma ResultShows(lines: seq<Line>, line: Line, items: seq<Item>, from: seq<nat>, e: Event)
    requires WellFormed(lines) && Screen(lines, items, from) && IsResult(line) && Flat(items)
    requires e == ToolResult(line.message.toolCallID, Result(PlainBlocks(line.message.content), line.message.isError))
    ensures Screen(lines + [line], EditTool(items, e.toolUseID, EditByEvent(e)), from)
  {
    var now := EditTool(items, e.toolUseID, EditByEvent(e));
    OneToolAnID(lines, items, from, e.toolUseID);
    EditedItems(items, e.toolUseID, EditByEvent(e));
    forall i | 0 <= i < |from| ensures Depicts(lines + [line], from[i], now[i]) {
      ItemEnds(lines, line, from[i], items[i], now[i], e);
    }
  }

  // ------------------------------------------------------------ the stored thread

  lemma MessageLine(before: seq<Line>, line: Line, t: State, from: seq<nat>)
    requires line.MessageEnd? && line.message.role.AssistantRole? && line.message.content != []
    requires Screen(before, t.items, from) && DistinctTools(Raws(line.message))
    requires MessageID(line.message) !in t.seen && !HasAssistant(t.items, MessageID(line.message))
    ensures Screen(before + [line], Apply(t, AssistantMessage(MessageID(line.message), Raws(line.message), "")).items,
                   from + [|before|])
  {
    var m, n := line.message, |t.items|;
    var after := Apply(t, AssistantMessage(MessageID(m), Raws(m), "")).items;
    Showing.MessageShows(t, MessageID(m), Raws(m));
    AssistantDepicted(before, m, line.client, line.code, after[n]);
    ScreenGrows(before, line, t.items, from, after[n]);
    assert after == t.items + [after[n]];
  }

  lemma AssistantLine(before: seq<Line>, line: Line, items: seq<Item>, from: seq<nat>) returns (now: seq<nat>)
    requires WellFormed(before) && Fits(ProgressAfter(before), line)
    requires line.MessageEnd? && line.message.role.AssistantRole?
    requires items == Fold(EMPTY, Replay(before)).items && Screen(before, items, from)
    ensures Screen(before + [line], Fold(Fold(EMPTY, Replay(before)), Stored(line)).items, now)
  {
    var m, t := line.message, Fold(EMPTY, Replay(before));
    if m.content == [] {
      ScreenStays(before, line, items, from);
      now := from;
    } else {
      var v := TraceInStep(before);
      EndsNew(before, m, line.client, line.code);
      UnseenInReplay(t, MessageID(m));
      FoldOne(t, AssistantMessage(MessageID(m), Raws(m), ""));
      MessageLine(before, line, t, from);
      now := from + [|before|];
    }
  }

  lemma UserLine(before: seq<Line>, line: Line, items: seq<Item>, from: seq<nat>) returns (now: seq<nat>)
    requires WellFormed(before) && Fits(ProgressAfter(before), line)
    requires line.MessageEnd? && line.message.role.UserRole?
    requires items == Fold(EMPTY, Replay(before)).items && Screen(before, items, from)
    ensures Screen(before + [line], Fold(Fold(EMPTY, Replay(before)), Stored(line)).items, now)
  {
    var m, t := line.message, Fold(EMPTY, Replay(before));
    var v := TraceInStep(before);
    FoldOne(t, UserMessage(MessageID(m), PlainBlocks(m.content), "", ""));
    PlainSeenAreSieved(m.content);
    var blocks := UserBlocks(PlainBlocks(m.content));
    if blocks == [] {
      ScreenStays(before, line, items, from);
      now := from;
    } else {
      ScreenGrows(before, line, items, from, User(MessageID(m), blocks, ""));
      now := from + [|before|];
    }
  }

  lemma ResultLine(before: seq<Line>, line: Line, items: seq<Item>, from: seq<nat>)
    requires WellFormed(before) && Fits(ProgressAfter(before), line) && IsResult(line)
    requires items == Fold(EMPTY, Replay(before)).items && Screen(before, items, from)
    ensures Screen(before + [line], Fold(Fold(EMPTY, Replay(before)), Stored(line)).items, from)
  {
    var m := line.message;
    var v := TraceInStep(before);
    var e := ToolResult(m.toolCallID, Result(PlainBlocks(m.content), m.isError));
    FoldOne(Fold(EMPTY, Replay(before)), e);
    ResultShows(before, line, items, from, e);
  }

  lemma OtherLine(before: seq<Line>, line: Line, items: seq<Item>, from: seq<nat>) returns (now: seq<nat>)
    requires WellFormed(before) && (line.MessageEnd? ==> line.message.role.OtherRole?)
    requires items == Fold(EMPTY, Replay(before)).items && Screen(before, items, from)
    ensures Screen(before + [line], Fold(Fold(EMPTY, Replay(before)), Stored(line)).items, now)
  {
    var t := Fold(EMPTY, Replay(before));
    if line.CompactionEnd? {
      FoldOne(t, ContextBoundary(Some(line.tokensBefore)));
      ScreenGrows(before, line, items, from, Note("", Some(line.tokensBefore), true, ""));
      now := from + [|before|];
    } else {
      ScreenStays(before, line, items, from);
      now := from;
    }
  }

  /** A stored thread shows every message that ended, where it ended, part by part as pi
      wrote it, each call with how its tool ended last; every compaction; and nothing
      else. */
  lemma {:induction false} ReplayShows(lines: seq<Line>) returns (from: seq<nat>)
    requires WellFormed(lines)
    ensures Screen(lines, Fold(EMPTY, Replay(lines)).items, from)
  {
    if lines == [] {
      from := [];
    } else {
      var before, line := lines[..|lines| - 1], lines[|lines| - 1];
      assert lines == before + [line];
      var was := ReplayShows(before);
      var items := Fold(EMPTY, Replay(before)).items;
      FoldAppend(EMPTY, Replay(before), Stored(line));
      if !line.MessageEnd? || line.message.role.OtherRole? {
        from := OtherLine(before, line, items, was);
      } else if line.message.role.AssistantRole? {
        from := AssistantLine(before, line, items, was);
      } else if line.message.role.UserRole? {
        from := UserLine(before, line, items, was);
      } else {
        ResultLine(before, line, items, was);
        from := was;
      }
    }
  }

  // -------------------------------------------------------------- the live thread

  predicate Remains(was: Item, item: Item) { Kept(was) && item == EraseItem(was) }

  lemma {:induction false} ErasedAreSieved(items: seq<Item>)
    ensures Sieved(items, Erase(items), Remains)
  {
    if items == [] {
      NothingSieved(Remains);
    } else {
      ErasedAreSieved(items[1..]);
      assert items == [items[0]] + items[1..];
      if Kept(items[0]) {
        Keeps(items[0], EraseItem(items[0]), items[1..], Erase(items[1..]), Remains);
      } else {
        Skips(items[0], items[1..], Erase(items[1..]), Remains);
        assert [] + Erase(items[1..]) == Erase(items[1..]);
      }
    }
  }

  /** Streamed output is no part of what a line shows. */
  lemma OutputAside(lines: seq<Line>, j: nat, item: Item)
    requires j < |lines| && Depicts(lines, j, EraseItem(item))
    ensures Depicts(lines, j, item)
  {
    if item.Assistant? {
      var content := lines[j].message.content;
      forall i | 0 <= i < |content| ensures ShowsPart(content[i], item.parts[i], ResultOf(lines, j, content[i])) {
        assert ShowsPart(content[i], EraseItem(item).parts[i], ResultOf(lines, j, content[i]));
      }
    }
  }

  /** The message pi is at may be there in part, and the stream's own notices and alerts. */
  predicate Besides(item: Item, current: Option<Message>) {
    || item.Alert? || (item.Note? && !item.boundary)
    || (item.Assistant? && current.Some? && item.id == MessageID(current.value))
  }

  /** The items of the lines `from` are at the places `at`. */
  ghost predicate Stands(lines: seq<Line>, items: seq<Item>, from: seq<nat>, at: seq<nat>) {
    |at| == |from| &&
      forall i | 0 <= i < |at| :: at[i] < |items| && from[i] < |lines| && Depicts(lines, from[i], items[at[i]])
  }

  /** At the places `at` are the items of the lines `from`, in order; no other line leaves
      any; and what else is on screen is besides. */
  ghost predicate LiveScreen(lines: seq<Line>, items: seq<Item>, from: seq<nat>, at: seq<nat>,
                             current: Option<Message>) {
    && Ascending(from) && Ascending(at) && Stands(lines, items, from, at)
    && (forall j | 0 <= j < |lines| && j !in from :: LeavesNone(lines[j]))
    && forall k | 0 <= k < |items| && k !in at :: Besides(items[k], current)
  }

  lemma StandsInLive(lines: seq<Line>, before: seq<Item>, items: seq<Item>, from: seq<nat>, at: seq<nat>)
    requires Screen(lines, items, from) && Taken(before, items, at, Remains)
    ensures Stands(lines, before, from, at)
  {
    forall i | 0 <= i < |at| ensures at[i] < |before| && from[i] < |lines| && Depicts(lines, from[i], before[at[i]]) {
      assert Remains(before[at[i]], items[i]);
      OutputAside(lines, from[i], before[at[i]]);
    }
  }

  lemma StandsOn(lines: seq<Line>, before: seq<Item>, after: seq<Item>, from: seq<nat>, at: seq<nat>)
    requires Stands(lines, before, from, at)
    ensures Stands(lines, before + after, from, at)
  {
  }

  lemma PlacesInLive(lines: seq<Line>, l: State, r: State, current: Option<Message>, v: View, from: seq<nat>)
    returns (at: seq<nat>)
    requires Mirror(l, r, current, v) && Screen(lines, r.items, from)
    ensures LiveScreen(lines, l.items, from, at, current)
  {
    ErasedAreSieved(v.before);
    at :| SievedAt(v.before, r.items, at, Remains);
    StandsInLive(lines, v.before, r.items, from, at);
    StandsOn(lines, v.before, v.draft + v.after, from, at);
    assert l.items == v.before + (v.draft + v.after);
    ErasedAreSieved(v.after);
    EmptySieve(v.after, [], Remains);
    forall k | 0 <= k < |l.items| && k !in at ensures Besides(l.items[k], current) {
      BesidesAt(l, r, current, v, at, k);
    }
  }

  lemma BesidesAt(l: State, r: State, current: Option<Message>, v: View, at: seq<nat>, k: nat)
    requires Mirror(l, r, current, v) && k < |l.items| && k !in at
    requires RestGone(v.before, at, Remains) && forall i, y | 0 <= i < |v.after| :: !Remains(v.after[i], y)
    ensures Besides(l.items[k], current)
  {
    if k < |v.before| {
      assert l.items[k] == v.before[k] && !Remains(v.before[k], EraseItem(v.before[k]));
    } else if k < |v.before| + |v.draft| {
      assert l.items[k] == v.draft[0];
    } else {
      var i := k - |v.before| - |v.draft|;
      assert l.items[k] == v.after[i] && !Remains(v.after[i], EraseItem(v.after[i]));
    }
  }

  /** A thread watched live shows, at every point, the same of every message that ended,
      besides the message pi is at and the stream's own notices and alerts. */
  lemma LiveShows(lines: seq<Line>) returns (from: seq<nat>, at: seq<nat>)
    requires WellFormed(lines)
    ensures LiveScreen(lines, Fold(EMPTY, Live(lines)).items, from, at, ProgressAfter(lines).current)
  {
    from := ReplayShows(lines);
    var v := TraceInStep(lines);
    var l, r := Fold(EMPTY, Live(lines)), Fold(EMPTY, Replay(lines));
    at := PlacesInLive(lines, l, r, ProgressAfter(lines).current, v, from);
  }

  // ------------------------------------------------------- notices and alerts

  /** What a line is announced with. */
  function Announcement(line: Line): seq<Item> {
    match line
    case MessageEnd(m, _, code) =>
      if !m.role.AssistantRole? || !m.failed then []
      else if m.errorMessage == "" then [Alert(code, "pi reported an error without a message", false)]
      else [Alert(code, m.errorMessage, false)]
    case CompactionEnd(tokens) => [Note("", Some(tokens), true, "")]
    case AutoRetry(text) => [Note(text, None, false, "")]
    case Unreadable(text) => [Alert("unrenderable", text, false)]
    case _ => []
  }

  function Announced(lines: seq<Line>): seq<Item> {
    if lines == [] then [] else Announced(lines[..|lines| - 1]) + Announcement(lines[|lines| - 1])
  }

  lemma AsideOfOne(e: Event)
    ensures Showing.AsidesOf([e]) == Showing.AsideOf(e)
  {
    assert [e][..0] == [] && Showing.AsidesOf([]) == [];
    assert [] + Showing.AsideOf(e) == Showing.AsideOf(e);
  }

  lemma AsideOfLast(events: seq<Event>, e: Event)
    ensures Showing.AsidesOf(events + [e]) == Showing.AsidesOf(events) + Showing.AsideOf(e)
  {
    assert (events + [e])[..|events|] == events;
  }

  lemma EntryIsSilent(m: Message, client: string)
    ensures Showing.AsidesOf(MessageEntry(m, client)) == []
    ensures forall e <- MessageEntry(m, client) :: Showing.Outer(e)
  {
    var entry := MessageEntry(m, client);
    if entry != [] {
      AsideOfOne(entry[0]);
      assert entry == [entry[0]];
    }
  }

  lemma EndIsAnnounced(s: Assembly, m: Message, client: string, code: string)
    ensures Showing.AsidesOf(OnMessageEnd(s, m, client, code).1) == Announcement(MessageEnd(m, client, code))
    ensures forall e <- OnMessageEnd(s, m, client, code).1 :: Showing.Outer(e)
  {
    EntryIsSilent(m, client);
    var entry, events := MessageEntry(m, client), OnMessageEnd(s, m, client, code).1;
    if m.role.AssistantRole? && m.failed {
      assert events == entry + [events[|entry|]];
      AsideOfLast(entry, events[|entry|]);
    } else {
      assert events == entry;
    }
  }

  lemma UpdateIsSilent(s: Assembly, update: Update)
    ensures Showing.AsidesOf(OnUpdate(s, update).1) == []
    ensures forall e <- OnUpdate(s, update).1 :: Showing.Outer(e)
  {
    var events := OnUpdate(s, update).1;
    if events != [] {
      AsideOfOne(events[0]);
      assert events == [events[0]];
    }
  }

  lemma OutputIsSilent(s: Assembly, id: string, snapshot: string)
    ensures Showing.AsidesOf(OnToolUpdate(s, id, snapshot).1) == []
    ensures forall e <- OnToolUpdate(s, id, snapshot).1 :: Showing.Outer(e)
  {
    var events := OnToolUpdate(s, id, snapshot).1;
    if events != [] {
      AsideOfOne(events[0]);
      assert events == [events[0]];
    }
  }

  lemma LineIsAnnounced(s: Assembly, line: Line)
    ensures Showing.AsidesOf(OnLine(s, line).1) == Announcement(line)
    ensures forall e <- OnLine(s, line).1 :: Showing.Outer(e)
  {
    match line {
      case MessageStart(_) =>
      case MessageUpdate(update) => UpdateIsSilent(s, update);
      case MessageEnd(m, client, code) => EndIsAnnounced(s, m, client, code);
      case ToolUpdate(id, snapshot) => OutputIsSilent(s, id, snapshot);
      case AgentSettled => AsideOfOne(TurnFinished);
      case CompactionEnd(tokens) => AsideOfOne(ContextBoundary(Some(tokens)));
      case AutoRetry(text) => AsideOfOne(Notice(text));
      case Unreadable(text) => AsideOfOne(StreamError("unrenderable", text, false));
    }
  }

  /** The notes and alerts on the live screen are those announced, each as it was, in
      order: failures, compactions, retries and lines nobody could read. */
  lemma {:induction false} AsidesAnnounced(lines: seq<Line>)
    ensures Showing.Asides(Fold(EMPTY, Live(lines)).items) == Announced(lines)
  {
    if lines != [] {
      var before, line := lines[..|lines| - 1], lines[|lines| - 1];
      AsidesAnnounced(before);
      FoldAppend(EMPTY, Live(before), OnLine(AssemblyAfter(before), line).1);
      LineIsAnnounced(AssemblyAfter(before), line);
      Showing.AsidesFold(Fold(EMPTY, Live(before)), OnLine(AssemblyAfter(before), line).1);
    }
  }
}
