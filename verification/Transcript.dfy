/**
 What a browser makes of protocol events: a tree of items, built one event at a time,
 and pages of stored entries put in front of it.
 */
module Transcript {
  import opened Basics

  // Texts are taken after the system reminders have been cut out of them and the
  // ends trimmed, so a block is visible exactly when its text is not empty. An
  // empty string stands for an absent parent or client message id, as it does in
  // the program's own tests of them.

  datatype UserBlock = UserText(text: string) | UserImage(mediaType: string, data: string)

  datatype ContentBlock =
    | TextContent(text: string)
    | ThinkingContent(text: string)
    | ToolUse(id: string, name: string, kind: string, input: string)
    | OtherContent(data: string)

  datatype Result = Result(content: seq<UserBlock>, isError: bool)

  datatype Tool = Tool(
    id: string, name: string, kind: string, input: string, partialJson: Option<string>,
    output: Option<string>, result: Option<Result>, children: seq<Item>)

  datatype UiBlock =
    | Text(text: string, final: bool)
    | Thinking(text: string, final: bool)
    | ToolCall(tool: Tool)

  datatype Item =
    | User(id: string, blocks: seq<UserBlock>, clientMessageID: string)
    | Assistant(id: string, parts: seq<UiBlock>, streaming: bool)
    | Note(caption: string, tokensBefore: Option<nat>, boundary: bool, taskStatus: string)
    | Alert(code: string, message: string, fatal: bool)

  /** The items on screen, and the ids already folded in. */
  datatype State = State(items: seq<Item>, seen: set<string>)

  const EMPTY := State([], {})

  datatype Event =
    | UserMessage(messageID: string, blocks: seq<UserBlock>, clientMessageID: string, parent: string)
    | AssistantMessage(messageID: string, content: seq<ContentBlock>, parent: string)
    | TextDelta(messageID: string, index: nat, text: string, parent: string)
    | ThinkingDelta(messageID: string, index: nat, text: string, parent: string)
    | ToolUseStart(messageID: string, index: nat, toolUseID: string, name: string, kind: string, parent: string)
    | ToolInputDelta(toolUseID: string, partialJson: string)
    | ToolUseEnd(toolUseID: string, input: string)
    | ToolOutputDelta(toolUseID: string, text: string)
    | ToolResult(toolUseID: string, result: Result)
    | ContextBoundary(tokensBefore: Option<nat>)
    | Notice(message: string)
    | BackgroundTaskFinished(summary: string, status: string)
    | StreamError(code: string, message: string, fatal: bool)
    | TurnFinished
    | OtherEvent

  // ------------------------------------------------------------ the tree

  /** The first tool with this id, in document order, at any depth. */
  function FindTool(items: seq<Item>, id: string): Option<Tool>
    decreases items
  {
    if items == [] then None
    else
      var found := if items[0].Assistant? then FindInParts(items[0].parts, id) else None;
      if found.Some? then found else FindTool(items[1..], id)
  }

  function FindInParts(parts: seq<UiBlock>, id: string): Option<Tool>
    decreases parts
  {
    if parts == [] then None
    else
      var found :=
        if !parts[0].ToolCall? then None
        else if parts[0].tool.id == id then Some(parts[0].tool)
        else
          assert (parts[0] decreases to parts[0].tool);
          FindTool(parts[0].tool.children, id);
      if found.Some? then found else FindInParts(parts[1..], id)
  }

  /** The tree with that tool replaced. */
  function EditTool(items: seq<Item>, id: string, edit: Tool -> Tool): (r: seq<Item>)
    ensures |r| == |items|
    decreases items
  {
    if items == [] then []
    else if items[0].Assistant? && FindInParts(items[0].parts, id).Some?
    then [items[0].(parts := EditInParts(items[0].parts, id, edit))] + items[1..]
    else [items[0]] + EditTool(items[1..], id, edit)
  }

  function EditInParts(parts: seq<UiBlock>, id: string, edit: Tool -> Tool): (r: seq<UiBlock>)
    ensures |r| == |parts|
    decreases parts
  {
    if parts == [] then []
    else if parts[0].ToolCall? && parts[0].tool.id == id
    then [ToolCall(edit(parts[0].tool))] + parts[1..]
    else if parts[0].ToolCall? && FindTool(parts[0].tool.children, id).Some?
    then
      assert (parts[0] decreases to parts[0].tool);
      [ToolCall(parts[0].tool.(children := EditTool(parts[0].tool.children, id, edit)))] + parts[1..]
    else [parts[0]] + EditInParts(parts[1..], id, edit)
  }

  /** Where the items of a parent go: nowhere when the parent is not on screen. */
  function ListFor(items: seq<Item>, parent: string): Option<seq<Item>> {
    if parent == "" then Some(items)
    else
      var found := FindTool(items, parent);
      if found.Some? then Some(found.value.children) else None
  }

  function WithList(items: seq<Item>, parent: string, list: seq<Item>): seq<Item> {
    if parent == "" then list
    else EditTool(items, parent, (tool: Tool) => tool.(children := list))
  }

  /** The position of the last assistant item with this id, or the length. */
  function AssistantAt(list: seq<Item>, messageID: string): (at: nat)
    ensures at <= |list|
    ensures at < |list| ==> list[at].Assistant? && list[at].id == messageID
    ensures forall k | 0 <= k < |list| && (k > at || at == |list|) :: !(list[k].Assistant? && list[k].id == messageID)
    decreases |list|
  {
    if list == [] then 0
    else
      var last := |list| - 1;
      if list[last].Assistant? && list[last].id == messageID then last
      else
        var at := AssistantAt(list[..last], messageID);
        if at == last then |list| else at
  }

  predicate HasAssistant(list: seq<Item>, messageID: string) {
    AssistantAt(list, messageID) < |list|
  }

  /** The list with that item edited, created at the end when it is missing. */
  function WithAssistant(list: seq<Item>, messageID: string, streaming: bool, edit: Item -> Item): seq<Item> {
    var at := AssistantAt(list, messageID);
    if at < |list| then list[at := edit(list[at])]
    else list + [edit(Assistant(messageID, [], streaming))]
  }

  // -------------------------------------------------------------- blocks

  const BLANK := Text("", true)

  /** The blocks with position `index` filled, padded up to it. */
  function BlockAt(parts: seq<UiBlock>, index: nat, make: UiBlock): (r: seq<UiBlock>)
    ensures index < |r| && |parts| <= |r|
    ensures r[..|parts|] == parts
    ensures index < |parts| ==> r == parts
    ensures index >= |parts| ==> r[index] == make && |r| == index + 1
  {
    if index < |parts| then parts
    else parts + seq(index - |parts|, i => BLANK) + [make]
  }

  function TextAt(parts: seq<UiBlock>, index: nat, text: string): seq<UiBlock> {
    var r := BlockAt(parts, index, Text("", false));
    if r[index].Text? then r[index := Text(r[index].text + text, r[index].final)] else r
  }

  function ThinkingAt(parts: seq<UiBlock>, index: nat, text: string): seq<UiBlock> {
    var r := BlockAt(parts, index, Thinking("", false));
    if r[index].Thinking? then r[index := Thinking(r[index].text + text, r[index].final)] else r
  }

  /** A settled block as it is drawn, or nothing when there is nothing to draw. */
  function ToUiBlock(block: ContentBlock): Option<UiBlock> {
    match block
    case TextContent(text) => if text == "" then None else Some(Text(text, true))
    case ThinkingContent(text) => if text == "" then None else Some(Thinking(text, true))
    case ToolUse(id, name, kind, input) => Some(ToolCall(Tool(id, name, kind, input, None, None, None, [])))
    case OtherContent(_) => None
  }

  /** Writes position `index`, which may be the one just past the end. */
  function Put(parts: seq<UiBlock>, index: nat, block: UiBlock): (r: seq<UiBlock>)
    requires index <= |parts|
  {
    if index < |parts| then parts[index := block] else parts + [block]
  }

  function Settled(tool: Tool, input: string): Tool {
    tool.(input := input, partialJson := None)
  }

  /** Settles one position of the message's content array. */
  function SettleOne(parts: seq<UiBlock>, index: nat, raw: ContentBlock): (r: seq<UiBlock>)
    requires index <= |parts|
    ensures |r| == if index < |parts| then |parts| else |parts| + 1
  {
    match ToUiBlock(raw)
    case None => if index < |parts| then parts else parts + [BLANK]
    case Some(ToolCall(tool)) =>
      var existing := FindInParts(parts, tool.id);
      if existing.Some?
      then Put(EditInParts(parts, tool.id, (t: Tool) => Settled(t, tool.input)), index,
               ToolCall(Settled(existing.value, tool.input)))
      else Put(parts, index, ToolCall(tool))
    case Some(next) => Put(parts, index, next)
  }

  function SettleFrom(parts: seq<UiBlock>, index: nat, raws: seq<ContentBlock>): (r: seq<UiBlock>)
    requires index <= |raws| && index <= |parts|
    ensures |parts| <= |r|
    decreases |raws| - index
  {
    if index == |raws| then parts
    else SettleFrom(SettleOne(parts, index, raws[index]), index + 1, raws)
  }

  function Settle(parts: seq<UiBlock>, raws: seq<ContentBlock>): seq<UiBlock> {
    SettleFrom(parts, 0, raws)
  }

  function UserBlocks(blocks: seq<UserBlock>): seq<UserBlock> {
    if blocks == [] then []
    else (if blocks[0] == UserText("") then [] else [blocks[0]]) + UserBlocks(blocks[1..])
  }

  // -------------------------------------------------------- local prompts

  /** The position of the last prompt still waiting for its echo, or the length. */
  function LocalEcho(items: seq<Item>, clientMessageID: string): (at: nat)
    ensures at <= |items|
    ensures at < |items| ==> items[at].User? && items[at].clientMessageID == clientMessageID
    ensures at == |items| ==>
              forall k | 0 <= k < |items| :: !(items[k].User? && items[k].clientMessageID == clientMessageID)
    decreases |items|
  {
    if items == [] then 0
    else
      var last := |items| - 1;
      if items[last].User? && items[last].clientMessageID == clientMessageID then last
      else
        var at := LocalEcho(items[..last], clientMessageID);
        if at == last then |items| else at
  }

  function PromptID(clientMessageID: string): string { "prompt-" + clientMessageID }

  function LocalPrompt(t: State, clientMessageID: string, blocks: seq<UserBlock>): State {
    State(t.items + [User(PromptID(clientMessageID), blocks, clientMessageID)],
          t.seen + {PromptID(clientMessageID)})
  }

  function DropLocalPrompt(t: State, clientMessageID: string): State {
    var at := LocalEcho(t.items, clientMessageID);
    if at == |t.items| then t
    else State(t.items[..at] + t.items[at + 1..], t.seen - {t.items[at].id})
  }

  // --------------------------------------------------------------- events

  function ApplyUser(t: State, messageID: string, raw: seq<UserBlock>, clientMessageID: string, parent: string): State {
    var at := if clientMessageID != "" then LocalEcho(t.items, clientMessageID) else |t.items|;
    var blocks := UserBlocks(raw);
    if at < |t.items| then
      var echoed := t.items[at].(clientMessageID := "",
                                 blocks := if blocks != [] then blocks else t.items[at].blocks);
      State(t.items[at := echoed], t.seen + {messageID})
    else if messageID in t.seen then t
    else
      var list := ListFor(t.items, parent);
      if list.None? || blocks == [] then t.(seen := t.seen + {messageID})
      else State(WithList(t.items, parent, list.value + [User(messageID, blocks, "")]), t.seen + {messageID})
  }

  function ApplyAssistant(t: State, messageID: string, raws: seq<ContentBlock>, parent: string): State {
    var list := ListFor(t.items, parent);
    if list.None? || (messageID in t.seen && !HasAssistant(list.value, messageID)) then t
    else
      State(WithList(t.items, parent, WithAssistant(list.value, messageID, false, SettleItem(raws))),
            t.seen + {messageID})
  }

  function SettleItem(raws: seq<ContentBlock>): Item -> Item {
    (item: Item) =>
      if item.Assistant? then item.(parts := Settle(item.parts, raws), streaming := false) else item
  }

  function StreamItem(event: Event): Item -> Item {
    (item: Item) =>
      if !item.Assistant? then item
      else match event
        case TextDelta(_, index, text, _) => item.(parts := TextAt(item.parts, index, text), streaming := true)
        case ThinkingDelta(_, index, text, _) => item.(parts := ThinkingAt(item.parts, index, text), streaming := true)
        case ToolUseStart(_, index, id, name, kind, _) =>
          item.(parts := BlockAt(item.parts, index, ToolCall(Tool(id, name, kind, "{}", Some(""), None, None, []))))
        case _ => item
  }

  predicate IsStream(event: Event) { event.TextDelta? || event.ThinkingDelta? || event.ToolUseStart? }

  function ApplyStream(t: State, event: Event): State
    requires IsStream(event)
  {
    var list := ListFor(t.items, event.parent);
    if list.None? || (event.ToolUseStart? && FindTool(t.items, event.toolUseID).Some?) then t
    else
      t.(items := WithList(t.items, event.parent,
                           WithAssistant(list.value, event.messageID, true, StreamItem(event))))
  }

  function OrEmpty(text: Option<string>): string {
    if text.Some? then text.value else ""
  }

  function EditByEvent(event: Event): Tool -> Tool {
    (tool: Tool) =>
      match event
      case ToolInputDelta(_, more) => tool.(partialJson := Some(OrEmpty(tool.partialJson) + more))
      case ToolUseEnd(_, input) => Settled(tool, input)
      case ToolOutputDelta(_, text) => tool.(output := Some(OrEmpty(tool.output) + text))
      case ToolResult(_, result) => tool.(result := Some(result))
      case _ => tool
  }

  function Stop(items: seq<Item>): (r: seq<Item>)
    ensures |r| == |items|
    decreases items
  {
    if items == [] then []
    else
      [if items[0].Assistant? then items[0].(streaming := false, parts := StopParts(items[0].parts)) else items[0]]
      + Stop(items[1..])
  }

  function StopParts(parts: seq<UiBlock>): (r: seq<UiBlock>)
    ensures |r| == |parts|
    decreases parts
  {
    if parts == [] then []
    else
      [if parts[0].ToolCall?
       then assert (parts[0] decreases to parts[0].tool);
            ToolCall(parts[0].tool.(children := Stop(parts[0].tool.children)))
       else parts[0]]
      + StopParts(parts[1..])
  }

  function Apply(t: State, event: Event): State {
    match event
    case UserMessage(messageID, blocks, clientMessageID, parent) =>
      ApplyUser(t, messageID, blocks, clientMessageID, parent)
    case AssistantMessage(messageID, content, parent) => ApplyAssistant(t, messageID, content, parent)
    case TextDelta(_, _, _, _) | ThinkingDelta(_, _, _, _) | ToolUseStart(_, _, _, _, _, _) => ApplyStream(t, event)
    case ToolInputDelta(id, _) => t.(items := EditTool(t.items, id, EditByEvent(event)))
    case ToolUseEnd(id, _) => t.(items := EditTool(t.items, id, EditByEvent(event)))
    case ToolOutputDelta(id, _) => t.(items := EditTool(t.items, id, EditByEvent(event)))
    case ToolResult(id, _) => t.(items := EditTool(t.items, id, EditByEvent(event)))
    case ContextBoundary(tokens) => t.(items := t.items + [Note("", tokens, true, "")])
    case Notice(message) => t.(items := t.items + [Note(message, None, false, "")])
    case BackgroundTaskFinished(summary, status) => t.(items := t.items + [Note(summary, None, false, status)])
    case StreamError(code, message, fatal) => t.(items := t.items + [Alert(code, message, fatal)])
    case TurnFinished => t.(items := Stop(t.items))
    case OtherEvent => t
  }

  function Fold(t: State, events: seq<Event>): State
    decreases |events|
  {
    if events == [] then t
    else Apply(Fold(t, events[..|events| - 1]), events[|events| - 1])
  }

  // -------------------------------------------------------------- history

  /** The events a page of history can hold. */
  predicate Entry(event: Event) {
    || event.UserMessage? || event.AssistantMessage? || event.ToolResult?
    || event.ContextBoundary? || event.BackgroundTaskFinished?
  }

  predicate IsMessage(item: Item) { item.User? || item.Assistant? }

  function FreshItems(items: seq<Item>, seen: set<string>): seq<Item> {
    if items == [] then []
    else (if IsMessage(items[0]) && items[0].id in seen then [] else [items[0]]) + FreshItems(items[1..], seen)
  }

  /** What `older` adds goes in front of what is already on screen. */
  function InFront(older: State, t: State): State {
    State(FreshItems(older.items, t.seen) + t.items, t.seen + older.seen)
  }

  /** A page is folded on its own before it is put in front. */
  function Prepend(t: State, page: seq<Event>): State {
    InFront(Fold(EMPTY, page), t)
  }
}
