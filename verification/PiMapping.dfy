/**
 Pi's messages and the one mapping from them to transcript entries, used by the
 live stream and by the session file reader alike.
 */
module PiMapping {
  import opened Decimals
  import opened Transcript

  datatype Role = UserRole | AssistantRole | ToolResultRole | OtherRole

  datatype Part =
    | TextPart(text: string)
    | ThinkingPart(text: string)
    | ToolCallPart(id: string, name: string, arguments: string)
    | ImagePart(mediaType: string, data: string)
    | OtherPart(kind: string)

  datatype Message = Message(
    role: Role, content: seq<Part>, timestamp: nat, toolCallID: string, isError: bool,
    failed: bool, errorMessage: string)

  function ToolKind(name: string): string {
    if name in {"bash", "powershell"} then "shell"
    else if name == "edit" then "file_edit"
    else if name == "write" then "file_write"
    else if name in {"read", "ls"} then "file_read"
    else if name in {"grep", "find"} then "search"
    else "other"
  }

  function MessageID(m: Message): string {
    match m.role
    case AssistantRole => "a-" + Decimal(m.timestamp)
    case ToolResultRole => m.toolCallID
    case _ => "u-" + Decimal(m.timestamp)
  }

  function Arguments(arguments: string): string {
    if arguments == "" then "{}" else arguments
  }

  function ContentOf(p: Part): ContentBlock {
    match p
    case TextPart(text) => TextContent(text)
    case ThinkingPart(text) => ThinkingContent(text)
    case ToolCallPart(id, name, arguments) => ToolUse(id, name, ToolKind(name), Arguments(arguments))
    case ImagePart(_, data) => OtherContent(data)
    case OtherPart(kind) => TextContent("[" + kind + "]")
  }

  function ContentBlocks(parts: seq<Part>): (r: seq<ContentBlock>)
    ensures |r| == |parts|
    ensures forall i | 0 <= i < |r| :: r[i] == ContentOf(parts[i])
  {
    if parts == [] then [] else [ContentOf(parts[0])] + ContentBlocks(parts[1..])
  }

  /** The parts an owner prompt or a tool result can show: text and images. */
  function PlainBlocks(parts: seq<Part>): seq<UserBlock> {
    if parts == [] then []
    else
      (match parts[0]
       case TextPart(text) => [UserText(text)]
       case ImagePart(mediaType, data) => [UserImage(mediaType, data)]
       case _ => []) + PlainBlocks(parts[1..])
  }

  /** The entry of a message, or nothing for the roles pi keeps to itself and
      for an assistant message with nothing in it. */
  function MessageEntry(m: Message, clientMessageID: string): seq<Event> {
    match m.role
    case UserRole => [UserMessage(MessageID(m), PlainBlocks(m.content), clientMessageID, "")]
    case AssistantRole =>
      if m.content == [] then [] else [AssistantMessage(MessageID(m), ContentBlocks(m.content), "")]
    case ToolResultRole => [ToolResult(m.toolCallID, Result(PlainBlocks(m.content), m.isError))]
    case OtherRole => []
  }

  /** A user message and an assistant message never share an id, and two of the
      same role share one only with their timestamp. */
  lemma MessageIDsDiffer(m: Message, n: Message)
    requires m.role in {UserRole, AssistantRole} && n.role in {UserRole, AssistantRole}
    requires MessageID(m) == MessageID(n)
    ensures m.role == n.role && m.timestamp == n.timestamp
  {
    assert MessageID(m)[0] == MessageID(n)[0];
    assert MessageID(m)[2..] == Decimal(m.timestamp) && MessageID(n)[2..] == Decimal(n.timestamp);
    DecimalInjective(m.timestamp, n.timestamp);
  }
}
