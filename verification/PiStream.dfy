/**
 How a pi session turns what pi says line by line into protocol events: the
 assembly of the message being streamed, and cumulative tool output cut into
 deltas.
 */
module PiStream {
  import opened Basics
  import opened Transcript
  import opened PiMapping

  datatype Update =
    | TextUpdate(index: nat, delta: string)
    | ThinkingUpdate(index: nat, delta: string)
    | CallStart(index: nat, id: string, name: string)
    | CallDelta(index: nat, delta: string)
    | CallEnd(id: string, arguments: string)

  /** One line from pi. `client` is the owner prompt a user message echoes, if
      any, `code` how a failed message's error is classified. */
  datatype Line =
    | MessageStart(message: Message)
    | MessageUpdate(update: Update)
    | MessageEnd(message: Message, client: string, code: string)
    | ToolUpdate(toolCallID: string, snapshot: string)
    | AgentSettled
    | CompactionEnd(tokensBefore: nat)
    | AutoRetry(text: string)
    | Unreadable(text: string)

  datatype Assembly = Assembly(messageID: string, blockTools: map<nat, string>, toolOutput: map<string, string>)

  const IDLE := Assembly("", map[], map[])

  function ToolAt(s: Assembly, index: nat): string {
    if index in s.blockTools then s.blockTools[index] else ""
  }

  function OnUpdate(s: Assembly, update: Update): (Assembly, seq<Event>) {
    match update
    case TextUpdate(index, delta) => (s, [TextDelta(s.messageID, index, delta, "")])
    case ThinkingUpdate(index, delta) => (s, [ThinkingDelta(s.messageID, index, delta, "")])
    case CallStart(index, id, name) =>
      (s.(blockTools := s.blockTools[index := id]), [ToolUseStart(s.messageID, index, id, name, ToolKind(name), "")])
    case CallDelta(index, delta) =>
      (s, if ToolAt(s, index) != "" then [ToolInputDelta(ToolAt(s, index), delta)] else [])
    case CallEnd(id, arguments) => (s, [ToolUseEnd(id, Arguments(arguments))])
  }

  function Previous(s: Assembly, toolCallID: string): string {
    if toolCallID in s.toolOutput then s.toolOutput[toolCallID] else ""
  }

  /** What a snapshot adds to the one before it, or all of it. */
  function Delta(previous: string, snapshot: string): string {
    if previous <= snapshot then snapshot[|previous|..] else snapshot
  }

  function OnToolUpdate(s: Assembly, toolCallID: string, snapshot: string): (Assembly, seq<Event>) {
    if toolCallID == "" then (s, [])
    else
      var delta := Delta(Previous(s, toolCallID), snapshot);
      (s.(toolOutput := s.toolOutput[toolCallID := snapshot]),
       if delta == "" then [] else [ToolOutputDelta(toolCallID, delta)])
  }

  function OnMessageEnd(s: Assembly, m: Message, client: string, code: string): (Assembly, seq<Event>) {
    (if m.role.ToolResultRole? then s.(toolOutput := s.toolOutput - {m.toolCallID}) else s,
     MessageEntry(m, client)
     + (if m.role.AssistantRole? && m.failed
        then [StreamError(code, if m.errorMessage != "" then m.errorMessage
                                else "pi reported an error without a message", false)]
        else []))
  }

  function OnLine(s: Assembly, line: Line): (Assembly, seq<Event>) {
    match line
    case MessageStart(m) =>
      (if m.role.AssistantRole? then s.(messageID := MessageID(m), blockTools := map[]) else s, [])
    case MessageUpdate(update) => OnUpdate(s, update)
    case MessageEnd(m, client, code) => OnMessageEnd(s, m, client, code)
    case ToolUpdate(id, snapshot) => OnToolUpdate(s, id, snapshot)
    case AgentSettled => (s.(messageID := "", blockTools := map[]), [TurnFinished])
    case CompactionEnd(tokens) => (s, [ContextBoundary(Some(tokens))])
    case AutoRetry(text) => (s, [Notice(text)])
    case Unreadable(text) => (s, [StreamError("unrenderable", text, false)])
  }

  function AssemblyAfter(lines: seq<Line>): Assembly {
    if lines == [] then IDLE
    else OnLine(AssemblyAfter(lines[..|lines| - 1]), lines[|lines| - 1]).0
  }

  /** The events the session publishes. */
  function Live(lines: seq<Line>): seq<Event> {
    if lines == [] then []
    else
      var before := lines[..|lines| - 1];
      Live(before) + OnLine(AssemblyAfter(before), lines[|lines| - 1]).1
  }

  /** The entries the session file holds of the same lines. */
  function Stored(line: Line): seq<Event> {
    match line
    case MessageEnd(m, _, _) => MessageEntry(m, "")
    case CompactionEnd(tokens) => [ContextBoundary(Some(tokens))]
    case _ => []
  }

  function Replay(lines: seq<Line>): seq<Event> {
    if lines == [] then [] else Replay(lines[..|lines| - 1]) + Stored(lines[|lines| - 1])
  }
}
