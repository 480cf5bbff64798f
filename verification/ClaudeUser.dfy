/**
 A user line of claude's: what the session publishes for it, and what its
 transcript file makes of it. Both split off the results of tools; only the file
 knows the envelopes a local command and a finished background task come in.
 */
module ClaudeUser {

  import opened Basics
  import opened Transcript
  import opened Trees
  import ClaudeAssembly
  import ClaudeScreen

  datatype RawBlock =
    | RawText(text: string)
    | RawImage(mediaType: string, data: string)
    | RawResult(toolUseID: string, result: Result)
    | RawOther

  /** `parent` is the tool call of the subagent whose line it is, if it is one's. */
  datatype UserLine = UserLine(uuid: string, blocks: seq<RawBlock>, parent: string)

  // ------------------------------------------------------------------ text

  const SPACES: set<char> := {
    '\t', '\n', '\U{0B}', '\U{0C}', '\r', ' ', '\U{85}', '\U{A0}', '\U{1680}',
    '\U{2000}', '\U{2001}', '\U{2002}', '\U{2003}', '\U{2004}', '\U{2005}', '\U{2006}',
    '\U{2007}', '\U{2008}', '\U{2009}', '\U{200A}', '\U{2028}', '\U{2029}', '\U{202F}', '\U{205F}', '\U{3000}'}

  /** What a gap between two tags is made of. */
  const GAPS: set<char> := {'\t', '\n', '\U{0C}', '\r', ' '}

  function TrimLeft(s: string): (r: string)
    ensures |r| <= |s|
  {
    if s != "" && s[0] in SPACES then TrimLeft(s[1..]) else s
  }

  function TrimRight(s: string): (r: string)
    ensures |r| <= |s|
  {
    if s != "" && s[|s| - 1] in SPACES then TrimRight(s[..|s| - 1]) else s
  }

  function Trim(s: string): (r: string)
    ensures |r| <= |s|
  {
    TrimRight(TrimLeft(s))
  }

  datatype Tag = Tag(open: string, close: string)

  /** What stands between two tags that begin and end a text. */
  function Between(text: string, tag: Tag): (r: Option<string>)
    ensures r.Some? ==> |r.value| + |tag.open| + |tag.close| == |text|
  {
    if |tag.open| + |tag.close| <= |text| && tag.open <= text && text[|text| - |tag.close|..] == tag.close
    then Some(text[|tag.open|..|text| - |tag.close|]) else None
  }

  function SkipGap(s: string): (r: string)
    ensures |r| <= |s|
  {
    if s != "" && s[0] in GAPS then SkipGap(s[1..]) else s
  }

  // ------------------------------------------------------------- envelopes

  datatype Envelope =
    | Caveat
    | Command(command: string)
    | Output(output: string)
    | TaskNotice(summary: string, status: string)

  const CAVEAT := Tag("<local-command-caveat>", "</local-command-caveat>")
  const NAME := Tag("<command-name>", "</command-name>")
  const MESSAGE := Tag("<command-message>", "</command-message>")
  const ARGS := Tag("<command-args>", "</command-args>")
  const STDOUT := Tag("<local-command-stdout>", "</local-command-stdout>")
  const STDERR := Tag("<local-command-stderr>", "</local-command-stderr>")
  const TASK := Tag("<task-notification>", "</task-notification>")

  /** The arguments that follow if the message ends here. */
  function ArgsHere(s: string, message: Tag, args: Tag): (r: Option<string>)
    ensures r.Some? ==> |r.value| + |args.open| + |args.close| <= |s|
  {
    if message.close <= s then Between(SkipGap(s[|message.close|..]), args) else None
  }

  /** The arguments, after the first end of the message that they follow. */
  function ArgsAfter(s: string, message: Tag, args: Tag): (r: Option<string>)
    ensures r.Some? ==> |r.value| + |args.open| + |args.close| <= |s|
  {
    if s == "" || ArgsHere(s, message, args).Some? then ArgsHere(s, message, args)
    else ArgsAfter(s[1..], message, args)
  }

  /** The arguments if the name ends here. */
  function NameHere(s: string, name: Tag, message: Tag, args: Tag): (r: Option<string>)
    ensures r.Some? ==> |r.value| + |args.open| + |args.close| <= |s|
  {
    if name.close <= s && message.open <= SkipGap(s[|name.close|..])
    then ArgsAfter(SkipGap(s[|name.close|..])[|message.open|..], message, args)
    else None
  }

  /** How long the name of a command is that has begun, and its arguments. */
  function NameAfter(s: string, name: Tag, message: Tag, args: Tag): (r: Option<(nat, string)>)
    ensures r.Some? ==> r.value.0 + |r.value.1| + |args.open| + |args.close| <= |s|
  {
    if NameHere(s, name, message, args).Some? then Some((0, NameHere(s, name, message, args).value))
    else if s == "" || NameAfter(s[1..], name, message, args).None? then None
    else
      var found := NameAfter(s[1..], name, message, args).value;
      Some((found.0 + 1, found.1))
  }

  function Called(name: string, args: string): (r: string)
    ensures |r| <= |name| + |args| + 1
  {
    Trim(name) + if Trim(args) == "" then "" else " " + Trim(args)
  }

  function CommandOf(text: string, name: Tag, message: Tag, args: Tag): (r: Option<string>)
    ensures r.Some? && |name.open| > 0 && |args.open| > 0 ==> |r.value| < |text|
  {
    if name.open <= text && NameAfter(text[|name.open|..], name, message, args).Some? then
      var rest := text[|name.open|..];
      var found := NameAfter(rest, name, message, args).value;
      Some(Called(rest[..found.0], found.1))
    else None
  }

  function OutputOf(text: string): (r: Option<string>)
    ensures r.Some? ==> |r.value| < |text|
  {
    if Between(text, STDOUT).Some? then Between(text, STDOUT)
    else Between(text, STDERR)
  }

  function LocalCommand(text: string): Option<Envelope> {
    var text := Trim(text);
    if Between(text, CAVEAT).Some? then Some(Caveat)
    else if CommandOf(text, NAME, MESSAGE, ARGS).Some? then Some(Command(CommandOf(text, NAME, MESSAGE, ARGS).value))
    else if OutputOf(text).Some? then Some(Output(OutputOf(text).value))
    else None
  }

  const FIELDS := ["task-id", "status", "summary"]

  function Opened(s: string): (r: Option<string>)
    ensures r.Some? ==> |r.value| + 2 <= |s|
  {
    if "<" + FIELDS[0] + ">" <= s then Some(FIELDS[0])
    else if "<" + FIELDS[1] + ">" <= s then Some(FIELDS[1])
    else if "<" + FIELDS[2] + ">" <= s then Some(FIELDS[2])
    else None
  }

  predicate Closed(s: string, field: string) { "</" + field + ">" <= s }

  /** What stands before the next closing tag, whichever field it names, and after it. */
  function NextClosed(s: string): (r: Option<(string, string)>)
    ensures r.Some? ==> |r.value.0| + |r.value.1| < |s|
  {
    if Closed(s, FIELDS[0]) then Some(("", s[|FIELDS[0]| + 3..]))
    else if Closed(s, FIELDS[1]) then Some(("", s[|FIELDS[1]| + 3..]))
    else if Closed(s, FIELDS[2]) then Some(("", s[|FIELDS[2]| + 3..]))
    else if s == "" || NextClosed(s[1..]).None? then None
    else Some(([s[0]] + NextClosed(s[1..]).value.0, NextClosed(s[1..]).value.1))
  }

  /** The last value a field is given. */
  function FieldOf(s: string, field: string, sofar: string): string
    decreases |s|
  {
    if s == "" then sofar
    else if Opened(s).Some? && NextClosed(s[|Opened(s).value| + 2..]).Some? then
      var found := NextClosed(s[|Opened(s).value| + 2..]).value;
      FieldOf(found.1, field, if Opened(s).value == field then Trim(found.0) else sofar)
    else FieldOf(s[1..], field, sofar)
  }

  function TaskStatus(status: string): string {
    if status == "completed" || status == "stopped" then status else "failed"
  }

  function TaskNotification(text: string): Option<Envelope> {
    var text := Trim(text);
    if Between(text, TASK).None? then None
    else Some(TaskNotice(FieldOf(text, FIELDS[2], ""), TaskStatus(FieldOf(text, FIELDS[1], ""))))
  }

  /** Only a line that is one text and nothing else can be an envelope. */
  function EnvelopeIn(blocks: seq<RawBlock>): Option<Envelope> {
    if |blocks| == 1 && blocks[0].RawText? then
      if LocalCommand(blocks[0].text).Some? then LocalCommand(blocks[0].text) else TaskNotification(blocks[0].text)
    else None
  }

  // ------------------------------------------------------ what a line becomes

  function ResultIn(block: RawBlock): seq<Event> {
    if block.RawResult? then [ToolResult(block.toolUseID, block.result)] else []
  }

  function Results(blocks: seq<RawBlock>): seq<Event> {
    if blocks == [] then [] else Results(blocks[..|blocks| - 1]) + ResultIn(blocks[|blocks| - 1])
  }

  function VisibleIn(block: RawBlock): seq<UserBlock> {
    match block
    case RawText(text) => [UserText(text)]
    case RawImage(mediaType, data) => [UserImage(mediaType, data)]
    case _ => []
  }

  function Visible(blocks: seq<RawBlock>): seq<UserBlock> {
    if blocks == [] then [] else Visible(blocks[..|blocks| - 1]) + VisibleIn(blocks[|blocks| - 1])
  }

  function Split(uuid: string, blocks: seq<RawBlock>, parent: string): seq<Event> {
    Results(blocks) + if Visible(blocks) == [] then [] else [UserMessage(uuid, Visible(blocks), "", parent)]
  }

  function Entries(uuid: string, envelope: Envelope): seq<Event> {
    match envelope
    case Caveat => []
    case Command(command) => [UserMessage(uuid, [UserText(command)], "", "")]
    case Output(output) => if Trim(output) == "" then [] else [AssistantMessage(uuid, [TextContent(output)], "")]
    case TaskNotice(summary, status) => [BackgroundTaskFinished(summary, status)]
  }

  /** What the session publishes. */
  function Published(line: UserLine): seq<Event> { Split(line.uuid, line.blocks, line.parent) }

  /** What the reader makes of the line. */
  function Stored(line: UserLine): seq<Event> {
    var envelope := EnvelopeIn(line.blocks);
    if envelope.Some? then Entries(line.uuid, envelope.value) else Split(line.uuid, line.blocks, "")
  }

  /** The line as the reader takes it; a subagent's is not read. */
  function AsLine(line: UserLine): ClaudeAssembly.Line {
    ClaudeAssembly.OtherLine(Stored(line), line.uuid, line.parent != "")
  }

  // ------------------------------------------------------------ the two loops

  method VisibleBlocks(blocks: seq<RawBlock>) returns (out: seq<UserBlock>)
    ensures out == Visible(blocks)
  {
    out := [];
    for k := 0 to |blocks|
      invariant out == Visible(blocks[..k])
    {
      assert blocks[..k + 1][..k] == blocks[..k];
      match blocks[k] {
        case RawText(text) => out := out + [UserText(text)];
        case RawImage(mediaType, data) => out := out + [UserImage(mediaType, data)];
        case _ =>
      }
    }
    assert blocks[..|blocks|] == blocks;
  }

  class Session {
    var published: seq<Event>

    method OnUser(line: UserLine)
      modifies this
      ensures published == old(published) + Published(line)
    {
      for k := 0 to |line.blocks|
        invariant published == old(published) + Results(line.blocks[..k])
      {
        assert line.blocks[..k + 1][..k] == line.blocks[..k];
        var block := line.blocks[k];
        if block.RawResult? {
          published := published + [ToolResult(block.toolUseID, block.result)];
        }
      }
      assert line.blocks[..|line.blocks|] == line.blocks;
      var visible := VisibleBlocks(line.blocks);
      if visible != [] {
        published := published + [UserMessage(line.uuid, visible, "", line.parent)];
      }
    }
  }

  method TranscriptEntries(line: UserLine) returns (out: seq<Event>)
    ensures out == Stored(line)
  {
    var blocks := line.blocks;
    if |blocks| == 1 && blocks[0].RawText? {
      var command := LocalCommand(blocks[0].text);
      if command.Some? {
        return Entries(line.uuid, command.value);
      }
      var notice := TaskNotification(blocks[0].text);
      if notice.Some? {
        return Entries(line.uuid, notice.value);
      }
    }
    out := [];
    for k := 0 to |blocks|
      invariant out == Results(blocks[..k])
    {
      assert blocks[..k + 1][..k] == blocks[..k];
      if blocks[k].RawResult? {
        out := out + [ToolResult(blocks[k].toolUseID, blocks[k].result)];
      }
    }
    assert blocks[..|blocks|] == blocks;
    var visible := VisibleBlocks(blocks);
    if visible != [] {
      out := out + [UserMessage(line.uuid, visible, "", "")];
    }
  }

  // ----------------------------------------------------- when the two agree

  /** An envelope is text, and a command in it is shorter. */
  lemma EnvelopeIsText(blocks: seq<RawBlock>)
    requires EnvelopeIn(blocks).Some?
    ensures |blocks| == 1 && blocks[0].RawText? && blocks[0].text != ""
    ensures EnvelopeIn(blocks).value.Command? ==> |EnvelopeIn(blocks).value.command| < |blocks[0].text|
  {
  }

  lemma SplitSnoc(blocks: seq<RawBlock>, block: RawBlock)
    ensures Visible(blocks + [block]) == Visible(blocks) + VisibleIn(block)
    ensures Results(blocks + [block]) == Results(blocks) + ResultIn(block)
  {
    assert (blocks + [block])[..|blocks|] == blocks;
  }

  lemma OneText(uuid: string, text: string, parent: string)
    ensures Split(uuid, [RawText(text)], parent) == [UserMessage(uuid, [UserText(text)], "", parent)]
  {
    SplitSnoc([], RawText(text));
    assert [] + [RawText(text)] == [RawText(text)];
    assert Visible([RawText(text)]) == [UserText(text)] && Results([RawText(text)]) == [];
  }

  lemma VisibleText(text: string)
    requires text != ""
    ensures UserBlocks([UserText(text)]) == [UserText(text)]
  {
    var blocks := [UserText(text)];
    assert blocks[0].text != "" && blocks[1..] == [];
  }

  /** A text that is shown as it stands. */
  lemma TextShown(t: State, uuid: string, text: string)
    requires uuid !in t.seen && text != ""
    ensures Fold(t, [UserMessage(uuid, [UserText(text)], "", "")])
         == State(t.items + [User(uuid, [UserText(text)], "")], t.seen + {uuid})
  {
    FoldOne(t, UserMessage(uuid, [UserText(text)], "", ""));
    VisibleText(text);
  }

  /** No envelope comes to what its text comes to. */
  lemma EnvelopeDiffers(t: State, uuid: string, text: string, envelope: Envelope)
    requires uuid !in t.seen && text != "" && (envelope.Command? ==> |envelope.command| < |text|)
    ensures Fold(t, Entries(uuid, envelope)) != Fold(t, [UserMessage(uuid, [UserText(text)], "", "")])
  {
    TextShown(t, uuid, text);
    var shown := t.items + [User(uuid, [UserText(text)], "")];
    assert shown[|t.items|] == User(uuid, [UserText(text)], "") && [UserText(text)][0].text == text;
    if Entries(uuid, envelope) != [] {
      FoldOne(t, Entries(uuid, envelope)[0]);
      match envelope {
        case Command(command) =>
          assert UserBlocks([UserText(command)]) == if command == "" then [] else [UserText(command)];
        case Output(output) =>
          var after := Apply(t, Entries(uuid, envelope)[0]);
          assert |after.items| == |t.items| + 1 ==> after.items[|t.items|].Assistant?;
        case TaskNotice(summary, status) =>
          assert Apply(t, Entries(uuid, envelope)[0]).items[|t.items|].Note?;
      }
    }
  }

  /** A line of the conversation itself leaves a screen what its stored entries leave
      it exactly when it is no envelope. */
  lemma AgreeUnlessEnvelope(t: State, line: UserLine)
    requires line.parent == "" && line.uuid !in t.seen
    ensures Fold(t, Published(line)) == Fold(t, Stored(line)) <==> EnvelopeIn(line.blocks).None?
  {
    if EnvelopeIn(line.blocks).Some? {
      EnvelopeIsText(line.blocks);
      OneText(line.uuid, line.blocks[0].text, "");
      assert line.blocks == [RawText(line.blocks[0].text)];
      EnvelopeDiffers(t, line.uuid, line.blocks[0].text, EnvelopeIn(line.blocks).value);
    }
  }

  /** So it is a line like any other there, published as it is stored. */
  lemma PublishedAsStored(before: seq<ClaudeAssembly.Line>, line: UserLine)
    requires line.parent == ""
    ensures ClaudeScreen.LineEvents(before, AsLine(line)) == Published(line) <==> EnvelopeIn(line.blocks).None?
  {
    if EnvelopeIn(line.blocks).Some? {
      AgreeUnlessEnvelope(EMPTY, line);
    }
  }

  // ------------------------------------------------------------ a command read

  function Tail(message: Tag, space: string, args: Tag, given: string): string {
    message.close + (space + (args.open + given + args.close))
  }

  function Rest(message: Tag, said: string, space: string, args: Tag, given: string): string {
    message.open + (said + Tail(message, space, args, given))
  }

  /** A local command as claude writes it. */
  function Written(called: string, gap: string, said: string, space: string, given: string): string {
    NAME.open + (called + (NAME.close + (gap + Rest(MESSAGE, said, space, ARGS, given))))
  }

  predicate Gap(s: string) { forall c <- s :: c in GAPS }

  /** As every tag is. */
  predicate Angled(tag: Tag) { tag.open != "" && tag.open[0] == '<' && tag.close != "" && tag.close[0] == '<' }

  lemma {:induction false} GapSkipped(gap: string, back: string)
    requires Gap(gap) && back != "" && back[0] !in GAPS
    ensures SkipGap(gap + back) == back
  {
    if gap == "" {
      assert gap + back == back;
    } else {
      assert (gap + back)[1..] == gap[1..] + back;
      GapSkipped(gap[1..], back);
    }
  }

  lemma BetweenRead(tag: Tag, inner: string)
    ensures Between(tag.open + inner + tag.close, tag) == Some(inner)
  {
    var text := tag.open + inner + tag.close;
    assert text == tag.open + (inner + tag.close);
    assert text[|text| - |tag.close|..] == tag.close && text[|tag.open|..|text| - |tag.close|] == inner;
  }

  lemma Cut(tag: string, rest: string)
    ensures tag <= tag + rest && (tag + rest)[|tag|..] == rest
  {
  }

  /** A message that ends here. */
  lemma TailRead(message: Tag, space: string, args: Tag, given: string)
    requires Angled(args) && Gap(space)
    ensures ArgsHere(Tail(message, space, args, given), message, args) == Some(given)
  {
    var inner := args.open + given + args.close;
    Cut(message.close, space + inner);
    GapSkipped(space, inner);
    BetweenRead(args, given);
  }

  lemma NoTag(s: string, tag: string)
    requires tag != "" && s != "" && s[0] != tag[0]
    ensures !(tag <= s)
  {
  }

  lemma {:induction false} ArgsRead(said: string, tail: string, message: Tag, args: Tag, given: string)
    requires Angled(message) && '<' !in said && ArgsHere(tail, message, args) == Some(given)
    ensures ArgsAfter(said + tail, message, args) == Some(given)
  {
    if said == "" {
      assert said + tail == tail;
    } else {
      assert (said + tail)[1..] == said[1..] + tail;
      NoTag(said + tail, message.close);
      ArgsRead(said[1..], tail, message, args, given);
    }
  }

  lemma {:induction false} NameRead(called: string, rest: string, name: Tag, message: Tag, args: Tag, given: string)
    requires Angled(name) && '<' !in called && NameHere(rest, name, message, args) == Some(given)
    ensures NameAfter(called + rest, name, message, args) == Some((|called|, given))
  {
    if called == "" {
      assert called + rest == rest;
    } else {
      assert (called + rest)[1..] == called[1..] + rest;
      NoTag(called + rest, name.close);
      NameRead(called[1..], rest, name, message, args, given);
    }
  }

  lemma NameEnds(name: Tag, gap: string, message: Tag, said: string, space: string, args: Tag, given: string)
    requires Angled(message) && Angled(args) && Gap(gap) && '<' !in said && Gap(space)
    ensures NameHere(name.close + (gap + Rest(message, said, space, args, given)), name, message, args) == Some(given)
  {
    var tail, rest := Tail(message, space, args, given), Rest(message, said, space, args, given);
    Cut(name.close, gap + rest);
    GapSkipped(gap, rest);
    Cut(message.open, said + tail);
    TailRead(message, space, args, given);
    ArgsRead(said, tail, message, args, given);
  }

  lemma CommandRead(name: Tag, called: string, rest: string, message: Tag, args: Tag, given: string)
    requires Angled(name) && '<' !in called && NameHere(rest, name, message, args) == Some(given)
    ensures CommandOf(name.open + (called + rest), name, message, args) == Some(Called(called, given))
  {
    Cut(name.open, called + rest);
    NameRead(called, rest, name, message, args, given);
    assert (called + rest)[..|called|] == called;
  }

  lemma LastOf(front: string, back: string)
    requires back != ""
    ensures (front + back)[|front + back| - 1] == back[|back| - 1]
  {
  }

  lemma LastOfTail(message: Tag, space: string, args: Tag, given: string)
    requires args.close != ""
    ensures var tail := Tail(message, space, args, given);
      tail != "" && tail[|tail| - 1] == args.close[|args.close| - 1]
  {
    var inner := args.open + given + args.close;
    LastOf(args.open + given, args.close);
    LastOf(space, inner);
    LastOf(message.close, space + inner);
  }

  lemma LastOfAll(name: Tag, called: string, gap: string, message: Tag, said: string, space: string, args: Tag,
                  given: string)
    requires args.close != ""
    ensures var text := name.open + (called + (name.close + (gap + Rest(message, said, space, args, given))));
      text != "" && text[|text| - 1] == args.close[|args.close| - 1]
  {
    var tail, rest := Tail(message, space, args, given), Rest(message, said, space, args, given);
    LastOfTail(message, space, args, given);
    LastOf(said, tail);
    LastOf(message.open, said + tail);
    LastOf(gap, rest);
    LastOf(name.close, gap + rest);
    LastOf(called, name.close + (gap + rest));
    LastOf(name.open, called + (name.close + (gap + rest)));
  }

  lemma TrimIdle(text: string)
    requires text != "" && text[0] !in SPACES && text[|text| - 1] !in SPACES
    ensures Trim(text) == text
  {
  }

  lemma NoCaveat(text: string)
    requires NAME.open <= text && text[|text| - 1] == '>'
    ensures Trim(text) == text && Between(text, CAVEAT).None?
  {
    assert NAME.open[0] == '<' && NAME.open[1] == 'c' && CAVEAT.open[1] == 'l';
    TrimIdle(text);
  }

  lemma IsCommand(text: string, command: string)
    requires Trim(text) == text && Between(text, CAVEAT).None?
    requires CommandOf(text, NAME, MESSAGE, ARGS) == Some(command)
    ensures LocalCommand(text) == Some(Command(command))
  {
  }

  /** A command reads back as its name and arguments, whatever the arguments hold. */
  lemma CommandReads(called: string, gap: string, said: string, space: string, given: string)
    requires '<' !in called && Gap(gap) && '<' !in said && Gap(space)
    ensures LocalCommand(Written(called, gap, said, space, given)) == Some(Command(Called(called, given)))
  {
    var text := Written(called, gap, said, space, given);
    var rest := NAME.close + (gap + Rest(MESSAGE, said, space, ARGS, given));
    NameEnds(NAME, gap, MESSAGE, said, space, ARGS, given);
    CommandRead(NAME, called, rest, MESSAGE, ARGS, given);
    LastOfAll(NAME, called, gap, MESSAGE, said, space, ARGS, given);
    Cut(NAME.open, called + rest);
    NoCaveat(text);
    IsCommand(text, Called(called, given));
  }
}
