/**
 What claude's transcript reader makes of what claude writes: whose lines it reads, what
 a page holds, and how the envelopes of a user line read back.
 */
module ClaudeReading {

  import opened Basics
  import opened Transcript
  import opened HistoryPages
  import opened Sieves
  import opened ClaudeAssembly
  import opened ClaudeUser

  // ------------------------------------------------------------------ subagents

  predicate OfSubagent(line: Line) { !line.ResultLine? && line.sidechain }

  /** The lines of the conversation itself. */
  function Main(lines: seq<Line>): seq<Line> {
    if lines == [] then []
    else Main(lines[..|lines| - 1]) + if OfSubagent(lines[|lines| - 1]) then [] else [lines[|lines| - 1]]
  }

  /** Lines of subagents are as if they were not there. */
  lemma {:induction false} SidechainsUnread(lines: seq<Line>)
    ensures ReadAll(lines) == ReadAll(Main(lines))
  {
    if lines != [] {
      var before, last := lines[..|lines| - 1], lines[|lines| - 1];
      SidechainsUnread(before);
      if OfSubagent(last) {
        assert Main(before) + [] == Main(before);
      } else {
        assert (Main(before) + [last])[..|Main(before)|] == Main(before);
      }
    }
  }

  /** Entries of the file, in the order of their lines, come after those before them
      under the id of their line. */
  lemma EntriesStand(lines: seq<Line>, line: Line) returns (more: seq<Keyed>)
    requires line.OtherLine? && !line.sidechain
    ensures ReadAll(lines + [line]).entries == ReadAll(lines).entries + more
    ensures |more| == |line.entries| && forall i | 0 <= i < |more| :: more[i] == Keyed(line.uuid, line.entries[i])
  {
    more := KeyedBy(line.uuid, line.entries);
    assert (lines + [line])[..|lines|] == lines;
  }

  /** So a user line is read as its entries if it is of the conversation itself, and not at
      all if it is a subagent's. */
  lemma UserLineRead(lines: seq<Line>, line: UserLine) returns (more: seq<Keyed>)
    ensures ReadAll(lines + [AsLine(line)]).entries == ReadAll(lines).entries + more
    ensures line.parent != "" ==> more == []
    ensures line.parent == "" ==>
              |more| == |Stored(line)| && forall i | 0 <= i < |more| :: more[i] == Keyed(line.uuid, Stored(line)[i])
  {
    assert (lines + [AsLine(line)])[..|lines|] == lines;
    if line.parent == "" {
      more := EntriesStand(lines, AsLine(line));
    } else {
      more := [];
    }
  }

  // ----------------------------------------------------------------------- pages

  /** A page ends before the entry its cursor names, or at the end of the history when it
      names none, holds as many entries as it may, and says how to go on while there are
      more. */
  lemma PageHolds(lines: seq<Line>, before: string, limit: Limit)
    ensures var entries := ReadAll(lines).entries;
      var page := PageFor(entries, before, limit);
      && (before == "" || (forall k | 0 <= k < |entries| :: entries[k].id != before) ==> page.end == |entries|)
      && (page.end < |entries| ==>
            before != "" && entries[page.end].id == before && forall k | 0 <= k < page.end :: entries[k].id != before)
      && page.entries == entries[page.start..page.end]
      && |page.entries| == (if page.end <= limit then page.end else limit)
      && page.next == (if page.end <= limit then None else Some(page.entries[0].id))
  {
    PageOf(ReadAll(lines).entries, before, limit);
  }

  lemma PageOf(entries: seq<Keyed>, before: string, limit: Limit)
    ensures var page := PageFor(entries, before, limit);
      && (before == "" || (forall k | 0 <= k < |entries| :: entries[k].id != before) ==> page.end == |entries|)
      && (page.end < |entries| ==>
            before != "" && entries[page.end].id == before && forall k | 0 <= k < page.end :: entries[k].id != before)
      && |page.entries| == (if page.end <= limit then page.end else limit)
      && page.next == (if page.end <= limit then None else Some(page.entries[0].id))
  {
  }

  // ------------------------------------------------------------------- user lines

  predicate Tells(raw: RawBlock, e: Event) { raw.RawResult? && e == ToolResult(raw.toolUseID, raw.result) }

  predicate Shows(raw: RawBlock, block: UserBlock) {
    (raw.RawText? && block == UserText(raw.text)) || (raw.RawImage? && block == UserImage(raw.mediaType, raw.data))
  }

  lemma {:induction false} ResultsAreSieved(blocks: seq<RawBlock>)
    ensures Sieved(blocks, Results(blocks), Tells)
  {
    if blocks == [] {
      NothingSieved(Tells);
    } else {
      var before, last := blocks[..|blocks| - 1], blocks[|blocks| - 1];
      ResultsAreSieved(before);
      assert blocks == before + [last];
      if last.RawResult? {
        KeepsLast(before, Results(before), last, ToolResult(last.toolUseID, last.result), Tells);
      } else {
        SkipsLast(before, Results(before), last, Tells);
        assert Results(before) + [] == Results(before);
      }
    }
  }

  lemma {:induction false} VisibleAreSieved(blocks: seq<RawBlock>)
    ensures Sieved(blocks, ClaudeUser.Visible(blocks), Shows)
  {
    if blocks == [] {
      NothingSieved(Shows);
    } else {
      var before, last := blocks[..|blocks| - 1], blocks[|blocks| - 1];
      VisibleAreSieved(before);
      assert blocks == before + [last];
      match last {
        case RawText(text) => KeepsLast(before, ClaudeUser.Visible(before), last, UserText(text), Shows);
        case RawImage(mediaType, data) =>
          KeepsLast(before, ClaudeUser.Visible(before), last, UserImage(mediaType, data), Shows);
        case _ =>
          SkipsLast(before, ClaudeUser.Visible(before), last, Shows);
          assert ClaudeUser.Visible(before) + [] == ClaudeUser.Visible(before);
      }
    }
  }

  /** A user line is published as the results in it, in order, and then its texts and
      images as one message, if it has any. */
  lemma LineIsTold(line: UserLine) returns (results: seq<Event>, blocks: seq<UserBlock>)
    ensures Sieved(line.blocks, results, Tells) && Sieved(line.blocks, blocks, Shows)
    ensures ClaudeUser.Published(line)
            == results + if blocks == [] then [] else [UserMessage(line.uuid, blocks, "", line.parent)]
  {
    ResultsAreSieved(line.blocks);
    VisibleAreSieved(line.blocks);
    results, blocks := Results(line.blocks), ClaudeUser.Visible(line.blocks);
  }

  // -------------------------------------------------------------- trimming a text

  predicate AllSpace(s: string) { forall c <- s :: c in SPACES }

  /** Nothing to trim. */
  predicate Tight(s: string) { s == "" || (s[0] !in SPACES && s[|s| - 1] !in SPACES) }

  lemma {:induction false} TrimLeftDrops(front: string, s: string)
    requires AllSpace(front) && (s == "" || s[0] !in SPACES)
    ensures TrimLeft(front + s) == s
  {
    if front == "" {
      assert front + s == s;
    } else {
      assert (front + s)[1..] == front[1..] + s;
      TrimLeftDrops(front[1..], s);
    }
  }

  lemma {:induction false} TrimRightDrops(s: string, back: string)
    requires AllSpace(back) && (s == "" || s[|s| - 1] !in SPACES)
    ensures TrimRight(s + back) == s
  {
    if back == "" {
      assert s + back == s;
    } else {
      assert (s + back)[..|s + back| - 1] == s + back[..|back| - 1];
      TrimRightDrops(s, back[..|back| - 1]);
    }
  }

  lemma {:induction false} TrimLeftAll(s: string)
    requires AllSpace(s)
    ensures TrimLeft(s) == ""
  {
    if s != "" {
      TrimLeftAll(s[1..]);
    }
  }

  /** Trimming takes the white space off both ends and nothing else. */
  lemma Trims(front: string, s: string, back: string)
    requires AllSpace(front) && AllSpace(back) && Tight(s)
    ensures Trim(front + s + back) == s
  {
    if s == "" {
      assert front + s + back == front + back;
      TrimLeftAll(front + back);
    } else {
      assert front + s + back == front + (s + back);
      TrimLeftDrops(front, s + back);
      TrimRightDrops(s, back);
    }
  }

  // --------------------------------------------------------- output and the caveat

  lemma Opens(text: string, tag: Tag, other: Tag, i: nat)
    requires tag.open <= text && i < |tag.open| && i < |other.open| && other.open[i] != tag.open[i]
    ensures Between(text, other).None? && !(other.open <= text)
  {
  }

  /** What a local command put out reads back as it is, whatever it holds, and the caveat
      that goes before it as nothing to show. */
  lemma OutputReads(output: string)
    ensures LocalCommand(STDOUT.open + output + STDOUT.close) == Some(Output(output))
    ensures LocalCommand(STDERR.open + output + STDERR.close) == Some(Output(output))
    ensures LocalCommand(CAVEAT.open + output + CAVEAT.close) == Some(Caveat)
  {
    StdoutReads(output);
    StderrReads(output);
    CaveatReads(output);
  }

  lemma TaggedTrims(tag: Tag, inner: string)
    requires Angled(tag) && tag.close[|tag.close| - 1] == '>'
    ensures Trim(tag.open + inner + tag.close) == tag.open + inner + tag.close
    ensures tag.open <= tag.open + inner + tag.close
  {
    var text := tag.open + inner + tag.close;
    assert text[0] == '<' && text[|text| - 1] == '>';
    TrimIdle(text);
  }

  lemma StdoutReads(output: string)
    ensures LocalCommand(STDOUT.open + output + STDOUT.close) == Some(Output(output))
  {
    var text := STDOUT.open + output + STDOUT.close;
    TaggedTrims(STDOUT, output);
    BetweenRead(STDOUT, output);
    assert STDOUT.open[15] == 's' && CAVEAT.open[15] == 'c';
    assert STDOUT.open[1] == 'l' && NAME.open[1] == 'c';
    Opens(text, STDOUT, CAVEAT, 15);
    Opens(text, STDOUT, NAME, 1);
  }

  lemma StderrReads(output: string)
    ensures LocalCommand(STDERR.open + output + STDERR.close) == Some(Output(output))
  {
    var text := STDERR.open + output + STDERR.close;
    TaggedTrims(STDERR, output);
    BetweenRead(STDERR, output);
    assert STDERR.open[15] == 's' && CAVEAT.open[15] == 'c';
    assert STDERR.open[1] == 'l' && NAME.open[1] == 'c';
    assert STDERR.open[18] == 'e' && STDOUT.open[18] == 'o';
    Opens(text, STDERR, CAVEAT, 15);
    Opens(text, STDERR, NAME, 1);
    Opens(text, STDERR, STDOUT, 18);
  }

  lemma CaveatReads(inner: string)
    ensures LocalCommand(CAVEAT.open + inner + CAVEAT.close) == Some(Caveat)
  {
    TaggedTrims(CAVEAT, inner);
    BetweenRead(CAVEAT, inner);
  }

  // ------------------------------------------------------- a task that finished

  function Opening(field: string): string { "<" + field + ">" }

  function Closing(field: string): string { "</" + field + ">" }

  /** A field as claude writes it. */
  function Given(field: string, value: string): string { Opening(field) + (value + Closing(field)) }

  lemma Differ(s: string, a: string, b: string, i: nat)
    requires a <= s && i < |a| && i < |b| && a[i] != b[i]
    ensures !(b <= s)
  {
  }

  lemma OpenedIs(s: string, field: string)
    requires field in FIELDS && Opening(field) <= s
    ensures Opened(s) == Some(field)
  {
    if field == "status" {
      Differ(s, Opening(field), "<task-id>", 1);
    } else if field == "summary" {
      Differ(s, Opening(field), "<task-id>", 1);
      Differ(s, Opening(field), "<status>", 2);
    }
  }

  lemma ClosedIs(s: string, field: string)
    requires field in FIELDS
    ensures NextClosed(Closing(field) + s) == Some(("", s))
  {
    var text := Closing(field) + s;
    Cut(Closing(field), s);
    if field == "task-id" {
    } else if field == "status" {
      Differ(text, Closing(field), "</task-id>", 2);
    } else {
      Differ(text, Closing(field), "</task-id>", 2);
      Differ(text, Closing(field), "</status>", 3);
    }
  }

  lemma NotClosed(s: string)
    requires s != "" && s[0] != '<'
    ensures forall f <- FIELDS :: !Closed(s, f)
    ensures Opened(s).None?
  {
    forall f <- FIELDS ensures !Closed(s, f) {
      NoTag(s, Closing(f));
    }
    NoTag(s, Opening(FIELDS[0]));
    NoTag(s, Opening(FIELDS[1]));
    NoTag(s, Opening(FIELDS[2]));
  }

  lemma {:induction false} ValueRead(value: string, field: string, rest: string)
    requires field in FIELDS && '<' !in value
    ensures NextClosed(value + (Closing(field) + rest)) == Some((value, rest))
  {
    var text := value + (Closing(field) + rest);
    if value == "" {
      assert text == Closing(field) + rest;
      ClosedIs(rest, field);
    } else {
      assert text[1..] == value[1..] + (Closing(field) + rest);
      NotClosed(text);
      ValueRead(value[1..], field, rest);
      assert value == [value[0]] + value[1..];
      assert FIELDS[0] in FIELDS && FIELDS[1] in FIELDS && FIELDS[2] in FIELDS;
      ValueGrows(text, value[1..], rest);
    }
  }

  lemma ValueGrows(text: string, value: string, rest: string)
    requires text != "" && NextClosed(text[1..]) == Some((value, rest))
    requires !Closed(text, FIELDS[0]) && !Closed(text, FIELDS[1]) && !Closed(text, FIELDS[2])
    ensures NextClosed(text) == Some(([text[0]] + value, rest))
  {
  }

  lemma FieldRead(given: string, value: string, rest: string, field: string, sofar: string)
    requires given in FIELDS && '<' !in value
    ensures FieldOf(Given(given, value) + rest, field, sofar)
            == FieldOf(rest, field, if given == field then Trim(value) else sofar)
  {
    var text, after := Given(given, value) + rest, value + (Closing(given) + rest);
    assert text == Opening(given) + after;
    Cut(Opening(given), after);
    OpenedIs(text, given);
    ValueRead(value, given, rest);
  }

  lemma {:induction false} FieldSkips(gap: string, rest: string, field: string, sofar: string)
    requires forall i | 0 <= i < |gap| :: Opened((gap + rest)[i..]).None?
    ensures FieldOf(gap + rest, field, sofar) == FieldOf(rest, field, sofar)
  {
    if gap == "" {
      assert gap + rest == rest;
    } else {
      assert (gap + rest)[0..] == gap + rest && (gap + rest)[1..] == gap[1..] + rest;
      forall i | 0 <= i < |gap[1..]| ensures Opened((gap[1..] + rest)[i..]).None? {
        assert (gap[1..] + rest)[i..] == (gap + rest)[i + 1..];
      }
      FieldSkips(gap[1..], rest, field, sofar);
    }
  }

  lemma GapSkips(gap: string, rest: string, field: string, sofar: string)
    requires Gap(gap)
    ensures FieldOf(gap + rest, field, sofar) == FieldOf(rest, field, sofar)
  {
    forall i | 0 <= i < |gap| ensures Opened((gap + rest)[i..]).None? {
      assert (gap + rest)[i..][0] == gap[i] && gap[i] in gap;
      NotClosed((gap + rest)[i..]);
    }
    FieldSkips(gap, rest, field, sofar);
  }

  /** The tags around all of it are none of the fields. */
  lemma TagSkips(tag: string, rest: string, field: string, sofar: string)
    requires tag == TASK.open || tag == TASK.close
    ensures FieldOf(tag + rest, field, sofar) == FieldOf(rest, field, sofar)
  {
    forall i | 0 <= i < |tag| ensures Opened((tag + rest)[i..]).None? {
      var s := (tag + rest)[i..];
      assert s[0] == tag[i];
      if i > 0 {
        NoBracket(tag, i);
        NotClosed(s);
      } else {
        assert s == tag + rest;
        TagIsNone(tag, rest);
      }
    }
    FieldSkips(tag, rest, field, sofar);
  }

  lemma NoBracket(tag: string, i: nat)
    requires (tag == TASK.open || tag == TASK.close) && 0 < i < |tag|
    ensures tag[i] != '<'
  {
  }

  lemma TagIsNone(tag: string, rest: string)
    requires tag == TASK.open || tag == TASK.close
    ensures Opened(tag + rest).None?
  {
    if tag == TASK.open {
      Differ(tag + rest, tag, "<task-id>", 6);
      Differ(tag + rest, tag, "<status>", 1);
      Differ(tag + rest, tag, "<summary>", 1);
    } else {
      Differ(tag + rest, tag, "<task-id>", 1);
      Differ(tag + rest, tag, "<status>", 1);
      Differ(tag + rest, tag, "<summary>", 1);
    }
  }

  /** The fields, in order, each after a gap. */
  function Fields(id: string, status: string, summary: string, gap: string): string {
    gap + (Given("task-id", id) + (gap + (Given("status", status) + (gap + (Given("summary", summary)
    + (gap + TASK.close))))))
  }

  /** What the notice of a finished task says of a field. */
  lemma FieldIn(id: string, status: string, summary: string, gap: string, field: string)
    requires Gap(gap) && '<' !in id && '<' !in status && '<' !in summary
    ensures FieldOf(TASK.open + Fields(id, status, summary, gap), field, "")
            == if field == "summary" then Trim(summary) else if field == "status" then Trim(status)
               else if field == "task-id" then Trim(id) else ""
  {
    var end := gap + TASK.close;
    var third := Given("summary", summary) + end;
    var second := Given("status", status) + (gap + third);
    var first := Given("task-id", id) + (gap + second);
    TagSkips(TASK.open, gap + first, field, "");
    GapSkips(gap, first, field, "");
    FieldRead("task-id", id, gap + second, field, "");
    var a := if "task-id" == field then Trim(id) else "";
    GapSkips(gap, second, field, a);
    FieldRead("status", status, gap + third, field, a);
    var b := if "status" == field then Trim(status) else a;
    GapSkips(gap, third, field, b);
    FieldRead("summary", summary, end, field, b);
    var c := if "summary" == field then Trim(summary) else b;
    GapSkips(gap, TASK.close, field, c);
    assert TASK.close + "" == TASK.close;
    TagSkips(TASK.close, "", field, c);
  }

  /** The notice of a finished task reads back as its summary and status; any status but
      these two is a failure. */
  lemma NoticeReads(id: string, status: string, summary: string, gap: string)
    requires Gap(gap) && '<' !in id && '<' !in status && '<' !in summary
    ensures TaskNotification(TASK.open + Fields(id, status, summary, gap))
            == Some(TaskNotice(Trim(summary),
                               if Trim(status) in {"completed", "stopped"} then Trim(status) else "failed"))
  {
    var text := TASK.open + Fields(id, status, summary, gap);
    NoticeEnds(id, status, summary, gap);
    Inner(text, TASK, Fields(id, status, summary, gap));
    TaggedTrims(TASK, Between(text, TASK).value);
    FieldIn(id, status, summary, gap, "summary");
    FieldIn(id, status, summary, gap, "status");
  }

  ghost predicate Ending(s: string, close: string) { |close| <= |s| && s[|s| - |close|..] == close }

  lemma EndsOn(front: string, back: string, close: string)
    requires Ending(back, close)
    ensures Ending(front + back, close)
  {
  }

  lemma GivenEnds(field: string, value: string, gap: string, rest: string, close: string)
    requires Ending(rest, close)
    ensures Ending(gap + (Given(field, value) + rest), close)
  {
    EndsOn(Given(field, value), rest, close);
    EndsOn(gap, Given(field, value) + rest, close);
  }

  lemma NoticeEnds(id: string, status: string, summary: string, gap: string)
    ensures Ending(Fields(id, status, summary, gap), TASK.close)
  {
    var end := gap + TASK.close;
    var third := gap + (Given("summary", summary) + end);
    EndsOn(gap, TASK.close, TASK.close);
    GivenEnds("summary", summary, gap, end, TASK.close);
    GivenEnds("status", status, gap, third, TASK.close);
    GivenEnds("task-id", id, gap, gap + (Given("status", status) + third), TASK.close);
  }

  lemma Inner(text: string, tag: Tag, fields: string)
    requires text == tag.open + fields && Ending(fields, tag.close)
    ensures Between(text, tag).Some? && text == tag.open + Between(text, tag).value + tag.close
  {
    var inner := fields[..|fields| - |tag.close|];
    assert text == tag.open + inner + tag.close;
    BetweenRead(tag, inner);
  }

  // ----------------------------------------------------- what the file comes to

  /** A text between white space. */
  ghost predicate Spaced(text: string, front: string, s: string, back: string) {
    text == front + s + back && AllSpace(front) && AllSpace(back) && Tight(s)
  }

  lemma OnlyText(uuid: string, text: string, parent: string, envelope: Envelope)
    requires EnvelopeIn([RawText(text)]) == Some(envelope)
    ensures Stored(UserLine(uuid, [RawText(text)], parent)) == Entries(uuid, envelope)
  {
  }

  /** A command somebody gave is read as what they would have typed, without the white
      space around the name and around the arguments. */
  lemma CommandStored(uuid: string, parent: string, called: string, gap: string, said: string, space: string,
                      given: string, name: string, args: string, a: string, b: string, c: string, d: string)
    requires '<' !in called && Gap(gap) && '<' !in said && Gap(space)
    requires Spaced(called, a, name, b) && Spaced(given, c, args, d)
    ensures Stored(UserLine(uuid, [RawText(Written(called, gap, said, space, given))], parent))
            == [UserMessage(uuid, [UserText(if args == "" then name else name + " " + args)], "", "")]
  {
    CommandReads(called, gap, said, space, given);
    CalledIs(called, given, name, args, a, b, c, d);
    CommandLine(uuid, parent, Written(called, gap, said, space, given), Called(called, given));
  }

  lemma CalledIs(called: string, given: string, name: string, args: string, a: string, b: string, c: string, d: string)
    requires Spaced(called, a, name, b) && Spaced(given, c, args, d)
    ensures Called(called, given) == if args == "" then name else name + " " + args
  {
    Trims(a, name, b);
    Trims(c, args, d);
    assert name + "" == name && name + (" " + args) == name + " " + args;
  }

  lemma CommandLine(uuid: string, parent: string, text: string, command: string)
    requires LocalCommand(text) == Some(Command(command))
    ensures Stored(UserLine(uuid, [RawText(text)], parent)) == [UserMessage(uuid, [UserText(command)], "", "")]
  {
    OnlyText(uuid, text, parent, Command(command));
  }

  /** What a local command put out is read as an answer, unless it is white space, and the
      caveat as nothing. */
  lemma OutputStored(uuid: string, parent: string, output: string, tag: Tag)
    requires tag in {STDOUT, STDERR}
    ensures Stored(UserLine(uuid, [RawText(tag.open + output + tag.close)], parent))
            == if AllSpace(output) then [] else [AssistantMessage(uuid, [TextContent(output)], "")]
    ensures Stored(UserLine(uuid, [RawText(CAVEAT.open + output + CAVEAT.close)], parent)) == []
  {
    OutputReads(output);
    OnlyText(uuid, tag.open + output + tag.close, parent, Output(output));
    OnlyText(uuid, CAVEAT.open + output + CAVEAT.close, parent, Caveat);
    TrimEmpty(output);
  }

  lemma {:induction false} TrimRightAll(s: string)
    ensures TrimRight(s) == "" <==> AllSpace(s)
  {
    if s != "" {
      TrimRightAll(s[..|s| - 1]);
      assert s == s[..|s| - 1] + [s[|s| - 1]];
    }
  }

  lemma {:induction false} TrimLeftSpace(s: string)
    ensures AllSpace(TrimLeft(s)) <==> AllSpace(s)
  {
    if s != "" {
      TrimLeftSpace(s[1..]);
      assert s == [s[0]] + s[1..];
    }
  }

  lemma TrimEmpty(s: string)
    ensures Trim(s) == "" <==> AllSpace(s)
  {
    TrimRightAll(TrimLeft(s));
    TrimLeftSpace(s);
  }

  /** The notice of a finished task is read as just that. */
  lemma NoticeStored(uuid: string, parent: string, id: string, status: string, summary: string, gap: string)
    requires Gap(gap) && '<' !in id && '<' !in status && '<' !in summary
    ensures Stored(UserLine(uuid, [RawText(TASK.open + Fields(id, status, summary, gap))], parent))
            == [BackgroundTaskFinished(Trim(summary),
                                       if Trim(status) in {"completed", "stopped"} then Trim(status) else "failed")]
  {
    NoticeReads(id, status, summary, gap);
    NoticeEnds(id, status, summary, gap);
    NoticeLine(uuid, parent, Fields(id, status, summary, gap));
  }

  lemma NoticeLine(uuid: string, parent: string, fields: string)
    requires Ending(fields, TASK.close) && TaskNotification(TASK.open + fields).Some?
    ensures Stored(UserLine(uuid, [RawText(TASK.open + fields)], parent))
            == Entries(uuid, TaskNotification(TASK.open + fields).value)
  {
    var text := TASK.open + fields;
    assert text[|text| - |TASK.close|..] == fields[|fields| - |TASK.close|..];
    NoticeIsNoCommand(text);
    OnlyText(uuid, text, parent, TaskNotification(text).value);
  }

  lemma NoticeIsNoCommand(text: string)
    requires TASK.open <= text && |text| >= |TASK.close| && text[|text| - |TASK.close|..] == TASK.close
    ensures LocalCommand(text).None?
  {
    assert text[0] == TASK.open[0] && text[|text| - 1] == TASK.close[|TASK.close| - 1];
    TrimIdle(text);
    assert TASK.open[1] == 't' && CAVEAT.open[1] == 'l' && NAME.open[1] == 'c';
    assert STDOUT.open[1] == 'l' && STDERR.open[1] == 'l';
    Opens(text, TASK, CAVEAT, 1);
    Opens(text, TASK, NAME, 1);
    Opens(text, TASK, STDOUT, 1);
    Opens(text, TASK, STDERR, 1);
  }
}
