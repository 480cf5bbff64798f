/**
 Claude reveals a message one line at a time. The session publishes what a message
 holds so far at every line; the transcript reader grows the entry the first line
 opened. Both end at the same blocks.
 */
module ClaudeAssembly {

  import opened Basics
  import opened Transcript
  import opened HistoryPages

  /** `entries` are what a line of any other kind settles into. */
  datatype Line =
    | AssistantLine(messageID: string, content: seq<ContentBlock>, uuid: string, sidechain: bool)
    | ResultLine
    | OtherLine(entries: seq<Event>, uuid: string, sidechain: bool)

  // ---------------------------------------------------------------- live

  type Assembled = map<string, seq<ContentBlock>>

  function Whole(assembled: Assembled, messageID: string): seq<ContentBlock> {
    if messageID in assembled then assembled[messageID] else []
  }

  /** What the session holds of every message of the turn so far. */
  function AssembledAfter(lines: seq<Line>): Assembled {
    if lines == [] then map[]
    else
      var before, line := AssembledAfter(lines[..|lines| - 1]), lines[|lines| - 1];
      match line
      case AssistantLine(id, content, _, _) => before[id := Whole(before, id) + content]
      case ResultLine => map[]
      case OtherLine(_, _, _) => before
  }

  /** The blocks published with a line. */
  function Published(lines: seq<Line>, k: nat): seq<ContentBlock>
    requires k < |lines| && lines[k].AssistantLine?
  {
    Whole(AssembledAfter(lines[..k]), lines[k].messageID) + lines[k].content
  }

  // --------------------------------------------------------------- history

  datatype Reader = Reader(entries: seq<Keyed>, assistantAt: map<string, nat>)

  predicate ReaderOk(r: Reader) {
    forall id <- r.assistantAt ::
      && r.assistantAt[id] < |r.entries|
      && r.entries[r.assistantAt[id]].entry.AssistantMessage?
  }

  function KeyedBy(uuid: string, entries: seq<Event>): (r: seq<Keyed>)
    ensures |r| == |entries| && forall i | 0 <= i < |r| :: r[i] == Keyed(uuid, entries[i])
  {
    if entries == [] then [] else [Keyed(uuid, entries[0])] + KeyedBy(uuid, entries[1..])
  }

  function Grown(entry: Event, content: seq<ContentBlock>): Event
    requires entry.AssistantMessage?
  {
    entry.(content := entry.content + content)
  }

  function ReadLine(r: Reader, line: Line): (s: Reader)
    requires ReaderOk(r)
    ensures ReaderOk(s)
  {
    match line
    case ResultLine => r
    case OtherLine(entries, uuid, sidechain) =>
      if sidechain then r else r.(entries := r.entries + KeyedBy(uuid, entries))
    case AssistantLine(id, content, uuid, sidechain) =>
      if sidechain then r
      else if id in r.assistantAt && id != "" then
        var at := r.assistantAt[id];
        r.(entries := r.entries[at := r.entries[at].(entry := Grown(r.entries[at].entry, content))])
      else
        Reader(r.entries + [Keyed(uuid, AssistantMessage(id, content, ""))], r.assistantAt[id := |r.entries|])
  }

  function ReadAll(lines: seq<Line>): (r: Reader)
    ensures ReaderOk(r)
  {
    if lines == [] then Reader([], map[]) else ReadLine(ReadAll(lines[..|lines| - 1]), lines[|lines| - 1])
  }

  // -------------------------------------------------- what they both amount to

  predicate Tells(line: Line, messageID: string) { line.AssistantLine? && line.messageID == messageID }

  /** All a message was ever told to hold. */
  function Told(lines: seq<Line>, messageID: string): seq<ContentBlock> {
    if lines == [] then []
    else
      var last := lines[|lines| - 1];
      Told(lines[..|lines| - 1], messageID) + if Tells(last, messageID) then last.content else []
  }

  /** Where the turn the last line belongs to began. */
  function TurnStart(lines: seq<Line>): (at: nat)
    ensures at <= |lines|
  {
    if lines == [] then 0
    else if lines[|lines| - 1].ResultLine? then |lines|
    else TurnStart(lines[..|lines| - 1])
  }

  lemma {:induction false} ToldSplit(lines: seq<Line>, k: nat, messageID: string)
    requires k <= |lines|
    ensures Told(lines, messageID) == Told(lines[..k], messageID) + Told(lines[k..], messageID)
  {
    if k == |lines| {
      assert lines[..k] == lines;
    } else {
      var n := |lines| - 1;
      ToldSplit(lines[..n], k, messageID);
      assert lines[..n][..k] == lines[..k] && lines[..n][k..] == lines[k..][..n - k];
    }
  }

  lemma ToldPrefix(lines: seq<Line>, from: nat, a: nat, b: nat, messageID: string)
    requires from <= a <= b <= |lines|
    ensures Told(lines[from..a], messageID) <= Told(lines[from..b], messageID)
  {
    ToldSplit(lines[from..b], a - from, messageID);
    assert lines[from..b][..a - from] == lines[from..a];
  }

  /** The session holds exactly what the turn has told so far. */
  lemma {:induction false} AssembledIsTold(lines: seq<Line>, messageID: string)
    ensures Whole(AssembledAfter(lines), messageID) == Told(lines[TurnStart(lines)..], messageID)
  {
    if lines != [] {
      var n := |lines| - 1;
      AssembledIsTold(lines[..n], messageID);
      if !lines[n].ResultLine? {
        var start := TurnStart(lines);
        assert lines[start..][..n - start] == lines[..n][start..];
      }
    }
  }

  lemma PublishedIsTold(lines: seq<Line>, k: nat)
    requires k < |lines| && lines[k].AssistantLine?
    ensures Published(lines, k) == Told(lines[TurnStart(lines[..k])..k + 1], lines[k].messageID)
  {
    var start := TurnStart(lines[..k]);
    AssembledIsTold(lines[..k], lines[k].messageID);
    assert lines[start..k + 1][..k - start] == lines[..k][start..];
  }

  lemma {:induction false} SameTurn(lines: seq<Line>, j: nat, k: nat)
    requires j <= k <= |lines| && forall i | j <= i < k :: !lines[i].ResultLine?
    ensures TurnStart(lines[..k]) == TurnStart(lines[..j])
  {
    if j < k {
      SameTurn(lines, j, k - 1);
      assert lines[..k][..k - 1] == lines[..k - 1];
    }
  }

  /** Inside a turn every published list of a message is a prefix of the next. */
  lemma PublishedGrows(lines: seq<Line>, j: nat, k: nat)
    requires j <= k < |lines| && forall i | j <= i < k :: !lines[i].ResultLine?
    requires lines[j].AssistantLine? && Tells(lines[k], lines[j].messageID)
    ensures Published(lines, j) <= Published(lines, k)
  {
    SameTurn(lines, j, k);
    PublishedIsTold(lines, j);
    PublishedIsTold(lines, k);
    ToldPrefix(lines, TurnStart(lines[..j]), j + 1, k + 1, lines[j].messageID);
  }

  /** The line that first told of a message in the conversation itself. */
  ghost predicate FirstTold(lines: seq<Line>, messageID: string, f: nat) {
    && f < |lines| && Tells(lines[f], messageID) && !lines[f].sidechain
    && forall i | 0 <= i < f :: !Tells(lines[i], messageID)
  }

  /** No subagent's line bears the message's id. */
  predicate OnMain(lines: seq<Line>, messageID: string) {
    forall i | 0 <= i < |lines| && Tells(lines[i], messageID) :: !lines[i].sidechain
  }

  lemma {:induction false} NotYetRead(lines: seq<Line>, messageID: string)
    requires forall i | 0 <= i < |lines| :: !Tells(lines[i], messageID)
    ensures messageID !in ReadAll(lines).assistantAt && Told(lines, messageID) == []
  {
    if lines != [] {
      NotYetRead(lines[..|lines| - 1], messageID);
    }
  }

  /** No two messages grow the same entry, and each grows its own. */
  ghost predicate Apart(r: Reader) {
    ReaderOk(r) && forall id <- r.assistantAt :: r.entries[r.assistantAt[id]].entry.messageID == id
  }

  lemma {:induction false} AlwaysApart(lines: seq<Line>)
    ensures Apart(ReadAll(lines))
  {
    if lines != [] {
      AlwaysApart(lines[..|lines| - 1]);
    }
  }

  /** History holds one entry for a message, at the place of its first line and
      under that line's id, with all it was told to hold. */
  lemma {:induction false} OneEntryGrows(lines: seq<Line>, messageID: string, f: nat)
    requires messageID != "" && FirstTold(lines, messageID, f) && OnMain(lines, messageID)
    ensures var at := |ReadAll(lines[..f]).entries|;
      && messageID in ReadAll(lines).assistantAt && ReadAll(lines).assistantAt[messageID] == at
      && at < |ReadAll(lines).entries|
      && ReadAll(lines).entries[at] == Keyed(lines[f].uuid, AssistantMessage(messageID, Told(lines, messageID), ""))
  {
    var n := |lines| - 1;
    if f == n {
      NotYetRead(lines[..n], messageID);
      assert Told(lines, messageID) == lines[n].content;
    } else {
      OneEntryGrows(lines[..n], messageID, f);
      assert lines[..n][..f] == lines[..f];
      AlwaysApart(lines[..n]);
    }
  }

  // ---------------------------------------------------------------- theorem

  /** The list published last for a message is the one history replays exactly
      when nothing was told of it before the turn of that line. */
  lemma LiveIsReplay(lines: seq<Line>, messageID: string, f: nat, k: nat)
    requires messageID != "" && FirstTold(lines, messageID, f) && OnMain(lines, messageID)
    requires k < |lines| && Tells(lines[k], messageID)
    requires forall i | k < i < |lines| :: !Tells(lines[i], messageID)
    ensures var at, start := |ReadAll(lines[..f]).entries|, TurnStart(lines[..k]);
      && at < |ReadAll(lines).entries| && ReadAll(lines).entries[at].id == lines[f].uuid
      && (ReadAll(lines).entries[at].entry == AssistantMessage(messageID, Published(lines, k), "")
          <==> Told(lines[..start], messageID) == [])
  {
    OneEntryGrows(lines, messageID, f);
    PublishedIsTold(lines, k);
    var start := TurnStart(lines[..k]);
    ToldSplit(lines, k + 1, messageID);
    NotYetRead(lines[k + 1..], messageID);
    ToldSplit(lines[..k + 1], start, messageID);
    assert lines[..k + 1][..start] == lines[..start] && lines[..k + 1][start..] == lines[start..k + 1];
    var stale, live := Told(lines[..start], messageID), Published(lines, k);
    assert Told(lines, messageID) == stale + live;
    assert stale + live == live <==> stale == [] by {
      assert |stale + live| == |stale| + |live|;
    }
  }

  /** A message that goes on after its turn is published without its beginning,
      which the file has. */
  lemma OutlivesItsTurn(id: string, a: ContentBlock, b: ContentBlock)
    requires id != ""
    ensures var lines := [AssistantLine(id, [a], "u", false), ResultLine, AssistantLine(id, [b], "v", false)];
      && Published(lines, 2) == [b]
      && ReadAll(lines).entries == [Keyed("u", AssistantMessage(id, [a, b], ""))]
  {
    var first, last := AssistantLine(id, [a], "u", false), AssistantLine(id, [b], "v", false);
    var lines := [first, ResultLine, last];
    assert lines[..2] == [first, ResultLine] && [first, ResultLine][..1] == [first] && [first][..0] == [];
    assert AssembledAfter([first, ResultLine]) == map[] && [] + [b] == [b];
    assert ReadAll([first]) == Reader([Keyed("u", AssistantMessage(id, [a], ""))], map[id := 0]);
    assert ReadAll([first, ResultLine]) == ReadAll([first]);
    assert [a] + [b] == [a, b];
  }

  // ------------------------------------------------------- session and reader

  class Session {
    var assembled: Assembled
    var published: seq<Event>

    constructor ()
      ensures assembled == AssembledAfter([]) && published == []
    {
      assembled, published := map[], [];
    }

    /** Publishes the whole message so far. */
    method OnAssistant(messageID: string, content: seq<ContentBlock>, parent: string, ghost lines: seq<Line>,
        ghost line: Line)
      requires assembled == AssembledAfter(lines) && Tells(line, messageID) && line.content == content
      modifies this
      ensures assembled == AssembledAfter(lines + [line])
      ensures published == old(published) + [AssistantMessage(messageID, Published(lines + [line], |lines|), parent)]
    {
      assert (lines + [line])[..|lines|] == lines;
      var settled := if messageID in assembled then assembled[messageID] else [];
      var whole := settled + content;
      assembled := assembled[messageID := whole];
      published := published + [AssistantMessage(messageID, whole, parent)];
    }

    /** With the turn over, no message of it is added to. */
    method OnResult(ghost lines: seq<Line>)
      modifies this`assembled
      ensures assembled == AssembledAfter(lines + [ResultLine])
    {
      assembled := map[];
    }
  }

  method ReadOne(r: Reader, line: Line) returns (s: Reader)
    requires ReaderOk(r)
    ensures s == ReadLine(r, line)
  {
    var entries, assistantAt := r.entries, r.assistantAt;
    match line {
      case ResultLine =>
      case AssistantLine(id, content, uuid, sidechain) =>
        if !sidechain {
          if id in assistantAt && id != "" {
            var at := assistantAt[id];
            entries := entries[at := entries[at].(entry := Grown(entries[at].entry, content))];
          } else {
            assistantAt := assistantAt[id := |entries|];
            entries := entries + [Keyed(uuid, AssistantMessage(id, content, ""))];
          }
        }
      case OtherLine(events, uuid, sidechain) =>
        if !sidechain {
          for k := 0 to |events|
            invariant entries == r.entries + KeyedBy(uuid, events)[..k]
          {
            entries := entries + [Keyed(uuid, events[k])];
          }
        }
    }
    s := Reader(entries, assistantAt);
  }

  // ------------------------------------------------------------------ paging

  datatype Page = Page(start: nat, end: nat, entries: seq<Keyed>, next: Option<string>)

  /** The page before a cursor; no cursor, or one the history does not have, asks
      for the latest page. */
  function PageFor(entries: seq<Keyed>, before: string, limit: Limit): (page: Page)
    ensures page.start <= page.end <= |entries| && page.entries == entries[page.start..page.end]
  {
    var end := if before == "" then |entries| else IndexOf(entries, before);
    var start := if end > limit then end - limit else 0;
    Page(start, end, entries[start..end], if start > 0 then Some(entries[start].id) else None)
  }

  /** The cursor of a page asks for the page before it: it is not the empty one,
      which asks for the latest, and no earlier entry came from the line it names,
      as one line can settle into several entries. */
  predicate Leads(entries: seq<Keyed>, page: Page) {
    && page.start <= |entries| && page.next.Some? && page.next.value != ""
    && forall k | 0 <= k < page.start :: entries[k].id != page.next.value
  }

  /** A page and the one its cursor asks for abut exactly when the cursor leads to
      it, and overlap only if the cursor is empty. */
  lemma PagesDisjoint(entries: seq<Keyed>, before: string, limit: Limit, further: Limit)
    requires PageFor(entries, before, limit).next.Some?
    ensures var page := PageFor(entries, before, limit);
      var older := PageFor(entries, page.next.value, further);
      && (older.end == page.start <==> Leads(entries, page))
      && (older.end > page.start <==> page.next.value == "")
  {
    var page := PageFor(entries, before, limit);
    assert entries[page.start].id == page.next.value;
    assert page.next.value != "" ==> IndexOf(entries, page.next.value) <= page.start;
  }

  /** The pages a client loads that follows the cursors, the latest first. */
  function Walk(entries: seq<Keyed>, before: string, limits: seq<Limit>): (pages: seq<Page>)
    ensures forall i | 0 <= i < |pages| ::
              pages[i].start <= pages[i].end <= |entries| && pages[i].entries == entries[pages[i].start..pages[i].end]
    ensures forall i | 0 <= i < |pages| - 1 :: pages[i].next.Some?
    decreases |limits|
  {
    if limits == [] then []
    else
      var page := PageFor(entries, before, limits[0]);
      [page] + if page.next.None? then [] else Walk(entries, page.next.value, limits[1..])
  }

  /** Each page ends where the one loaded before it begins, the first at the end. */
  ghost predicate Tile(pages: seq<Page>, end: nat) {
    pages == [] || (pages[0].end == end && Tile(pages[1..], pages[0].start))
  }

  /** Every cursor that is followed leads to the page before. */
  ghost predicate LeadBack(entries: seq<Keyed>, pages: seq<Page>) {
    |pages| <= 1 || (Leads(entries, pages[0]) && LeadBack(entries, pages[1..]))
  }

  /** Following the cursors leaves no gap and no repeat exactly if they lead back. */
  lemma {:induction false} PagesTile(entries: seq<Keyed>, before: string, limits: seq<Limit>)
    requires limits != []
    ensures var pages := Walk(entries, before, limits);
      Tile(pages, PageFor(entries, before, limits[0]).end) <==> LeadBack(entries, pages)
    decreases |limits|
  {
    var pages, page, rest := Walk(entries, before, limits), PageFor(entries, before, limits[0]), limits[1..];
    if page.next.Some? && rest != [] {
      PagesDisjoint(entries, before, limits[0], rest[0]);
      PagesTile(entries, page.next.value, rest);
      assert pages[1..] == Walk(entries, page.next.value, rest);
    }
  }

  /** What the pages hold, the oldest first. */
  function Gathered(pages: seq<Page>): seq<Keyed> {
    if pages == [] then [] else Gathered(pages[1..]) + pages[0].entries
  }

  /** Pages that tile hold a stretch of the history as it is. */
  lemma {:induction false} TilesAreWhole(entries: seq<Keyed>, pages: seq<Page>, end: nat)
    requires pages != [] && Tile(pages, end)
    requires forall i | 0 <= i < |pages| ::
               pages[i].start <= pages[i].end <= |entries| && pages[i].entries == entries[pages[i].start..pages[i].end]
    ensures pages[|pages| - 1].start <= end <= |entries|
    ensures Gathered(pages) == entries[pages[|pages| - 1].start..end]
  {
    if |pages| == 1 {
      assert pages[1..] == [] && [] + pages[0].entries == pages[0].entries;
    } else {
      TilesAreWhole(entries, pages[1..], pages[0].start);
      Adjoin(entries, pages[|pages| - 1].start, pages[0].start, end);
    }
  }

  lemma Adjoin(entries: seq<Keyed>, a: nat, b: nat, c: nat)
    requires a <= b <= c <= |entries|
    ensures entries[a..b] + entries[b..c] == entries[a..c]
  {
  }

  method ReadTranscript(lines: seq<Line>, before: string, limit: Limit) returns (page: Page)
    ensures page == PageFor(ReadAll(lines).entries, before, limit)
  {
    var reader := Reader([], map[]);
    for i := 0 to |lines|
      invariant reader == ReadAll(lines[..i])
    {
      assert lines[..i + 1][..i] == lines[..i];
      reader := ReadOne(reader, lines[i]);
    }
    assert lines[..|lines|] == lines;
    var entries := reader.entries;
    var end := |entries|;
    if before != "" {
      for i := 0 to |entries|
        invariant end == |entries| && forall k | 0 <= k < i :: entries[k].id != before
      {
        if entries[i].id == before {
          end := i;
          break;
        }
      }
    }
    var start := end - limit;
    if start < 0 {
      start := 0;
    }
    page := Page(start, end, entries[start..end], if start > 0 then Some(entries[start].id) else None);
  }
}
