/**
 History read back from pi's session file, a page at a time.
 */
module PiHistory {

  import opened Basics
  import opened Transcript
  import opened PiMapping
  import opened PiBranch
  import opened HistoryPages

  // ---------------------------------------------------------------- settling

  function SettledEntry(e: FileEntry): seq<Event> {
    if e.kind == "message" then MessageEntry(e.message, "")
    else if e.kind == "compaction" then [ContextBoundary(Some(e.tokensBefore))]
    else []
  }

  function SettledBranch(branch: seq<FileEntry>): seq<Keyed> {
    if branch == [] then []
    else
      var last := branch[|branch| - 1];
      SettledBranch(branch[..|branch| - 1])
      + if SettledEntry(last) == [] then [] else [Keyed(last.id, SettledEntry(last)[0])]
  }

  /** Everything pi will continue from, oldest first. */
  function History(lines: seq<Option<FileEntry>>): seq<Keyed> { SettledBranch(Branch(Entries(lines))) }

  /** No two entries share a cursor, and none has the empty one. */
  predicate Cursors(settled: seq<Keyed>) {
    && (forall i, j | 0 <= i < j < |settled| :: settled[i].id != settled[j].id)
    && (forall i | 0 <= i < |settled| :: settled[i].id != "")
  }

  ghost predicate AmongIds(branch: seq<FileEntry>, id: string) { exists i | 0 <= i < |branch| :: branch[i].id == id }

  lemma {:induction false} SettledKeepsIds(branch: seq<FileEntry>)
    requires forall i, j | 0 <= i < j < |branch| :: branch[i].id != branch[j].id
    requires forall i | 0 <= i < |branch| :: branch[i].id != ""
    ensures Cursors(SettledBranch(branch))
    ensures forall k | 0 <= k < |SettledBranch(branch)| :: AmongIds(branch, SettledBranch(branch)[k].id)
  {
    if branch != [] {
      var n := |branch| - 1;
      SettledKeepsIds(branch[..n]);
      var before := SettledBranch(branch[..n]);
      forall k | 0 <= k < |before| ensures before[k].id != branch[n].id && AmongIds(branch, before[k].id) {
        AmongMore(branch, before[k].id);
      }
      if SettledEntry(branch[n]) != [] {
        assert AmongIds(branch, branch[n].id);
        OneMoreCursor(before, Keyed(branch[n].id, SettledEntry(branch[n])[0]));
      }
    }
  }

  lemma AmongMore(branch: seq<FileEntry>, id: string)
    requires branch != [] && AmongIds(branch[..|branch| - 1], id)
    ensures AmongIds(branch, id) && exists i | 0 <= i < |branch| - 1 :: branch[i].id == id
  {
    var i :| 0 <= i < |branch| - 1 && branch[..|branch| - 1][i].id == id;
    assert branch[i].id == id;
  }

  lemma OneMoreCursor(settled: seq<Keyed>, next: Keyed)
    requires Cursors(settled) && next.id != "" && forall k | 0 <= k < |settled| :: settled[k].id != next.id
    ensures Cursors(settled + [next])
  {
  }

  lemma PickedDistinct(entries: seq<FileEntry>, walk: seq<nat>)
    requires forall i, j | 0 <= i < j < |entries| :: entries[i].id != entries[j].id
    requires forall i | 0 <= i < |walk| :: walk[i] < |entries|
    requires Falling(walk)
    ensures var branch := Picked(entries, walk);
      forall i, j | 0 <= i < j < |branch| :: branch[i].id != branch[j].id
  {
    var branch := Picked(entries, walk);
    forall i, j | 0 <= i < j < |branch| ensures branch[i].id != branch[j].id {
      assert walk[|walk| - 1 - i] < walk[|walk| - 1 - j];
    }
  }

  lemma CursorsAreUnique(lines: seq<Option<FileEntry>>)
    requires ParentsFirst(Entries(lines))
    ensures Cursors(History(lines))
  {
    var entries := Entries(lines);
    if entries != [] {
      BranchInFileOrder(entries, |entries| - 1);
      var walk := Walk(Links(entries), |entries| - 1, |entries|);
      PickedDistinct(entries, walk);
      forall i | 0 <= i < |Branch(entries)| ensures Branch(entries)[i].id != "" {
        assert Branch(entries)[i] in entries;
      }
      SettledKeepsIds(Branch(entries));
    }
  }

  // ------------------------------------------------------------------ paging

  datatype TranscriptPage = TranscriptPage(entries: seq<Event>, next: Option<string>)

  function Back(end: nat, count: nat): nat { if end > count then end - count else 0 }

  /** The page that ends at some place. */
  function PageBefore(settled: seq<Keyed>, end: nat, limit: Limit): TranscriptPage
    requires end <= |settled|
  {
    var start := Back(end, limit);
    TranscriptPage(Events(settled[start..end]), if start > 0 then Some(settled[start].id) else None)
  }

  /** A cursor the history does not have gets an empty page. */
  function PageFor(settled: seq<Keyed>, before: string, limit: Limit): TranscriptPage {
    if before == "" then PageBefore(settled, |settled|, limit)
    else
      var end := IndexOf(settled, before);
      if end == |settled| then TranscriptPage([], None) else PageBefore(settled, end, limit)
  }

  /** What a client has, oldest first, having followed the cursors of one page
      after another with limits of its choice. */
  function Followed(settled: seq<Keyed>, before: string, limits: seq<Limit>): seq<Event>
    decreases |limits|
  {
    if limits == [] then []
    else
      var page := PageFor(settled, before, limits[0]);
      (if page.next.None? then [] else Followed(settled, page.next.value, limits[1..])) + page.entries
  }

  function Sum(limits: seq<Limit>): nat { if limits == [] then 0 else limits[0] + Sum(limits[1..]) }

  /** Whether a request for what comes before `before` ends at `end`. */
  predicate EndsAt(settled: seq<Keyed>, before: string, end: nat) {
    if before == "" then end == |settled| else end < |settled| && settled[end].id == before
  }

  /** Each page ends where the one after it begins. */
  lemma PagesAbut(settled: seq<Keyed>, before: string, end: nat, limit: Limit)
    requires Cursors(settled) && EndsAt(settled, before, end)
    ensures var page := PageFor(settled, before, limit);
      && page.entries == Events(settled[Back(end, limit)..end])
      && (page.next.Some? <==> Back(end, limit) > 0)
      && (page.next.Some? ==> EndsAt(settled, page.next.value, Back(end, limit)))
  {
    if before != "" {
      assert IndexOf(settled, before) == end;
    }
  }

  lemma EventsSplit(settled: seq<Keyed>, a: nat, b: nat, c: nat)
    requires a <= b <= c <= |settled|
    ensures Events(settled[a..b]) + Events(settled[b..c]) == Events(settled[a..c])
  {
  }

  lemma {:induction false} FollowedTo(settled: seq<Keyed>, before: string, end: nat, limits: seq<Limit>)
    requires Cursors(settled) && EndsAt(settled, before, end) && end <= |settled|
    ensures Followed(settled, before, limits) == Events(settled[Back(end, Sum(limits))..end])
    decreases |limits|
  {
    if limits == [] {
      assert settled[end..end] == [];
    } else {
      var page, middle, rest := PageFor(settled, before, limits[0]), Back(end, limits[0]), limits[1..];
      PagesAbut(settled, before, end, limits[0]);
      assert Back(end, Sum(limits)) == Back(middle, Sum(rest));
      if page.next.Some? {
        FollowedTo(settled, page.next.value, middle, rest);
        EventsSplit(settled, Back(middle, Sum(rest)), middle, end);
      }
    }
  }

  /** Following the cursors with any limits lists the end of the history with no
      gap and no repeat, and all of it once the limits add up to its length. */
  lemma {:induction false} PagesTile(lines: seq<Option<FileEntry>>, limits: seq<Limit>)
    requires ParentsFirst(Entries(lines))
    ensures var all := Events(History(lines));
      Followed(History(lines), "", limits) == all[Back(|all|, Sum(limits))..]
  {
    CursorsAreUnique(lines);
    FollowedAll(History(lines), limits);
  }

  lemma FollowedAll(settled: seq<Keyed>, limits: seq<Limit>)
    requires Cursors(settled)
    ensures var all := Events(settled); Followed(settled, "", limits) == all[Back(|all|, Sum(limits))..]
  {
    FollowedTo(settled, "", |settled|, limits);
    EventsFrom(settled, Back(|settled|, Sum(limits)));
  }

  lemma EventsFrom(settled: seq<Keyed>, a: nat)
    requires a <= |settled|
    ensures Events(settled[a..|settled|]) == Events(settled)[a..]
  {
    EventsSplit(settled, 0, a, |settled|);
    assert settled[0..|settled|] == settled;
    Cut(Events(settled[0..a]), Events(settled[a..|settled|]));
  }

  lemma Cut(front: seq<Event>, rest: seq<Event>)
    ensures (front + rest)[|front|..] == rest
  {
  }

  // -------------------------------------------------------------- the reader

  method Settle(branch: seq<FileEntry>) returns (settled: seq<Keyed>)
    ensures settled == SettledBranch(branch)
  {
    settled := [];
    for i := 0 to |branch|
      invariant settled == SettledBranch(branch[..i])
    {
      assert branch[..i + 1][..i] == branch[..i];
      var mapped := SettledEntry(branch[i]);
      if mapped != [] {
        settled := settled + [Keyed(branch[i].id, mapped[0])];
      }
    }
    assert branch[..|branch|] == branch;
  }

  lemma EventsSnoc(settled: seq<Keyed>, a: nat, b: nat)
    requires a <= b < |settled|
    ensures Events(settled[a..b + 1]) == Events(settled[a..b]) + [settled[b].entry]
  {
  }

  method Slice(settled: seq<Keyed>, end: nat, limit: Limit) returns (page: TranscriptPage)
    requires end <= |settled|
    ensures page == PageBefore(settled, end, limit)
  {
    var start := Back(end, limit);
    var shown := [];
    for i := start to end
      invariant shown == Events(settled[start..i])
    {
      EventsSnoc(settled, start, i);
      shown := shown + [settled[i].entry];
    }
    page := TranscriptPage(shown, if start > 0 then Some(settled[start].id) else None);
  }

  method ReadTranscript(lines: seq<Option<FileEntry>>, before: string, limit: Limit) returns (page: TranscriptPage)
    ensures page == PageFor(History(lines), before, limit)
  {
    var entries, byID := ReadEntries(lines);
    var branch := ReadBranch(entries, byID);
    var settled := Settle(branch);
    var end := |settled|;
    if before != "" {
      end := Find(settled, before);
      if end == |settled| {
        return TranscriptPage([], None);
      }
    }
    page := Slice(settled, end, limit);
  }
}
