/**
 A pi thread loaded from its session file, in terms of what the file holds.
 */
module PiLoading {

  import opened Basics
  import opened Transcript
  import opened Trees
  import opened PiMapping
  import opened PiStream
  import opened PiLive
  import opened PiBranch
  import opened PiHistory
  import opened HistoryPages
  import opened Sieves
  import PiScreen

  /** What pi said when it wrote an entry: a message ended, or the context was compacted. */
  function LineOf(e: FileEntry): Line {
    if e.kind == "message" then MessageEnd(e.message, "", "")
    else if e.kind == "compaction" then CompactionEnd(e.tokensBefore)
    else MessageUpdate(TextUpdate(0, ""))
  }

  function LinesOf(branch: seq<FileEntry>): seq<Line> {
    if branch == [] then [] else LinesOf(branch[..|branch| - 1]) + [LineOf(branch[|branch| - 1])]
  }

  lemma LinesSnoc(branch: seq<FileEntry>, e: FileEntry)
    ensures LinesOf(branch + [e]) == LinesOf(branch) + [LineOf(e)]
  {
    assert (branch + [e])[..|branch|] == branch;
  }

  lemma ReplaySnoc(lines: seq<Line>, line: Line)
    ensures Replay(lines + [line]) == Replay(lines) + Stored(line)
  {
    assert (lines + [line])[..|lines|] == lines;
  }

  lemma SettledSnoc(branch: seq<FileEntry>, e: FileEntry)
    ensures Events(SettledBranch(branch + [e])) == Events(SettledBranch(branch)) + SettledEntry(e)
  {
    assert (branch + [e])[..|branch|] == branch;
    EntryIsLine(e);
    EventsJoin(SettledBranch(branch), if SettledEntry(e) == [] then [] else [Keyed(e.id, SettledEntry(e)[0])]);
  }

  /** The history of a branch is the replay of what pi said when it wrote it. */
  lemma {:induction false} HistoryIsReplay(branch: seq<FileEntry>)
    ensures Events(SettledBranch(branch)) == Replay(LinesOf(branch))
  {
    if branch != [] {
      var before, last := branch[..|branch| - 1], branch[|branch| - 1];
      HistoryIsReplay(before);
      assert branch == before + [last];
      LinesSnoc(before, last);
      ReplaySnoc(LinesOf(before), LineOf(last));
      SettledSnoc(before, last);
      EntryIsLine(last);
    }
  }

  lemma EntryIsLine(e: FileEntry)
    ensures |SettledEntry(e)| <= 1 && SettledEntry(e) == Stored(LineOf(e))
  {
  }

  lemma EventsJoin(a: seq<Keyed>, b: seq<Keyed>)
    ensures Events(a + b) == Events(a) + Events(b)
  {
  }

  /** So the whole history on screen shows every message of the branch pi will go on
      from, part by part as pi wrote it, each call with how its tool ended last, and
      every compaction, in order, and nothing else. */
  lemma LoadingShows(file: seq<Option<FileEntry>>) returns (from: seq<nat>)
    requires WellFormed(LinesOf(Branch(Entries(file))))
    ensures PiScreen.Screen(LinesOf(Branch(Entries(file))), Fold(EMPTY, Events(History(file))).items, from)
  {
    HistoryIsReplay(Branch(Entries(file)));
    from := PiScreen.ReplayShows(LinesOf(Branch(Entries(file))));
  }

  /** A cursor the history does not have gets an empty page and no way on. */
  lemma UnknownIsEmpty(file: seq<Option<FileEntry>>, before: string, limit: Limit)
    requires before != "" && forall k | 0 <= k < |History(file)| :: History(file)[k].id != before
    ensures PageFor(History(file), before, limit) == TranscriptPage([], None)
  {
  }

  /** An entry of the file: a line that decodes, is not the header, and has an id. */
  predicate Entered(line: Option<FileEntry>, e: FileEntry) {
    line == Some(e) && e.kind != "session" && e.id != ""
  }

  /** The reader takes every such line, in order, and no other. */
  lemma {:induction false} EntriesAreSieved(file: seq<Option<FileEntry>>)
    ensures Sieved(file, Entries(file), Entered)
  {
    if file == [] {
      NothingSieved(Entered);
    } else {
      var before, last := file[..|file| - 1], file[|file| - 1];
      EntriesAreSieved(before);
      assert file == before + [last];
      if last.Some? && Entered(last, last.value) {
        KeepsLast(before, Entries(before), last, last.value, Entered);
      } else {
        SkipsLast(before, Entries(before), last, Entered);
        assert Entries(before) + [] == Entries(before);
      }
    }
  }
}
