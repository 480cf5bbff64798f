/**
 Two readings of a claude thread that differ in the ids of the owner's prompts.
 */
module ClaudeNames {

  import opened Basics
  import opened Transcript
  import opened HistoryPages
  import opened PromptNames
  import opened ClaudeAssembly
  import opened ClaudeScreen

  function NamedEntry(e: Event, names: map<string, string>): Event {
    if e.UserMessage? then UserMessage(NameOf(e.messageID, names), e.blocks, e.clientMessageID, e.parent) else e
  }

  ghost predicate SameButNames(a: seq<Event>, b: seq<Event>, names: map<string, string>) {
    |a| == |b| &&
      forall i | 0 <= i < |a| ::
        b[i] == NamedEntry(a[i], names) && (a[i].AssistantMessage? ==> a[i].messageID !in names)
  }

  lemma EntryNamed(e: Event, results: Results, names: map<string, string>)
    ensures DrawEntry(NamedEntry(e, names), results) == NamedItems(DrawEntry(e, results), names)
  {
  }

  lemma {:induction false} DrawNamed(a: seq<Event>, b: seq<Event>, results: Results, names: map<string, string>)
    requires SameButNames(a, b, names)
    ensures Draw(b, results) == NamedItems(Draw(a, results), names) && ResultsOf(a) == ResultsOf(b)
  {
    if a != [] {
      var n := |a| - 1;
      DrawNamed(a[..n], b[..n], results, names);
      EntryNamed(a[n], results, names);
      ItemsJoin(Draw(a[..n], results), DrawEntry(a[n], results), names);
    }
  }

  lemma IdsNamed(a: seq<Event>, b: seq<Event>, names: map<string, string>)
    requires SameButNames(a, b, names)
    ensures IdsOf(b) == set id | id in IdsOf(a) :: NameOf(id, names)
  {
    forall e | e in a && HasID(e) ensures NameOf(e.messageID, names) in IdsOf(b) {
      var i :| 0 <= i < |a| && a[i] == e;
      assert b[i] == NamedEntry(e, names) && b[i] in b;
    }
    forall e | e in b && HasID(e) ensures exists id :: id in IdsOf(a) && NameOf(id, names) == e.messageID {
      var i :| 0 <= i < |b| && b[i] == e;
      assert a[i] in a && a[i].messageID in IdsOf(a) && NameOf(a[i].messageID, names) == e.messageID;
    }
  }

  ghost predicate ReadersAgree(r: Reader, s: Reader, names: map<string, string>) {
    r.assistantAt == s.assistantAt && SameButNames(Events(r.entries), Events(s.entries), names)
  }

  lemma SameJoin(a: seq<Event>, b: seq<Event>, c: seq<Event>, d: seq<Event>, names: map<string, string>)
    requires SameButNames(a, b, names) && SameButNames(c, d, names)
    ensures SameButNames(a + c, b + d, names)
  {
  }

  lemma EventsJoin(a: seq<Keyed>, uuid: string, more: seq<Event>)
    ensures Events(a + KeyedBy(uuid, more)) == Events(a) + more
  {
  }

  /** A line other than a message's, read under either name. */
  lemma OthersAgree(r: Reader, s: Reader, a: Line, b: Line, names: map<string, string>)
    requires ReaderOk(r) && ReaderOk(s) && ReadersAgree(r, s, names)
    requires a.OtherLine? && b.OtherLine? && a.sidechain == b.sidechain && SameButNames(a.entries, b.entries, names)
    ensures ReadersAgree(ReadLine(r, a), ReadLine(s, b), names)
  {
    EventsJoin(r.entries, a.uuid, a.entries);
    EventsJoin(s.entries, b.uuid, b.entries);
    SameJoin(Events(r.entries), Events(s.entries), a.entries, b.entries, names);
  }

  lemma SameSet(a: seq<Event>, b: seq<Event>, at: nat, more: seq<ContentBlock>, names: map<string, string>)
    requires SameButNames(a, b, names) && at < |a| && a[at].AssistantMessage?
    ensures b[at].AssistantMessage? && SameButNames(GrownAt(a, at, more), GrownAt(b, at, more), names)
  {
  }

  lemma MessagesAgree(r: Reader, s: Reader, line: Line, names: map<string, string>)
    requires ReaderOk(r) && ReaderOk(s) && ReadersAgree(r, s, names)
    requires line.AssistantLine? && !line.sidechain && line.messageID != "" && line.messageID !in names
    ensures ReadersAgree(ReadLine(r, line), ReadLine(s, line), names)
  {
    var id := line.messageID;
    assert |r.entries| == |Events(r.entries)| == |Events(s.entries)| == |s.entries|;
    if id in r.assistantAt {
      EntryGrows(r, line);
      EntryGrows(s, line);
      SameSet(Events(r.entries), Events(s.entries), r.assistantAt[id], line.content, names);
    } else {
      EntryOpens(r, line);
      EntryOpens(s, line);
      var e := AssistantMessage(id, line.content, "");
      SameJoin(Events(r.entries), Events(s.entries), [e], [e], names);
    }
  }
}
