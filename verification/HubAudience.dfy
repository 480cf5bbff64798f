/**
 Who hears what of the hub.
 */
module HubAudience {

  import opened Hub
  import opened Sieves

  /** An event a subscriber of the topic hears: what happens to the directory of threads
      for one of the directory, what happens on the thread for any other. */
  predicate Hears(topic: string, e: Event) {
    if topic == "*" then e.kind in {"thread_updated", "thread_deleted"} else e.threadID == topic
  }

  function HeardBy(topic: string): (Event, Event) -> bool {
    (e: Event, heard: Event) => heard == e && Hears(topic, e)
  }

  lemma {:induction false} LogIsSieved(events: seq<Event>, topic: string)
    ensures Sieved(events, Matching(events, topic), HeardBy(topic))
  {
    if events == [] {
      NothingSieved(HeardBy(topic));
    } else {
      var before, last := events[..|events| - 1], events[|events| - 1];
      LogIsSieved(before, topic);
      assert events == before + [last];
      if Hears(topic, last) {
        KeepsLast(before, Matching(before, topic), last, last, HeardBy(topic));
      } else {
        SkipsLast(before, Matching(before, topic), last, HeardBy(topic));
        assert Matching(before, topic) + [] == Matching(before, topic);
      }
    }
  }

  /** Between publishes, a subscriber nobody cut off has had exactly the events of its
      topic that were published while it was subscribed, in order; one that was cut off
      has had those up to the first that did not fit, and the overflow frame in place of
      that one. */
  lemma FramesHeard(steps: seq<Step>, id: nat) returns (log: seq<Event>)
    requires Legal(INITIAL, steps)
    requires id < |Exec(INITIAL, steps).subs| && Exec(INITIAL, steps).lock.Free?
    ensures var s := Exec(INITIAL, steps);
      var c := s.subs[id];
      && 0 <= c.since <= |s.history| && (c.until == STILL || c.since <= c.until <= |s.history|)
      && Sieved(s.history[c.since..if c.until == STILL then |s.history| else c.until], log, HeardBy(c.topic))
      && (c.cut == UNCUT ==> Frames(c) == Sents(log))
      && (c.cut != UNCUT ==>
            4097 <= c.cut < |log| && Frames(c) == Sents(log[..c.cut]) + [Overflow(log[c.cut].threadID)])
  {
    StreamsAreFaithful(steps, id);
    var s := Exec(INITIAL, steps);
    var c := s.subs[id];
    log := Matching(s.history[c.since..if c.until == STILL then |s.history| else c.until], c.topic);
    LogIsSieved(s.history[c.since..if c.until == STILL then |s.history| else c.until], c.topic);
  }
}
