/**
 The hub: whoever subscribes to a thread, or to the directory, has a bounded channel
 of events, which is closed after one overflow frame once it cannot take any more.
 */
module Hub {

  // The step model holds the hub's lock across the steps of one publish, since a
  // frame that does not fit leaves the publisher waiting for a receive.

  datatype Event = Event(kind: string, threadID: string, body: string)

  datatype Frame = Sent(event: Event) | Overflow(threadID: string)

  const SUBSCRIBER_QUEUE: nat := 4096
  /** One slot over the bound, which ordinary events use as well. */
  const SLOTS: nat := SUBSCRIBER_QUEUE + 1
  const GLOBAL_STREAM := "*"

  predicate IsDirectoryEvent(e: Event) { e.kind == "thread_updated" || e.kind == "thread_deleted" }

  predicate Matches(topic: string, e: Event) {
    if topic == GLOBAL_STREAM then IsDirectoryEvent(e) else e.threadID == topic
  }

  // -------------------------------------------------------------- the steps

  /** `cut` is where the overflow frame stands, `closes` how often the channel
      was closed; `since` and `until` bound the publishes it was subscribed for. */
  datatype Sub = Sub(
    topic: string, since: nat, until: int, buffer: seq<Frame>, received: seq<Frame>,
    closed: bool, closes: nat, cut: int)

  /** `Fanning` holds the lock with the subscribers yet to be served, `Stuck`
      with one whose overflow frame waits for room. */
  datatype Lock = Free | Fanning(event: Event, todo: set<nat>) | Stuck(event: Event, todo: set<nat>, id: nat)

  datatype State = State(
    subs: seq<Sub>, byID: map<string, set<nat>>, global: set<nat>, history: seq<Event>, lock: Lock)

  const STILL := -1
  const UNCUT := -1
  const INITIAL := State([], map[], {}, [], Free)

  datatype Step =
    | Subscribe(topic: string)
    | Unsubscribe(id: nat)
    | Publish(event: Event)
    | Deliver(id: nat)
    | SendOverflow
    | Finish
    | Receive(id: nat)

  function Members<T>(byID: map<string, set<T>>, topic: string): set<T> {
    if topic in byID then byID[topic] else {}
  }

  function Enrolled<T>(byID: map<string, set<T>>, topic: string, id: T): map<string, set<T>> {
    byID[topic := Members(byID, topic) + {id}]
  }

  /** A thread that loses its last subscriber loses its set. */
  function Struck<T>(byID: map<string, set<T>>, topic: string, id: T): map<string, set<T>> {
    if topic !in byID then byID
    else
      var rest := byID[topic] - {id};
      if rest == {} then byID - {topic} else byID[topic := rest]
  }

  predicate Enabled(s: State, step: Step) {
    match step
    case Subscribe(_) => s.lock.Free?
    case Unsubscribe(id) => s.lock.Free? && id < |s.subs|
    case Publish(e) => s.lock.Free?
    case Deliver(id) => s.lock.Fanning? && id in s.lock.todo && id < |s.subs|
    case SendOverflow => s.lock.Stuck? && s.lock.id < |s.subs| && |s.subs[s.lock.id].buffer| < SLOTS
    case Finish => s.lock.Fanning? && s.lock.todo == {}
    case Receive(id) => id < |s.subs| && s.subs[id].buffer != []
  }

  function Close(c: Sub): Sub { c.(closed := true, closes := c.closes + 1) }

  /** The overflow frame takes the place of the event that did not fit. */
  function CutOff(c: Sub, e: Event): Sub {
    Close(c.(buffer := c.buffer + [Overflow(e.threadID)], cut := |c.received + c.buffer|))
  }

  /** Ends the subscription; only the first time has any effect. */
  function EndedAt(c: Sub, now: nat): Sub {
    var ended := if c.until == STILL then c.(until := now) else c;
    if c.closed then ended else Close(ended)
  }

  function Shifted(c: Sub): Sub
    requires c.buffer != []
  {
    c.(buffer := c.buffer[1..], received := c.received + [c.buffer[0]])
  }

  function Left(s: State, id: nat): State
    requires id < |s.subs|
  {
    var topic := s.subs[id].topic;
    if topic == GLOBAL_STREAM then s.(global := s.global - {id}) else s.(byID := Struck(s.byID, topic, id))
  }

  function Apply(s: State, step: Step): State
    requires Enabled(s, step)
  {
    match step
    case Subscribe(topic) =>
      var joined := s.(subs := s.subs + [Sub(topic, |s.history|, STILL, [], [], false, 0, UNCUT)]);
      if topic == GLOBAL_STREAM then joined.(global := s.global + {|s.subs|})
      else joined.(byID := Enrolled(s.byID, topic, |s.subs|))
    case Unsubscribe(id) =>
      Left(s, id).(subs := s.subs[id := EndedAt(s.subs[id], |s.history|)])
    case Publish(e) =>
      s.(history := s.history + [e],
         lock := Fanning(e, Members(s.byID, e.threadID) + if IsDirectoryEvent(e) then s.global else {}))
    case Deliver(id) =>
      var c, rest := s.subs[id], s.lock.todo - {id};
      if c.closed then s.(lock := Fanning(s.lock.event, rest))
      else if |c.buffer| < SLOTS
      then s.(subs := s.subs[id := c.(buffer := c.buffer + [Sent(s.lock.event)])], lock := Fanning(s.lock.event, rest))
      else s.(lock := Stuck(s.lock.event, rest, id))
    case SendOverflow =>
      s.(subs := s.subs[s.lock.id := CutOff(s.subs[s.lock.id], s.lock.event)],
         lock := Fanning(s.lock.event, s.lock.todo))
    case Finish => s.(lock := Free)
    case Receive(id) => s.(subs := s.subs[id := Shifted(s.subs[id])])
  }

  predicate Legal(s: State, steps: seq<Step>)
    decreases |steps|
  {
    steps == [] || (Enabled(s, steps[0]) && Legal(Apply(s, steps[0]), steps[1..]))
  }

  function Exec(s: State, steps: seq<Step>): State
    requires Legal(s, steps)
    decreases |steps|
  {
    if steps == [] then s else Exec(Apply(s, steps[0]), steps[1..])
  }

  // ---------------------------------------------------------- the invariant

  function Matching(events: seq<Event>, topic: string): seq<Event> {
    if events == [] then []
    else
      var last := events[|events| - 1];
      Matching(events[..|events| - 1], topic) + if Matches(topic, last) then [last] else []
  }

  function Sents(events: seq<Event>): (r: seq<Frame>)
    ensures |r| == |events|
    ensures forall i | 0 <= i < |r| :: r[i] == Sent(events[i])
  {
    if events == [] then [] else Sents(events[..|events| - 1]) + [Sent(events[|events| - 1])]
  }

  predicate Waiting(lock: Lock, id: nat) {
    (lock.Fanning? && id in lock.todo) || (lock.Stuck? && (id in lock.todo || id == lock.id))
  }

  /** The publishes a subscriber has been served, in order. */
  function Log(c: Sub, history: seq<Event>, behind: bool): seq<Event>
    requires c.since <= |history| && c.until <= |history|
    requires c.until == STILL || c.since <= c.until
    requires behind ==> c.since < |history|
  {
    var upto := if c.until != STILL then c.until else if behind then |history| - 1 else |history|;
    Matching(history[c.since..upto], c.topic)
  }

  /** What went into a channel, received or not. */
  function Frames(c: Sub): seq<Frame> { c.received + c.buffer }

  ghost predicate Faithful(c: Sub, log: seq<Event>) {
    if c.cut == UNCUT then Frames(c) == Sents(log)
    else SLOTS <= c.cut < |log| && Frames(c) == Sents(log[..c.cut]) + [Overflow(log[c.cut].threadID)]
  }

  ghost predicate Subscribed(s: State, id: nat)
    requires id < |s.subs|
  {
    var topic := s.subs[id].topic;
    if topic == GLOBAL_STREAM then id in s.global else id in Members(s.byID, topic)
  }

  /** `behind` says the latest publish is for this channel and not yet served. */
  ghost predicate ChannelOk(c: Sub, history: seq<Event>, behind: bool, subscribed: bool) {
    && c.since <= |history| && (c.until == STILL || c.since <= c.until <= |history|)
    && (behind ==> c.until == STILL && c.since < |history| && Matches(c.topic, history[|history| - 1]))
    && Faithful(c, Log(c, history, behind))
    && |c.buffer| <= SLOTS
    && (c.closed <==> c.cut != UNCUT || c.until != STILL)
    && c.closes == (if c.closed then 1 else 0)
    && (c.until == STILL <==> subscribed)
  }

  ghost predicate ChannelInv(s: State, id: nat)
    requires id < |s.subs|
  {
    ChannelOk(s.subs[id], s.history, Waiting(s.lock, id), Subscribed(s, id))
  }

  ghost predicate LockInv(s: State) {
    && (!s.lock.Free? ==> s.history != [] && s.lock.event == s.history[|s.history| - 1])
    && (!s.lock.Free? ==> forall id <- s.lock.todo :: id < |s.subs|)
    && (s.lock.Stuck? ==>
          && s.lock.id < |s.subs| && s.lock.id !in s.lock.todo
          && !s.subs[s.lock.id].closed && SLOTS <= |Frames(s.subs[s.lock.id])|)
  }

  ghost predicate SetsInv(s: State) {
    && GLOBAL_STREAM !in s.byID
    && (forall id <- s.global :: id < |s.subs| && s.subs[id].topic == GLOBAL_STREAM)
    && (forall topic <- s.byID :: s.byID[topic] != {}
          && forall id <- s.byID[topic] :: id < |s.subs| && s.subs[id].topic == topic)
  }

  ghost predicate Inv(s: State) {
    SetsInv(s) && LockInv(s) && forall id | 0 <= id < |s.subs| :: ChannelInv(s, id)
  }

  lemma MatchingSnoc(events: seq<Event>, e: Event, topic: string)
    ensures Matching(events + [e], topic) == Matching(events, topic) + if Matches(topic, e) then [e] else []
  {
    assert (events + [e])[..|events|] == events;
  }

  /** The log of a subscriber as one more event is published, and as it is then
      served. */
  lemma LogGrows(c: Sub, history: seq<Event>, e: Event)
    requires c.since <= |history| && (c.until == STILL || c.since <= c.until <= |history|)
    ensures c.until == STILL ==>
      && Log(c, history + [e], true) == Log(c, history, false)
      && Log(c, history + [e], false) == Log(c, history, false) + if Matches(c.topic, e) then [e] else []
    ensures c.until != STILL ==> Log(c, history + [e], false) == Log(c, history, false)
  {
    var n := |history|;
    if c.until == STILL {
      assert (history + [e])[c.since..n] == history[c.since..n];
      assert (history + [e])[c.since..n + 1] == history[c.since..n] + [e];
      MatchingSnoc(history[c.since..n], e, c.topic);
    } else {
      assert (history + [e])[c.since..c.until] == history[c.since..c.until];
    }
  }

  // -------------------------------------------------------- one channel

  lemma Published(c: Sub, history: seq<Event>, subscribed: bool, e: Event)
    requires ChannelOk(c, history, false, subscribed)
    ensures ChannelOk(c, history + [e], subscribed && Matches(c.topic, e), subscribed)
  {
    LogGrows(c, history, e);
  }

  /** An event the channel is behind by belongs at the end of its log. */
  lemma Caught(c: Sub, history: seq<Event>, subscribed: bool)
    requires ChannelOk(c, history, true, subscribed)
    ensures Log(c, history, false) == Log(c, history, true) + [history[|history| - 1]]
  {
    var before, e := history[..|history| - 1], history[|history| - 1];
    assert history == before + [e];
    LogGrows(c, before, e);
  }

  lemma ServedClosed(c: Sub, history: seq<Event>, subscribed: bool)
    requires ChannelOk(c, history, true, subscribed) && c.closed
    ensures ChannelOk(c, history, false, subscribed)
  {
    Caught(c, history, subscribed);
    var log, e := Log(c, history, true), history[|history| - 1];
    assert (log + [e])[..c.cut] == log[..c.cut];
  }

  lemma ServedInRoom(c: Sub, history: seq<Event>, subscribed: bool)
    requires ChannelOk(c, history, true, subscribed) && !c.closed && |c.buffer| < SLOTS
    ensures ChannelOk(c.(buffer := c.buffer + [Sent(history[|history| - 1])]), history, false, subscribed)
  {
    Caught(c, history, subscribed);
    var log, e := Log(c, history, true), history[|history| - 1];
    assert Log(c.(buffer := c.buffer + [Sent(e)]), history, false) == log + [e];
    assert Sents(log + [e]) == Sents(log) + [Sent(e)];
    assert c.received + (c.buffer + [Sent(e)]) == Frames(c) + [Sent(e)];
  }

  lemma ServedCutOff(c: Sub, history: seq<Event>, subscribed: bool)
    requires ChannelOk(c, history, true, subscribed) && !c.closed && |c.buffer| < SLOTS <= |Frames(c)|
    ensures ChannelOk(CutOff(c, history[|history| - 1]), history, false, subscribed)
  {
    Caught(c, history, subscribed);
    var log, e := Log(c, history, true), history[|history| - 1];
    var d := CutOff(c, e);
    assert Log(d, history, false) == log + [e];
    assert (log + [e])[..|log|] == log && (log + [e])[|log|] == e;
    assert Frames(d) == Frames(c) + [Overflow(e.threadID)];
  }

  lemma Ended(c: Sub, history: seq<Event>, subscribed: bool)
    requires ChannelOk(c, history, false, subscribed)
    ensures ChannelOk(EndedAt(c, |history|), history, false, false)
  {
    assert Log(EndedAt(c, |history|), history, false) == Log(c, history, false);
    assert Frames(EndedAt(c, |history|)) == Frames(c);
  }

  lemma Received(c: Sub, history: seq<Event>, behind: bool, subscribed: bool)
    requires ChannelOk(c, history, behind, subscribed) && c.buffer != []
    ensures Frames(Shifted(c)) == Frames(c)
    ensures ChannelOk(Shifted(c), history, behind, subscribed)
  {
    assert c.received + [c.buffer[0]] + c.buffer[1..] == Frames(c) by {
      assert [c.buffer[0]] + c.buffer[1..] == c.buffer;
    }
    assert Log(Shifted(c), history, behind) == Log(c, history, behind);
  }

  /** What one delivery puts into a channel. */
  function Handed(closed: bool, buffered: nat, e: Event): seq<Frame> {
    if closed then [] else if buffered < SLOTS then [Sent(e)] else [Overflow(e.threadID)]
  }

  /** The steps of a delivery put into the channel what it is handed: at once, or
      for a full channel after the receives that make room. */
  lemma DeliveryHands(s: State, id: nat, later: State)
    requires Enabled(s, Deliver(id)) && |s.subs[id].buffer| <= SLOTS
    ensures var t, c := Apply(s, Deliver(id)), s.subs[id];
      if c.closed || |c.buffer| < SLOTS then
        t.lock.Fanning? && Frames(t.subs[id]) == Frames(c) + Handed(c.closed, |c.buffer|, s.lock.event)
      else
        && t.lock.Stuck?
        && (later.lock == t.lock && Enabled(later, SendOverflow) && Frames(later.subs[id]) == Frames(c) ==>
              && Frames(Apply(later, SendOverflow).subs[id]) == Frames(c) + Handed(c.closed, |c.buffer|, s.lock.event)
              && Apply(later, SendOverflow).subs[id].closed)
  {
    var t, c, e := Apply(s, Deliver(id)), s.subs[id], s.lock.event;
    if !c.closed && |c.buffer| < SLOTS {
      assert c.received + (c.buffer + [Sent(e)]) == Frames(c) + [Sent(e)];
    } else if !c.closed && later.lock == t.lock && Enabled(later, SendOverflow) {
      var d := later.subs[id];
      assert d.received + (d.buffer + [Overflow(e.threadID)]) == Frames(d) + [Overflow(e.threadID)];
    }
  }

  // ------------------------------------------------------------ the whole hub

  /** A step that touches one channel leaves the others as they were. */
  ghost predicate OthersSame(s: State, t: State, id: nat) {
    && |t.subs| == |s.subs| && t.history == s.history
    && (forall k | 0 <= k < |s.subs| && k != id ::
          t.subs[k] == s.subs[k] && (Waiting(t.lock, k) <==> Waiting(s.lock, k))
              && (Subscribed(t, k) <==> Subscribed(s, k)))
  }

  lemma OneChannel(s: State, t: State, id: nat)
    requires Inv(s) && OthersSame(s, t, id) && SetsInv(t) && LockInv(t)
    requires id < |s.subs| ==> ChannelInv(t, id)
    ensures Inv(t)
  {
    forall k | 0 <= k < |t.subs| ensures ChannelInv(t, k) {
      assert ChannelInv(s, k);
    }
  }

  /** A step that leaves the tables alone. */
  ghost predicate SameTables(s: State, t: State) {
    && t.byID == s.byID && t.global == s.global && |t.subs| == |s.subs|
    && forall k | 0 <= k < |s.subs| :: t.subs[k].topic == s.subs[k].topic
  }

  lemma TablesKept(s: State, t: State)
    requires SetsInv(s) && SameTables(s, t)
    ensures SetsInv(t)
    ensures forall k | 0 <= k < |s.subs| :: Subscribed(t, k) <==> Subscribed(s, k)
  {
  }

  lemma PublishedTo(s: State, e: Event, id: nat)
    requires Inv(s) && s.lock.Free? && id < |s.subs|
    ensures ChannelInv(Apply(s, Publish(e)), id)
  {
    var t := Apply(s, Publish(e));
    assert ChannelInv(s, id);
    Published(s.subs[id], s.history, Subscribed(s, id), e);
    TablesKept(s, t);
    assert Waiting(t.lock, id) <==> Subscribed(s, id) && Matches(s.subs[id].topic, e);
  }

  lemma PublishKeeps(s: State, e: Event)
    requires Inv(s) && s.lock.Free?
    ensures Inv(Apply(s, Publish(e)))
  {
    var t := Apply(s, Publish(e));
    forall id | 0 <= id < |t.subs| ensures ChannelInv(t, id) {
      PublishedTo(s, e, id);
    }
    TablesKept(s, t);
  }

  lemma DeliverClosed(s: State, id: nat)
    requires Inv(s) && Enabled(s, Deliver(id)) && s.subs[id].closed
    ensures Inv(Apply(s, Deliver(id)))
  {
    assert ChannelInv(s, id);
    ServedClosed(s.subs[id], s.history, Subscribed(s, id));
    TablesKept(s, Apply(s, Deliver(id)));
    OneChannel(s, Apply(s, Deliver(id)), id);
  }

  lemma DeliverInRoom(s: State, id: nat)
    requires Inv(s) && Enabled(s, Deliver(id)) && !s.subs[id].closed && |s.subs[id].buffer| < SLOTS
    ensures Inv(Apply(s, Deliver(id)))
  {
    assert ChannelInv(s, id);
    ServedInRoom(s.subs[id], s.history, Subscribed(s, id));
    TablesKept(s, Apply(s, Deliver(id)));
    OneChannel(s, Apply(s, Deliver(id)), id);
  }

  lemma DeliverStuck(s: State, id: nat)
    requires Inv(s) && Enabled(s, Deliver(id)) && !s.subs[id].closed && SLOTS <= |s.subs[id].buffer|
    ensures Inv(Apply(s, Deliver(id)))
  {
    assert ChannelInv(s, id);
    TablesKept(s, Apply(s, Deliver(id)));
    OneChannel(s, Apply(s, Deliver(id)), id);
  }

  lemma DeliverKeeps(s: State, id: nat)
    requires Inv(s) && Enabled(s, Deliver(id))
    ensures Inv(Apply(s, Deliver(id)))
  {
    if s.subs[id].closed {
      DeliverClosed(s, id);
    } else if |s.subs[id].buffer| < SLOTS {
      DeliverInRoom(s, id);
    } else {
      DeliverStuck(s, id);
    }
  }

  lemma SendOverflowKeeps(s: State)
    requires Inv(s) && Enabled(s, SendOverflow)
    ensures Inv(Apply(s, SendOverflow))
  {
    var id := s.lock.id;
    assert ChannelInv(s, id);
    ServedCutOff(s.subs[id], s.history, Subscribed(s, id));
    TablesKept(s, Apply(s, SendOverflow));
    OneChannel(s, Apply(s, SendOverflow), id);
  }

  lemma JoinedSets(s: State, topic: string)
    requires SetsInv(s) && s.lock.Free?
    ensures var t := Apply(s, Subscribe(topic));
      && SetsInv(t) && Subscribed(t, |s.subs|)
      && forall k | 0 <= k < |s.subs| :: Subscribed(t, k) <==> Subscribed(s, k)
  {
  }

  lemma SubscribeKeeps(s: State, topic: string)
    requires Inv(s) && s.lock.Free?
    ensures Inv(Apply(s, Subscribe(topic)))
  {
    var t := Apply(s, Subscribe(topic));
    assert t.history[|s.history|..|s.history|] == [];
    JoinedSets(s, topic);
    forall k | 0 <= k < |t.subs| ensures ChannelInv(t, k) {
      if k < |s.subs| {
        assert ChannelInv(s, k);
      }
    }
  }

  lemma LeftSets(s: State, id: nat)
    requires SetsInv(s) && id < |s.subs|
    ensures SetsInv(Left(s, id)) && !Subscribed(Left(s, id), id)
    ensures forall k | 0 <= k < |s.subs| && k != id :: Subscribed(Left(s, id), k) <==> Subscribed(s, k)
  {
  }

  lemma UnsubscribeKeeps(s: State, id: nat)
    requires Inv(s) && Enabled(s, Unsubscribe(id))
    ensures Inv(Apply(s, Unsubscribe(id)))
    ensures !Subscribed(Apply(s, Unsubscribe(id)), id)
  {
    LeftSets(s, id);
    TablesKept(Left(s, id), Apply(s, Unsubscribe(id)));
    assert ChannelInv(s, id);
    Ended(s.subs[id], s.history, Subscribed(s, id));
    OneChannel(s, Apply(s, Unsubscribe(id)), id);
  }

  lemma ReceiveKeeps(s: State, id: nat)
    requires Inv(s) && Enabled(s, Receive(id))
    ensures Inv(Apply(s, Receive(id)))
  {
    assert ChannelInv(s, id);
    Received(s.subs[id], s.history, Waiting(s.lock, id), Subscribed(s, id));
    TablesKept(s, Apply(s, Receive(id)));
    OneChannel(s, Apply(s, Receive(id)), id);
  }

  lemma FinishKeeps(s: State)
    requires Inv(s) && Enabled(s, Finish)
    ensures Inv(Apply(s, Finish))
  {
    OneChannel(s, Apply(s, Finish), |s.subs|);
  }

  lemma StepKeepsInv(s: State, step: Step)
    requires Inv(s) && Enabled(s, step)
    ensures Inv(Apply(s, step))
  {
    match step {
      case Subscribe(topic) => SubscribeKeeps(s, topic);
      case Unsubscribe(id) => UnsubscribeKeeps(s, id);
      case Publish(e) => PublishKeeps(s, e);
      case Deliver(id) => DeliverKeeps(s, id);
      case SendOverflow => SendOverflowKeeps(s);
      case Finish => FinishKeeps(s);
      case Receive(id) => ReceiveKeeps(s, id);
    }
  }

  lemma {:induction false} InvAlways(s: State, steps: seq<Step>)
    requires Inv(s) && Legal(s, steps)
    ensures Inv(Exec(s, steps))
    decreases |steps|
  {
    if steps != [] {
      StepKeepsInv(s, steps[0]);
      InvAlways(Apply(s, steps[0]), steps[1..]);
    }
  }

  // ------------------------------------------------------------- theorems

  /** Between publishes, what went into a channel is every matching event since
      it was opened, in order; a subscriber that fell a whole channel behind has
      them up to the first that did not fit, one overflow frame for that one, and
      a closed channel. */
  lemma StreamsAreFaithful(steps: seq<Step>, id: nat)
    requires Legal(INITIAL, steps)
    requires id < |Exec(INITIAL, steps).subs| && Exec(INITIAL, steps).lock.Free?
    ensures var s := Exec(INITIAL, steps);
      var c := s.subs[id];
      && 0 <= c.since <= |s.history| && (c.until == STILL || c.since <= c.until <= |s.history|)
      && var log := Matching(s.history[c.since..if c.until == STILL then |s.history| else c.until], c.topic);
         && (c.cut == UNCUT ==> Frames(c) == Sents(log) && (c.closed <==> c.until != STILL))
         && (c.cut != UNCUT ==>
               && SLOTS <= c.cut < |log| && c.closed
               && Frames(c) == Sents(log[..c.cut]) + [Overflow(log[c.cut].threadID)])
  {
    InvAlways(INITIAL, steps);
    assert ChannelInv(Exec(INITIAL, steps), id);
  }

  /** No channel is closed twice, nothing is sent on a closed one, and no thread
      is left with an empty set of subscribers. */
  lemma ChannelsCloseOnce(steps: seq<Step>)
    requires Legal(INITIAL, steps)
    ensures var s := Exec(INITIAL, steps);
      && (forall id | 0 <= id < |s.subs| :: s.subs[id].closes <= 1)
      && (s.lock.Stuck? ==> s.lock.id < |s.subs| && !s.subs[s.lock.id].closed)
      && (forall topic <- s.byID :: s.byID[topic] != {})
  {
    InvAlways(INITIAL, steps);
    var s := Exec(INITIAL, steps);
    forall id | 0 <= id < |s.subs| ensures s.subs[id].closes <= 1 {
      assert ChannelInv(s, id);
    }
  }

  lemma ClosedStaysPut(s: State, id: nat, step: Step)
    requires Inv(s) && Enabled(s, step) && id < |s.subs| && s.subs[id].closed
    ensures Frames(Apply(s, step).subs[id]) == Frames(s.subs[id]) && Apply(s, step).subs[id].closed
  {
    assert ChannelInv(s, id);
    if step.Receive? && step.id == id {
      Received(s.subs[id], s.history, Waiting(s.lock, id), Subscribed(s, id));
    }
  }

  /** Once a channel is closed no step of any run puts another frame into it. */
  lemma {:induction false} NothingAfterClose(s: State, steps: seq<Step>, id: nat)
    requires Inv(s) && Legal(s, steps) && id < |s.subs| && s.subs[id].closed
    ensures id < |Exec(s, steps).subs|
    ensures Frames(Exec(s, steps).subs[id]) == Frames(s.subs[id])
    decreases |steps|
  {
    if steps != [] {
      ClosedStaysPut(s, id, steps[0]);
      StepKeepsInv(s, steps[0]);
      NothingAfterClose(Apply(s, steps[0]), steps[1..], id);
    }
  }

  /** Ending a subscription twice is ending it once. */
  lemma UnsubscribeIdempotent(s: State, id: nat)
    requires Inv(s) && Enabled(s, Unsubscribe(id))
    ensures Apply(Apply(s, Unsubscribe(id)), Unsubscribe(id)) == Apply(s, Unsubscribe(id))
  {
    var t := Apply(s, Unsubscribe(id));
    UnsubscribeKeeps(s, id);
    assert ChannelInv(t, id) && !Subscribed(t, id);
    var topic := s.subs[id].topic;
    if topic == GLOBAL_STREAM {
      assert t.global - {id} == t.global;
    } else if topic in t.byID {
      assert t.byID[topic] - {id} == t.byID[topic];
      assert t.byID[topic := t.byID[topic]] == t.byID;
    }
  }

  // -------------------------------------------- the overflow frame may wait

  /** A delivery is left waiting exactly when it meets an open channel with every
      slot taken, and then no step but a receive lets its overflow frame in. */
  lemma OverflowWaits(s: State, id: nat)
    requires Inv(s) && Enabled(s, Deliver(id))
    ensures var t, c := Apply(s, Deliver(id)), s.subs[id];
      && (t.lock.Stuck? <==> !c.closed && |c.buffer| == SLOTS)
      && (t.lock.Stuck? ==>
            && !Enabled(t, SendOverflow)
            && Enabled(t, Receive(id)) && Enabled(Apply(t, Receive(id)), SendOverflow)
            && (forall topic :: !Enabled(t, Subscribe(topic)))
            && (forall e :: !Enabled(t, Publish(e)))
            && (forall k :: !Enabled(t, Unsubscribe(k)) && !Enabled(t, Deliver(k))))
  {
    assert ChannelInv(s, id);
  }

  lemma {:induction false} ExecAppend(s: State, a: seq<Step>, b: seq<Step>)
    requires Legal(s, a) && Legal(Exec(s, a), b)
    ensures Legal(s, a + b) && Exec(s, a + b) == Exec(Exec(s, a), b)
    decreases |a|
  {
    if a == [] {
      assert a + b == b;
    } else {
      assert (a + b)[1..] == a[1..] + b;
      ExecAppend(Apply(s, a[0]), a[1..], b);
    }
  }

  /** One subscriber that takes nothing, after so many events. */
  ghost predicate Backlog(s: State, e: Event, n: nat) {
    && s.lock.Free? && |s.subs| == 1 && !s.subs[0].closed && |s.subs[0].buffer| == n
    && s.byID == map[e.threadID := {0}] && s.global == {}
  }

  lemma OneStep(s: State, steps: seq<Step>, step: Step)
    requires Legal(s, steps) && Enabled(Exec(s, steps), step)
    ensures Legal(s, steps + [step]) && Exec(s, steps + [step]) == Apply(Exec(s, steps), step)
  {
    assert [step][1..] == [];
    ExecAppend(s, steps, [step]);
  }

  lemma OneMore(s: State, e: Event, n: nat)
    requires Backlog(s, e, n) && e.threadID != GLOBAL_STREAM && n < SLOTS
    ensures Legal(s, [] + [Publish(e)] + [Deliver(0)] + [Finish])
    ensures Backlog(Exec(s, [] + [Publish(e)] + [Deliver(0)] + [Finish]), e, n + 1)
  {
    OneStep(s, [], Publish(e));
    var published := Apply(s, Publish(e));
    assert published.lock.todo == {0};
    OneStep(s, [] + [Publish(e)], Deliver(0));
    var delivered := Apply(published, Deliver(0));
    assert delivered.lock.todo == {};
    OneStep(s, [] + [Publish(e)] + [Deliver(0)], Finish);
  }

  lemma {:induction false} Flood(e: Event, n: nat) returns (steps: seq<Step>)
    requires e.threadID != GLOBAL_STREAM && n <= SLOTS
    ensures Legal(INITIAL, steps) && Backlog(Exec(INITIAL, steps), e, n)
  {
    if n == 0 {
      OneStep(INITIAL, [], Subscribe(e.threadID));
      assert Apply(INITIAL, Subscribe(e.threadID)).byID[e.threadID] == {0};
      steps := [] + [Subscribe(e.threadID)];
    } else {
      var before := Flood(e, n - 1);
      var more := [] + [Publish(e)] + [Deliver(0)] + [Finish];
      OneMore(Exec(INITIAL, before), e, n - 1);
      ExecAppend(INITIAL, before, more);
      steps := before + more;
    }
  }

  /** A run in which a publish is left holding the lock, its overflow frame with
      no slot to go to. */
  lemma PublisherWaits(e: Event) returns (steps: seq<Step>)
    requires e.threadID != GLOBAL_STREAM
    ensures Legal(INITIAL, steps)
    ensures Exec(INITIAL, steps).lock.Stuck? && !Enabled(Exec(INITIAL, steps), SendOverflow)
  {
    steps := Flood(e, SLOTS);
    OneStep(INITIAL, steps, Publish(e));
    steps := steps + [Publish(e)];
    assert Exec(INITIAL, steps).lock.todo == {0};
    OneStep(INITIAL, steps, Deliver(0));
    steps := steps + [Deliver(0)];
  }
}
