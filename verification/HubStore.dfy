/**
 The hub's own objects: bounded channels, the two tables of subscribers, and the
 methods that run under its lock.
 */
module HubStore {

  import opened Hub

  class Subscription {
    var buffer: seq<Frame>
    var closed: bool
    ghost var received: seq<Frame>

    constructor ()
      ensures buffer == [] && received == [] && !closed
    {
      buffer, received, closed := [], [], false;
    }

    /** Every frame put into the channel so far. */
    ghost function Frames(): seq<Frame>
      reads this
    {
      received + buffer
    }

    /** The subscriber takes the oldest frame. */
    method Receive() returns (frame: Frame)
      requires buffer != []
      modifies this`buffer, this`received
      ensures [frame] + buffer == old(buffer) && Frames() == old(Frames())
    {
      frame := buffer[0];
      received := received + [frame];
      buffer := buffer[1..];
      assert received + buffer == old(received) + ([frame] + buffer);
    }

    /** A send on a full channel goes on once something was received. */
    method AwaitRoom()
      requires |buffer| == SLOTS
      modifies this`buffer, this`received
      ensures |buffer| < SLOTS && Frames() == old(Frames())
    {
      var taken: nat :| 1 <= taken <= |buffer|;
      for i := 0 to taken
        invariant |buffer| == SLOTS - i && Frames() == old(Frames())
      {
        var _ := Receive();
      }
    }
  }

  ghost function Listed<T>(byID: map<string, set<T>>, global: set<T>): set<T> {
    global + set topic, id | topic in byID && id in byID[topic] :: id
  }

  /** No thread has an empty set, and nobody is in two. */
  ghost predicate Apart<T>(byID: map<string, set<T>>, global: set<T>) {
    && GLOBAL_STREAM !in byID
    && (forall topic <- byID :: byID[topic] != {} && byID[topic] !! global)
    && (forall topic <- byID, other <- byID :: topic != other ==> byID[topic] !! byID[other])
  }

  lemma ApartEnrolled<T>(byID: map<string, set<T>>, global: set<T>, topic: string, id: T)
    requires Apart(byID, global) && topic != GLOBAL_STREAM && id !in Listed(byID, global)
    ensures Apart(Enrolled(byID, topic, id), global)
    ensures Listed(Enrolled(byID, topic, id), global) == Listed(byID, global) + {id}
  {
    var t := Enrolled(byID, topic, id);
    assert id in t[topic];
    forall other | other in byID ensures byID[other] <= t[other] {
    }
  }

  lemma ApartStruck<T>(byID: map<string, set<T>>, global: set<T>, topic: string, id: T)
    requires Apart(byID, global)
    ensures Apart(Struck(byID, topic, id), global)
    ensures Listed(Struck(byID, topic, id), global) <= Listed(byID, global)
  {
    var t := Struck(byID, topic, id);
    forall other | other in t ensures other in byID && t[other] <= byID[other] {
    }
  }

  class HubStore {
    var byID: map<string, set<Subscription>>
    var global: set<Subscription>

    /** Every subscriber of the two tables. */
    ghost function Everyone(): set<Subscription>
      reads this
    {
      Listed(byID, global)
    }

    /** Each subscriber is in one place of one table, within its bound. */
    ghost predicate Valid()
      reads this, Everyone()
    {
      Apart(byID, global) && forall sub <- Everyone() :: |sub.buffer| <= SLOTS
    }

    constructor ()
      ensures Valid() && byID == map[] && global == {}
    {
      byID, global := map[], {};
    }

    method DeliverLocked(sub: Subscription, e: Event)
      requires |sub.buffer| <= SLOTS
      modifies sub
      ensures |sub.buffer| <= SLOTS
      ensures sub.Frames() == old(sub.Frames()) + Handed(old(sub.closed), |old(sub.buffer)|, e)
      ensures sub.closed == (old(sub.closed) || |old(sub.buffer)| == SLOTS)
    {
      if !sub.closed {
        if |sub.buffer| < SLOTS {
          sub.buffer := sub.buffer + [Sent(e)];
          assert sub.received + sub.buffer == old(sub.Frames()) + [Sent(e)];
        } else {
          sub.AwaitRoom();
          ghost var before := sub.Frames();
          sub.buffer := sub.buffer + [Overflow(e.threadID)];
          assert sub.received + sub.buffer == before + [Overflow(e.threadID)];
          sub.closed := true;
        }
      }
    }

    /** Delivers to each of a set of subscribers, in any order. */
    method DeliverAll(subs: set<Subscription>, e: Event)
      requires forall sub <- subs :: |sub.buffer| <= SLOTS
      modifies subs
      ensures forall sub <- subs ::
                && |sub.buffer| <= SLOTS
                && sub.Frames() == old(sub.Frames()) + Handed(old(sub.closed), |old(sub.buffer)|, e)
                && sub.closed == (old(sub.closed) || |old(sub.buffer)| == SLOTS)
    {
      var todo := subs;
      while todo != {}
        invariant todo <= subs
        invariant forall sub <- todo :: unchanged(sub)
        invariant forall sub <- subs - todo ::
                    && |sub.buffer| <= SLOTS
                    && sub.Frames() == old(sub.Frames()) + Handed(old(sub.closed), |old(sub.buffer)|, e)
                    && sub.closed == (old(sub.closed) || |old(sub.buffer)| == SLOTS)
        decreases |todo|
      {
        var sub :| sub in todo;
        DeliverLocked(sub, e);
        todo := todo - {sub};
      }
    }

    /** Who an event is for. */
    ghost function Audience(e: Event): (r: set<Subscription>)
      reads this
      ensures r <= Everyone()
    {
      Members(byID, e.threadID) + if IsDirectoryEvent(e) then global else {}
    }

    /** Every subscriber of the event's thread, and for a directory event of the
        directory, is handed the event once; nobody else is touched. */
    method Publish(e: Event)
      requires Valid()
      modifies Audience(e)
      ensures Valid()
      ensures forall sub <- Audience(e) ::
                && |sub.buffer| <= SLOTS
                && sub.Frames() == old(sub.Frames()) + Handed(old(sub.closed), |old(sub.buffer)|, e)
                && sub.closed == (old(sub.closed) || |old(sub.buffer)| == SLOTS)
    {
      DeliverAll(Members(byID, e.threadID), e);
      if IsDirectoryEvent(e) {
        DeliverAll(global, e);
      }
    }

    method Subscribe(threadID: string) returns (sub: Subscription)
      requires Valid()
      modifies this
      ensures Valid() && fresh(sub) && sub.Frames() == [] && !sub.closed
      ensures threadID == GLOBAL_STREAM ==> byID == old(byID) && global == old(global) + {sub}
      ensures threadID != GLOBAL_STREAM ==> byID == Enrolled(old(byID), threadID, sub) && global == old(global)
    {
      sub := new Subscription();
      if threadID == GLOBAL_STREAM {
        global := global + {sub};
      } else {
        ApartEnrolled(byID, global, threadID, sub);
        Enrol(threadID, sub);
      }
    }

    method Enrol(threadID: string, sub: Subscription)
      modifies this`byID
      ensures byID == Enrolled(old(byID), threadID, sub)
    {
      if threadID !in byID {
        byID := byID[threadID := {}];
      }
      byID := byID[threadID := byID[threadID] + {sub}];
    }

    /** The function a subscriber is given to end its stream with. */
    method Unsubscribe(threadID: string, sub: Subscription)
      requires Valid()
      modifies this, sub`closed
      ensures Valid() && sub.closed
      ensures threadID == GLOBAL_STREAM ==> byID == old(byID) && global == old(global) - {sub}
      ensures threadID != GLOBAL_STREAM ==> byID == Struck(old(byID), threadID, sub) && global == old(global)
    {
      if threadID == GLOBAL_STREAM {
        global := global - {sub};
      } else {
        ApartStruck(byID, global, threadID, sub);
        Strike(threadID, sub);
      }
      if !sub.closed {
        sub.closed := true;
      }
    }

    method Strike(threadID: string, sub: Subscription)
      modifies this`byID
      ensures byID == Struck(old(byID), threadID, sub)
    {
      if threadID in byID {
        byID := byID[threadID := byID[threadID] - {sub}];
        if byID[threadID] == {} {
          byID := byID - {threadID};
        }
      }
    }
  }
}
