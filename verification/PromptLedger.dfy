/**
 The replay check: which client message id carried which prompt, remembered for
 the last few thousand prompts that were accepted.
 */
module PromptLedger {

  const REMEMBERED_PROMPTS: nat := 4096

  /** The payload stands for its digest, which tells payloads apart. */
  datatype Command = Command(clientMessageID: string, payload: string)

  datatype Verdict = New | Replay | Conflict

  // ------------------------------------------------------------- the window

  /** How many of the oldest entries of a log are forgotten. */
  function Forgotten(log: seq<Command>): nat {
    if |log| > REMEMBERED_PROMPTS then |log| - REMEMBERED_PROMPTS else 0
  }

  function Recent(log: seq<Command>): seq<Command> { log[Forgotten(log)..] }

  predicate Remembers(log: seq<Command>, id: string) {
    exists i | Forgotten(log) <= i < |log| :: log[i].clientMessageID == id
  }

  /** No id was recorded again while it was remembered. */
  ghost predicate Distinct(log: seq<Command>) {
    forall i, j | 0 <= i < j < |log| && j - i <= REMEMBERED_PROMPTS :: log[i].clientMessageID != log[j].clientMessageID
  }

  function Recorded(log: seq<Command>, cmd: Command): seq<Command> {
    if Remembers(log, cmd.clientMessageID) then log else log + [cmd]
  }

  lemma RecordedStaysDistinct(log: seq<Command>, cmd: Command)
    requires Distinct(log)
    ensures Distinct(Recorded(log, cmd))
  {
  }

  /** What a prompt with some id is told, by the log alone. */
  ghost predicate Told(log: seq<Command>, cmd: Command, v: Verdict) {
    match v
    case New => forall i | Forgotten(log) <= i < |log| :: log[i].clientMessageID != cmd.clientMessageID
    case Replay => exists i | Forgotten(log) <= i < |log| :: log[i] == cmd
    case Conflict => exists i | Forgotten(log) <= i < |log| ::
                       log[i].clientMessageID == cmd.clientMessageID && log[i].payload != cmd.payload
  }

  /** Exactly one of them. */
  lemma OneVerdict(log: seq<Command>, cmd: Command, v: Verdict, w: Verdict)
    requires Distinct(log) && Told(log, cmd, v) && Told(log, cmd, w)
    ensures v == w
  {
    if v != New && w != New && v != w {
      var i :| Forgotten(log) <= i < |log| && log[i] == cmd;
      var j :| Forgotten(log) <= j < |log| && log[j].clientMessageID == cmd.clientMessageID
          && log[j].payload != cmd.payload;
      assert false;
    }
  }

  // ------------------------------------------------------------- the ledger

  lemma RecentPushed(log: seq<Command>, cmd: Command)
    ensures Recent(log + [cmd])
         == (if |Recent(log)| >= REMEMBERED_PROMPTS then Recent(log)[1..] else Recent(log)) + [cmd]
  {
  }

  /** The ids of a window in order, and the payload of each. */
  ghost predicate Holds(order: seq<string>, digests: map<string, string>, window: seq<Command>) {
    && |order| == |window|
    && (forall i | 0 <= i < |window| ::
          && order[i] == window[i].clientMessageID
          && order[i] in digests && digests[order[i]] == window[i].payload)
    && (forall id <- digests :: exists i | 0 <= i < |order| :: order[i] == id)
    && (forall i, j | 0 <= i < j < |order| :: order[i] != order[j])
  }

  lemma OldestForgotten(order: seq<string>, digests: map<string, string>, window: seq<Command>)
    requires Holds(order, digests, window) && order != []
    ensures Holds(order[1..], digests - {order[0]}, window[1..])
  {
    forall id | id in digests && id != order[0] ensures exists i | 0 <= i < |order[1..]| :: order[1..][i] == id {
      var i :| 0 <= i < |order| && order[i] == id;
      assert order[1..][i - 1] == id;
    }
  }

  lemma NewestKept(order: seq<string>, digests: map<string, string>, window: seq<Command>, cmd: Command)
    requires Holds(order, digests, window) && cmd.clientMessageID !in digests
    ensures Holds(order + [cmd.clientMessageID], digests[cmd.clientMessageID := cmd.payload], window + [cmd])
  {
    var longer := order + [cmd.clientMessageID];
    assert longer[|order|] == cmd.clientMessageID;
    forall id | id in digests ensures exists i | 0 <= i < |longer| :: longer[i] == id {
      var i :| 0 <= i < |order| && order[i] == id;
      assert longer[i] == id;
    }
  }

  /** Looking an id up in the window is looking it up in the log. */
  lemma InWindow(log: seq<Command>, order: seq<string>, digests: map<string, string>, id: string)
    requires Holds(order, digests, Recent(log))
    ensures id in digests <==> Remembers(log, id)
    ensures id in digests ==> exists i | Forgotten(log) <= i < |log| :: log[i] == Command(id, digests[id])
  {
    var first := Forgotten(log);
    forall i | first <= i < |log| ensures log[i] == Recent(log)[i - first] {
    }
    if id in digests {
      var i :| 0 <= i < |order| && order[i] == id;
      assert log[first + i] == Recent(log)[i];
      assert log[first + i] == Command(id, digests[id]);
    }
    if Remembers(log, id) {
      var i :| first <= i < |log| && log[i].clientMessageID == id;
      assert order[i - first] == id;
    }
  }

  class Ledger {
    var order: seq<string>
    var digests: map<string, string>
    ghost var log: seq<Command>

    /** The ledger is the window over everything recorded. */
    ghost predicate Valid()
      reads this
    {
      Distinct(log) && Holds(order, digests, Recent(log))
    }

    constructor ()
      ensures Valid() && log == []
    {
      order, digests, log := [], map[], [];
    }

    method Seen(cmd: Command) returns (v: Verdict)
      requires Valid()
      ensures Told(log, cmd, v)
    {
      InWindow(log, order, digests, cmd.clientMessageID);
      if cmd.clientMessageID !in digests {
        return New;
      }
      if digests[cmd.clientMessageID] != cmd.payload {
        return Conflict;
      }
      return Replay;
    }

    method Record(cmd: Command)
      requires Valid()
      modifies this
      ensures Valid() && log == Recorded(old(log), cmd)
    {
      InWindow(log, order, digests, cmd.clientMessageID);
      if cmd.clientMessageID in digests {
        return;
      }
      RecordedStaysDistinct(log, cmd);
      ghost var window := Recent(log);
      if |order| >= REMEMBERED_PROMPTS {
        OldestForgotten(order, digests, window);
        digests := digests - {order[0]};
        order := order[1..];
        window := window[1..];
      }
      NewestKept(order, digests, window, cmd);
      order := order + [cmd.clientMessageID];
      digests := digests[cmd.clientMessageID := cmd.payload];
      RecentPushed(log, cmd);
      log := log + [cmd];
    }
  }

  // ------------------------------------------------------ handling prompts

  /** A prompt as it arrives, and whether the backend would take it. */
  datatype Attempt = Attempt(cmd: Command, taken: bool)

  datatype Answer = Accepted | Refused | Failed

  /** The verdict the ledger gives. */
  function VerdictOf(log: seq<Command>, cmd: Command): (v: Verdict)
    requires Distinct(log)
    ensures Told(log, cmd, v)
  {
    if !Remembers(log, cmd.clientMessageID) then New
    else if exists i | Forgotten(log) <= i < |log| :: log[i] == cmd then Replay
    else Conflict
  }

  /** One prompt handled to the end: only a new one reaches the backend. */
  function Handled(turns: seq<Command>, a: Attempt): (r: (seq<Command>, Answer))
    requires Distinct(turns)
    ensures Distinct(r.0)
  {
    match VerdictOf(turns, a.cmd)
    case Conflict => (turns, Refused)
    case Replay => (turns, Accepted)
    case New => if a.taken then (turns + [a.cmd], Accepted) else (turns, Failed)
  }

  /** The turns started, in order, which are also what was recorded. */
  function Turns(attempts: seq<Attempt>): (r: seq<Command>)
    ensures Distinct(r)
  {
    if attempts == [] then [] else Handled(Turns(attempts[..|attempts| - 1]), attempts[|attempts| - 1]).0
  }

  /** A prompt accepted again under its id, or another one refused under it,
      starts no turn until that many other prompts have been recorded; the next
      one the backend takes then starts one. */
  lemma RememberedFor(attempts: seq<Attempt>, k: nat, a: Attempt)
    requires k < |Turns(attempts)|
    requires Turns(attempts)[k].clientMessageID == a.cmd.clientMessageID
    requires forall i | k < i < |Turns(attempts)| :: Turns(attempts)[i].clientMessageID != a.cmd.clientMessageID
    ensures var turns := Turns(attempts);
      var others := |turns| - (k + 1);
      && (others < 4096 ==>
            Handled(turns, a) == (turns, if turns[k] == a.cmd then Accepted else Refused))
      && (others >= 4096 ==>
            Handled(turns, a) == if a.taken then (turns + [a.cmd], Accepted) else (turns, Failed))
  {
    var turns := Turns(attempts);
    var v := VerdictOf(turns, a.cmd);
    if |turns| - (k + 1) < REMEMBERED_PROMPTS {
      assert Forgotten(turns) <= k;
      OneVerdict(turns, a.cmd, v, if turns[k] == a.cmd then Replay else Conflict);
    } else {
      assert Forgotten(turns) > k;
      OneVerdict(turns, a.cmd, v, New);
    }
  }

  /** A prompt under an id that never had a turn starts one if the backend takes it. */
  lemma NewStarts(attempts: seq<Attempt>, a: Attempt)
    requires forall i | 0 <= i < |Turns(attempts)| :: Turns(attempts)[i].clientMessageID != a.cmd.clientMessageID
    ensures var turns := Turns(attempts);
      Handled(turns, a) == if a.taken then (turns + [a.cmd], Accepted) else (turns, Failed)
  {
    OneVerdict(Turns(attempts), a.cmd, VerdictOf(Turns(attempts), a.cmd), New);
  }

  /** Two turns under one id are more than the window apart. */
  lemma TurnsApart(attempts: seq<Attempt>, i: nat, j: nat)
    requires i < j < |Turns(attempts)|
    requires Turns(attempts)[i].clientMessageID == Turns(attempts)[j].clientMessageID
    ensures j - i > 4096
  {
    assert Distinct(Turns(attempts));
  }

  class Service {
    const prompts: Ledger
    ghost var turns: seq<Command>

    constructor ()
      ensures prompts.Valid() && prompts.log == [] && turns == [] && fresh(prompts)
    {
      prompts := new Ledger();
      turns := [];
    }

    /** `taken` is what the backend says to the prompt, if it is asked. */
    method Handle(cmd: Command, taken: bool) returns (answer: Answer)
      requires prompts.Valid() && turns == prompts.log
      modifies this, prompts
      ensures prompts.Valid() && turns == prompts.log
      ensures (turns, answer) == Handled(old(turns), Attempt(cmd, taken))
    {
      var verdict := prompts.Seen(cmd);
      OneVerdict(prompts.log, cmd, verdict, VerdictOf(prompts.log, cmd));
      match verdict {
        case Conflict => return Refused;
        case Replay => return Accepted;
        case New =>
          if !taken {
            return Failed;
          }
          turns := turns + [cmd];
          prompts.Record(cmd);
          return Accepted;
      }
    }
  }
}
