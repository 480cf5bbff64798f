/**
 Pi's session file: a tree whose entries name their parents. The conversation is
 the way from the entry written last up to the root.
 */
module PiBranch {

  import opened Basics
  import opened Transcript
  import opened PiMapping

  datatype FileEntry = FileEntry(kind: string, id: string, parent: Option<string>, message: Message, tokensBefore: nat)

  /** Lines that do not decode, the session header and entries without an id are
      passed over. */
  predicate Kept(line: Option<FileEntry>) {
    line.Some? && line.value.kind != "session" && line.value.id != ""
  }

  function Entries(lines: seq<Option<FileEntry>>): (r: seq<FileEntry>)
    ensures forall e <- r :: e.id != ""
  {
    if lines == [] then []
    else Entries(lines[..|lines| - 1])
         + if Kept(lines[|lines| - 1]) then [lines[|lines| - 1].value] else []
  }

  /** Where an id was last written. */
  function ByID(entries: seq<FileEntry>): (r: map<string, nat>)
    ensures forall id <- r :: r[id] < |entries|
  {
    if entries == [] then map[]
    else ByID(entries[..|entries| - 1])[entries[|entries| - 1].id := |entries| - 1]
  }

  lemma {:induction false} ByIDFindsLast(entries: seq<FileEntry>)
    ensures forall id <- ByID(entries) :: entries[ByID(entries)[id]].id == id
    ensures forall i | 0 <= i < |entries| :: entries[i].id in ByID(entries) && i <= ByID(entries)[entries[i].id]
  {
    if entries != [] {
      ByIDFindsLast(entries[..|entries| - 1]);
    }
  }

  // ------------------------------------------------------------- the branch

  /** For each entry the one above it, if it names one the file has. */
  function Links(entries: seq<FileEntry>): (r: seq<Option<nat>>)
    ensures |r| == |entries| && Linked(r)
  {
    var at := ByID(entries);
    seq(|entries|, i requires 0 <= i < |entries| => LinkTo(at, entries[i].parent))
  }

  function LinkTo(at: map<string, nat>, parent: Option<string>): Option<nat> {
    if parent.Some? && parent.value in at then Some(at[parent.value]) else None
  }

  predicate Linked(up: seq<Option<nat>>) {
    forall i | 0 <= i < |up| :: up[i].Some? ==> up[i].value < |up|
  }

  /** The entry so many steps above another. */
  function Climb(up: seq<Option<nat>>, at: nat, steps: nat): (r: Option<nat>)
    requires Linked(up) && at < |up|
    ensures r.Some? ==> r.value < |up|
  {
    if steps == 0 then Some(at)
    else
      var below := Climb(up, at, steps - 1);
      if below.None? then None else up[below.value]
  }

  ghost predicate Ancestor(up: seq<Option<nat>>, at: nat, k: nat)
    requires Linked(up) && at < |up|
  {
    exists steps: nat :: Climb(up, at, steps) == Some(k)
  }

  ghost predicate Cyclic(up: seq<Option<nat>>, at: nat)
    requires Linked(up) && at < |up|
  {
    exists i: nat, j: nat | i < j ::
      Climb(up, at, i).Some? && Climb(up, at, i) == Climb(up, at, j)
  }

  /** The way up, bounded by the number of entries. */
  function Walk(up: seq<Option<nat>>, at: nat, bound: nat): (r: seq<nat>)
    requires Linked(up) && at < |up|
    ensures |r| <= bound && forall i | 0 <= i < |r| :: r[i] < |up|
  {
    if bound == 0 then []
    else
      var walk, next := Walk(up, at, bound - 1), Climb(up, at, bound - 1);
      if next.Some? then walk + [next.value] else walk
  }

  /** Once the way up has ended it stays ended. */
  lemma {:induction false} ClimbStops(up: seq<Option<nat>>, at: nat, i: nat, j: nat)
    requires Linked(up) && at < |up| && i <= j && Climb(up, at, i).None?
    ensures Climb(up, at, j).None?
  {
    if i < j {
      ClimbStops(up, at, i, j - 1);
    }
  }

  lemma {:induction false} WalkIsClimb(up: seq<Option<nat>>, at: nat, bound: nat)
    requires Linked(up) && at < |up|
    ensures var walk := Walk(up, at, bound);
      && (forall i | 0 <= i < |walk| :: Climb(up, at, i) == Some(walk[i]))
      && (|walk| < bound ==> Climb(up, at, |walk|).None?)
  {
    if bound > 0 {
      WalkIsClimb(up, at, bound - 1);
      var walk := Walk(up, at, bound - 1);
      if |walk| < bound - 1 {
        ClimbStops(up, at, |walk|, bound - 1);
      }
    }
  }

  function Below(n: nat): (r: set<nat>)
    ensures |r| == n && forall k: nat :: k in r <==> k < n
  {
    if n == 0 then {} else Below(n - 1) + {n - 1}
  }

  /** Going around a circle the way up repeats itself. */
  lemma {:induction false} AroundAgain(up: seq<Option<nat>>, at: nat, i: nat, j: nat, more: nat)
    requires Linked(up) && at < |up| && Climb(up, at, i) == Climb(up, at, j)
    ensures Climb(up, at, i + more) == Climb(up, at, j + more)
  {
    if more > 0 {
      AroundAgain(up, at, i, j, more - 1);
    }
  }

  lemma {:induction false} NeverStops(up: seq<Option<nat>>, at: nat, i: nat, j: nat, steps: nat)
    requires Linked(up) && at < |up| && i < j && Climb(up, at, j).Some? && Climb(up, at, i) == Climb(up, at, j)
    ensures Climb(up, at, steps).Some?
    decreases steps
  {
    if steps <= j {
      if Climb(up, at, steps).None? {
        ClimbStops(up, at, steps, j);
      }
    } else {
      AroundAgain(up, at, i, j, steps - j);
      NeverStops(up, at, i, j, steps - (j - i));
    }
  }

  /** The way up outlasts the number of entries exactly when it runs in a circle. */
  lemma LongerOnlyAround(up: seq<Option<nat>>, at: nat)
    requires Linked(up) && at < |up|
    ensures Climb(up, at, |up|).Some? <==> Cyclic(up, at)
  {
    var n := |up|;
    if Cyclic(up, at) {
      var i: nat, j: nat :| i < j && Climb(up, at, i).Some? && Climb(up, at, i) == Climb(up, at, j);
      NeverStops(up, at, i, j, n);
    }
    if Climb(up, at, n).Some? {
      WalkIsClimb(up, at, n + 1);
      var walk := Walk(up, at, n + 1);
      assert |walk| == n + 1 by {
        if |walk| < n + 1 {
          ClimbStops(up, at, |walk|, n);
        }
      }
      if forall i, j | 0 <= i < j < |walk| :: walk[i] != walk[j] {
        DistinctWithin(walk, Below(n));
        assert false;
      }
      var i: nat, j: nat :| i < j < |walk| && walk[i] == walk[j];
      assert Climb(up, at, i) == Climb(up, at, j);
    }
  }

  /** On a file without a circle above its last entry, the walk lists exactly the
      ancestors of that entry, each once, every one below its parent. */
  lemma WalkIsAncestors(up: seq<Option<nat>>, at: nat)
    requires Linked(up) && at < |up| && !Cyclic(up, at)
    ensures var walk := Walk(up, at, |up|);
      && walk != [] && walk[0] == at && up[walk[|walk| - 1]].None?
      && (forall i | 0 < i < |walk| :: up[walk[i - 1]] == Some(walk[i]))
      && (forall k: nat :: k in walk <==> Ancestor(up, at, k))
      && (forall i, j | 0 <= i < j < |walk| :: walk[i] != walk[j])
  {
    var n, walk := |up|, Walk(up, at, |up|);
    LongerOnlyAround(up, at);
    WalkIsClimb(up, at, n);
    assert Climb(up, at, |walk|).None?;
    assert Climb(up, at, 0) == Some(at);
    forall k: nat | Ancestor(up, at, k) ensures k in walk {
      var steps: nat :| Climb(up, at, steps) == Some(k);
      if steps >= |walk| {
        ClimbStops(up, at, |walk|, steps);
      } else {
        assert walk[steps] == k;
      }
    }
    forall k: nat | k in walk ensures Ancestor(up, at, k) {
      var i :| 0 <= i < |walk| && walk[i] == k;
      assert Climb(up, at, i) == Some(k);
    }
    forall i: nat, j: nat | i < j < |walk| ensures walk[i] != walk[j] {
      assert Climb(up, at, i) == Some(walk[i]) && Climb(up, at, j) == Some(walk[j]);
    }
  }

  /** Every link points to an earlier entry. */
  predicate Upward(up: seq<Option<nat>>) {
    forall i | 0 <= i < |up| :: up[i].Some? ==> up[i].value < i
  }

  lemma {:induction false} ClimbDescends(up: seq<Option<nat>>, at: nat, i: nat, j: nat)
    requires Linked(up) && Upward(up) && at < |up| && i < j && Climb(up, at, j).Some?
    ensures Climb(up, at, i).Some? && Climb(up, at, j).value < Climb(up, at, i).value
  {
    if i < j - 1 {
      ClimbDescends(up, at, i, j - 1);
    }
  }

  predicate Falling(walk: seq<nat>) { forall i, j | 0 <= i < j < |walk| :: walk[j] < walk[i] }

  /** Ids are written once, and a parent before its children. */
  predicate ParentsFirst(entries: seq<FileEntry>) {
    && (forall i, j | 0 <= i < j < |entries| :: entries[i].id != entries[j].id)
    && (forall i, j | 0 <= i <= j < |entries| :: entries[i].parent != Some(entries[j].id))
  }

  /** Such a file has no circle, and its branch is in the order it was written. */
  lemma BranchInFileOrder(entries: seq<FileEntry>, at: nat)
    requires ParentsFirst(entries) && at < |entries|
    ensures !Cyclic(Links(entries), at)
    ensures Falling(Walk(Links(entries), at, |entries|))
  {
    var up := Links(entries);
    ByIDFindsLast(entries);
    assert Upward(up);
    if Cyclic(up, at) {
      var i: nat, j: nat :| i < j && Climb(up, at, i).Some? && Climb(up, at, i) == Climb(up, at, j);
      ClimbDescends(up, at, i, j);
    }
    WalkIsClimb(up, at, |entries|);
    var walk := Walk(up, at, |entries|);
    forall i: nat, j: nat | i < j < |walk| ensures walk[j] < walk[i] {
      assert Climb(up, at, j) == Some(walk[j]) && Climb(up, at, i) == Some(walk[i]);
      ClimbDescends(up, at, i, j);
    }
  }

  /** The entries at some places, the last place first. */
  function Picked(entries: seq<FileEntry>, walk: seq<nat>): (r: seq<FileEntry>)
    requires forall i | 0 <= i < |walk| :: walk[i] < |entries|
    ensures |r| == |walk| && forall i | 0 <= i < |r| :: r[i] == entries[walk[|walk| - 1 - i]]
  {
    if walk == [] then [] else Picked(entries, walk[1..]) + [entries[walk[0]]]
  }

  /** The conversation pi will continue, root first. */
  function Branch(entries: seq<FileEntry>): seq<FileEntry> {
    if entries == [] then []
    else Picked(entries, Walk(Links(entries), |entries| - 1, |entries|))
  }

  /** In the file's own terms: the conversation ends at the entry written last,
      every entry names the one before it as its parent, and the first one names
      none the file has. */
  lemma BranchIsAChain(entries: seq<FileEntry>)
    requires entries != [] && !Cyclic(Links(entries), |entries| - 1)
    ensures var branch := Branch(entries);
      && branch != [] && branch[|branch| - 1] == entries[|entries| - 1]
      && (forall i | 0 < i < |branch| :: branch[i].parent == Some(branch[i - 1].id))
      && (branch[0].parent.Some? ==> forall e <- entries :: branch[0].parent != Some(e.id))
  {
    var up, last := Links(entries), |entries| - 1;
    var walk, branch := Walk(up, last, |entries|), Branch(entries);
    WalkIsAncestors(up, last);
    ByIDFindsLast(entries);
    assert branch == Picked(entries, walk);
    forall i | 0 < i < |branch| ensures branch[i].parent == Some(branch[i - 1].id) {
      var below := |walk| - 1 - i;
      assert up[walk[below]] == Some(walk[below + 1]);
      LinkAt(entries, walk[below]);
    }
    LinkAt(entries, walk[|walk| - 1]);
  }

  lemma LinkAt(entries: seq<FileEntry>, at: nat)
    requires at < |entries|
    ensures Links(entries)[at] == LinkTo(ByID(entries), entries[at].parent)
  {
  }

  // ------------------------------------------------------------- the reader

  method ReadEntries(lines: seq<Option<FileEntry>>) returns (entries: seq<FileEntry>, byID: map<string, nat>)
    ensures entries == Entries(lines) && byID == ByID(entries)
  {
    entries, byID := [], map[];
    for i := 0 to |lines|
      invariant entries == Entries(lines[..i]) && byID == ByID(entries)
    {
      assert lines[..i + 1][..i] == lines[..i];
      if Kept(lines[i]) {
        var entry := lines[i].value;
        byID := byID[entry.id := |entries|];
        entries := entries + [entry];
        assert entries[..|entries| - 1] == Entries(lines[..i]);
      }
    }
    assert lines[..|lines|] == lines;
  }

  lemma WalkStep(up: seq<Option<nat>>, last: nat, n: nat, at: nat)
    requires Linked(up) && last < |up| && Climb(up, last, n) == Some(at)
    ensures Walk(up, last, n + 1) == Walk(up, last, n) + [at] && Climb(up, last, n + 1) == up[at]
  {
  }

  /** The walk no longer grows once the way up has ended. */
  lemma {:induction false} WalkEndsWith(up: seq<Option<nat>>, at: nat, n: nat, bound: nat)
    requires Linked(up) && at < |up| && n <= bound && (n < bound ==> Climb(up, at, n).None?)
    ensures Walk(up, at, bound) == Walk(up, at, n)
  {
    if n < bound {
      ClimbStops(up, at, n, bound - 1);
      WalkEndsWith(up, at, n, bound - 1);
    }
  }

  method Reverse(found: seq<FileEntry>) returns (r: seq<FileEntry>)
    ensures |r| == |found| && forall i | 0 <= i < |r| :: r[i] == found[|found| - 1 - i]
  {
    r := found;
    var i, j := 0, |found| - 1;
    while i < j
      invariant 0 <= i <= j + 2 && j == |found| - 1 - i && |r| == |found|
      invariant forall k | 0 <= k < i || j < k < |r| :: r[k] == found[|found| - 1 - k]
      invariant forall k | i <= k <= j :: r[k] == found[k]
    {
      r := r[i := r[j]][j := r[i]];
      i, j := i + 1, j - 1;
    }
  }

  /** Where the walk over `walk` stands: at an entry, or at its end. */
  ghost predicate Standing(up: seq<Option<nat>>, walk: seq<nat>, at: Option<nat>) {
    && Linked(up) && up != []
    && walk == Walk(up, |up| - 1, |walk|)
    && Climb(up, |up| - 1, |walk|) == at
    && (at.Some? ==> at.value < |up|)
  }

  lemma StandingStep(up: seq<Option<nat>>, walk: seq<nat>, at: nat)
    requires Standing(up, walk, Some(at))
    ensures Standing(up, walk + [at], up[at])
  {
    WalkStep(up, |up| - 1, |walk|, at);
    assert |walk + [at]| == |walk| + 1;
  }

  /** Walks from the last entry to the root. */
  method WalkUp(entries: seq<FileEntry>, byID: map<string, nat>) returns (found: seq<FileEntry>, ghost walk: seq<nat>)
    requires byID == ByID(entries) && entries != []
    ensures walk == Walk(Links(entries), |entries| - 1, |entries|) && |found| == |walk|
    ensures forall i | 0 <= i < |walk| :: walk[i] < |entries| && found[i] == entries[walk[i]]
  {
    found, walk := [], [];
    ghost var up := Links(entries);
    var at: Option<nat> := Some(|entries| - 1);
    while at.Some? && |found| < |entries|
      invariant Standing(up, walk, at)
      invariant |found| == |walk| <= |entries|
      invariant forall i | 0 <= i < |walk| :: walk[i] < |entries| && found[i] == entries[walk[i]]
      decreases |entries| - |found|
    {
      StandingStep(up, walk, at.value);
      LinkAt(entries, at.value);
      var entry := entries[at.value];
      found, walk := found + [entry], walk + [at.value];
      at := LinkTo(byID, entry.parent);
    }
    WalkEndsWith(up, |entries| - 1, |walk|, |entries|);
  }

  /** The walk turned around. */
  method ReadBranch(entries: seq<FileEntry>, byID: map<string, nat>) returns (branch: seq<FileEntry>)
    requires byID == ByID(entries)
    ensures branch == Branch(entries)
  {
    if entries == [] {
      return [];
    }
    var found, walk := WalkUp(entries, byID);
    branch := Reverse(found);
    assert branch == Picked(entries, walk);
  }
}
