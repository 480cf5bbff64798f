/**
 The thread directory: a table of rows ordered by when they were last updated,
 read a page at a time by a cursor while it goes on changing.
 */
module Directory {

  import opened Basics
  import opened Cursor

  type Id = seq<byte>

  datatype Record = Record(title: string, cwd: string, options: string)

  datatype Row = Row(at: Stamp, record: Record)

  type Table = map<Id, Row>

  /** One directory row as a page lists it. */
  datatype Summary = Summary(key: Keyset, record: Record)

  function Key(t: Table, id: Id): Keyset
    requires id in t
  {
    Keyset(t[id].at, id)
  }

  function Summarize(t: Table, id: Id): Summary
    requires id in t
  {
    Summary(Key(t, id), t[id].record)
  }

  predicate ValidTable(t: Table) { forall id <- t :: ValidStamp(t[id].at) }

  // ----------------------------------------------------------------- a page

  /** Whether a row is past the cursor, or there is none. */
  predicate Listed(t: Table, cursor: Option<Keyset>, id: Id) {
    id in t && (cursor.None? || Before(Key(t, id), cursor.value))
  }

  predicate Descending(page: seq<Summary>) {
    forall i, j | 0 <= i < j < |page| :: Before(page[j].key, page[i].key)
  }

  /** Every row of `page` is one of the table's, past the cursor. */
  predicate Rows(t: Table, cursor: Option<Keyset>, page: seq<Summary>) {
    forall i | 0 <= i < |page| :: Listed(t, cursor, page[i].key.id) && page[i] == Summarize(t, page[i].key.id)
  }

  function Ids(page: seq<Summary>): set<Id> { set i | 0 <= i < |page| :: page[i].key.id }

  /** The newest rows past the cursor, newest first, and whether any is left. */
  ghost predicate IsPage(t: Table, cursor: Option<Keyset>, limit: nat, page: seq<Summary>, more: bool) {
    && |page| <= limit && Rows(t, cursor, page) && Descending(page)
    && (forall id | Listed(t, cursor, id) && id !in Ids(page) ::
          forall i | 0 <= i < |page| :: Before(Key(t, id), page[i].key))
    && (more <==> exists id :: Listed(t, cursor, id) && id !in Ids(page))
    && (more ==> |page| == limit)
  }

  /** A row past the cursor is at a place of the page or below all of it. */
  lemma PlaceInPage(t: Table, cursor: Option<Keyset>, limit: nat, page: seq<Summary>, more: bool, i: nat, id: Id)
    requires IsPage(t, cursor, limit, page, more) && i < |page|
    requires Listed(t, cursor, id) && forall k | 0 <= k < i :: page[k].key.id != id
    ensures page[i].key.id == id || Before(Key(t, id), page[i].key)
  {
    if id in Ids(page) {
      var k :| 0 <= k < |page| && page[k].key.id == id;
      if k > i {
        assert Before(page[k].key, page[i].key);
      }
    }
  }

  lemma NotEarlier(page: seq<Summary>, i: nat, k: nat)
    requires Descending(page) && k < i < |page|
    ensures page[k].key.id != page[i].key.id || page[k].key != page[i].key
  {
    BeforeIrreflexive(page[i].key);
  }

  lemma FreshAtPlace(t: Table, cursor: Option<Keyset>, page: seq<Summary>, i: nat)
    requires Rows(t, cursor, page) && Descending(page) && i < |page|
    ensures forall k | 0 <= k < i :: page[k].key.id != page[i].key.id
  {
    forall k | 0 <= k < i ensures page[k].key.id != page[i].key.id {
      NotEarlier(page, i, k);
    }
  }

  lemma SamePlace(
    t: Table, cursor: Option<Keyset>, limit: nat,
    p: seq<Summary>, m: bool, q: seq<Summary>, n: bool, i: nat)
    requires IsPage(t, cursor, limit, p, m) && IsPage(t, cursor, limit, q, n)
    requires i < |p| && i < |q| && p[..i] == q[..i]
    ensures p[i] == q[i]
  {
    var a, b := p[i].key, q[i].key;
    FreshAtPlace(t, cursor, p, i);
    FreshAtPlace(t, cursor, q, i);
    assert forall k | 0 <= k < i :: p[..i][k] == q[..i][k];
    PlaceInPage(t, cursor, limit, p, m, i, b.id);
    PlaceInPage(t, cursor, limit, q, n, i, a.id);
    if a.id != b.id {
      BeforeTransitive(a, b, a);
      BeforeIrreflexive(a);
    }
  }

  lemma {:induction false} PagesAgree(
    t: Table, cursor: Option<Keyset>, limit: nat,
    p: seq<Summary>, m: bool, q: seq<Summary>, n: bool, i: nat)
    requires IsPage(t, cursor, limit, p, m) && IsPage(t, cursor, limit, q, n)
    requires i <= |p| && i <= |q|
    ensures p[..i] == q[..i]
  {
    if i > 0 {
      PagesAgree(t, cursor, limit, p, m, q, n, i - 1);
      SamePlace(t, cursor, limit, p, m, q, n, i - 1);
      assert p[..i] == p[..i - 1] + [p[i - 1]] && q[..i] == q[..i - 1] + [q[i - 1]];
    }
  }

  lemma NotLonger(
    t: Table, cursor: Option<Keyset>, limit: nat, p: seq<Summary>, m: bool, q: seq<Summary>, n: bool)
    requires IsPage(t, cursor, limit, p, m) && IsPage(t, cursor, limit, q, n)
    ensures |q| <= |p|
  {
    if |p| < |q| {
      PagesAgree(t, cursor, limit, p, m, q, n, |p|);
      var id := q[|p|].key.id;
      assert !m && Listed(t, cursor, id);
      var k :| 0 <= k < |p| && p[k].key.id == id;
      assert p[..|p|][k] == q[..|p|][k];
      assert Before(q[|p|].key, q[k].key);
      BeforeIrreflexive(q[k].key);
    }
  }

  /** A table, a cursor and a limit determine the page. */
  lemma PageIsUnique(
    t: Table, cursor: Option<Keyset>, limit: nat, p: seq<Summary>, m: bool, q: seq<Summary>, n: bool)
    requires IsPage(t, cursor, limit, p, m) && IsPage(t, cursor, limit, q, n)
    ensures p == q && m == n
  {
    NotLonger(t, cursor, limit, p, m, q, n);
    NotLonger(t, cursor, limit, q, n, p, m);
    PagesAgree(t, cursor, limit, p, m, q, n, |p|);
    assert p[..|p|] == p && q[..|p|] == q;
  }

  function Remaining(t: Table, cursor: Option<Keyset>): set<Id> {
    set id | id in t && Listed(t, cursor, id)
  }

  /** The cursor after a page leaves exactly the rows the page did not list. */
  lemma NextPageStartsBelow(t: Table, cursor: Option<Keyset>, limit: nat, page: seq<Summary>, more: bool)
    requires IsPage(t, cursor, limit, page, more) && page != []
    ensures Remaining(t, Some(page[|page| - 1].key)) == Remaining(t, cursor) - Ids(page)
    ensures more <==> Remaining(t, Some(page[|page| - 1].key)) != {}
  {
    var last := page[|page| - 1].key;
    forall id | id in t ensures id in Remaining(t, Some(last)) <==> id in Remaining(t, cursor) - Ids(page) {
      if Before(Key(t, id), last) {
        if cursor.Some? {
          BeforeTransitive(Key(t, id), last, cursor.value);
        }
        if id in Ids(page) {
          var k :| 0 <= k < |page| && page[k].key.id == id;
          assert page[k].key == Key(t, id);
          if k < |page| - 1 {
            BeforeTransitive(last, page[k].key, last);
          }
          BeforeIrreflexive(last);
        }
      }
    }
    if more {
      var id :| Listed(t, cursor, id) && id !in Ids(page);
      assert id in Remaining(t, cursor);
    }
  }

  // ------------------------------------------------------------ the requests

  /** What a cursor asks for; the empty one is the first page. */
  datatype Request = From(cursor: Option<Keyset>) | Refused | Foreign

  function Asked(cursor: string): Request {
    if cursor == "" then From(None)
    else
      match ParseKeyset(cursor)
      case At(k) => From(Some(k))
      case CursorInvalid => Refused
      case Elsewhere(_, _) => Foreign
  }

  function NextCursor(page: seq<Summary>, more: bool): Option<string> {
    if more && page != [] then Some(Encode(page[|page| - 1].key)) else None
  }

  lemma CursorAsksBelow(k: Keyset)
    requires ValidStamp(k.at)
    ensures Asked(Encode(k)) == From(Some(k))
  {
    CursorRoundTrip(k, 0);
    assert Encode(k) + seq(0, _ => '=') == Encode(k);
    assert |Sextets(Format(k.at) + [BAR] + k.id)| > 0;
  }

  /** A page comes with a cursor exactly when rows are left, and the cursor, sent
      back, asks for exactly those. */
  lemma {:induction false} CursorAsksForTheRest(t: Table, cursor: Option<Keyset>, limit: nat, page: seq<Summary>,
      more: bool)
    requires ValidTable(t) && limit >= 1 && IsPage(t, cursor, limit, page, more)
    ensures NextCursor(page, more).Some? <==> Remaining(t, cursor) - Ids(page) != {}
    ensures NextCursor(page, more).Some? ==>
      && Asked(NextCursor(page, more).value).From?
      && Remaining(t, Asked(NextCursor(page, more).value).cursor) == Remaining(t, cursor) - Ids(page)
  {
    if page == [] {
      assert !more;
      assert Remaining(t, cursor) - Ids(page) == {};
    } else {
      NextPageStartsBelow(t, cursor, limit, page, more);
      CursorAsksBelow(page[|page| - 1].key);
    }
  }

  // ------------------------------------------------------------------ a walk

  /** A client that asks for page after page, and the table it walks. */
  datatype Walk = Walk(table: Table, cursor: string, seen: seq<Summary>, done: bool)

  datatype Step =
    | Put(id: Id, at: Stamp, record: Record)
    | Update(id: Id, at: Stamp, record: Record)
    | Touch(id: Id, at: Stamp)
    | Remove(id: Id)
    | Page(limit: nat, page: seq<Summary>, more: bool)

  function PutRow(t: Table, id: Id, at: Stamp, record: Record): Table { t[id := Row(at, record)] }

  function UpdateRow(t: Table, id: Id, at: Stamp, record: Record): Table {
    if id in t then t[id := Row(at, record)] else t
  }

  function TouchRow(t: Table, id: Id, at: Stamp): Table {
    if id in t then t[id := Row(at, t[id].record)] else t
  }

  function RemoveRow(t: Table, id: Id): Table { t - {id} }

  ghost predicate Enabled(w: Walk, step: Step) {
    match step
    case Page(limit, page, more) =>
      && !w.done && limit >= 1 && Asked(w.cursor).From?
      && IsPage(w.table, Asked(w.cursor).cursor, limit, page, more)
    case _ => true
  }

  function Apply(w: Walk, step: Step): Walk {
    match step
    case Put(id, at, record) => w.(table := PutRow(w.table, id, at, record))
    case Update(id, at, record) => w.(table := UpdateRow(w.table, id, at, record))
    case Touch(id, at) => w.(table := TouchRow(w.table, id, at))
    case Remove(id) => w.(table := RemoveRow(w.table, id))
    case Page(limit, page, more) =>
      match NextCursor(page, more)
      case None => w.(seen := w.seen + page, done := true)
      case Some(next) => w.(seen := w.seen + page, cursor := next)
  }

  ghost predicate Legal(w: Walk, steps: seq<Step>)
    decreases |steps|
  {
    steps == [] || (Enabled(w, steps[0]) && Legal(Apply(w, steps[0]), steps[1..]))
  }

  function Exec(w: Walk, steps: seq<Step>): Walk
    decreases |steps|
  {
    if steps == [] then w else Exec(Apply(w, steps[0]), steps[1..])
  }

  /** Whether a write stamps its row past `top`. */
  predicate Above(step: Step, top: nat) {
    step.Put? || step.Update? || step.Touch? ==> ValidStamp(step.at) && Instant(step.at) > top
  }

  predicate Touches(step: Step, id: Id) { !step.Page? && step.id == id }

  predicate Untouched(steps: seq<Step>, id: Id) { forall step <- steps :: !Touches(step, id) }

  // ------------------------------------------------------------ its invariant

  /** A row the first page could have listed. */
  predicate Original(t: Table, top: nat, id: Id) { id in t && Instant(t[id].at) <= top }

  ghost predicate TableInv(start: Table, top: nat, t: Table) {
    && ValidTable(t)
    && forall id | Original(t, top, id) :: id in start && t[id] == start[id]
  }

  /** Everything seen is a row of the table the walk began with. */
  ghost predicate SeenInv(start: Table, top: nat, seen: seq<Summary>) {
    && Descending(seen)
    && forall i | 0 <= i < |seen| ::
         Original(start, top, seen[i].key.id) && seen[i] == Summarize(start, seen[i].key.id)
  }

  /** What the walk has yet to see of its table is below what it has seen. */
  ghost predicate RestInv(top: nat, w: Walk) {
    && (!w.done ==> w.seen != [] && w.cursor == Encode(w.seen[|w.seen| - 1].key))
    && (forall id | Unseen(w.table, top, w.seen, id) ::
          !w.done && Before(Key(w.table, id), w.seen[|w.seen| - 1].key))
  }

  ghost predicate WalkInv(start: Table, top: nat, w: Walk) {
    ValidTable(start) && TableInv(start, top, w.table) && SeenInv(start, top, w.seen) && RestInv(top, w)
  }

  function Written(t: Table, step: Step): Table
    requires !step.Page?
  {
    Apply(Walk(t, "", [], false), step).table
  }

  lemma WriteKeepsOld(t: Table, top: nat, step: Step, id: Id)
    requires !step.Page? && Above(step, top) && Original(Written(t, step), top, id)
    ensures Original(t, top, id) && Written(t, step)[id] == t[id]
  {
  }

  lemma WriteKeepsTable(start: Table, top: nat, t: Table, step: Step)
    requires TableInv(start, top, t) && !step.Page? && Above(step, top)
    ensures TableInv(start, top, Written(t, step))
  {
    var u := Written(t, step);
    forall id | Original(u, top, id) ensures id in start && u[id] == start[id] {
      WriteKeepsOld(t, top, step, id);
    }
    forall id | id in u ensures ValidStamp(u[id].at) {
    }
  }

  lemma WriteKeepsRest(top: nat, w: Walk, step: Step)
    requires RestInv(top, w) && !step.Page? && Above(step, top)
    ensures RestInv(top, w.(table := Written(w.table, step)))
  {
    var t := Written(w.table, step);
    forall id | Unseen(t, top, w.seen, id)
      ensures !w.done && Before(Key(t, id), w.seen[|w.seen| - 1].key)
    {
      WriteKeepsOld(w.table, top, step, id);
      assert Unseen(w.table, top, w.seen, id);
    }
  }

  lemma WriteKeeps(start: Table, top: nat, w: Walk, step: Step)
    requires WalkInv(start, top, w) && !step.Page? && Above(step, top)
    ensures WalkInv(start, top, Apply(w, step))
  {
    assert Apply(w, step) == w.(table := Written(w.table, step));
    WriteKeepsTable(start, top, w.table, step);
    WriteKeepsRest(top, w, step);
  }

  lemma IdsJoin(a: seq<Summary>, b: seq<Summary>)
    ensures Ids(a + b) == Ids(a) + Ids(b)
  {
    forall i | 0 <= i < |a| ensures a[i].key.id in Ids(a + b) {
      assert (a + b)[i] == a[i];
    }
    forall i | 0 <= i < |b| ensures b[i].key.id in Ids(a + b) {
      assert (a + b)[|a| + i] == b[i];
    }
  }

  /** What a page leaves out is below all of it, and then the page is full. */
  lemma LeftOut(t: Table, cursor: Option<Keyset>, limit: nat, page: seq<Summary>, more: bool, id: Id)
    requires limit >= 1 && IsPage(t, cursor, limit, page, more) && Listed(t, cursor, id) && id !in Ids(page)
    ensures more && page != [] && Before(Key(t, id), page[|page| - 1].key)
  {
  }

  /** The rows there are still to see. */
  ghost predicate Unseen(t: Table, top: nat, seen: seq<Summary>, id: Id) {
    Original(t, top, id) && id !in Ids(seen)
  }

  lemma LeavesBelow(
    t: Table, top: nat, cursor: Option<Keyset>, limit: nat, seen: seq<Summary>, page: seq<Summary>, more: bool)
    requires limit >= 1 && IsPage(t, cursor, limit, page, more)
    requires forall id | Unseen(t, top, seen, id) :: Listed(t, cursor, id)
    ensures forall id | Unseen(t, top, seen + page, id) ::
              more && page != [] && Before(Key(t, id), page[|page| - 1].key)
  {
    IdsJoin(seen, page);
    forall id | Unseen(t, top, seen + page, id)
      ensures more && page != [] && Before(Key(t, id), page[|page| - 1].key)
    {
      assert Unseen(t, top, seen, id);
      LeftOut(t, cursor, limit, page, more, id);
    }
  }

  lemma PageLeavesRest(top: nat, w: Walk, cursor: Option<Keyset>, limit: nat, page: seq<Summary>, more: bool)
    requires limit >= 1 && IsPage(w.table, cursor, limit, page, more) && !w.done
    requires forall id | Unseen(w.table, top, w.seen, id) :: Listed(w.table, cursor, id)
    ensures RestInv(top, Apply(w, Page(limit, page, more)))
  {
    LeavesBelow(w.table, top, cursor, limit, w.seen, page, more);
    assert page != [] ==> (w.seen + page)[|w.seen + page| - 1] == page[|page| - 1];
  }

  lemma {:induction false} FirstPage(start: Table, top: nat, page: seq<Summary>, more: bool, limit: nat)
    requires ValidTable(start) && forall id <- start :: Instant(start[id].at) <= top
    requires limit >= 1 && IsPage(start, None, limit, page, more)
    ensures WalkInv(start, top, Apply(Walk(start, "", [], false), Page(limit, page, more)))
  {
    assert [] + page == page;
    PageLeavesRest(top, Walk(start, "", [], false), None, limit, page, more);
  }

  lemma AsksBelowLast(start: Table, top: nat, w: Walk)
    requires WalkInv(start, top, w) && !w.done
    ensures Asked(w.cursor) == From(Some(w.seen[|w.seen| - 1].key))
  {
    CursorAsksBelow(w.seen[|w.seen| - 1].key);
  }

  /** The rows a later page lists are old rows, below everything seen. */
  lemma PageIsOriginal(start: Table, top: nat, w: Walk, limit: nat, page: seq<Summary>, more: bool, i: nat)
    requires WalkInv(start, top, w) && Enabled(w, Page(limit, page, more)) && i < |page|
    ensures Before(page[i].key, w.seen[|w.seen| - 1].key)
    ensures Original(w.table, top, page[i].key.id) && page[i] == Summarize(start, page[i].key.id)
  {
    AsksBelowLast(start, top, w);
    var id, last := page[i].key.id, w.seen[|w.seen| - 1].key;
    assert Listed(w.table, Some(last), id);
    assert Instant(w.table[id].at) <= Instant(last.at);
  }

  lemma DescendingJoin(a: seq<Summary>, b: seq<Summary>)
    requires Descending(a) && Descending(b) && a != []
    requires forall j | 0 <= j < |b| :: Before(b[j].key, a[|a| - 1].key)
    ensures Descending(a + b)
  {
    forall i, j | 0 <= i < |a| && 0 <= j < |b| ensures Before(b[j].key, a[i].key) {
      if i < |a| - 1 {
        BeforeTransitive(b[j].key, a[|a| - 1].key, a[i].key);
      }
    }
    forall i, j | 0 <= i < j < |a + b| ensures Before((a + b)[j].key, (a + b)[i].key) {
      if i < |a| <= j {
        assert (a + b)[j] == b[j - |a|];
      }
    }
  }

  lemma SeenGrows(start: Table, top: nat, w: Walk, limit: nat, page: seq<Summary>, more: bool)
    requires WalkInv(start, top, w) && Enabled(w, Page(limit, page, more))
    ensures SeenInv(start, top, w.seen + page)
  {
    forall j | 0 <= j < |page|
      ensures Before(page[j].key, w.seen[|w.seen| - 1].key)
      ensures Original(start, top, page[j].key.id) && page[j] == Summarize(start, page[j].key.id)
    {
      PageIsOriginal(start, top, w, limit, page, more, j);
    }
    DescendingJoin(w.seen, page);
  }

  lemma {:induction false} PageKeeps(start: Table, top: nat, w: Walk, limit: nat, page: seq<Summary>, more: bool)
    requires WalkInv(start, top, w) && Enabled(w, Page(limit, page, more))
    ensures WalkInv(start, top, Apply(w, Page(limit, page, more)))
  {
    AsksBelowLast(start, top, w);
    SeenGrows(start, top, w, limit, page, more);
    PageLeavesRest(top, w, Asked(w.cursor).cursor, limit, page, more);
  }

  lemma {:induction false} WalkInvAlways(start: Table, top: nat, w: Walk, steps: seq<Step>)
    requires WalkInv(start, top, w) && Legal(w, steps) && forall step <- steps :: Above(step, top)
    ensures WalkInv(start, top, Exec(w, steps))
    decreases |steps|
  {
    if steps != [] {
      match steps[0] {
        case Page(limit, page, more) => PageKeeps(start, top, w, limit, page, more);
        case _ => WriteKeeps(start, top, w, steps[0]);
      }
      WalkInvAlways(start, top, Apply(w, steps[0]), steps[1..]);
    }
  }

  // ---------------------------------------------------------------- theorems

  /** A walk from the first page, and whatever else happens to the directory
      while it is under way. */
  ghost predicate Walked(start: Table, top: nat, steps: seq<Step>) {
    && ValidTable(start) && (forall id <- start :: Instant(start[id].at) <= top)
    && steps != [] && steps[0].Page? && Legal(Walk(start, "", [], false), steps)
    && forall step <- steps :: Above(step, top)
  }

  function Ended(start: Table, steps: seq<Step>): Walk { Exec(Walk(start, "", [], false), steps) }

  lemma {:induction false} WalkedInv(start: Table, top: nat, steps: seq<Step>)
    requires Walked(start, top, steps)
    ensures WalkInv(start, top, Ended(start, steps))
  {
    var p := steps[0];
    FirstPage(start, top, p.page, p.more, p.limit);
    WalkInvAlways(start, top, Apply(Walk(start, "", [], false), p), steps[1..]);
  }

  /** No walk lists a thread twice, and what it lists is in strictly descending
      order, each row as it stood when the walk began. */
  lemma NothingTwice(start: Table, top: nat, steps: seq<Step>)
    requires Walked(start, top, steps)
    ensures var seen := Ended(start, steps).seen;
      && Descending(seen)
      && (forall i | 0 <= i < |seen| :: seen[i].key.id in start && seen[i] == Summarize(start, seen[i].key.id))
      && (forall i, j | 0 <= i < j < |seen| :: seen[i].key.id != seen[j].key.id)
  {
    WalkedInv(start, top, steps);
    var seen := Ended(start, steps).seen;
    forall i, j | 0 <= i < j < |seen| ensures seen[i].key.id != seen[j].key.id {
      NotEarlier(seen, j, i);
    }
  }

  lemma {:induction false} UntouchedStays(w: Walk, steps: seq<Step>, id: Id)
    requires Untouched(steps, id)
    ensures id in Exec(w, steps).table <==> id in w.table
    ensures id in w.table ==> Exec(w, steps).table[id] == w.table[id]
    decreases |steps|
  {
    if steps != [] {
      assert !Touches(steps[0], id);
      UntouchedStays(Apply(w, steps[0]), steps[1..], id);
    }
  }

  /** A walk that has run to its end lists every thread nobody touched meanwhile. */
  lemma EveryUntouchedThread(start: Table, top: nat, steps: seq<Step>, id: Id)
    requires Walked(start, top, steps) && Ended(start, steps).done
    requires id in start && Untouched(steps, id)
    ensures Summarize(start, id) in Ended(start, steps).seen
  {
    WalkedInv(start, top, steps);
    UntouchedStays(Walk(start, "", [], false), steps, id);
    var w := Ended(start, steps);
    assert !Unseen(w.table, top, w.seen, id);
    var i :| 0 <= i < |w.seen| && w.seen[i].key.id == id;
    assert w.seen[i] == Summarize(start, id);
  }

  function PageSteps(steps: seq<Step>): nat {
    if steps == [] then 0 else (if steps[0].Page? then 1 else 0) + PageSteps(steps[1..])
  }

  lemma {:induction false} EveryPageAdds(w: Walk, steps: seq<Step>)
    requires Legal(w, steps)
    ensures w.done ==> Exec(w, steps).done && PageSteps(steps) == 0
    ensures |Exec(w, steps).seen| + (if Exec(w, steps).done && !w.done then 1 else 0)
         >= |w.seen| + PageSteps(steps)
    decreases |steps|
  {
    if steps != [] {
      EveryPageAdds(Apply(w, steps[0]), steps[1..]);
    }
  }

  /** Whatever else happens, a walk takes at most one page more than the
      directory had threads when it began. */
  lemma WalkEnds(start: Table, top: nat, steps: seq<Step>)
    requires Walked(start, top, steps)
    ensures PageSteps(steps) <= |start| + 1
  {
    NothingTwice(start, top, steps);
    EveryPageAdds(Walk(start, "", [], false), steps);
    var seen := Ended(start, steps).seen;
    DistinctWithin(seq(|seen|, i requires 0 <= i < |seen| => seen[i].key.id), start.Keys);
  }
}
