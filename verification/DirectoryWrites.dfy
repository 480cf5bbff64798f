/**
 What writes leave in the directory's table, and that a walk can always ask for its
 next page.
 */
module DirectoryWrites {

  import opened Basics
  import opened Cursor
  import opened Directory
  import opened Registry

  // ------------------------------------------------------------- last writes

  lemma {:induction false} RunsOn(w: Walk, a: seq<Step>, b: seq<Step>)
    ensures Exec(w, a + b) == Exec(Exec(w, a), b)
    decreases |a|
  {
    if a == [] {
      assert a + b == b;
    } else {
      assert (a + b)[1..] == a[1..] + b;
      RunsOn(Apply(w, a[0]), a[1..], b);
    }
  }

  /** Whatever pages are read and other threads written meanwhile, the row of a thread is
      what the last write to it made it: a put, the row put; a removal, none; an update
      or a touch, the new stamp with the record given or the one there was, and nothing
      where there was no row. */
  lemma LastWriteStands(w: Walk, before: seq<Step>, last: Step, after: seq<Step>, id: Id)
    requires Touches(last, id) && Untouched(after, id)
    ensures var was, now := Exec(w, before).table, Exec(w, before + [last] + after).table;
      match last
      case Put(_, at, record) => id in now && now[id].at == at && now[id].record == record
      case Remove(_) => id !in now
      case Update(_, at, record) =>
        (id in now <==> id in was) && (id in now ==> now[id].at == at && now[id].record == record)
      case Touch(_, at) =>
        (id in now <==> id in was) && (id in now ==> now[id].at == at && now[id].record == was[id].record)
      case _ => false
  {
    RunsOn(w, before + [last], after);
    RunsOn(w, before, [last]);
    assert [last][1..] == [];
    UntouchedStays(Apply(Exec(w, before), last), after, id);
  }

  // ------------------------------------------------------- there is a page

  lemma {:induction false} NewestOf(t: Table, ids: set<Id>) returns (id: Id)
    requires ValidTable(t) && ids != {} && ids <= t.Keys
    ensures id in ids && forall other <- ids :: other != id ==> Before(Key(t, other), Key(t, id))
    decreases |ids|
  {
    id :| id in ids;
    var rest := ids - {id};
    if rest != {} {
      var next := NewestOf(t, rest);
      BeforeTotal(Key(t, next), Key(t, id));
      if Before(Key(t, id), Key(t, next)) {
        id := next;
      } else {
        forall other | other in rest && other != next ensures Before(Key(t, other), Key(t, id)) {
          BeforeTransitive(Key(t, other), Key(t, next), Key(t, id));
        }
      }
    }
  }

  lemma {:induction false} RowsExist(t: Table, cursor: Option<Keyset>, count: nat)
    returns (rows: seq<Summary>, left: set<Id>)
    requires ValidTable(t)
    ensures Newer(t, cursor, rows, left) && |rows| <= count && (left != {} ==> |rows| == count)
  {
    if count == 0 {
      rows, left := [], Remaining(t, cursor);
    } else {
      rows, left := RowsExist(t, cursor, count - 1);
      if left != {} {
        var id := NewestOf(t, left);
        NextNewest(t, cursor, rows, left, id);
        rows, left := rows + [Summarize(t, id)], left - {id};
      }
    }
  }

  /** Every table has its page, past any cursor and of any length. */
  lemma PageExists(t: Table, cursor: Option<Keyset>, limit: nat) returns (page: seq<Summary>, more: bool)
    requires ValidTable(t)
    ensures IsPage(t, cursor, limit, page, more)
  {
    var left;
    page, left := RowsExist(t, cursor, limit);
    NewerIsPage(t, cursor, limit, page, left);
    more := left != {};
  }

  /** With no cursor the first page is asked for, of the whole table. */
  lemma WalkBegins(t: Table, limit: nat) returns (page: seq<Summary>, more: bool)
    requires ValidTable(t) && limit >= 1
    ensures Enabled(Walk(t, "", [], false), Step.Page(limit, page, more))
    ensures |page| == limit || Ids(page) == t.Keys
  {
    page, more := PageExists(t, None, limit);
    forall id | id in t && !more ensures id in Ids(page) {
      assert Listed(t, None, id);
    }
    assert !more ==> Ids(page) == t.Keys;
  }

  /** A walk that is not at its end can ask for another page, of any length, whatever was
      written meanwhile. */
  lemma WalkGoesOn(start: Table, top: nat, steps: seq<Step>, limit: nat) returns (page: seq<Summary>, more: bool)
    requires Walked(start, top, steps) && !Ended(start, steps).done && limit >= 1
    ensures Enabled(Ended(start, steps), Step.Page(limit, page, more))
  {
    WalkedInv(start, top, steps);
    var w := Ended(start, steps);
    AsksBelowLast(start, top, w);
    page, more := PageExists(w.table, Asked(w.cursor).cursor, limit);
  }
}
