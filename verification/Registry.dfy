/**
 The registry's table, its methods, and the directory listing built on them.
 */
module Registry {

  import opened Basics
  import opened Cursor
  import opened Directory

  datatype Published = ThreadUpdated(row: Summary) | ThreadDeleted(id: Id)

  datatype Listing = Page(threads: seq<Summary>, next: Option<string>) | Invalid | Unread

  /** Picks the newest of some rows. */
  method Newest(table: Table, ids: set<Id>) returns (id: Id)
    requires ValidTable(table) && ids != {} && ids <= table.Keys
    ensures id in ids
    ensures forall other <- ids :: other != id ==> Before(Key(table, other), Key(table, id))
  {
    id :| id in ids;
    var rest := ids - {id};
    while rest != {}
      invariant id in ids && rest <= ids && id !in rest
      invariant forall other <- ids - rest :: other != id ==> Before(Key(table, other), Key(table, id))
      decreases |rest|
    {
      var next :| next in rest;
      BeforeTotal(Key(table, next), Key(table, id));
      if Before(Key(table, id), Key(table, next)) {
        forall other | other in ids - rest && other != id
          ensures Before(Key(table, other), Key(table, next))
        {
          BeforeTransitive(Key(table, other), Key(table, id), Key(table, next));
        }
        id := next;
      }
      rest := rest - {next};
    }
  }

  /** The newest rows past the cursor so far, and those left below them. */
  ghost predicate Newer(t: Table, cursor: Option<Keyset>, rows: seq<Summary>, left: set<Id>) {
    && Rows(t, cursor, rows) && Descending(rows) && left == Remaining(t, cursor) - Ids(rows)
    && forall id <- left :: forall i | 0 <= i < |rows| :: Before(Key(t, id), rows[i].key)
  }

  lemma NextNewest(t: Table, cursor: Option<Keyset>, rows: seq<Summary>, left: set<Id>, id: Id)
    requires Newer(t, cursor, rows, left) && id in left
    requires forall other <- left :: other != id ==> Before(Key(t, other), Key(t, id))
    ensures Newer(t, cursor, rows + [Summarize(t, id)], left - {id})
  {
    var row := Summarize(t, id);
    IdsJoin(rows, [row]);
    assert Ids([row]) == {id} by {
      assert [row][0].key.id == id;
    }
  }

  lemma NewerIsPage(t: Table, cursor: Option<Keyset>, count: nat, rows: seq<Summary>, left: set<Id>)
    requires Newer(t, cursor, rows, left) && |rows| <= count && (left != {} ==> |rows| == count)
    ensures IsPage(t, cursor, count, rows, left != {})
  {
    forall id ensures Listed(t, cursor, id) && id !in Ids(rows) <==> id in left {
    }
    if left != {} {
      var id :| id in left;
      assert Listed(t, cursor, id) && id !in Ids(rows);
    }
  }

  /** A page with a row more than was asked for, cut, is the page asked for. */
  lemma PageCut(t: Table, cursor: Option<Keyset>, limit: nat, rows: seq<Summary>, more: bool)
    requires IsPage(t, cursor, limit + 1, rows, more)
    ensures IsPage(t, cursor, limit, if |rows| > limit then rows[..limit] else rows, |rows| > limit)
  {
    if |rows| > limit {
      var page, extra := rows[..limit], rows[limit];
      FreshAtPlace(t, cursor, rows, limit);
      assert Listed(t, cursor, extra.key.id) && extra.key.id !in Ids(page);
      assert rows == page + [extra];
      IdsJoin(page, [extra]);
      forall id | Listed(t, cursor, id) && id !in Ids(page)
        ensures forall i | 0 <= i < |page| :: Before(Key(t, id), page[i].key)
      {
        if id in Ids(rows) {
          assert id in Ids([extra]);
          assert Key(t, id) == extra.key;
        }
      }
    }
  }

  class Registry {
    var table: Table
    /** Whom rows are published to. */
    var published: seq<Published>

    constructor ()
      ensures table == map[] && published == []
    {
      table, published := map[], [];
    }

    method Put(id: Id, at: Stamp, record: Record)
      modifies this
      ensures table == PutRow(old(table), id, at, record)
      ensures published == old(published) + [ThreadUpdated(Summary(Keyset(at, id), record))]
    {
      table := table[id := Row(at, record)];
      published := published + [ThreadUpdated(Summarize(table, id))];
    }

    /** The read-modify-write of one record; an unknown thread is left alone. */
    method Apply(id: Id, at: Stamp, mutate: Record -> Record) returns (ok: bool)
      modifies this`table
      ensures ok == (id in old(table))
      ensures table == if ok then UpdateRow(old(table), id, at, mutate(old(table)[id].record)) else old(table)
    {
      ok := id in table;
      if ok {
        var row := table[id];
        table := table[id := Row(at, mutate(row.record))];
      }
    }

    method Update(id: Id, at: Stamp, mutate: Record -> Record)
      modifies this
      ensures id in old(table) ==>
                && table == UpdateRow(old(table), id, at, mutate(old(table)[id].record))
                && published == old(published) + [ThreadUpdated(Summary(Keyset(at, id), mutate(old(table)[id].record)))]
      ensures id !in old(table) ==> table == old(table) && published == old(published)
    {
      var ok := Apply(id, at, mutate);
      if ok {
        published := published + [ThreadUpdated(Summarize(table, id))];
      }
    }

    /** Lifts a thread to the top of the directory and changes nothing else. */
    method Touch(id: Id, at: Stamp)
      modifies this
      ensures table == TouchRow(old(table), id, at)
      ensures published == old(published) + if id in old(table) then [ThreadUpdated(Summarize(table, id))] else []
    {
      Update(id, at, record => record);
    }

    method Remove(id: Id)
      modifies this
      ensures table == RemoveRow(old(table), id)
      ensures published == old(published) + if id in old(table) then [ThreadDeleted(id)] else []
    {
      if id in table {
        table := table - {id};
        published := published + [ThreadDeleted(id)];
      } else {
        assert table - {id} == table;
      }
    }

    /** The newest `count` rows past the cursor, newest first. */
    method Query(cursor: Option<Keyset>, count: nat) returns (records: seq<Summary>)
      requires ValidTable(table)
      ensures exists more :: IsPage(table, cursor, count, records, more)
    {
      var left := Remaining(table, cursor);
      records := [];
      while |records| < count && left != {}
        invariant |records| <= count && Newer(table, cursor, records, left)
        decreases |left|
      {
        var id := Newest(table, left);
        NextNewest(table, cursor, records, left, id);
        records, left := records + [Summarize(table, id)], left - {id};
      }
      NewerIsPage(table, cursor, count, records, left);
    }

    /** Rows strictly before the cursor, and whether older ones exist, from one
        query for one row more than the page holds. */
    method Page(cursor: Option<Keyset>, limit: nat) returns (out: seq<Summary>, hasMore: bool)
      requires ValidTable(table)
      ensures IsPage(table, cursor, limit, out, hasMore)
    {
      out := Query(cursor, limit + 1);
      ghost var more :| IsPage(table, cursor, limit + 1, out, more);
      PageCut(table, cursor, limit, out, more);
      hasMore := |out| > limit;
      if hasMore {
        out := out[..limit];
      }
    }

    /** One page of the directory for a cursor as a client sends it. */
    method ListThreads(cursor: string, limit: nat) returns (r: Listing)
      requires ValidTable(table)
      ensures match Asked(cursor)
        case Refused => r == Invalid
        case Foreign => r == Unread
        case From(from) =>
          && r.Page?
          && exists more :: IsPage(table, from, limit, r.threads, more) && r.next == NextCursor(r.threads, more)
    {
      var keyset: Option<Keyset> := None;
      if cursor != "" {
        match ParseKeyset(cursor) {
          case CursorInvalid => return Invalid;
          case Elsewhere(_, _) => return Unread;
          case At(k) => keyset := Some(k);
        }
      }
      var threads, hasMore := Page(keyset, limit);
      var next: Option<string> := None;
      if hasMore && |threads| > 0 {
        next := Some(Encode(threads[|threads| - 1].key));
      }
      return Listing.Page(threads, next);
    }
  }
}
