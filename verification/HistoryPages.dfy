/**
 What the two transcript readers share: entries under the ids they page by, and
 the place a cursor names.
 */
module HistoryPages {

  import opened Transcript

  /** An entry of the transcript under the id of the line it came from. */
  datatype Keyed = Keyed(id: string, entry: Event)

  /** The server lets a page hold at least one entry. */
  type Limit = n: int | n >= 1 witness 1

  /** The first entry under an id, or the length. */
  function IndexOf(entries: seq<Keyed>, id: string): (at: nat)
    ensures at <= |entries|
    ensures at < |entries| ==> entries[at].id == id
    ensures forall k | 0 <= k < at :: entries[k].id != id
  {
    if entries == [] || entries[0].id == id then 0 else 1 + IndexOf(entries[1..], id)
  }

  function Events(entries: seq<Keyed>): (r: seq<Event>)
    ensures |r| == |entries| && forall i | 0 <= i < |r| :: r[i] == entries[i].entry
  {
    if entries == [] then [] else [entries[0].entry] + Events(entries[1..])
  }

  method Find(entries: seq<Keyed>, id: string) returns (at: nat)
    ensures at == IndexOf(entries, id)
  {
    at := 0;
    while at < |entries| && entries[at].id != id
      invariant at <= |entries| && forall k | 0 <= k < at :: entries[k].id != id
    {
      at := at + 1;
    }
  }
}
