/**
 * What the server sends on a logical-replication connection: whole transactions in commit order, each
 * as a Begin, its inserts, and a Commit that carries its end LSN.
 */
module Server {
  import opened Basics
  import opened Rows
  import opened Session

  /** A transaction of the publication: its commit end LSN and the rows its inserts decode to. */
  datatype Tx = Tx(commit: Lsn, rows: seq<ParsedInsert>)

  ghost predicate Ordered(wal: seq<Tx>) {
    forall i, j :: 0 <= i < j < |wal| ==> wal[i].commit < wal[j].commit
  }

  /** The next message a session is due: message 0 of a transaction is its Begin, then its rows, then its Commit. */
  datatype Feed = Feed(tx: nat, msg: nat)

  ghost predicate ValidFeed(wal: seq<Tx>, f: Feed) {
    f.tx <= |wal| && f.msg <= (if f.tx < |wal| then |wal[f.tx].rows| + 1 else 0)
  }

  /** The row at (t, k) has been sent before f. */
  predicate Sent(f: Feed, t: nat, k: nat) {
    t < f.tx || (t == f.tx && k + 1 < f.msg)
  }

  predicate IsRow(wal: seq<Tx>, f: Feed)
    requires f.tx < |wal|
  {
    0 < f.msg <= |wal[f.tx].rows|
  }

  function Advance(wal: seq<Tx>, f: Feed): Feed
    requires f.tx < |wal|
  {
    if f.msg <= |wal[f.tx].rows| then Feed(f.tx, f.msg + 1) else Feed(f.tx + 1, 0)
  }

  function Decoded(wal: seq<Tx>, f: Feed): Event
    requires f.tx < |wal|
  {
    if f.msg == 0 then Begin
    else if f.msg <= |wal[f.tx].rows| then Insert(Some(wal[f.tx].rows[f.msg - 1]))
    else Commit(wal[f.tx].commit)
  }

  /** A message that is lost on the way in does not decode, or is an insert that yields no job. */
  predicate Delivers(wal: seq<Tx>, f: Feed, e: Event, lost: bool)
    requires f.tx < |wal|
  {
    if lost then e == Nothing || (e == Insert(None) && IsRow(wal, f)) else e == Decoded(wal, f)
  }

  /** A start at an LSN is answered with exactly the transactions that commit after it. */
  function FirstAfter(wal: seq<Tx>, lsn: Lsn): (t: nat)
    ensures t <= |wal|
    ensures Ordered(wal) ==> forall i :: 0 <= i < |wal| ==> (i < t <==> wal[i].commit <= lsn)
  {
    if wal == [] then 0
    else
      var last := |wal| - 1;
      if wal[last].commit <= lsn then |wal| else FirstAfter(wal[..last], lsn)
  }

  function Inserts(rows: seq<ParsedInsert>): seq<Event> {
    if rows == [] then [] else Inserts(rows[..|rows| - 1]) + [Insert(Some(rows[|rows| - 1]))]
  }

  /** The messages of one transaction when each of them decodes. */
  function EventsOf(tx: Tx): seq<Event> {
    [Begin] + Inserts(tx.rows) + [Commit(tx.commit)]
  }

  function AllEvents(txs: seq<Tx>): seq<Event> {
    if txs == [] then [] else AllEvents(txs[..|txs| - 1]) + EventsOf(txs[|txs| - 1])
  }
}
