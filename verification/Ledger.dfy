/** The event ledger and its outbox: for every run the outbox holds exactly one row per
    event, in order. */
module Ledger {
  import opened Prelude
  import opened Tables
  import opened Kernel

  /** The sequence numbers published for one run. */
  function Published(outbox: seq<OutboxRow>, r: RunId): seq<nat>
  {
    if outbox == [] then []
    else
      var n := |outbox| - 1;
      Published(outbox[..n], r) + (if outbox[n].run == r then [outbox[n].seqNo] else [])
  }

  /** The numbers 1..n. */
  function UpTo(n: nat): (s: seq<nat>)
    ensures |s| == n && forall i :: 0 <= i < n ==> s[i] == i + 1
  {
    seq(n, i requires 0 <= i < n => i + 1)
  }

  ghost predicate OutboxOk(db: Db)
  {
    && (forall i :: 0 <= i < |db.outbox| ==> db.outbox[i].run < |db.runs|)
    && (forall r :: 0 <= r < |db.runs| ==> Published(db.outbox, r) == UpTo(db.runs[r].lastEventSeq))
  }

  lemma PublishedExtended(outbox: seq<OutboxRow>, row: OutboxRow, r: RunId)
    ensures Published(outbox + [row], r) == Published(outbox, r) + (if row.run == r then [row.seqNo] else [])
  {
    assert (outbox + [row])[..|outbox|] == outbox;
  }

  lemma {:induction false} PublishedNone(outbox: seq<OutboxRow>, r: RunId)
    requires forall i :: 0 <= i < |outbox| ==> outbox[i].run != r
    ensures Published(outbox, r) == []
  {
    if outbox != [] {
      PublishedNone(outbox[..|outbox| - 1], r);
    }
  }

  /** Logging one event on run r publishes exactly its number. */
  lemma OutboxLogged(db: Db, db': Db, r: RunId)
    requires OutboxOk(db) && r < |db.runs|
    requires |db'.runs| == |db.runs| && db'.runs == db.runs[r := db'.runs[r]]
    requires db'.runs[r].lastEventSeq == db.runs[r].lastEventSeq + 1
    requires db'.outbox == db.outbox + [OutboxRow(r, db.runs[r].lastEventSeq + 1)]
    ensures OutboxOk(db')
  {
    forall q | 0 <= q < |db'.runs|
      ensures Published(db'.outbox, q) == UpTo(db'.runs[q].lastEventSeq)
    {
      PublishedExtended(db.outbox, OutboxRow(r, db.runs[r].lastEventSeq + 1), q);
    }
  }

  lemma OutboxNewRun(db: Db, db': Db)
    requires OutboxOk(db)
    requires |db'.runs| == |db.runs| + 1 && db'.runs[..|db.runs|] == db.runs
    requires db'.runs[|db.runs|].lastEventSeq == 0 && db'.outbox == db.outbox
    ensures OutboxOk(db')
  {
    forall q | 0 <= q < |db'.runs|
      ensures Published(db'.outbox, q) == UpTo(db'.runs[q].lastEventSeq)
    {
      if q < |db.runs| {
        assert db'.runs[q] == db'.runs[..|db.runs|][q] == db.runs[q];
      } else {
        PublishedNone(db.outbox, q);
      }
    }
  }

  /** The exporter's scan for a gap in the history. */
  method ExportHistory(events: seq<Event>) returns (gapAt: Option<nat>)
    ensures gapAt.None? <==> forall i :: 0 <= i < |events| ==> events[i].seqNo == i + 1
    ensures gapAt.Some? ==> gapAt.value < |events| && events[gapAt.value].seqNo != gapAt.value + 1
                            && forall i :: 0 <= i < gapAt.value ==> events[i].seqNo == i + 1
  {
    for i := 0 to |events|
      invariant forall j :: 0 <= j < i ==> events[j].seqNo == j + 1
    {
      if events[i].seqNo != i + 1 {
        return Some(i);
      }
    }
    return None;
  }
}
