/** Inbound session events: gapless received numbers, one row per source event, one run per
    dispatched event, and the exact condition for dispatch in received order. */
module InboundEvents {
  import opened Prelude
  import opened RunStates
  import opened Tables
  import opened Kernel
  import opened Admissions
  import opened Sessions
  import opened Evolution
  import opened Ledger
  import opened Invariants
  import opened Transactions
  import opened SessionTransactions

  /** The received numbers of one session, in table order. */
  function ReceivedBy(inbound: seq<Inbound>, s: SessionId): seq<nat>
  {
    if inbound == [] then []
    else
      var n := |inbound| - 1;
      ReceivedBy(inbound[..n], s) + (if inbound[n].session == s then [inbound[n].receivedSeq] else [])
  }

  ghost predicate EventRowOk(db: Db, row: Inbound)
  {
    && row.session < |db.sessions|
    && row.source.tenant == db.sessions[row.session].tenant
    && match row.status
       case Pending => row.cls == FutureRun && db.sessions[row.session].state != SessionCancelled
       case Stale => row.cls == FutureRun
       case Consumed(r) => row.cls == CurrentRun && r < |db.runs|
       case Dispatched(r) =>
         && row.cls == FutureRun && r < |db.runs|
         && db.runs[r].session == Some(row.session) && db.runs[r].parent.None?
  }

  ghost predicate InboundOk(db: Db)
  {
    && (forall i :: 0 <= i < |db.inbound| ==> EventRowOk(db, db.inbound[i]))
    && (forall i, j :: 0 <= i < j < |db.inbound| ==> db.inbound[i].source != db.inbound[j].source)
    && (forall i, j :: 0 <= i < j < |db.inbound| && db.inbound[i].status.Dispatched? && db.inbound[j].status.Dispatched? ==>
          db.inbound[i].status.run != db.inbound[j].status.run)
    && (forall s :: 0 <= s < |db.sessions| ==> ReceivedBy(db.inbound, s) == UpTo(db.sessions[s].receivedSeq))
  }

  /** A step that neither receives nor settles inbound events, nor opens or closes sessions. */
  ghost predicate Quiet(db: Db, db': Db)
  {
    && db'.inbound == db.inbound
    && |db'.sessions| == |db.sessions|
    && forall s :: 0 <= s < |db.sessions| ==>
         && db'.sessions[s].tenant == db.sessions[s].tenant
         && db'.sessions[s].receivedSeq == db.sessions[s].receivedSeq
         && (db'.sessions[s].state == SessionCancelled <==> db.sessions[s].state == SessionCancelled)
  }

  lemma QuietKeepsInbound(db: Db, db': Db)
    requires InboundOk(db) && Quiet(db, db') && Evolves(db, db')
    ensures InboundOk(db')
  {
    forall i | 0 <= i < |db'.inbound|
      ensures EventRowOk(db', db'.inbound[i])
    {
      assert EventRowOk(db, db.inbound[i]);
      if db.inbound[i].status.Dispatched? {
        var r := db.inbound[i].status.run;
        assert RowEvolves(db.runs[r], db'.runs[r], |db.attempts|);
      }
    }
  }

  lemma ReceivedExtended(inbound: seq<Inbound>, row: Inbound, s: SessionId)
    ensures ReceivedBy(inbound + [row], s) ==
            ReceivedBy(inbound, s) + (if row.session == s then [row.receivedSeq] else [])
  {
    assert (inbound + [row])[..|inbound|] == inbound;
  }

  lemma {:induction false} ReceivedNone(inbound: seq<Inbound>, s: SessionId)
    requires forall i :: 0 <= i < |inbound| ==> inbound[i].session != s
    ensures ReceivedBy(inbound, s) == []
  {
    if inbound != [] {
      ReceivedNone(inbound[..|inbound| - 1], s);
    }
  }

  /** Rewriting rows without touching session or number leaves the numbering alone. */
  lemma {:induction false} ReceivedRewritten(inbound: seq<Inbound>, rewritten: seq<Inbound>, s: SessionId)
    requires |inbound| == |rewritten|
    requires forall i :: 0 <= i < |inbound| ==>
               rewritten[i].session == inbound[i].session && rewritten[i].receivedSeq == inbound[i].receivedSeq
    ensures ReceivedBy(rewritten, s) == ReceivedBy(inbound, s)
  {
    if inbound != [] {
      var n := |inbound| - 1;
      ReceivedRewritten(inbound[..n], rewritten[..n], s);
    }
  }

  lemma EventRowKept(db: Db, db': Db, row: Inbound)
    requires EventRowOk(db, row) && Evolves(db, db') && |db'.sessions| == |db.sessions|
    requires db'.sessions[row.session].tenant == db.sessions[row.session].tenant
    requires db'.sessions[row.session].state == SessionCancelled ==> db.sessions[row.session].state == SessionCancelled
    ensures EventRowOk(db', row)
  {
    if row.status.Dispatched? {
      assert RowEvolves(db.runs[row.status.run], db'.runs[row.status.run], |db.attempts|);
    }
  }

  lemma UpToNext(n: nat)
    ensures UpTo(n + 1) == UpTo(n) + [n + 1]
  {
  }

  /** Adding an accepted event with the session's next number. */
  lemma InboundReceived(db: Db, db': Db, row: Inbound)
    requires InboundOk(db) && Evolves(db, db')
    requires db'.inbound == db.inbound + [row] && |db'.sessions| == |db.sessions|
    requires row.session < |db.sessions| && row.receivedSeq == db.sessions[row.session].receivedSeq + 1
    requires forall s :: 0 <= s < |db.sessions| ==>
               && db'.sessions[s].tenant == db.sessions[s].tenant
               && db'.sessions[s].receivedSeq == db.sessions[s].receivedSeq + (if s == row.session then 1 else 0)
               && (db'.sessions[s].state == SessionCancelled <==> db.sessions[s].state == SessionCancelled)
    requires forall i :: 0 <= i < |db.inbound| ==> db.inbound[i].source != row.source
    requires EventRowOk(db', row) && !row.status.Dispatched?
    ensures InboundOk(db')
  {
    hide EventRowOk, Evolves, ReceivedBy, UpTo;
    forall i | 0 <= i < |db'.inbound|
      ensures EventRowOk(db', db'.inbound[i])
    {
      if i < |db.inbound| {
        RowSession(db, db.inbound[i]);
        EventRowKept(db, db', db.inbound[i]);
      }
    }
    forall s | 0 <= s < |db'.sessions|
      ensures ReceivedBy(db'.inbound, s) == UpTo(db'.sessions[s].receivedSeq)
    {
      ReceivedExtended(db.inbound, row, s);
      UpToNext(db.sessions[s].receivedSeq);
    }
  }

  lemma RowSession(db: Db, row: Inbound)
    requires EventRowOk(db, row)
    ensures row.session < |db.sessions|
  {
  }

  /** What accepting a new event adds and counts. */
  lemma ReceivedShape(db: Db, input: InboundInput)
    requires ReceiveEvent(db, input).Ok? && !ReceiveEvent(db, input).value.replayed
    ensures var db' := ReceiveEvent(db, input).value.db;
            && |db'.inbound| == |db.inbound| + 1 && |db'.sessions| == |db.sessions|
            && var row := db'.inbound[|db.inbound|];
            && db'.inbound == db.inbound + [row]
            && row.session < |db.sessions| && row.receivedSeq == db.sessions[row.session].receivedSeq + 1
            && (forall s :: 0 <= s < |db.sessions| ==>
                  && db'.sessions[s].tenant == db.sessions[s].tenant
                  && db'.sessions[s].receivedSeq == db.sessions[s].receivedSeq + (if s == row.session then 1 else 0)
                  && (db'.sessions[s].state == SessionCancelled <==> db.sessions[s].state == SessionCancelled))
            && (forall i :: 0 <= i < |db.inbound| ==> db.inbound[i].source != row.source)
            && EventRowOk(db', row) && !row.status.Dispatched?
  {
    hide Moved;
  }

  lemma ReceiveInbound(db: Db, input: InboundInput)
    requires Inv(db) && InboundOk(db) && ReceiveEvent(db, input).Ok?
    ensures InboundOk(ReceiveEvent(db, input).value.db)
  {
    var received := ReceiveEvent(db, input).value;
    if received.replayed {
      assert received.db == db;
    } else {
      ReceiveKeeps(db, input);
      ReceivedShape(db, input);
      hide Inv, ReceiveEvent, Evolves, EventRowOk;
      InboundReceived(db, received.db, received.db.inbound[|db.inbound|]);
    }
  }

  /** Receipts are immutable and settled rows stay settled. */
  ghost predicate ReceiptsKept(db: Db, db': Db)
  {
    && |db.inbound| <= |db'.inbound|
    && forall i :: 0 <= i < |db.inbound| ==>
         var o, n := db.inbound[i], db'.inbound[i];
         && n.session == o.session && n.source == o.source && n.digest == o.digest
         && n.receivedSeq == o.receivedSeq && n.cls == o.cls
         && (o.status != Pending ==> n.status == o.status)
  }

  /** Once a source event has a row, every later delivery of it returns that row, or conflicts
      when its payload differs; it is never accepted again. */
  lemma AcceptedOnce(db: Db, k: InboundId, db': Db, input: InboundInput)
    requires k < |db.inbound| && ReceiptsKept(db, db') && InboundOk(db')
    requires input.source == db.inbound[k].source
    requires input.session < |db'.sessions| && db'.sessions[input.session].tenant == input.source.tenant
    ensures ReceiveEvent(db', input) ==
            (if input.digest == db.inbound[k].digest then Ok(Received(db', k, true)) else Err(EventConflict))
  {
    assert Matches(db'.inbound[k], input.source);
    assert FindSource(db'.inbound, input.source) == k;
  }

  // --------------------------------------------------------------------- dispatch

  lemma DispatchedRow(db: Db, s: SessionId, at: nat)
    requires Inv(db) && InboundOk(db) && DispatchNext(db, s, at).Ok?
    ensures InboundOk(DispatchNext(db, s, at).value)
  {
    hide Inv, Evolves, CreateRun;
    var db' := DispatchNext(db, s, at).value;
    var k := NextDispatch(db.inbound, s, at);
    DispatchKeeps(db, s, at);
    CreateRunShape(db, DispatchInput(db, s));
    assert EventRowOk(db, db.inbound[k]);
    DispatchSettles(db, db', k);
    RewriteInbound(db, db');
  }

  lemma PostponeInbound(db: Db, s: SessionId, until: nat)
    requires Inv(db) && InboundOk(db)
    ensures InboundOk(PostponeQueue(db, s, until)) && ReceiptsKept(db, PostponeQueue(db, s, until))
  {
    hide Inv, Evolves;
    var db' := PostponeQueue(db, s, until);
    PostponeKeeps(db, s, until);
    assert forall i :: 0 <= i < |db.inbound| ==> RowSettles(db, db', i);
    assert forall i :: 0 <= i < |db.inbound| ==> !FreshlyDispatched(db, db', i);
    forall i | 0 <= i < |db.inbound|
      ensures EventRowOk(db, db.inbound[i])
    {
    }
    RewriteInbound(db, db');
  }

  lemma DispatchSettles(db: Db, db': Db, k: nat)
    requires k < |db.inbound| && db.inbound[k].status == Pending
    requires |db'.runs| == |db.runs| + 1
    requires db'.runs[|db.runs|].session == Some(db.inbound[k].session) && db'.runs[|db.runs|].parent.None?
    requires db'.inbound == db.inbound[k := db.inbound[k].(status := Dispatched(|db.runs|))]
    ensures forall i :: 0 <= i < |db.inbound| ==> RowSettles(db, db', i)
    ensures forall i, j :: 0 <= i < j < |db.inbound| ==> !(FreshlyDispatched(db, db', i) && FreshlyDispatched(db, db', j))
  {
  }

  /** Settling pending events one way keeps the table sound. */
  lemma RewriteInbound(db: Db, db': Db)
    requires InboundOk(db) && Evolves(db, db') && |db'.inbound| == |db.inbound|
    requires |db'.sessions| == |db.sessions|
    requires forall s :: 0 <= s < |db.sessions| ==>
               && db'.sessions[s].tenant == db.sessions[s].tenant
               && db'.sessions[s].receivedSeq == db.sessions[s].receivedSeq
    requires forall i :: 0 <= i < |db.inbound| ==> RowSettles(db, db', i)
    requires forall i, j :: 0 <= i < j < |db.inbound| ==>
               !(FreshlyDispatched(db, db', i) && FreshlyDispatched(db, db', j))
    requires forall s :: 0 <= s < |db.sessions| && db'.sessions[s].state == SessionCancelled ==>
               db.sessions[s].state == SessionCancelled
               || forall i :: 0 <= i < |db'.inbound| && db'.inbound[i].session == s ==> db'.inbound[i].status != Pending
    ensures InboundOk(db')
  {
    forall i | 0 <= i < |db'.inbound|
      ensures EventRowOk(db', db'.inbound[i])
    {
      assert EventRowOk(db, db.inbound[i]) && RowSettles(db, db', i);
      if db.inbound[i].status.Dispatched? {
        var r := db.inbound[i].status.run;
        assert RowEvolves(db.runs[r], db'.runs[r], |db.attempts|);
      }
    }
    forall i, j | 0 <= i < j < |db'.inbound| && db'.inbound[i].status.Dispatched? && db'.inbound[j].status.Dispatched?
      ensures db'.inbound[i].status.run != db'.inbound[j].status.run
    {
      assert RowSettles(db, db', i) && RowSettles(db, db', j);
      assert EventRowOk(db, db.inbound[i]) && EventRowOk(db, db.inbound[j]);
      assert !(FreshlyDispatched(db, db', i) && FreshlyDispatched(db, db', j));
    }
    forall i, j | 0 <= i < j < |db'.inbound|
      ensures db'.inbound[i].source != db'.inbound[j].source
    {
      assert RowSettles(db, db', i) && RowSettles(db, db', j);
    }
    forall s | 0 <= s < |db'.sessions|
      ensures ReceivedBy(db'.inbound, s) == UpTo(db'.sessions[s].receivedSeq)
    {
      forall i | 0 <= i < |db.inbound|
        ensures db'.inbound[i].session == db.inbound[i].session && db'.inbound[i].receivedSeq == db.inbound[i].receivedSeq
      {
        assert RowSettles(db, db', i);
      }
      ReceivedRewritten(db.inbound, db'.inbound, s);
    }
  }

  ghost predicate FreshlyDispatched(db: Db, db': Db, i: nat)
  {
    i < |db.inbound| && i < |db'.inbound| && db.inbound[i].status == Pending && db'.inbound[i].status.Dispatched?
  }

  /** The lifecycle of one row: its receipt is immutable; only a pending row settles, to a run
      created in this step or to STALE. */
  ghost predicate RowSettles(db: Db, db': Db, i: nat)
    requires i < |db.inbound| && i < |db'.inbound|
  {
    var o, n := db.inbound[i], db'.inbound[i];
    && n.session == o.session && n.source == o.source && n.digest == o.digest
    && n.receivedSeq == o.receivedSeq && n.cls == o.cls
    && (o.status != Pending ==> n.status == o.status)
    && (o.status == Pending ==>
          match n.status
          case Pending => true
          case Stale => true
          case Consumed(_) => false
          case Dispatched(r) =>
            |db.runs| <= r < |db'.runs| && db'.runs[r].session == Some(o.session) && db'.runs[r].parent.None?)
  }

  lemma StaleSettles(db: Db, db': Db, s: SessionId)
    requires |db'.inbound| == |db.inbound|
    requires forall i :: 0 <= i < |db.inbound| ==> db'.inbound[i] == Staled(db.inbound[i], s)
    ensures forall i :: 0 <= i < |db.inbound| ==> RowSettles(db, db', i)
    ensures forall i :: 0 <= i < |db.inbound| ==> !FreshlyDispatched(db, db', i)
  {
  }

  /** Cancelling leaves the receipt counters alone and cancels this session only. */
  lemma CancelledShape(db: Db, s: SessionId)
    requires CancelSession(db, s).Ok? && !IsClosed(db.sessions[s].state)
    ensures var db' := CancelSession(db, s).value;
            && |db'.sessions| == |db.sessions| && |db'.inbound| == |db.inbound|
            && (forall i :: 0 <= i < |db.inbound| ==> db'.inbound[i] == Staled(db.inbound[i], s))
            && forall t :: 0 <= t < |db.sessions| ==>
                 && db'.sessions[t].tenant == db.sessions[t].tenant
                 && db'.sessions[t].receivedSeq == db.sessions[t].receivedSeq
                 && (db'.sessions[t].state == SessionCancelled ==> t == s || db.sessions[t].state == SessionCancelled)
  {
    hide CancelEach;
    CancelEachQuiet(db, LiveRuns(db, s, false, |db.runs|) + LiveRuns(db, s, true, |db.runs|));
  }

  lemma CancelInbound(db: Db, s: SessionId)
    requires Inv(db) && InboundOk(db) && CancelSession(db, s).Ok?
    ensures InboundOk(CancelSession(db, s).value)
  {
    if !IsClosed(db.sessions[s].state) {
      var db' := CancelSession(db, s).value;
      CancelSessionKeeps(db, s);
      CancelledShape(db, s);
      hide Inv, Evolves, CancelSession;
      forall i | 0 <= i < |db.inbound|
        ensures EventRowOk(db, db.inbound[i])
      {
      }
      StaleSettles(db, db', s);
      RewriteInbound(db, db');
    }
  }

  lemma TransitionQuiet(db: Db, r: RunId, expectFrom: set<RunStatus>, to: RunStatus, kind: EventKind,
                        attempt: Option<AttemptId>, patch: CurrentPatch)
    requires TransitionRun(db, r, expectFrom, to, kind, attempt, patch).Ok?
    ensures Quiet(db, TransitionRun(db, r, expectFrom, to, kind, attempt, patch).value)
  {
  }

  lemma {:induction false} CancelEachQuiet(db: Db, rs: seq<RunId>)
    requires CancelEach(db, rs).Ok?
    ensures Quiet(db, CancelEach(db, rs).value)
    decreases |rs|
  {
    if rs != [] {
      var n := |rs| - 1;
      var before := CancelEach(db, rs[..n]).value;
      CancelEachQuiet(db, rs[..n]);
      var from := {before.runs[rs[n]].status};
      TransitionQuiet(before, rs[n], from, Cancelled, RunCancelled, None, KeepCurrent);
    }
  }

  // -------------------------------------------------------------- received order

  /** Later future-run events never overtake earlier ones. */
  ghost predicate InOrder(inbound: seq<Inbound>)
  {
    forall i, j :: 0 <= i < j < |inbound| && inbound[i].session == inbound[j].session
                   && inbound[i].cls == FutureRun && inbound[j].status.Dispatched? ==>
      && inbound[i].status != Pending
      && (inbound[i].status.Dispatched? ==> inbound[i].status.run < inbound[j].status.run)
  }

  /** The session's oldest waiting event has reached its dispatch time. */
  ghost predicate OldestReady(inbound: seq<Inbound>, s: SessionId, at: nat)
  {
    forall i :: 0 <= i < |inbound| && AwaitsDispatch(inbound[i], s)
                && (forall j :: 0 <= j < i ==> !AwaitsDispatch(inbound[j], s)) ==>
      inbound[i].dispatchAfter <= at
  }

  /** Starting the next event keeps received order exactly when the oldest waiting one is ready. */
  lemma OrderKeptIffOldestReady(db: Db, s: SessionId, at: nat)
    requires Inv(db) && InboundOk(db) && InOrder(db.inbound)
    requires DispatchNext(db, s, at).Ok?
    ensures InOrder(DispatchNext(db, s, at).value.inbound) <==> OldestReady(db.inbound, s, at)
  {
    hide Inv, CreateRun;
    var k := NextDispatch(db.inbound, s, at);
    var inbound' := DispatchNext(db, s, at).value.inbound;
    CreateRunShape(db, DispatchInput(db, s));
    assert inbound' == db.inbound[k := db.inbound[k].(status := Dispatched(|db.runs|))];
    if OldestReady(db.inbound, s, at) {
      NoneWaitsBefore(db.inbound, s, at, k);
      DispatchInOrder(db, s, k);
    } else {
      DispatchOvertakes(db.inbound, s, at, k, |db.runs|);
    }
  }

  lemma DispatchOvertakes(inbound: seq<Inbound>, s: SessionId, at: nat, k: nat, r: RunId)
    requires !OldestReady(inbound, s, at) && k == NextDispatch(inbound, s, at) < |inbound|
    ensures !InOrder(inbound[k := inbound[k].(status := Dispatched(r))])
  {
    var i :| 0 <= i < |inbound| && AwaitsDispatch(inbound[i], s) && inbound[i].dispatchAfter > at
             && (forall j :: 0 <= j < i ==> !AwaitsDispatch(inbound[j], s));
    var after := inbound[k := inbound[k].(status := Dispatched(r))];
    assert Dispatchable(inbound[k], s, at);
    assert i < k;
    assert after[i].status == Pending && after[k].status.Dispatched?;
  }

  lemma NoneWaitsBefore(inbound: seq<Inbound>, s: SessionId, at: nat, k: nat)
    requires OldestReady(inbound, s, at) && k == NextDispatch(inbound, s, at) < |inbound|
    ensures forall i :: 0 <= i < k ==> !AwaitsDispatch(inbound[i], s)
  {
    var i := 0;
    while i < k
      invariant 0 <= i <= k
      invariant forall j :: 0 <= j < i ==> !AwaitsDispatch(inbound[j], s)
    {
      assert !Dispatchable(inbound[i], s, at);
      i := i + 1;
    }
  }

  lemma DispatchInOrder(db: Db, s: SessionId, k: nat)
    requires InboundOk(db) && InOrder(db.inbound)
    requires k < |db.inbound| && AwaitsDispatch(db.inbound[k], s)
    requires forall i :: 0 <= i < k ==> !AwaitsDispatch(db.inbound[i], s)
    ensures InOrder(db.inbound[k := db.inbound[k].(status := Dispatched(|db.runs|))])
  {
    var inbound' := db.inbound[k := db.inbound[k].(status := Dispatched(|db.runs|))];
    forall i, j | 0 <= i < j < |inbound'| && inbound'[i].session == inbound'[j].session
                  && inbound'[i].cls == FutureRun && inbound'[j].status.Dispatched?
      ensures inbound'[i].status != Pending
      ensures inbound'[i].status.Dispatched? ==> inbound'[i].status.run < inbound'[j].status.run
    {
      assert EventRowOk(db, db.inbound[i]) && EventRowOk(db, db.inbound[j]);
    }
  }
}
