/** Session cancellation, event receipt and dispatch: the kernel invariant is kept, and
    inbound events are numbered without gaps, accepted once and started once. */
module SessionTransactions {
  import opened Prelude
  import opened RunStates
  import opened Tables
  import opened Kernel
  import opened Admissions
  import opened Sessions
  import opened Evolution
  import opened CapacityAccounting
  import opened SessionInvariants
  import opened Invariants
  import opened Transactions

  // --------------------------------------------------------------- cancellation

  lemma {:induction false} CancelEachKeeps(db: Db, rs: seq<RunId>)
    requires Inv(db) && CancelEach(db, rs).Ok?
    ensures Keeps(db, CancelEach(db, rs).value)
    ensures CancelShape(db, CancelEach(db, rs).value)
    ensures Ended(CancelEach(db, rs).value, rs)
    decreases |rs|
  {
    hide Inv, Evolves, CancelRun;
    if rs == [] {
      KeepsSame(db);
    } else {
      var n := |rs| - 1;
      var before := CancelEach(db, rs[..n]).value;
      CancelEachKeeps(db, rs[..n]);
      var db' := CancelEach(db, rs).value;
      CancelRunKeeps(before, rs[n]);
      CancelRunShape(before, rs[n]);
      EndedStays(before, db', rs[..n]);
      KeepsTransitive(db, before, db');
      assert rs == rs[..n] + [rs[n]];
    }
  }

  lemma CancelRunShape(db: Db, r: RunId)
    requires CancelRun(db, r).Ok?
    ensures r < |db.runs| && CancelShape(db, CancelRun(db, r).value)
  {
  }

  /** Cancelling creates nothing and leaves inbound events alone. */
  ghost predicate CancelShape(db: Db, db': Db)
  {
    |db'.runs| == |db.runs| && |db'.sessions| == |db.sessions| && db'.inbound == db.inbound
  }

  ghost predicate Ended(db: Db, rs: seq<RunId>)
  {
    forall r :: r in rs ==> r < |db.runs| && IsTerminal(db.runs[r].status)
  }

  lemma EndedStays(db: Db, db': Db, rs: seq<RunId>)
    requires Ended(db, rs) && Evolves(db, db')
    ensures Ended(db', rs)
  {
    forall r | r in rs
      ensures r < |db'.runs| && IsTerminal(db'.runs[r].status)
    {
      assert RowEvolves(db.runs[r], db'.runs[r], |db.attempts|);
    }
  }

  /** Fencing a session leaves none of its runs live. */
  lemma FenceEndsAll(db: Db, s: SessionId)
    requires Inv(db) && FenceSessionRuns(db, s).Ok?
    ensures var fenced := FenceSessionRuns(db, s).value;
            && Keeps(db, fenced) && |fenced.runs| == |db.runs| && |fenced.sessions| == |db.sessions|
            && fenced.inbound == db.inbound
            && forall r :: 0 <= r < |fenced.runs| && fenced.runs[r].session == Some(s) ==> IsTerminal(fenced.runs[r].status)
  {
    var rs := LiveRuns(db, s, false, |db.runs|) + LiveRuns(db, s, true, |db.runs|);
    CancelEachKeeps(db, rs);
    var fenced := FenceSessionRuns(db, s).value;
    forall r | 0 <= r < |fenced.runs| && fenced.runs[r].session == Some(s)
      ensures IsTerminal(fenced.runs[r].status)
    {
      assert RowEvolves(db.runs[r], fenced.runs[r], |db.attempts|);
      if !IsTerminal(db.runs[r].status) {
        assert LiveIn(db, s, r);
        assert r in LiveRuns(db, s, db.runs[r].parent.None?, |db.runs|);
        assert r in rs;
      }
    }
  }

  lemma CancelSessionKeeps(db: Db, s: SessionId)
    requires Inv(db) && CancelSession(db, s).Ok?
    ensures Keeps(db, CancelSession(db, s).value)
  {
    hide Inv, Evolves;
    if IsClosed(db.sessions[s].state) {
      KeepsSame(db);
    } else {
      var fenced := FenceSessionRuns(db, s).value;
      FenceEndsAll(db, s);
      var db' := CancelSession(db, s).value;
      CloseKeeps(fenced, s, db.sessions[s].current);
      var closed := fenced.(sessions := db'.sessions);
      KeepsTransitive(db, fenced, closed);
      InboundKeeps(closed, db'.inbound);
      KeepsTransitive(db, closed, db');
    }
  }

  lemma CloseKeeps(db: Db, s: SessionId, current: Option<RunId>)
    requires Inv(db) && s < |db.sessions|
    requires forall r :: 0 <= r < |db.runs| && db.runs[r].session == Some(s) ==> IsTerminal(db.runs[r].status)
    ensures Keeps(db, db.(sessions := db.sessions[s := db.sessions[s].(state := SessionCancelled, current := current)]))
  {
    var row := db.sessions[s].(state := SessionCancelled, current := current);
    SessionsClosed(db, s, current);
    SessionTableKeeps(db, db.sessions[s := row]);
  }

  /** Changing only the session table keeps everything else. */
  lemma SessionTableKeeps(db: Db, sessions: seq<Session>)
    requires Inv(db) && SessionsOk(db.(sessions := sessions)) && |db.sessions| <= |sessions|
    requires forall s :: 0 <= s < |db.sessions| ==>
               (db.sessions[s].state == SessionCancelled ==> sessions[s].state == SessionCancelled)
    ensures Keeps(db, db.(sessions := sessions))
  {
    var db' := db.(sessions := sessions);
    assert CapacityOk(db') by {
      forall t | 0 <= t < |db.tenants|
        ensures TenantOk(db', t)
      {
        assert TenantOk(db, t);
      }
    }
    hide SessionsOk, CapacityOk;
    assert forall r :: 0 <= r < |db.runs| ==> RowEvolves(db.runs[r], db'.runs[r], |db.attempts|);
  }

  lemma CreateSessionKeeps(db: Db, tenant: TenantId)
    requires Inv(db) && CreateSession(db, tenant).Ok?
    ensures Keeps(db, CreateSession(db, tenant).value)
  {
    SessionsCreated(db, tenant);
    SessionTableKeeps(db, db.sessions + [Session(tenant, Idle, None, 0)]);
  }

  // ------------------------------------------------------------ receipt, dispatch

  lemma CountedKeeps(db: Db, s: SessionId, n: nat)
    requires Inv(db) && s < |db.sessions|
    ensures Keeps(db, db.(sessions := db.sessions[s := db.sessions[s].(receivedSeq := n)]))
  {
    hide Evolves;
    SessionsCounted(db, s, n);
    SessionTableKeeps(db, db.sessions[s := db.sessions[s].(receivedSeq := n)]);
  }

  lemma ReceiveKeeps(db: Db, input: InboundInput)
    requires Inv(db) && ReceiveEvent(db, input).Ok?
    ensures Keeps(db, ReceiveEvent(db, input).value.db)
  {
    hide Inv, Evolves;
    var k := FindSource(db.inbound, input.source);
    if k < |db.inbound| {
      KeepsSame(db);
    } else {
      var session := db.sessions[input.session];
      var sessions := db.sessions[input.session := session.(receivedSeq := session.receivedSeq + 1)];
      var counted := db.(sessions := sessions);
      CountedKeeps(db, input.session, session.receivedSeq + 1);
      var db' := ReceiveEvent(db, input).value.db;
      if input.cls.FutureRun? {
        InboundKeeps(counted, db'.inbound);
        KeepsTransitive(db, counted, db');
      } else {
        var r := session.current.value;
        var woken := Resume(counted, r, WaitingSignal, SignalReceived).value;
        ResumeKeeps(counted, r, WaitingSignal, SignalReceived);
        KeepsTransitive(db, counted, woken);
        InboundKeeps(woken, db'.inbound);
        KeepsTransitive(db, woken, db');
      }
    }
  }

  function DispatchInput(db: Db, s: SessionId): RunInput
    requires s < |db.sessions|
  {
    RunInput(db.sessions[s].tenant, Some(s), None, None, 0, None, true)
  }

  lemma DispatchKeeps(db: Db, s: SessionId, at: nat)
    requires Inv(db) && DispatchNext(db, s, at).Ok?
    ensures Keeps(db, DispatchNext(db, s, at).value)
  {
    hide Inv, Evolves;
    var input := DispatchInput(db, s);
    var created := CreateRun(db, input).value;
    var db' := DispatchNext(db, s, at).value;
    CreateRunKeeps(db, input);
    InboundKeeps(created, db'.inbound);
    KeepsTransitive(db, created, db');
  }

  lemma PostponeKeeps(db: Db, s: SessionId, until: nat)
    requires Inv(db)
    ensures Keeps(db, PostponeQueue(db, s, until))
  {
    hide Inv, Evolves;
    InboundKeeps(db, PostponeQueue(db, s, until).inbound);
  }
}
