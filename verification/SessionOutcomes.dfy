/** What receiving an event, dispatching one and cancelling a session must do, on table rows:
    exactly when each succeeds and what it then leaves behind. */
module SessionOutcomes {
  import opened Prelude
  import opened RunStates
  import opened Tables
  import opened Kernel
  import opened Admissions
  import opened Sessions
  import opened Evolution
  import opened SessionInvariants
  import opened Invariants
  import opened Transactions
  import opened SessionTransactions
  import opened AdmissionLaw
  import opened KernelOutcomes

  // ---------------------------------------------------------------------- receipt

  ghost predicate IsNew(db: Db, source: Source)
  {
    forall i :: 0 <= i < |db.inbound| ==> db.inbound[i].source != source
  }

  /** The session exists in the producer's tenant and has not been cancelled. */
  ghost predicate Open(db: Db, input: InboundInput)
  {
    && input.session < |db.sessions| && db.sessions[input.session].tenant == input.source.tenant
    && db.sessions[input.session].state != SessionCancelled
  }

  /** The session's current run waits for a signal, and for this one. */
  ghost predicate Awaited(db: Db, input: InboundInput)
    requires input.session < |db.sessions|
  {
    var current := db.sessions[input.session].current;
    && current.Some? && current.value < |db.runs| && db.runs[current.value].status == WaitingSignal
    && input.waitMatches
  }

  /** The receipt counted on the session. */
  ghost function Counted(db: Db, s: SessionId): Db
    requires s < |db.sessions|
  {
    db.(sessions := db.sessions[s := db.sessions[s].(receivedSeq := db.sessions[s].receivedSeq + 1)])
  }

  /** The new row: the next number of its session, and what was delivered. */
  ghost function ReceivedRow(db: Db, input: InboundInput, status: InboundStatus): Inbound
    requires input.session < |db.sessions|
  {
    Inbound(input.session, input.source, input.digest, db.sessions[input.session].receivedSeq + 1,
            input.cls, status, db.now)
  }

  /** A new source event is accepted if and only if its session is open and, when it is for the
      current run, that run waits for it. An event for a future run waits and moves no run; one
      for the current run is consumed by that very run, which queues without an owner. */
  lemma ReceiveIff(db: Db, input: InboundInput)
    requires Inv(db) && IsNew(db, input.source)
    ensures ReceiveEvent(db, input).Ok? <==> Open(db, input) && (input.cls.CurrentRun? ==> Awaited(db, input))
    ensures ReceiveEvent(db, input).Ok? ==>
              var received := ReceiveEvent(db, input).value;
              && !received.replayed && received.id == |db.inbound|
              && match input.cls
                 case FutureRun =>
                   received.db == Counted(db, input.session).(inbound := db.inbound + [ReceivedRow(db, input, Pending)])
                 case CurrentRun =>
                   var r := db.sessions[input.session].current.value;
                   && received.db.inbound == db.inbound + [ReceivedRow(db, input, Consumed(r))]
                   && Transitioned(Counted(db, input.session), received.db.(inbound := db.inbound), r, Queued, None,
                                   SignalReceived, None, db.attempts)
    ensures ReceiveEvent(db, input).Err? ==>
              ReceiveEvent(db, input) == Err(
                if input.session < |db.sessions| && db.sessions[input.session].tenant == input.source.tenant
                then DeliveryRejected else SessionRejected)
  {
    hide Inv, Resume, Transitioned;
    NewHasNoRow(db, input.source);
    if input.session < |db.sessions| {
      NotArchived(db, input.session);
      CountedKeeps(db, input.session, db.sessions[input.session].receivedSeq + 1);
      var current := db.sessions[input.session].current;
      if current.Some? {
        ResumeOutcome(Counted(db, input.session), current.value, WaitingSignal, SignalReceived);
        InboundUntouched(db, input, current.value);
      }
    }
  }

  lemma NewHasNoRow(db: Db, source: Source)
    requires IsNew(db, source)
    ensures FindSource(db.inbound, source) == |db.inbound|
  {
  }

  lemma NotArchived(db: Db, s: SessionId)
    requires Inv(db) && s < |db.sessions|
    ensures db.sessions[s].state != Archived
  {
    assert MirrorsRun(db, s);
  }

  lemma InboundUntouched(db: Db, input: InboundInput, r: RunId)
    requires input.session < |db.sessions|
    ensures var woken := Resume(Counted(db, input.session), r, WaitingSignal, SignalReceived);
            woken.Ok? ==> woken.value.inbound == db.inbound
  {
  }

  /** A known source is answered from its first row, or conflicts when the payload differs. */
  lemma ReplayIff(db: Db, input: InboundInput, k: InboundId)
    requires k < |db.inbound| && db.inbound[k].source == input.source
    requires forall i :: 0 <= i < k ==> db.inbound[i].source != input.source
    requires input.session < |db.sessions| && db.sessions[input.session].tenant == input.source.tenant
    ensures ReceiveEvent(db, input) ==
            (if input.digest == db.inbound[k].digest then Ok(Received(db, k, true)) else Err(EventConflict))
  {
    assert Matches(db.inbound[k], input.source);
    assert FindSource(db.inbound, input.source) == k;
  }

  // --------------------------------------------------------------------- dispatch

  /** Event k is the session's first waiting event that is due. */
  ghost predicate FirstDue(inbound: seq<Inbound>, s: SessionId, at: nat, k: nat)
  {
    && k < |inbound| && Due(inbound[k], s, at)
    && forall i :: 0 <= i < k ==> !Due(inbound[i], s, at)
  }

  predicate Due(row: Inbound, s: SessionId, at: nat) {
    row.session == s && row.cls == FutureRun && row.status == Pending && row.dispatchAfter <= at
  }

  /** A session's first due event starts a run exactly when the session is idle and its tenant
      may be admitted one more run without a budget of its own; the event then names that run. */
  lemma DispatchIff(db: Db, s: SessionId, at: nat)
    requires Inv(db)
    ensures DispatchNext(db, s, at).Ok? <==>
              && s < |db.sessions| && db.sessions[s].state == Idle && (exists k: nat :: FirstDue(db.inbound, s, at, k))
              && Admissible(db, db.sessions[s].tenant, None)
    ensures DispatchNext(db, s, at).Ok? ==>
              var db' := DispatchNext(db, s, at).value;
              && db.sessions[s].tenant < |db.tenants|
              && CreatedIn(db, db'.(inbound := db.inbound), DispatchInput(db, s))
              && exists k: nat :: FirstDue(db.inbound, s, at, k)
                   && db'.inbound == db.inbound[k := db.inbound[k].(status := Dispatched(|db.runs|))]
    ensures s < |db.sessions| && db.sessions[s].state == Idle && (exists k: nat :: FirstDue(db.inbound, s, at, k))
            && DispatchNext(db, s, at).Err? ==>
              DispatchNext(db, s, at) == Err(AdmissionRejected(Refusal(db, db.sessions[s].tenant)))
  {
    hide Inv, CreateRun, Admissible, CreatedRow;
    if s < |db.sessions| && db.sessions[s].state == Idle {
      NextIsFirstDue(db.inbound, s, at);
      CreationIff(db, DispatchInput(db, s));
      if Admissible(db, db.sessions[s].tenant, None) {
        AdmissibleHasTenant(db, db.sessions[s].tenant, None);
      }
    }
  }

  lemma AdmissibleHasTenant(db: Db, t: TenantId, requested: Option<int>)
    requires Admissible(db, t, requested)
    ensures t < |db.tenants|
  {
  }

  lemma NextIsFirstDue(inbound: seq<Inbound>, s: SessionId, at: nat)
    ensures NextDispatch(inbound, s, at) < |inbound| ==> FirstDue(inbound, s, at, NextDispatch(inbound, s, at))
    ensures (exists k: nat :: FirstDue(inbound, s, at, k)) ==> NextDispatch(inbound, s, at) < |inbound|
  {
    hide NextDispatch;
    var n := NextDispatch(inbound, s, at);
    forall i | 0 <= i < n
      ensures !Due(inbound[i], s, at)
    {
      assert !Dispatchable(inbound[i], s, at);
    }
  }

  /** Postponing moves exactly the session's waiting events that were due earlier. */
  lemma PostponeOutcome(db: Db, s: SessionId, until: nat)
    ensures var db' := PostponeQueue(db, s, until);
            && |db'.inbound| == |db.inbound| && db' == db.(inbound := db'.inbound)
            && forall i :: 0 <= i < |db.inbound| ==>
                 var row := db.inbound[i];
                 if row.session == s && row.cls == FutureRun && row.status == Pending && row.dispatchAfter < until
                 then db'.inbound[i] == row.(dispatchAfter := until) else db'.inbound[i] == row
  {
  }

  /** A session opens idle, for any tenant. */
  lemma OpenOutcome(db: Db, t: TenantId)
    ensures CreateSession(db, t).Ok? <==> t < |db.tenants|
    ensures CreateSession(db, t).Ok? ==> CreateSession(db, t).value == db.(sessions := db.sessions + [Session(t, Idle, None, 0)])
  {
  }

  // ----------------------------------------------------------------- cancellation

  /** The listed runs are cancelled and their active owners fenced; all else but session s is as
      before. */
  ghost predicate AllCancelled(db: Db, db': Db, s: SessionId, rs: seq<RunId>)
  {
    && |db'.runs| == |db.runs| && |db'.attempts| == |db.attempts| && |db'.sessions| == |db.sessions|
    && (forall q :: 0 <= q < |db.runs| ==>
          if q in rs then Takes(db.runs[q], db'.runs[q], Cancelled, db.runs[q].current, RunCancelled, None, db.now)
          else db'.runs[q] == db.runs[q])
    && (forall a :: 0 <= a < |db.attempts| ==>
          db'.attempts[a] == (if db.attempts[a].state == ActiveAttempt && Owned(db, rs, a)
                              then db.attempts[a].(state := Exited) else db.attempts[a]))
    && |db'.outbox| == |db.outbox| + |rs| && db.outbox <= db'.outbox
    && (forall i :: 0 <= i < |rs| && rs[i] < |db.runs| ==>
          db'.outbox[|db.outbox| + i] == OutboxRow(rs[i], |db.runs[rs[i]].events| + 1))
    && (forall t :: 0 <= t < |db.sessions| ==>
          if t == s then db'.sessions[t] == db.sessions[t].(state := db'.sessions[t].state, current := db'.sessions[t].current)
          else db'.sessions[t] == db.sessions[t])
    && db'.cfg == db.cfg && db'.tenants == db.tenants && db'.inbound == db.inbound && db'.now == db.now
  }

  /** One of the listed runs has a as its current attempt. */
  ghost predicate Owned(db: Db, rs: seq<RunId>, a: AttemptId)
  {
    exists i :: 0 <= i < |rs| && rs[i] < |db.runs| && db.runs[rs[i]].current == Some(a)
  }

  /** Distinct live runs of the session. */
  ghost predicate LiveList(db: Db, s: SessionId, rs: seq<RunId>)
  {
    && (forall i :: 0 <= i < |rs| ==> rs[i] < |db.runs| && LiveIn(db, s, rs[i]))
    && forall i, j :: 0 <= i < j < |rs| ==> rs[i] != rs[j]
  }

  lemma {:induction false} CancelEachIff(db: Db, s: SessionId, rs: seq<RunId>)
    requires Inv(db) && LiveList(db, s, rs)
    ensures CancelEach(db, rs).Ok? <==> forall i :: 0 <= i < |rs| ==> db.runs[rs[i]].call.None?
    ensures CancelEach(db, rs).Ok? ==> AllCancelled(db, CancelEach(db, rs).value, s, rs)
    ensures CancelEach(db, rs).Err? ==> CancelEach(db, rs) == Err(LockHeld)
    decreases |rs|
  {
    hide Inv, CancelRun, AllCancelled, Evolves;
    if rs == [] {
      NoneCancelled(db, s);
    } else {
      var n := |rs| - 1;
      CancelEachIff(db, s, rs[..n]);
      if CancelEach(db, rs[..n]).Ok? {
        var before := CancelEach(db, rs[..n]).value;
        CancelEachKeeps(db, rs[..n]);
        NextUntouched(db, before, s, rs);
        CancelOutcome(before, rs[n]);
        if before.runs[rs[n]].call.None? {
          OneMoreCancelled(db, before, CancelRun(before, rs[n]).value, s, rs);
        } else {
          LockIsHeld(before, rs[n]);
        }
      }
    }
  }

  lemma NoneCancelled(db: Db, s: SessionId)
    ensures AllCancelled(db, db, s, [])
  {
  }

  lemma LockIsHeld(db: Db, r: RunId)
    requires r < |db.runs| && !IsTerminal(db.runs[r].status) && db.runs[r].call.Some?
    ensures CancelRun(db, r) == Err(LockHeld)
  {
  }

  lemma NextUntouched(db: Db, before: Db, s: SessionId, rs: seq<RunId>)
    requires LiveList(db, s, rs) && rs != [] && AllCancelled(db, before, s, rs[..|rs| - 1])
    ensures rs[|rs| - 1] < |before.runs| && before.runs[rs[|rs| - 1]] == db.runs[rs[|rs| - 1]]
  {
    assert rs[|rs| - 1] !in rs[..|rs| - 1];
  }

  lemma OneMoreCancelled(db: Db, before: Db, db': Db, s: SessionId, rs: seq<RunId>)
    requires LiveList(db, s, rs) && rs != [] && AllCancelled(db, before, s, rs[..|rs| - 1])
    requires var r := rs[|rs| - 1];
             && r < |before.runs| && before.runs[r] == db.runs[r]
             && Transitioned(before, db', r, Cancelled, db.runs[r].current, RunCancelled, None,
                             OwnerFenced(before.attempts, db.runs[r].current))
    ensures AllCancelled(db, db', s, rs)
  {
    var n := |rs| - 1;
    hide Takes;
    assert rs == rs[..n] + [rs[n]];
    forall a | 0 <= a < |db.attempts|
      ensures db'.attempts[a] == (if db.attempts[a].state == ActiveAttempt && Owned(db, rs, a)
                                  then db.attempts[a].(state := Exited) else db.attempts[a])
    {
      OwnedMore(db, rs, a);
    }
  }

  lemma OwnedMore(db: Db, rs: seq<RunId>, a: AttemptId)
    requires rs != [] && rs[|rs| - 1] < |db.runs|
    ensures Owned(db, rs, a) <==> Owned(db, rs[..|rs| - 1], a) || db.runs[rs[|rs| - 1]].current == Some(a)
  {
    var n := |rs| - 1;
    if Owned(db, rs[..n], a) {
      var i :| 0 <= i < n && rs[..n][i] < |db.runs| && db.runs[rs[..n][i]].current == Some(a);
      assert rs[i] == rs[..n][i];
    }
    if Owned(db, rs, a) {
      var i :| 0 <= i < |rs| && rs[i] < |db.runs| && db.runs[rs[i]].current == Some(a);
      assert i < n ==> rs[..n][i] == rs[i];
    }
  }

  ghost predicate DelegatedFirst(db: Db, rs: seq<RunId>)
  {
    forall i, j :: 0 <= i < j < |rs| && rs[i] < |db.runs| && rs[j] < |db.runs| && db.runs[rs[i]].parent.None? ==>
      db.runs[rs[j]].parent.None?
  }

  /** The session's live runs, delegated ones first, as cancellation visits them. */
  lemma FencedList(db: Db, s: SessionId)
    ensures var rs := LiveRuns(db, s, false, |db.runs|) + LiveRuns(db, s, true, |db.runs|);
            && LiveList(db, s, rs) && DelegatedFirst(db, rs)
            && forall r: RunId :: r in rs <==> r < |db.runs| && LiveIn(db, s, r)
  {
    hide LiveRuns;
    InTwoParts(db, s, LiveRuns(db, s, false, |db.runs|), LiveRuns(db, s, true, |db.runs|));
  }

  lemma InTwoParts(db: Db, s: SessionId, a: seq<RunId>, b: seq<RunId>)
    requires forall r: RunId :: r in a <==> r < |db.runs| && LiveIn(db, s, r) && db.runs[r].parent.Some?
    requires forall r: RunId :: r in b <==> r < |db.runs| && LiveIn(db, s, r) && db.runs[r].parent.None?
    requires forall i, j :: 0 <= i < j < |a| ==> a[i] < a[j]
    requires forall i, j :: 0 <= i < j < |b| ==> b[i] < b[j]
    ensures LiveList(db, s, a + b) && DelegatedFirst(db, a + b)
    ensures forall r: RunId :: r in a + b <==> r < |db.runs| && LiveIn(db, s, r)
  {
    var rs := a + b;
    forall i | 0 <= i < |rs|
      ensures rs[i] < |db.runs| && LiveIn(db, s, rs[i])
    {
      assert rs[i] in a || rs[i] in b;
    }
    forall i, j | 0 <= i < j < |rs|
      ensures rs[i] != rs[j]
      ensures rs[i] < |db.runs| && rs[j] < |db.runs| && db.runs[rs[i]].parent.None? ==> db.runs[rs[j]].parent.None?
    {
      assert i < |a| ==> rs[i] in a;
      assert j >= |a| ==> rs[j] in b;
    }
    forall r: RunId
      ensures r in rs <==> r < |db.runs| && LiveIn(db, s, r)
    {
      assert r in rs <==> r in a || r in b;
    }
  }

  /** The closed session, its waiting events stale. */
  ghost predicate ClosedIn(db: Db, fenced: Db, db': Db, s: SessionId)
  {
    && s < |db.sessions| == |fenced.sessions| && |db'.inbound| == |db.inbound|
    && (forall i :: 0 <= i < |db.inbound| ==>
          db'.inbound[i] == (if db.inbound[i].session == s && db.inbound[i].status == Pending
                             then db.inbound[i].(status := Stale) else db.inbound[i]))
    && |db'.sessions| == |db.sessions|
    && db'.sessions[s] == db.sessions[s].(state := SessionCancelled)
    && db' == fenced.(inbound := db'.inbound, sessions := fenced.sessions[s := db'.sessions[s]])
  }

  /** A session can be cancelled exactly while none of its live runs has a provider call in flight;
      every one of them is then cancelled and fenced, delegated ones first, the waiting events go
      stale and the session closes. Cancelling it again changes nothing. */
  lemma CancelSessionIff(db: Db, s: SessionId)
    requires Inv(db)
    ensures s < |db.sessions| && db.sessions[s].state == SessionCancelled ==> CancelSession(db, s) == Ok(db)
    ensures s >= |db.sessions| ==> CancelSession(db, s) == Err(SessionRejected)
    ensures s < |db.sessions| && db.sessions[s].state != SessionCancelled ==>
              && (CancelSession(db, s).Ok? <==>
                    forall r: RunId :: r < |db.runs| && LiveIn(db, s, r) ==> db.runs[r].call.None?)
              && (CancelSession(db, s).Ok? ==>
                    exists rs, fenced ::
                      && (forall r: RunId :: r in rs <==> r < |db.runs| && LiveIn(db, s, r)) && DelegatedFirst(db, rs)
                      && AllCancelled(db, fenced, s, rs) && ClosedIn(db, fenced, CancelSession(db, s).value, s))
  {
    hide Inv, CancelEach, AllCancelled, LiveIn, DelegatedFirst, LiveList;
    if s < |db.sessions| {
      NotArchived(db, s);
      var rs := LiveRuns(db, s, false, |db.runs|) + LiveRuns(db, s, true, |db.runs|);
      FencedList(db, s);
      CancelEachIff(db, s, rs);
      if db.sessions[s].state != SessionCancelled && CancelEach(db, rs).Ok? {
        FencedShape(db, CancelEach(db, rs).value, s, rs);
        assert ClosedIn(db, CancelEach(db, rs).value, CancelSession(db, s).value, s);
      }
    }
  }

  lemma FencedShape(db: Db, fenced: Db, s: SessionId, rs: seq<RunId>)
    requires AllCancelled(db, fenced, s, rs)
    ensures |fenced.sessions| == |db.sessions| && fenced.inbound == db.inbound
    ensures s < |db.sessions| ==>
              fenced.sessions[s] == db.sessions[s].(state := fenced.sessions[s].state, current := fenced.sessions[s].current)
  {
  }
}
