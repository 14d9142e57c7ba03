/** Every transaction of the kernel keeps the invariant and evolves the tables. */
module Transactions {
  import opened Prelude
  import opened RunStates
  import opened Tables
  import opened Kernel
  import opened Admissions
  import opened Children
  import opened Sessions
  import opened RowInvariants
  import opened Evolution
  import opened Fencing
  import opened Ledger
  import opened CapacityAccounting
  import opened Lineage
  import opened SessionInvariants
  import opened Invariants

  // ------------------------------------------------------------------ attempts

  lemma ClaimedAttempt(db: Db, r: RunId, row: Attempt)
    requires Inv(db) && r < |db.runs| && db.runs[r].status == Queued
    requires row.run == r && row.no == MaxAttemptNo(db.attempts, r) + 1
    ensures Inv(db.(attempts := db.attempts + [row]))
    ensures IsLatest(db.attempts + [row], r, |db.attempts|)
  {
    OwnerPresent(db, r);
    FencingNewAttempt(db, row);
    NewAttemptInv(db, row);
  }

  lemma StartAttemptInv(db: Db, r: RunId, a: AttemptId)
    requires Inv(db) && r < |db.runs| && IsLatest(db.attempts, r, a)
    requires TransitionRun(db, r, {Queued}, Starting, AttemptStarted, Some(a), SetCurrent(a)).Ok?
    ensures Inv(TransitionRun(db, r, {Queued}, Starting, AttemptStarted, Some(a), SetCurrent(a)).value)
  {
    hide Inv, TransitionRun, IsLatest;
    TransitionInv(db, r, {Queued}, Starting, AttemptStarted, Some(a), SetCurrent(a));
  }

  lemma ClaimInv(db: Db, r: RunId, ttl: nat)
    requires Inv(db) && Claim(db, r, ttl).Ok?
    ensures Inv(Claim(db, r, ttl).value)
  {
    hide Inv, MaxAttemptNo, TransitionRun, IsLatest;
    var row := Attempt(r, MaxAttemptNo(db.attempts, r) + 1, ActiveAttempt, db.now + ttl);
    ClaimedAttempt(db, r, row);
    StartAttemptInv(db.(attempts := db.attempts + [row]), r, |db.attempts|);
  }

  lemma ClaimKeeps(db: Db, r: RunId, ttl: nat)
    requires Inv(db) && Claim(db, r, ttl).Ok?
    ensures Keeps(db, Claim(db, r, ttl).value)
  {
    hide Inv;
    ClaimInv(db, r, ttl);
    assert RowEvolves(db.runs[r], Claim(db, r, ttl).value.runs[r], |db.attempts|);
  }

  lemma NewAttemptInv(db: Db, row: Attempt)
    requires Inv(db) && FencingOk(db.(attempts := db.attempts + [row]))
    ensures Inv(db.(attempts := db.attempts + [row]))
  {
    var db' := db.(attempts := db.attempts + [row]);
    assert CapacityOk(db') by {
      forall t | 0 <= t < |db.tenants|
        ensures TenantOk(db', t)
      {
        assert TenantOk(db, t);
      }
    }
    SessionsSame(db, db');
  }

  lemma HeartbeatKeeps(db: Db, a: AttemptId, ttl: nat)
    requires Inv(db)
    ensures Keeps(db, Heartbeat(db, a, ttl).value)
  {
    hide Inv, Evolves;
    if a < |db.attempts| && db.attempts[a].state == ActiveAttempt {
      AttemptKeeps(db, a, db.attempts[a].(leaseUntil := db.now + ttl));
    } else {
      KeepsSame(db);
    }
  }

  lemma StartRunningKeeps(db: Db, a: AttemptId)
    requires Inv(db) && StartRunning(db, a).Ok?
    ensures Keeps(db, StartRunning(db, a).value)
  {
    OwnerPresent(db, db.attempts[a].run);
    TransitionKeeps(db, db.attempts[a].run, {Starting}, Running, AttemptStarted, Some(a), KeepCurrent);
  }

  lemma EpochKeeps(db: Db, a: AttemptId, move: EpochMove)
    requires Inv(db) && Epoch(db, a, move).Ok?
    ensures Keeps(db, Epoch(db, a, move).value)
  {
    hide Inv, Evolves;
    var r := db.attempts[a].run;
    OwnerPresent(db, r);
    match move
    case SuspendForApproval =>
      TransitionKeeps(db, r, {Running}, WaitingApproval, ApprovalRequested, Some(a), KeepCurrent);
    case SuspendForSignal =>
      TransitionKeeps(db, r, {Running}, WaitingSignal, SignalReceived, Some(a), KeepCurrent);
    case StartVerifying =>
      TransitionKeeps(db, r, {Running}, Verifying, VerificationStarted, Some(a), KeepCurrent);
    case VerificationRejected =>
      TransitionKeeps(db, r, {Verifying}, Running, VerificationFailed, Some(a), KeepCurrent);
    case CompleteRun =>
      TransitionKeeps(db, r, {Verifying}, Completed, RunCompleted, Some(a), KeepCurrent);
    case GiveUp =>
      TransitionKeeps(db, r, {Running}, Failed, RunFailed, Some(a), KeepCurrent);
  }

  /** An active attempt has never been charged with a requeue. */
  lemma ActiveIsUncharged(db: Db, a: AttemptId)
    requires Inv(db) && a < |db.attempts| && db.attempts[a].state == ActiveAttempt
    ensures db.attempts[a].run < |db.runs|
    ensures Uncharged(db.runs[db.attempts[a].run].events, a)
  {
    var r := db.attempts[a].run;
    assert RowRequeuesOk(db.cfg, db.attempts, r, db.runs[r].events);
    forall i | 0 <= i < |db.runs[r].events| && IsRequeue(db.runs[r].events[i].kind)
      ensures db.runs[r].events[i].attempt != Some(a)
    {
      assert RequeueTied(db.cfg, db.attempts, r, db.runs[r].events[i]);
    }
  }

  /** Retire an active attempt, then fail or requeue its run on that attempt's account. */
  lemma RetireKeeps(db: Db, a: AttemptId, state: AttemptState, kind: EventKind)
    requires Inv(db) && a < |db.attempts|
    requires db.attempts[a].state == ActiveAttempt && state != ActiveAttempt
    requires IsRequeue(kind) && kind.attemptNo == db.attempts[a].no < db.cfg.maxAttempts
    requires TransitionRun(WithAttemptState(db, a, state), db.attempts[a].run, {Running, Starting, Verifying},
                           Queued, kind, Some(a), ClearCurrent).Ok?
    ensures Keeps(db, TransitionRun(WithAttemptState(db, a, state), db.attempts[a].run, {Running, Starting, Verifying},
                                    Queued, kind, Some(a), ClearCurrent).value)
  {
    var r := db.attempts[a].run;
    var retired := WithAttemptState(db, a, state);
    ActiveIsUncharged(db, a);
    AttemptKeeps(db, a, db.attempts[a].(state := state));
    TransitionKeeps(retired, r, {Running, Starting, Verifying}, Queued, kind, Some(a), ClearCurrent);
    KeepsTransitive(db, retired, TransitionRun(retired, r, {Running, Starting, Verifying}, Queued, kind, Some(a), ClearCurrent).value);
  }

  lemma RetireAndFailKeeps(db: Db, a: AttemptId, state: AttemptState, from: set<RunStatus>)
    requires Inv(db) && a < |db.attempts|
    requires db.attempts[a].state == ActiveAttempt && state != ActiveAttempt
    requires TransitionRun(WithAttemptState(db, a, state), db.attempts[a].run, from,
                           Failed, RunFailed, Some(a), KeepCurrent).Ok?
    ensures Keeps(db, TransitionRun(WithAttemptState(db, a, state), db.attempts[a].run, from,
                                    Failed, RunFailed, Some(a), KeepCurrent).value)
  {
    var retired := WithAttemptState(db, a, state);
    AttemptKeeps(db, a, db.attempts[a].(state := state));
    TransitionKeeps(retired, db.attempts[a].run, from, Failed, RunFailed, Some(a), KeepCurrent);
    KeepsTransitive(db, retired, TransitionRun(retired, db.attempts[a].run, from, Failed, RunFailed, Some(a), KeepCurrent).value);
  }

  lemma SettleKeeps(db: Db, a: AttemptId, reason: ExitReason)
    requires Inv(db) && Settle(db, a, reason).Ok?
    ensures Keeps(db, Settle(db, a, reason).value)
  {
    if reason.LeaseLost? || db.attempts[a].state != ActiveAttempt {
      KeepsSame(db);
    } else {
      match reason
      case BudgetExhausted =>
        RetireAndFailKeeps(db, a, Exited, {Running});
      case EpochError =>
        if db.attempts[a].no >= db.cfg.maxAttempts {
          RetireAndFailKeeps(db, a, Exited, {Running, Starting, Verifying});
        } else {
          RetireKeeps(db, a, Exited, RetryScheduled(db.attempts[a].no));
        }
      case SettledByEpoch =>
        AttemptKeeps(db, a, db.attempts[a].(state := Exited));
    }
  }

  lemma ReapKeeps(db: Db, a: AttemptId)
    requires Inv(db) && Reap(db, a).Ok?
    ensures Keeps(db, Reap(db, a).value)
  {
    var row := db.attempts[a];
    assert {Starting, Running, Verifying} == {Running, Starting, Verifying};
    if !IsExecuting(db.runs[row.run].status) {
      AttemptKeeps(db, a, row.(state := Orphaned));
    } else if row.no >= db.cfg.maxAttempts {
      RetireAndFailKeeps(db, a, Orphaned, {Starting, Running, Verifying});
    } else {
      RetireKeeps(db, a, Orphaned, AttemptOrphaned(row.no));
    }
  }

  lemma CancelRunKeeps(db: Db, r: RunId)
    requires Inv(db) && CancelRun(db, r).Ok?
    ensures Keeps(db, CancelRun(db, r).value)
    ensures CancelRun(db, r).value.runs[r].status == Cancelled
  {
    hide Inv, Evolves;
    var from := {db.runs[r].status};
    var cancelled := TransitionRun(db, r, from, Cancelled, RunCancelled, None, KeepCurrent).value;
    TransitionKeeps(db, r, from, Cancelled, RunCancelled, None, KeepCurrent);
    var current := db.runs[r].current;
    if current.Some? && current.value < |cancelled.attempts| && cancelled.attempts[current.value].state == ActiveAttempt {
      AttemptKeeps(cancelled, current.value, cancelled.attempts[current.value].(state := Exited));
      KeepsTransitive(db, cancelled, ExitIfActive(cancelled, current));
    }
  }

  lemma ResumeKeeps(db: Db, r: RunId, from: RunStatus, kind: EventKind)
    requires from == WaitingApproval || from == WaitingSignal
    requires Inv(db) && UsageTokens(kind) == 0 && !IsRequeue(kind) && Resume(db, r, from, kind).Ok?
    ensures Keeps(db, Resume(db, r, from, kind).value)
  {
    TransitionKeeps(db, r, {from}, Queued, kind, None, ClearCurrent);
  }

  // --------------------------------------------------------------- model calls

  lemma BeginKeeps(db: Db, r: RunId, a: AttemptId, ceiling: nat, requestedMax: Option<JsNumber>, defaultMax: nat)
    requires Inv(db) && BeginModelInvocation(db, r, a, ceiling, requestedMax, defaultMax).Ok?
    ensures Keeps(db, BeginModelInvocation(db, r, a, ceiling, requestedMax, defaultMax).value)
  {
    var run := db.runs[r];
    var limit := LimitModelInvocation(run.tokenBudget, run.tokensUsed, ceiling, requestedMax, defaultMax);
    var started := AppendEvent(db, r, ModelInvocationStarted, Some(a)).value;
    AppendKeeps(db, r, ModelInvocationStarted, Some(a));
    if limit.Some? {
      var call := Some(ModelCall(a, ceiling, limit.value.maxTokens));
      CallKeeps(started, r, call);
      KeepsTransitive(db, started, started.(runs := started.runs[r := started.runs[r].(call := call)]));
    }
  }

  lemma AbandonKeeps(db: Db, r: RunId)
    requires Inv(db) && AbandonModelInvocation(db, r).Ok?
    ensures Keeps(db, AbandonModelInvocation(db, r).value)
  {
    CallKeeps(db, r, None);
  }

  /** A provider that stays within the ceiling and maxTokens it was given. */
  predicate Conforms(db: Db, r: RunId, inputTokens: nat, outputTokens: nat)
  {
    r < |db.runs| && db.runs[r].call.Some? ==>
      inputTokens <= db.runs[r].call.value.inputCeiling && outputTokens <= db.runs[r].call.value.maxTokens
  }

  lemma CompleteKeeps(db: Db, r: RunId, inputTokens: nat, outputTokens: nat)
    requires Inv(db) && CompleteModelInvocation(db, r, inputTokens, outputTokens).Ok?
    requires Conforms(db, r, inputTokens, outputTokens)
    ensures Keeps(db, CompleteModelInvocation(db, r, inputTokens, outputTokens).value)
  {
    var db' := CompleteModelInvocation(db, r, inputTokens, outputTokens).value;
    var run := db.runs[r];
    var attempt := Some(run.call.value.attempt);
    var e := Event(run.lastEventSeq + 1, ModelInvocationCompleted(inputTokens, outputTokens), None, attempt, db.now);
    assert RowOk(run, db.now);
    RowMetered(run, inputTokens, outputTokens, attempt, db.now);
    assert OwnerOk(db.attempts, r, run);
    assert RowRequeuesOk(db.cfg, db.attempts, r, run.events);
    LedgerGrows(db.cfg, db.attempts, r, run.events, e);
    FencingRow(db, db', r);
    OutboxLogged(db, db', r);
    MeteredCapacity(db, db', r, e);
    LineageRow(db, db', r);
    SessionsRow(db, db', r);
    hide FencingOk, OutboxOk, CapacityOk, LineageOk, SessionsOk;
    assert RowEvolves(run, db'.runs[r], |db.attempts|);
  }

  lemma MeteredCapacity(db: Db, db': Db, r: RunId, e: Event)
    requires Inv(db) && r < |db.runs| && !IsTerminal(db.runs[r].status)
    requires db'.tenants == db.tenants && db'.now == db.now == e.at
    requires |db'.runs| == |db.runs| && db'.runs == db.runs[r := db'.runs[r]]
    requires SameIdentity(db.runs[r], db'.runs[r]) && db'.runs[r].admission == db.runs[r].admission
    requires db'.runs[r].events == db.runs[r].events + [e]
    requires db'.runs[r].tokensUsed == db.runs[r].tokensUsed + UsageTokens(e.kind)
    requires WithinBudget(db'.runs[r])
    ensures CapacityOk(db')
  {
    var run := db.runs[r];
    assert RowOk(run, db.now);
    LastOfExtended(run.events, e);
    forall t: nat | t < |db.tenants| && db.tenants[t].dailyBudget.Some?
      ensures Load(db'.runs[r], t, Day(db.now)) <= Load(run, t, Day(db.now))
    {
      if run.tenant == t {
        MeteringConserves(run, db'.runs[r], t, Day(db.now), UsageTokens(e.kind));
      }
    }
    CapacityRow(db, db', r);
  }

  // ------------------------------------------------------------------ creation

  /** What callers pass as lineage: nothing, or a failed, not yet replaced sibling. */
  ghost predicate LineageInputOk(db: Db, input: RunInput)
  {
    match input.predecessor
    case None => input.generation == 0
    case Some(p) =>
      && p < |db.runs|
      && input.parent.Some? && input.parent == db.runs[p].parent
      && input.tenant == db.runs[p].tenant
      && input.generation == db.runs[p].generation + 1 <= db.cfg.maxChildReplacements
      && db.runs[p].status == Failed
      && !Superseded(db, p)
      && (db.runs[p].tokenBudget.Some? ==> input.tokenBudget == Some(db.runs[p].tokenBudget.value - db.runs[p].tokensUsed))
  }

  /** Releasing the admissions of terminal runs finds nothing to release. */
  lemma ReconcileIsNoOp(db: Db, t: TenantId)
    requires Inv(db)
    ensures ReconcileTerminal(db, t) == db
  {
    forall r | 0 <= r < |db.runs|
      ensures Reconciled(db.runs[r], t) == db.runs[r]
    {
      assert RowOk(db.runs[r], db.now);
    }
    assert ReconcileTerminal(db, t).runs == db.runs;
  }

  /** What inserting a run and its admission changes. */
  ghost predicate Grown(db: Db, db': Db)
  {
    && db'.cfg == db.cfg && db'.tenants == db.tenants && db'.now == db.now
    && db'.attempts == db.attempts && db'.outbox == db.outbox && db'.inbound == db.inbound
    && |db'.runs| == |db.runs| + 1 && db'.runs[..|db.runs|] == db.runs
    && |db'.sessions| == |db.sessions|
    && forall s :: 0 <= s < |db.sessions| ==>
         (db.sessions[s].state == SessionCancelled ==> db'.sessions[s].state == SessionCancelled)
  }

  lemma InsertShape(db: Db, input: RunInput, session: Option<SessionId>, capacity: Capacity)
    requires SessionAccepts(db, input, session)
    ensures Grown(db, InsertRun(db, input, session, capacity))
    ensures InsertRun(db, input, session, capacity).runs[|db.runs|] == FreshRun(input, session, capacity)
  {
  }

  lemma GrownEvolves(db: Db, db': Db)
    requires Grown(db, db')
    ensures Evolves(db, db')
  {
    forall q | 0 <= q < |db.runs|
      ensures RowEvolves(db.runs[q], db'.runs[q], |db.attempts|)
    {
      assert db'.runs[q] == db'.runs[..|db.runs|][q];
    }
  }

  /** A fresh row with the admission that was granted. */
  ghost predicate RowInserted(db: Db, db': Db, input: RunInput, session: Option<SessionId>, capacity: Capacity)
  {
    && PrepareRunAdmission(db, input.tenant, input.tokenBudget) == Ok(capacity)
    && Grown(db, db')
    && db'.runs[|db.runs|] == FreshRun(input, session, capacity)
  }

  lemma InsertedRows(db: Db, db': Db, input: RunInput, session: Option<SessionId>, capacity: Capacity)
    requires RowsOk(db) && RowInserted(db, db', input, session, capacity)
    ensures RowsOk(db')
  {
    hide PrepareRunAdmission;
    forall q | 0 <= q < |db'.runs|
      ensures RowOk(db'.runs[q], db'.now)
    {
      if q < |db.runs| {
        assert db'.runs[q] == db'.runs[..|db.runs|][q];
      } else {
        FreshRowOk(db, input, session, capacity);
      }
    }
  }

  lemma FreshRowOk(db: Db, input: RunInput, session: Option<SessionId>, capacity: Capacity)
    requires PrepareRunAdmission(db, input.tenant, input.tokenBudget) == Ok(capacity)
    ensures RowOk(FreshRun(input, session, capacity), db.now)
  {
  }

  lemma InsertedFencing(db: Db, db': Db, input: RunInput, session: Option<SessionId>, capacity: Capacity)
    requires FencingOk(db) && RowInserted(db, db', input, session, capacity)
    ensures FencingOk(db')
  {
    hide FencingOk, PrepareRunAdmission;
    FencingNewRun(db, db');
  }

  lemma InsertedOutbox(db: Db, db': Db, input: RunInput, session: Option<SessionId>, capacity: Capacity)
    requires OutboxOk(db) && RowInserted(db, db', input, session, capacity)
    ensures OutboxOk(db')
  {
    hide OutboxOk, PrepareRunAdmission;
    OutboxNewRun(db, db');
  }

  lemma InsertedCapacity(db: Db, db': Db, input: RunInput, session: Option<SessionId>, capacity: Capacity)
    requires CapacityOk(db) && RowInserted(db, db', input, session, capacity)
    ensures CapacityOk(db')
  {
    hide CapacityOk;
    AdmissionFits(db, db', input.tenant, input.tokenBudget, capacity);
  }

  lemma InsertedLineage(db: Db, db': Db, input: RunInput, session: Option<SessionId>, capacity: Capacity)
    requires RowsOk(db) && LineageOk(db) && LineageInputOk(db, input) && RowInserted(db, db', input, session, capacity)
    ensures LineageOk(db')
  {
    var n := |db.runs|;
    assert forall i :: 0 <= i < n ==> db'.runs[i] == db'.runs[..n][i] == db.runs[i];
    if input.predecessor.Some? {
      assert RowOk(db.runs[input.predecessor.value], db.now);
    }
    LineageNewRun(db, db');
  }

  lemma InsertKeeps(db: Db, input: RunInput, session: Option<SessionId>, capacity: Capacity)
    requires Inv(db) && LineageInputOk(db, input)
    requires PrepareRunAdmission(db, input.tenant, input.tokenBudget) == Ok(capacity)
    requires SessionFor(db, input) == Ok(session) && SessionAccepts(db, input, session)
    ensures Keeps(db, InsertRun(db, input, session, capacity))
  {
    hide RowsOk, FencingOk, OutboxOk, CapacityOk, LineageOk, SessionsOk, LineageInputOk;
    hide InsertRun, SessionFor, PrepareRunAdmission, FreshRun, Grown, Evolves;
    var db' := InsertRun(db, input, session, capacity);
    InsertShape(db, input, session, capacity);
    GrownEvolves(db, db');
    InsertedRows(db, db', input, session, capacity);
    InsertedFencing(db, db', input, session, capacity);
    InsertedOutbox(db, db', input, session, capacity);
    InsertedCapacity(db, db', input, session, capacity);
    InsertedLineage(db, db', input, session, capacity);
    SessionsInserted(db, input, session, capacity);
  }

  lemma CreateRunKeeps(db: Db, input: RunInput)
    requires Inv(db) && LineageInputOk(db, input) && CreateRun(db, input).Ok?
    ensures Keeps(db, CreateRun(db, input).value)
  {
    hide Inv, Evolves, InsertRun;
    ReconcileIsNoOp(db, input.tenant);
    var capacity := PrepareRunAdmission(db, input.tenant, input.tokenBudget).value;
    var session := SessionFor(db, input).value;
    var r := |db.runs|;
    var inserted := InsertRun(db, input, session, capacity);
    InsertKeeps(db, input, session, capacity);
    InsertShape(db, input, session, capacity);
    QueueKeeps(inserted, r);
    KeepsTransitive(db, inserted, CreateRun(db, input).value);
  }

  /** CREATED to RESOLVING to QUEUED. */
  lemma QueueKeeps(db: Db, r: RunId)
    requires Inv(db) && r < |db.runs| && db.runs[r].current.None?
    requires TransitionRun(db, r, {Created}, Resolving, RunCreated, None, KeepCurrent).Ok?
    ensures var resolving := TransitionRun(db, r, {Created}, Resolving, RunCreated, None, KeepCurrent).value;
            var queued := TransitionRun(resolving, r, {Resolving}, Queued, RunQueued, None, KeepCurrent);
            queued.Ok? ==> Keeps(db, queued.value)
  {
    hide Inv, Evolves;
    var resolving := TransitionRun(db, r, {Created}, Resolving, RunCreated, None, KeepCurrent).value;
    var queued := TransitionRun(resolving, r, {Resolving}, Queued, RunQueued, None, KeepCurrent);
    TransitionKeeps(db, r, {Created}, Resolving, RunCreated, None, KeepCurrent);
    if queued.Ok? {
      TransitionKeeps(resolving, r, {Resolving}, Queued, RunQueued, None, KeepCurrent);
      KeepsTransitive(db, resolving, queued.value);
    }
  }

  /** What creation leaves alone in the session table. */
  ghost predicate SessionsUndisturbed(db: Db, db': Db)
  {
    && |db'.sessions| == |db.sessions|
    && forall s :: 0 <= s < |db.sessions| ==>
         && db'.sessions[s].receivedSeq == db.sessions[s].receivedSeq
         && db'.sessions[s].tenant == db.sessions[s].tenant
         && (db'.sessions[s].state == SessionCancelled <==> db.sessions[s].state == SessionCancelled)
  }

  /** A created run is queued, carries its lineage and session, and is last in the table. */
  lemma CreateRunShape(db: Db, input: RunInput)
    requires Inv(db) && CreateRun(db, input).Ok?
    ensures var db' := CreateRun(db, input).value;
            && |db'.runs| == |db.runs| + 1
            && db'.runs[..|db.runs|] == db.runs
            && db'.runs[|db.runs|].status == Queued
            && db'.runs[|db.runs|].predecessor == input.predecessor
            && db'.runs[|db.runs|].parent == input.parent
            && db'.runs[|db.runs|].tenant == input.tenant
            && db'.runs[|db.runs|].generation == input.generation
            && (input.tokenBudget.Some? ==>
                  0 < input.tokenBudget.value && db'.runs[|db.runs|].tokenBudget == Some(input.tokenBudget.value))
            && db'.attempts == db.attempts && db'.inbound == db.inbound && db'.cfg == db.cfg && db'.now == db.now
            && SessionFor(db, input) == Ok(db'.runs[|db.runs|].session)
            && SessionsUndisturbed(db, db')
  {
    hide Inv;
    ReconcileIsNoOp(db, input.tenant);
    var capacity := PrepareRunAdmission(db, input.tenant, input.tokenBudget).value;
    var session := SessionFor(db, input).value;
    var inserted := InsertRun(db, input, session, capacity);
    assert inserted.runs[..|db.runs|] == db.runs;
    var db' := CreateRun(db, input).value;
    assert db'.runs[..|db.runs|] == inserted.runs[..|db.runs|];
  }
}
