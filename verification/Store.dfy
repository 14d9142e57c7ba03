/** The kernel's transactions as the source runs them: row by row updates of the tables in
    place, rolled back when one fails. Every method is proved against the function of the
    same name on whole tables. */
module Store {
  import opened Prelude
  import opened RunStates
  import opened Tables
  import opened Kernel
  import opened Admissions

  /** A transaction took the step its specification allows, or failed and left no trace. */
  ghost predicate Did(tx: Tx, before: Db, after: Db, failure: Option<KernelError>)
  {
    match tx
    case Ok(db) => failure.None? && after == db
    case Err(e) => failure == Some(e) && after == before
  }

  class Database {
    const cfg: Config
    const tenants: seq<Tenant>
    var runs: seq<Run>
    var attempts: seq<Attempt>
    var outbox: seq<OutboxRow>
    var sessions: seq<Session>
    var inbound: seq<Inbound>
    var now: nat

    constructor (cfg: Config, tenants: seq<Tenant>)
      ensures Snapshot() == Db(cfg, tenants, [], [], [], [], [], 0)
    {
      this.cfg, this.tenants := cfg, tenants;
      runs, attempts, outbox, sessions, inbound, now := [], [], [], [], [], 0;
    }

    function Snapshot(): Db
      reads this
    {
      Db(cfg, tenants, runs, attempts, outbox, sessions, inbound, now)
    }

    /** Roll back to a savepoint. */
    method Restore(saved: Db)
      requires saved.cfg == cfg && saved.tenants == tenants
      modifies this
      ensures Snapshot() == saved
    {
      runs, attempts, outbox := saved.runs, saved.attempts, saved.outbox;
      sessions, inbound, now := saved.sessions, saved.inbound, saved.now;
    }

    // ------------------------------------------------------ src/core/transition.ts

    /** Append a ledger row and its outbox row. */
    method InsertEvent(r: RunId, kind: EventKind, edge: Option<Edge>, attempt: Option<AttemptId>)
      requires r < |runs|
      modifies this`runs, this`outbox
      ensures runs == old(runs)[r := Recorded(old(runs[r]), kind, edge, attempt, now)]
      ensures outbox == old(outbox) + [OutboxRow(r, old(runs[r]).lastEventSeq + 1)]
    {
      var number := runs[r].lastEventSeq + 1;
      runs := runs[r := runs[r].(events := runs[r].events + [Event(number, kind, edge, attempt, now)])];
      outbox := outbox + [OutboxRow(r, number)];
      runs := runs[r := runs[r].(lastEventSeq := number)];
    }

    method ReleaseAdmission(r: RunId)
      requires r < |runs|
      modifies this`runs
      ensures runs == old(runs)[r := old(runs[r]).(admission := old(runs[r]).admission.(active := false))]
    {
      if runs[r].admission.active {
        runs := runs[r := runs[r].(admission := runs[r].admission.(active := false))];
      }
    }

    method ProjectToSession(r: RunId, run: Run, to: RunStatus)
      modifies this`sessions
      ensures sessions == ProjectedSessions(old(sessions), r, run, to)
    {
      if run.session.None? || run.parent.Some? || run.session.value >= |sessions| {
        return;
      }
      var row := sessions[run.session.value];
      var state := Projection(to);
      var clear := IsTerminal(to);
      if row.current == Some(r) && !IsClosed(row.state) && (row.state != state || clear) {
        sessions := sessions[run.session.value := row.(state := state, current := if clear then None else row.current)];
      }
    }

    method TransitionRun(r: RunId, expectFrom: set<RunStatus>, to: RunStatus, kind: EventKind,
                         attempt: Option<AttemptId>, patch: CurrentPatch)
      returns (failure: Option<KernelError>)
      modifies this
      ensures Did(Kernel.TransitionRun(old(Snapshot()), r, expectFrom, to, kind, attempt, patch),
                  old(Snapshot()), Snapshot(), failure)
    {
      hide ProjectedSessions, Patched, IsTransitionAllowed;
      if r >= |runs| {
        return Some(RunNotFound);
      }
      var run := runs[r];
      if IsTerminal(to) && run.call.Some? {
        return Some(LockHeld);
      }
      if run.status !in expectFrom {
        return Some(UnexpectedStatus(run.status));
      }
      if !IsTransitionAllowed(run.status, to) {
        return Some(InvalidTransition(run.status, to));
      }
      InsertEvent(r, kind, Some(Edge(run.status, to)), attempt);
      runs := runs[r := runs[r].(status := to, current := Patched(run.current, patch))];
      if IsTerminal(to) {
        ReleaseAdmission(r);
      }
      ProjectToSession(r, run, to);
      return None;
    }

    method AppendEvent(r: RunId, kind: EventKind, attempt: Option<AttemptId>) returns (failure: Option<KernelError>)
      modifies this
      ensures Did(Kernel.AppendEvent(old(Snapshot()), r, kind, attempt), old(Snapshot()), Snapshot(), failure)
    {
      if r >= |runs| {
        return Some(RunNotFound);
      }
      InsertEvent(r, kind, None, attempt);
      return None;
    }

    // ---------------------------------------- src/scheduler/claim.ts, src/store/attempts.ts

    /** SELECT MAX(attempt_no) of a run's attempts. */
    method HighestNumber(r: RunId) returns (no: nat)
      ensures no == MaxAttemptNo(attempts, r)
    {
      no := 0;
      for i := 0 to |attempts|
        invariant no == MaxAttemptNo(attempts[..i], r)
      {
        assert attempts[..i + 1][..i] == attempts[..i];
        if attempts[i].run == r && attempts[i].no > no {
          no := attempts[i].no;
        }
      }
      assert attempts[..|attempts|] == attempts;
    }

    method ClaimRun(r: RunId, ttl: nat) returns (failure: Option<KernelError>)
      modifies this
      ensures Did(Claim(old(Snapshot()), r, ttl), old(Snapshot()), Snapshot(), failure)
    {
      if r >= |runs| || runs[r].status != Queued {
        return Some(NotClaimable);
      }
      var saved := Snapshot();
      var highest := HighestNumber(r);
      var a := |attempts|;
      attempts := attempts + [Attempt(r, highest + 1, ActiveAttempt, now + ttl)];
      failure := TransitionRun(r, {Queued}, Starting, AttemptStarted, Some(a), SetCurrent(a));
      if failure.Some? {
        Restore(saved);
      }
    }

    /** Renew the lease; false tells the worker that it has been fenced off. */
    method Heartbeat(a: AttemptId, ttl: nat) returns (renewed: bool)
      modifies this`attempts
      ensures Ok(Snapshot()) == Kernel.Heartbeat(old(Snapshot()), a, ttl)
      ensures renewed <==> a < |old(attempts)| && old(attempts[a]).state == ActiveAttempt
    {
      if a >= |attempts| || attempts[a].state != ActiveAttempt {
        return false;
      }
      attempts := attempts[a := attempts[a].(leaseUntil := now + ttl)];
      return true;
    }

    method ExitAttempt(a: AttemptId) returns (owned: bool)
      modifies this`attempts
      ensures Snapshot() == ExitIfActive(old(Snapshot()), Some(a))
      ensures owned <==> a < |old(attempts)| && old(attempts[a]).state == ActiveAttempt
    {
      if a >= |attempts| || attempts[a].state != ActiveAttempt {
        return false;
      }
      attempts := attempts[a := attempts[a].(state := Exited)];
      return true;
    }

    // ------------------------------------------------------- src/harness/worker.ts

    method SettleAttempt(a: AttemptId, reason: ExitReason) returns (failure: Option<KernelError>)
      modifies this
      ensures Did(Settle(old(Snapshot()), a, reason), old(Snapshot()), Snapshot(), failure)
    {
      if reason.LeaseLost? {
        return None;
      }
      if a >= |attempts| || attempts[a].run >= |runs| {
        return Some(NotOwner);
      }
      var row := attempts[a];
      if runs[row.run].call.Some? {
        return Some(LockHeld);
      }
      var saved := Snapshot();
      var owned := ExitAttempt(a);
      if !owned {
        return None;
      }
      failure := None;
      if reason.BudgetExhausted? {
        failure := TransitionRun(row.run, {Running}, Failed, RunFailed, Some(a), KeepCurrent);
      } else if reason.EpochError? && row.no >= cfg.maxAttempts {
        failure := TransitionRun(row.run, {Running, Starting, Verifying}, Failed, RunFailed, Some(a), KeepCurrent);
      } else if reason.EpochError? {
        failure := TransitionRun(row.run, {Running, Starting, Verifying}, Queued, RetryScheduled(row.no), Some(a), ClearCurrent);
      }
      if failure.Some? {
        Restore(saved);
      }
    }

    // ---------------------------------------------------- src/scheduler/reaper.ts

    /** The expired attempt with the oldest lease whose run has no provider call in flight. */
    method NextExpired() returns (found: Option<AttemptId>)
      ensures found.Some? ==>
        && Reapable(Snapshot(), found.value)
        && forall b :: 0 <= b < |attempts| && Reapable(Snapshot(), b) ==>
             attempts[found.value].leaseUntil <= attempts[b].leaseUntil
      ensures found.None? ==> forall b :: 0 <= b < |attempts| ==> !Reapable(Snapshot(), b)
    {
      found := None;
      for i := 0 to |attempts|
        invariant found.Some? ==>
          && found.value < i && Reapable(Snapshot(), found.value)
          && forall b :: 0 <= b < i && Reapable(Snapshot(), b) ==>
               attempts[found.value].leaseUntil <= attempts[b].leaseUntil
        invariant found.None? ==> forall b :: 0 <= b < i ==> !Reapable(Snapshot(), b)
      {
        if Reapable(Snapshot(), i) && (found.None? || attempts[i].leaseUntil < attempts[found.value].leaseUntil) {
          found := Some(i);
        }
      }
    }

    /** One reaper transaction. */
    method ReapAttempt(a: AttemptId) returns (failure: Option<KernelError>)
      modifies this
      ensures Did(Reap(old(Snapshot()), a), old(Snapshot()), Snapshot(), failure)
    {
      if !Reapable(Snapshot(), a) {
        return Some(NotReapable);
      }
      var saved := Snapshot();
      var row := attempts[a];
      attempts := attempts[a := row.(state := Orphaned)];
      failure := None;
      if !IsExecuting(runs[row.run].status) {
        return None;
      }
      if row.no >= cfg.maxAttempts {
        failure := TransitionRun(row.run, {Starting, Running, Verifying}, Failed, RunFailed, Some(a), KeepCurrent);
      } else {
        failure := TransitionRun(row.run, {Starting, Running, Verifying}, Queued, AttemptOrphaned(row.no), Some(a), ClearCurrent);
      }
      if failure.Some? {
        Restore(saved);
      }
    }

    /** Reap until no expired attempt is left. */
    method ReapExpiredLeases() returns (reaped: seq<AttemptId>)
      modifies this
      ensures ReapAll(old(Snapshot()), reaped) == Ok(Snapshot())
      ensures forall a :: 0 <= a < |attempts| ==> !Reapable(Snapshot(), a)
    {
      reaped := [];
      ghost var start := Snapshot();
      while true
        invariant ReapAll(start, reaped) == Ok(Snapshot())
        invariant start == old(Snapshot())
        decreases ActiveAttempts(attempts)
      {
        var next := NextExpired();
        if next.None? {
          return;
        }
        ghost var before := Snapshot();
        var failure := ReapAttempt(next.value);
        ReapSucceeds(before, next.value);
        assert (reaped + [next.value])[..|reaped|] == reaped;
        reaped := reaped + [next.value];
      }
    }

    // ---------------------------------------------------- src/store/admissions.ts

    /** Release the reservations that terminal runs of the tenant left active. */
    method ReconcileAdmissions(t: TenantId)
      modifies this`runs
      ensures Snapshot() == ReconcileTerminal(old(Snapshot()), t)
    {
      ghost var before := runs;
      for i := 0 to |runs|
        invariant |runs| == |before|
        invariant forall j :: 0 <= j < i ==> runs[j] == Reconciled(before[j], t)
        invariant forall j :: i <= j < |runs| ==> runs[j] == before[j]
      {
        if runs[i].tenant == t && runs[i].admission.active && IsTerminal(runs[i].status) {
          runs := runs[i := runs[i].(admission := runs[i].admission.(active := false))];
        }
      }
    }

    /** The three totals the decision is made on, each in one pass over the rows. */
    method TenantTotals(t: TenantId) returns (active: int, usedToday: int, reserved: int)
      ensures active == ActiveCount(Snapshot(), t)
      ensures usedToday == UsedToday(Snapshot(), t)
      ensures reserved == RemainingReserved(Snapshot(), t)
    {
      active, usedToday, reserved := 0, 0, 0;
      for i := 0 to |runs|
        invariant active == Sum(OccupiedByRun(runs[..i], t))
        invariant usedToday == Sum(UsedByRun(runs[..i], t, Day(now)))
        invariant reserved == Sum(UnspentByRun(runs[..i], t))
      {
        TotalsStep(runs, i, t, Day(now));
        var used := MeteredOn(runs[i].events, Day(now));
        if runs[i].tenant == t {
          usedToday := usedToday + used;
          if runs[i].admission.active {
            active := active + 1;
            reserved := reserved + Max(runs[i].admission.reserved - runs[i].tokensUsed, 0);
          }
        }
      }
      assert runs[..|runs|] == runs;
    }

    method PrepareRunAdmission(t: TenantId, requested: Option<int>) returns (capacity: Result<Capacity, KernelError>)
      requires t < |tenants| && tenants[t].active
      modifies this`runs
      ensures Snapshot() == ReconcileTerminal(old(Snapshot()), t)
      ensures capacity == Admissions.PrepareRunAdmission(Snapshot(), t, requested)
    {
      ReconcileAdmissions(t);
      var active, usedToday, reserved := TenantTotals(t);
      if tenants[t].maxConcurrent.Some? && active >= tenants[t].maxConcurrent.value {
        return Err(AdmissionRejected(ConcurrencyExhausted));
      }
      if requested.Some? && requested.value <= 0 {
        return Err(AdmissionRejected(TokenCapacityExhausted));
      }
      if tenants[t].dailyBudget.None? {
        return Ok(if requested.Some? then Capacity(requested.value, Some(requested.value)) else Capacity(0, None));
      }
      var available := tenants[t].dailyBudget.value - usedToday - reserved;
      var reservation := if requested.Some? then requested.value else available;
      if reservation <= 0 || reservation > available {
        return Err(AdmissionRejected(TokenCapacityExhausted));
      }
      return Ok(Capacity(reservation, Some(reservation)));
    }

    // ---------------------------------------------------------- src/store/runs.ts

    method CreateRun(input: RunInput) returns (failure: Option<KernelError>)
      modifies this
      ensures Did(Admissions.CreateRun(old(Snapshot()), input), old(Snapshot()), Snapshot(), failure)
    {
      if input.tenant >= |tenants| || !tenants[input.tenant].active {
        return Some(AdmissionRejected(TenantUnavailable));
      }
      var saved := Snapshot();
      var capacity := PrepareRunAdmission(input.tenant, input.tokenBudget);
      if capacity.Err? {
        Restore(saved);
        return Some(capacity.error);
      }
      var session := SessionFor(Snapshot(), input);
      if session.Err? {
        Restore(saved);
        return Some(session.error);
      }
      if !SessionAccepts(Snapshot(), input, session.value) || !input.agentVersionOwned {
        failure := Some(if SessionAccepts(Snapshot(), input, session.value) then AgentVersionMismatch else SessionRejected);
        Restore(saved);
        return;
      }
      var r := |runs|;
      runs := runs + [FreshRun(input, session.value, capacity.value)];
      if session.value.Some? && input.parent.None? {
        sessions := sessions[session.value.value :=
          sessions[session.value.value].(state := Active, current := Some(r))];
      }
      failure := TransitionRun(r, {Created}, Resolving, RunCreated, None, KeepCurrent);
      if failure.None? {
        failure := TransitionRun(r, {Resolving}, Queued, RunQueued, None, KeepCurrent);
      }
      if failure.Some? {
        Restore(saved);
      }
    }

    // ------------------------------------------------------ src/store/modelUsage.ts

    /** Take the run's invocation lock; `granted` is the ceiling the provider call must respect. */
    method BeginModelInvocation(r: RunId, a: AttemptId, inputCeiling: nat, requestedMax: Option<JsNumber>, defaultMax: nat)
      returns (failure: Option<KernelError>, granted: Option<ModelLimit>)
      modifies this
      ensures Did(Kernel.BeginModelInvocation(old(Snapshot()), r, a, inputCeiling, requestedMax, defaultMax),
                  old(Snapshot()), Snapshot(), failure)
      ensures granted.Some? ==>
        failure.None? && r < |runs| && runs[r].call == Some(ModelCall(a, inputCeiling, granted.value.maxTokens))
    {
      granted := None;
      if r >= |runs| {
        return Some(RunNotFound), None;
      }
      if runs[r].call.Some? {
        return Some(LockHeld), None;
      }
      if !OwnsRunning(Snapshot(), r, a) {
        return Some(NotOwner), None;
      }
      granted := LimitModelInvocation(runs[r].tokenBudget, runs[r].tokensUsed, inputCeiling, requestedMax, defaultMax);
      failure := AppendEvent(r, ModelInvocationStarted, Some(a));
      if granted.Some? {
        runs := runs[r := runs[r].(call := Some(ModelCall(a, inputCeiling, granted.value.maxTokens)))];
      }
    }

    method CompleteModelInvocation(r: RunId, inputTokens: nat, outputTokens: nat) returns (failure: Option<KernelError>)
      modifies this
      ensures Did(Kernel.CompleteModelInvocation(old(Snapshot()), r, inputTokens, outputTokens),
                  old(Snapshot()), Snapshot(), failure)
    {
      if r >= |runs| || runs[r].call.None? {
        return Some(NotInvoking);
      }
      var used := runs[r].tokensUsed;
      failure := AppendEvent(r, ModelInvocationCompleted(inputTokens, outputTokens), Some(runs[r].call.value.attempt));
      runs := runs[r := runs[r].(tokensUsed := used + inputTokens + outputTokens, call := None)];
    }

  }

  // ------------------------------------------------------------------------- reaping

  function ReapAll(db: Db, ids: seq<AttemptId>): Tx
    decreases |ids|
  {
    if ids == [] then Ok(db)
    else
      var before :- ReapAll(db, ids[..|ids| - 1]);
      Reap(before, ids[|ids| - 1])
  }

  function ActiveAttempts(attempts: seq<Attempt>): nat
  {
    if attempts == [] then 0
    else ActiveAttempts(attempts[..|attempts| - 1]) + (if attempts[|attempts| - 1].state == ActiveAttempt then 1 else 0)
  }

  lemma {:induction false} ActiveAttemptsFalls(attempts: seq<Attempt>, a: AttemptId, row: Attempt)
    requires a < |attempts| && attempts[a].state == ActiveAttempt && row.state != ActiveAttempt
    ensures ActiveAttempts(attempts[a := row]) == ActiveAttempts(attempts) - 1
  {
    var n := |attempts| - 1;
    if a == n {
      assert attempts[a := row][..n] == attempts[..n];
    } else {
      ActiveAttemptsFalls(attempts[..n], a, row);
      assert attempts[a := row][..n] == attempts[..n][a := row];
    }
  }

  /** Reaping an expired attempt never fails and leaves one active attempt less. */
  lemma ReapSucceeds(db: Db, a: AttemptId)
    requires Reapable(db, a)
    ensures Reap(db, a).Ok?
    ensures ActiveAttempts(Reap(db, a).value.attempts) < ActiveAttempts(db.attempts)
  {
    ActiveAttemptsFalls(db.attempts, a, db.attempts[a].(state := Orphaned));
  }

  // ---------------------------------------------------------------------- admissions

  lemma TotalsStep(runs: seq<Run>, i: nat, t: TenantId, day: nat)
    requires i < |runs|
    ensures Sum(OccupiedByRun(runs[..i + 1], t)) == Sum(OccupiedByRun(runs[..i], t)) + Occupies(runs[i], t)
    ensures Sum(UsedByRun(runs[..i + 1], t, day)) == Sum(UsedByRun(runs[..i], t, day)) + UsedOn(runs[i], t, day)
    ensures Sum(UnspentByRun(runs[..i + 1], t)) == Sum(UnspentByRun(runs[..i], t)) + Unspent(runs[i], t)
  {
    assert OccupiedByRun(runs[..i + 1], t) == OccupiedByRun(runs[..i], t) + [Occupies(runs[i], t)];
    assert UsedByRun(runs[..i + 1], t, day) == UsedByRun(runs[..i], t, day) + [UsedOn(runs[i], t, day)];
    assert UnspentByRun(runs[..i + 1], t) == UnspentByRun(runs[..i], t) + [Unspent(runs[i], t)];
    SumAppend(OccupiedByRun(runs[..i], t), Occupies(runs[i], t));
    SumAppend(UsedByRun(runs[..i], t, day), UsedOn(runs[i], t, day));
    SumAppend(UnspentByRun(runs[..i], t), Unspent(runs[i], t));
  }

  /** The usage a ledger records for one day. */
  method MeteredOn(events: seq<Event>, day: nat) returns (used: nat)
    ensures used == DayUsage(events, day)
  {
    used := 0;
    for i := 0 to |events|
      invariant used == DayUsage(events[..i], day)
    {
      assert events[..i + 1][..i] == events[..i];
      if events[i].kind.ModelInvocationCompleted? && Day(events[i].at) == day {
        used := used + events[i].kind.inputTokens + events[i].kind.outputTokens;
      }
    }
    assert events[..|events|] == events;
  }
}
