/** What each kernel transaction must do, on table rows: when it succeeds, and then every row
    that changes. Stated for sound tables, where session rows follow their runs. */
module KernelOutcomes {
  import opened Prelude
  import opened RunStates
  import opened Tables
  import opened Kernel
  import opened Admissions
  import opened RowInvariants
  import opened Fencing
  import opened SessionInvariants
  import opened Invariants
  import opened Transactions

  // ------------------------------------------------------------------ vocabulary

  /** The run row one transition later: its ledger has one more event, a terminal status gives
      the admission back. */
  ghost predicate Takes(run: Run, run': Run, to: RunStatus, current: Option<AttemptId>,
                        kind: EventKind, attempt: Option<AttemptId>, now: nat)
  {
    run' == run.(
      status := to,
      current := current,
      lastEventSeq := |run.events| + 1,
      events := run.events + [Event(|run.events| + 1, kind, Some(Edge(run.status, to)), attempt, now)],
      admission := Admission(!IsTerminal(to), run.admission.reserved))
  }

  /** A top-level run's session shows its status and lets go of it at the end. */
  ghost function Shown(sessions: seq<Session>, r: RunId, run: Run, to: RunStatus): seq<Session>
  {
    if run.parent.None? && run.session.Some? && run.session.value < |sessions|
    then sessions[run.session.value := sessions[run.session.value].(
           state := Projection(to), current := if IsTerminal(to) then None else Some(r))]
    else sessions
  }

  /** The tables after one transition of run r, its publication and its session; `attempts` is
      the new attempt table. */
  ghost predicate Transitioned(db: Db, db': Db, r: RunId, to: RunStatus, current: Option<AttemptId>,
                               kind: EventKind, attempt: Option<AttemptId>, attempts: seq<Attempt>)
  {
    && r < |db.runs| == |db'.runs|
    && Takes(db.runs[r], db'.runs[r], to, current, kind, attempt, db.now)
    && db' == db.(
         runs := db.runs[r := db'.runs[r]],
         attempts := attempts,
         outbox := db.outbox + [OutboxRow(r, |db.runs[r].events| + 1)],
         sessions := Shown(db.sessions, r, db.runs[r], to))
  }

  /** What a session row shows of a top-level run. */
  lemma ProjectionMeans(s: RunStatus)
    ensures Projection(s) == Idle <==> s in {Completed, Failed, Cancelled}
    ensures Projection(s) == RequiresAction <==> s == WaitingApproval
    ensures Projection(s) == Waiting <==> s in {WaitingSignal, WaitingChildren, Sleeping, Suspended}
    ensures Projection(s) == Active <==> s in {Created, Resolving, Queued, Starting, Running, RetryPending, Verifying}
  {
  }

  lemma TransitionExact(db: Db, r: RunId, from: set<RunStatus>, to: RunStatus, kind: EventKind,
                        attempt: Option<AttemptId>, patch: CurrentPatch)
    requires Inv(db) && r < |db.runs|
    ensures TransitionRun(db, r, from, to, kind, attempt, patch).Ok? <==>
              && db.runs[r].status in from && IsTransitionAllowed(db.runs[r].status, to)
              && (IsTerminal(to) ==> db.runs[r].call.None?)
    ensures TransitionRun(db, r, from, to, kind, attempt, patch).Ok? ==>
              Transitioned(db, TransitionRun(db, r, from, to, kind, attempt, patch).value, r, to,
                           Patched(db.runs[r].current, patch), kind, attempt, db.attempts)
  {
    hide Inv, Moved, Takes, ProjectedSessions, Shown, IsTransitionAllowed, IsTerminal, Transitioned, Patched;
    if db.runs[r].status in from && IsTransitionAllowed(db.runs[r].status, to) {
      TransitionShape(db, r, to, kind, attempt, patch);
    }
  }

  /** The row updates of an allowed transition. */
  ghost function Transit(db: Db, r: RunId, to: RunStatus, kind: EventKind, attempt: Option<AttemptId>,
                         patch: CurrentPatch): Db
    requires r < |db.runs|
  {
    db.(runs := db.runs[r := Moved(db.runs[r], to, kind, attempt, patch, db.now)],
        outbox := db.outbox + [OutboxRow(r, db.runs[r].lastEventSeq + 1)],
        sessions := ProjectedSessions(db.sessions, r, db.runs[r], to))
  }

  lemma TransitionShape(db: Db, r: RunId, to: RunStatus, kind: EventKind,
                        attempt: Option<AttemptId>, patch: CurrentPatch)
    requires Inv(db) && r < |db.runs| && IsTransitionAllowed(db.runs[r].status, to)
    ensures Transitioned(db, Transit(db, r, to, kind, attempt, patch), r, to,
                         Patched(db.runs[r].current, patch), kind, attempt, db.attempts)
  {
    hide Inv, Moved, Takes, ProjectedSessions, Shown, IsTransitionAllowed, IsTerminal, Patched;
    EdgesLeaveLive(db.runs[r].status, to);
    MoveTakes(db, r, to, kind, attempt, patch);
    ProjectedIsShown(db, r, to);
  }

  lemma EdgesLeaveLive(from: RunStatus, to: RunStatus)
    ensures IsTransitionAllowed(from, to) ==> !IsTerminal(from)
  {
  }

  lemma MoveTakes(db: Db, r: RunId, to: RunStatus, kind: EventKind, attempt: Option<AttemptId>, patch: CurrentPatch)
    requires Inv(db) && r < |db.runs| && !IsTerminal(db.runs[r].status)
    ensures Takes(db.runs[r], Moved(db.runs[r], to, kind, attempt, patch, db.now), to,
                  Patched(db.runs[r].current, patch), kind, attempt, db.now)
    ensures db.runs[r].lastEventSeq == |db.runs[r].events|
  {
    hide Inv;
    SoundRow(db, r);
  }

  lemma ProjectedIsShown(db: Db, r: RunId, to: RunStatus)
    requires Inv(db) && r < |db.runs| && !IsTerminal(db.runs[r].status)
    ensures ProjectedSessions(db.sessions, r, db.runs[r], to) == Shown(db.sessions, r, db.runs[r], to)
  {
    hide Inv;
    LiveSessionShows(db, r);
  }

  lemma SoundRow(db: Db, r: RunId)
    requires Inv(db) && r < |db.runs|
    ensures db.runs[r].lastEventSeq == |db.runs[r].events|
    ensures db.runs[r].admission.active <==> !IsTerminal(db.runs[r].status)
    ensures IsExecuting(db.runs[r].status) ==> db.runs[r].current.Some?
    ensures db.runs[r].call.Some? ==> !IsTerminal(db.runs[r].status)
  {
    OwnerPresent(db, r);
    assert RowOk(db.runs[r], db.now);
  }

  /** A live top-level run is what its open session shows. */
  lemma LiveSessionShows(db: Db, r: RunId)
    requires Inv(db) && r < |db.runs| && !IsTerminal(db.runs[r].status)
    ensures db.runs[r].admission.active
    ensures db.runs[r].session.Some? ==> db.runs[r].session.value < |db.sessions|
    ensures db.runs[r].session.Some? && db.runs[r].parent.None? ==>
              var row := db.sessions[db.runs[r].session.value];
              row.current == Some(r) && row.state == Projection(db.runs[r].status) && !IsClosed(row.state)
  {
    assert RowOk(db.runs[r], db.now) && LivesInSession(db, r);
    if db.runs[r].session.Some? {
      assert MirrorsRun(db, db.runs[r].session.value);
    }
  }

  // -------------------------------------------------------------------- attempts

  /** Number no is the next one for run r: one above the highest given so far. */
  ghost predicate NextNumber(attempts: seq<Attempt>, r: RunId, no: nat)
  {
    && (forall a :: 0 <= a < |attempts| && attempts[a].run == r ==> attempts[a].no < no)
    && (no == 1 || exists a :: 0 <= a < |attempts| && attempts[a].run == r && attempts[a].no == no - 1)
  }

  lemma {:induction false} MaxIsAttained(attempts: seq<Attempt>, r: RunId)
    ensures NextNumber(attempts, r, MaxAttemptNo(attempts, r) + 1)
  {
    if attempts != [] {
      var n := |attempts| - 1;
      MaxIsAttained(attempts[..n], r);
      var no := MaxAttemptNo(attempts, r);
      if no != 0 && !(attempts[n].run == r && attempts[n].no == no) {
        var a :| 0 <= a < n && attempts[..n][a].run == r && attempts[..n][a].no == no;
        assert attempts[a].run == r && attempts[a].no == no;
      }
    }
  }

  /** Exactly a queued run can be claimed; the new attempt gets the next number and a lease. */
  lemma ClaimOutcome(db: Db, r: RunId, ttl: nat)
    requires Inv(db)
    ensures Claim(db, r, ttl).Ok? <==> r < |db.runs| && db.runs[r].status == Queued
    ensures Claim(db, r, ttl).Ok? ==>
              var a := |db.attempts|;
              exists no: nat :: NextNumber(db.attempts, r, no)
                && Transitioned(db, Claim(db, r, ttl).value, r, Starting, Some(a), AttemptStarted, Some(a),
                                db.attempts + [Attempt(r, no, ActiveAttempt, db.now + ttl)])
  {
    hide Inv, MaxAttemptNo, TransitionRun, NextNumber;
    if r < |db.runs| && db.runs[r].status == Queued {
      var row := Attempt(r, MaxAttemptNo(db.attempts, r) + 1, ActiveAttempt, db.now + ttl);
      MaxIsAttained(db.attempts, r);
      ClaimedAttempt(db, r, row);
      TransitionExact(db.(attempts := db.attempts + [row]), r, {Queued}, Starting, AttemptStarted,
                      Some(|db.attempts|), SetCurrent(|db.attempts|));
    }
  }

  /** Exactly a STARTING run can be set running. */
  lemma StartOutcome(db: Db, a: AttemptId)
    requires Inv(db)
    ensures StartRunning(db, a).Ok? <==> a < |db.attempts| && db.runs[RunOf(db, a)].status == Starting
    ensures StartRunning(db, a).Ok? ==>
              Transitioned(db, StartRunning(db, a).value, RunOf(db, a), Running, db.runs[RunOf(db, a)].current,
                           AttemptStarted, Some(a), db.attempts)
  {
    hide TransitionRun;
    if a < |db.attempts| {
      TransitionExact(db, db.attempts[a].run, {Starting}, Running, AttemptStarted, Some(a), KeepCurrent);
    }
  }

  /** The run of a sound attempt row. */
  ghost function RunOf(db: Db, a: AttemptId): RunId
    requires Inv(db) && a < |db.attempts|
    ensures RunOf(db, a) < |db.runs|
  {
    db.attempts[a].run
  }

  /** The one status an epoch's move starts from, and where it leads. */
  ghost predicate MoveRuns(move: EpochMove, from: RunStatus, to: RunStatus, kind: EventKind)
  {
    match move
    case SuspendForApproval => from == Running && to == WaitingApproval && kind == ApprovalRequested
    case SuspendForSignal => from == Running && to == WaitingSignal && kind == SignalReceived
    case StartVerifying => from == Running && to == Verifying && kind == VerificationStarted
    case VerificationRejected => from == Verifying && to == Running && kind == VerificationFailed
    case CompleteRun => from == Verifying && to == Completed && kind == RunCompleted
    case GiveUp => from == Running && to == Failed && kind == RunFailed
  }

  /** An epoch's move succeeds exactly from its status, a terminal one only between calls. */
  lemma EpochOutcome(db: Db, a: AttemptId, move: EpochMove, from: RunStatus, to: RunStatus, kind: EventKind)
    requires Inv(db) && MoveRuns(move, from, to, kind)
    ensures Epoch(db, a, move).Ok? <==>
              && a < |db.attempts| && db.runs[RunOf(db, a)].status == from
              && (IsTerminal(to) ==> db.runs[RunOf(db, a)].call.None?)
    ensures Epoch(db, a, move).Ok? ==>
              Transitioned(db, Epoch(db, a, move).value, RunOf(db, a), to, db.runs[RunOf(db, a)].current,
                           kind, Some(a), db.attempts)
  {
    hide TransitionRun, Transitioned;
    if a < |db.attempts| {
      TransitionExact(db, db.attempts[a].run, {from}, to, kind, Some(a), KeepCurrent);
    }
  }

  // ------------------------------------------------------ leaving and taking over

  function Retired(attempts: seq<Attempt>, a: AttemptId, state: AttemptState): seq<Attempt>
    requires a < |attempts|
  {
    attempts[a := attempts[a].(state := state)]
  }

  lemma RetireExact(db: Db, a: AttemptId, state: AttemptState, from: set<RunStatus>, to: RunStatus, kind: EventKind,
                    patch: CurrentPatch)
    requires Inv(db) && a < |db.attempts| && db.attempts[a].state == ActiveAttempt && state != ActiveAttempt
    ensures var r := RunOf(db, a);
            var moved := TransitionRun(WithAttemptState(db, a, state), r, from, to, kind, Some(a), patch);
            && (moved.Ok? <==> && db.runs[r].status in from && IsTransitionAllowed(db.runs[r].status, to)
                               && (IsTerminal(to) ==> db.runs[r].call.None?))
            && (moved.Ok? ==> Transitioned(db, moved.value, r, to, Patched(db.runs[r].current, patch), kind, Some(a),
                                           Retired(db.attempts, a, state)))
  {
    hide TransitionRun;
    AttemptKeeps(db, a, db.attempts[a].(state := state));
    TransitionExact(WithAttemptState(db, a, state), db.attempts[a].run, from, to, kind, Some(a), patch);
  }

  /** Settling an active attempt between calls: a settled epoch just ends it; a failed one below
      the attempt limit requeues the run on its account, at the limit fails it; exhausting the
      budget fails it. */
  lemma SettleOutcome(db: Db, a: AttemptId, reason: ExitReason)
    requires Inv(db) && a < |db.attempts| && db.attempts[a].state == ActiveAttempt
    requires db.runs[RunOf(db, a)].call.None? && !reason.LeaseLost?
    ensures var r, no, exited := RunOf(db, a), db.attempts[a].no, Retired(db.attempts, a, Exited);
            var settled := Settle(db, a, reason);
            match reason
            case SettledByEpoch => settled == Ok(db.(attempts := exited))
            case BudgetExhausted =>
              && (settled.Ok? <==> db.runs[r].status == Running)
              && (settled.Ok? ==> Transitioned(db, settled.value, r, Failed, db.runs[r].current, RunFailed, Some(a), exited))
            case EpochError =>
              && (settled.Ok? <==> db.runs[r].status in {Starting, Running, Verifying})
              && (settled.Ok? && no < db.cfg.maxAttempts ==>
                    Transitioned(db, settled.value, r, Queued, None, RetryScheduled(no), Some(a), exited))
              && (settled.Ok? && no >= db.cfg.maxAttempts ==>
                    Transitioned(db, settled.value, r, Failed, db.runs[r].current, RunFailed, Some(a), exited))
  {
    hide TransitionRun, Transitioned;
    var no := db.attempts[a].no;
    RetireExact(db, a, Exited, {Running}, Failed, RunFailed, KeepCurrent);
    RetireExact(db, a, Exited, {Running, Starting, Verifying}, Failed, RunFailed, KeepCurrent);
    RetireExact(db, a, Exited, {Running, Starting, Verifying}, Queued, RetryScheduled(no), ClearCurrent);
  }

  /** Otherwise settling leaves every table alone: it waits for a call in flight, and a lost
      lease or an attempt that is already over has nothing to settle. */
  lemma SettleLeavesAlone(db: Db, a: AttemptId, reason: ExitReason)
    requires Inv(db)
    ensures reason.LeaseLost? ==> Settle(db, a, reason) == Ok(db)
    ensures !reason.LeaseLost? && a >= |db.attempts| ==> Settle(db, a, reason).Err?
    ensures !reason.LeaseLost? && a < |db.attempts| && db.runs[RunOf(db, a)].call.Some? ==>
              Settle(db, a, reason) == Err(LockHeld)
    ensures a < |db.attempts| && db.runs[RunOf(db, a)].call.None? && db.attempts[a].state != ActiveAttempt ==>
              Settle(db, a, reason) == Ok(db)
  {
    hide TransitionRun;
  }

  /** An attempt can be reaped exactly when it is active, its lease has passed and no provider
      call is in flight; its executing run is requeued below the limit and failed at it, any
      other run is left alone. */
  lemma ReapOutcome(db: Db, a: AttemptId)
    requires Inv(db)
    ensures Reap(db, a).Ok? <==>
              && a < |db.attempts| && db.attempts[a].state == ActiveAttempt && db.attempts[a].leaseUntil < db.now
              && db.runs[RunOf(db, a)].call.None?
    ensures Reap(db, a).Ok? ==>
              var r, no, orphaned := RunOf(db, a), db.attempts[a].no, Retired(db.attempts, a, Orphaned);
              var db' := Reap(db, a).value;
              if db.runs[r].status !in {Starting, Running, Verifying} then db' == db.(attempts := orphaned)
              else if no < db.cfg.maxAttempts then
                Transitioned(db, db', r, Queued, None, AttemptOrphaned(no), Some(a), orphaned)
              else Transitioned(db, db', r, Failed, db.runs[r].current, RunFailed, Some(a), orphaned)
  {
    hide TransitionRun, Transitioned;
    if Reapable(db, a) {
      var no := db.attempts[a].no;
      RetireExact(db, a, Orphaned, {Starting, Running, Verifying}, Failed, RunFailed, KeepCurrent);
      RetireExact(db, a, Orphaned, {Starting, Running, Verifying}, Queued, AttemptOrphaned(no), ClearCurrent);
    }
  }

  /** The attempt table once the run's active owner has been told to stop. */
  function OwnerFenced(attempts: seq<Attempt>, current: Option<AttemptId>): seq<Attempt> {
    if current.Some? && current.value < |attempts| && attempts[current.value].state == ActiveAttempt
    then Retired(attempts, current.value, Exited) else attempts
  }

  /** Every live run can be cancelled between provider calls; its owner is fenced. */
  lemma CancelOutcome(db: Db, r: RunId)
    requires Inv(db)
    ensures CancelRun(db, r).Ok? <==> r < |db.runs| && !IsTerminal(db.runs[r].status) && db.runs[r].call.None?
    ensures CancelRun(db, r).Ok? ==>
              Transitioned(db, CancelRun(db, r).value, r, Cancelled, db.runs[r].current, RunCancelled, None,
                           OwnerFenced(db.attempts, db.runs[r].current))
  {
    hide Inv, TransitionRun;
    if r < |db.runs| {
      TerminalMeansNoEdge(db.runs[r].status);
      TransitionExact(db, r, {db.runs[r].status}, Cancelled, RunCancelled, None, KeepCurrent);
    }
  }

  /** A decision or signal wakes exactly a run that waits for one: it queues without an owner. */
  lemma ResumeOutcome(db: Db, r: RunId, from: RunStatus, kind: EventKind)
    requires Inv(db) && (from == WaitingApproval || from == WaitingSignal)
    ensures Resume(db, r, from, kind).Ok? <==> r < |db.runs| && db.runs[r].status == from
    ensures Resume(db, r, from, kind).Ok? ==>
              Transitioned(db, Resume(db, r, from, kind).value, r, Queued, None, kind, None, db.attempts)
  {
    hide Inv;
    if r < |db.runs| {
      TransitionExact(db, r, {from}, Queued, kind, None, ClearCurrent);
    }
  }

  /** A heartbeat renews the lease exactly while the attempt is active. */
  lemma HeartbeatOutcome(db: Db, a: AttemptId, ttl: nat)
    ensures Heartbeat(db, a, ttl) == Ok(
              if a < |db.attempts| && db.attempts[a].state == ActiveAttempt
              then db.(attempts := db.attempts[a := Attempt(db.attempts[a].run, db.attempts[a].no, ActiveAttempt, db.now + ttl)])
              else db)
  {
  }

  // ------------------------------------------------------------------ model calls

  /** One more event on the run's ledger and in the outbox; `call` and `used` are the new columns. */
  ghost predicate Noted(db: Db, db': Db, r: RunId, kind: EventKind, attempt: Option<AttemptId>,
                        call: Option<ModelCall>, used: nat)
  {
    && r < |db.runs|
    && var run := db.runs[r];
       db' == db.(
         runs := db.runs[r := run.(
           lastEventSeq := |run.events| + 1,
           events := run.events + [Event(|run.events| + 1, kind, None, attempt, db.now)],
           call := call, tokensUsed := used)],
         outbox := db.outbox + [OutboxRow(r, |run.events| + 1)])
  }

  /** A call may begin exactly for the running run's active owner and while no other call is in
      flight. It is then in flight exactly when the prompt and at least one token of answer fit
      what is left of the budget, and may answer with the least of what was asked for, what is
      left, and the largest safe integer. */
  lemma BeginOutcome(db: Db, r: RunId, a: AttemptId, ceiling: nat, requestedMax: Option<JsNumber>, defaultMax: nat)
    requires Inv(db)
    ensures BeginModelInvocation(db, r, a, ceiling, requestedMax, defaultMax).Ok? <==>
              && r < |db.runs| && db.runs[r].call.None? && db.runs[r].status == Running && db.runs[r].current == Some(a)
              && a < |db.attempts| && db.attempts[a].run == r && db.attempts[a].state == ActiveAttempt
    ensures BeginModelInvocation(db, r, a, ceiling, requestedMax, defaultMax).Ok? ==>
              var db' := BeginModelInvocation(db, r, a, ceiling, requestedMax, defaultMax).value;
              var run := db.runs[r];
              && r < |db'.runs|
              && Noted(db, db', r, ModelInvocationStarted, Some(a), db'.runs[r].call, run.tokensUsed)
              && (db'.runs[r].call.Some? <==>
                    run.tokenBudget.Some? ==> run.tokensUsed + ceiling + 1 <= run.tokenBudget.value)
              && (db'.runs[r].call.Some? ==>
                    && db'.runs[r].call.value.attempt == a && db'.runs[r].call.value.inputCeiling == ceiling
                    && IsLeastOf(db'.runs[r].call.value.maxTokens, AskedFor(requestedMax, defaultMax),
                                 if run.tokenBudget.None? then None else Some(run.tokenBudget.value - run.tokensUsed - ceiling)))
  {
    hide Inv;
    if r < |db.runs| {
      SoundRow(db, r);
    }
  }

  /** The whole tokens of a positive finite request, else the default. */
  ghost function AskedFor(requestedMax: Option<JsNumber>, defaultMax: nat): nat
  {
    if requestedMax.Some? && requestedMax.value.Finite? && requestedMax.value.value > 0.0
    then requestedMax.value.value.Floor else defaultMax
  }

  ghost predicate IsLeastOf(max: nat, asked: nat, remaining: Option<int>)
  {
    if remaining.None? then max == asked
    else
      && max <= asked && max <= remaining.value && max <= MAX_SAFE_INTEGER
      && (max == asked || max == remaining.value || max == MAX_SAFE_INTEGER)
  }

  /** A call in flight can be completed, metering exactly its tokens, and can be abandoned. */
  lemma CompleteOutcome(db: Db, r: RunId, inputTokens: nat, outputTokens: nat)
    requires Inv(db)
    ensures CompleteModelInvocation(db, r, inputTokens, outputTokens).Ok? <==> r < |db.runs| && db.runs[r].call.Some?
    ensures CompleteModelInvocation(db, r, inputTokens, outputTokens).Ok? ==>
              Noted(db, CompleteModelInvocation(db, r, inputTokens, outputTokens).value, r,
                    ModelInvocationCompleted(inputTokens, outputTokens), Some(db.runs[r].call.value.attempt),
                    None, db.runs[r].tokensUsed + inputTokens + outputTokens)
    ensures AbandonModelInvocation(db, r).Ok? <==> r < |db.runs| && db.runs[r].call.Some?
    ensures AbandonModelInvocation(db, r).Ok? ==>
              AbandonModelInvocation(db, r).value == db.(runs := db.runs[r := db.runs[r].(call := None)])
  {
    hide Inv;
    if r < |db.runs| {
      SoundRow(db, r);
    }
  }
}
