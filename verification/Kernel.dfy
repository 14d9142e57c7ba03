/** Transactions of the run kernel and scheduler, each as one atomic step on the
    tables: src/core/transition.ts, src/store/attempts.ts, src/scheduler/claim.ts,
    src/scheduler/reaper.ts, src/harness/worker.ts, src/store/modelUsage.ts and
    src/harness/limits.ts. An Err result is a rolled-back (or still waiting)
    transaction. */
module Kernel {
  import opened Prelude
  import opened RunStates
  import opened Tables

  datatype KernelError =
    | RunNotFound
    | UnexpectedStatus(actual: RunStatus)
    | InvalidTransition(from: RunStatus, to: RunStatus)
    | LockHeld
    | NotClaimable
    | NotReapable
    | NotOwner
    | NotInvoking
    | AdmissionRejected(reason: AdmissionReason)
    | SessionRejected
    | LineageRejected
    | AgentVersionMismatch
    | EventConflict
    | DeliveryRejected
    | NotReady

  type Tx = Result<Db, KernelError>

  /** How a transition patches current_attempt_id. */
  datatype CurrentPatch = KeepCurrent | ClearCurrent | SetCurrent(attempt: AttemptId)

  function Patched(current: Option<AttemptId>, patch: CurrentPatch): Option<AttemptId> {
    match patch
    case KeepCurrent => current
    case ClearCurrent => None
    case SetCurrent(a) => Some(a)
  }

  // ---------------------------------------------------------------- ledger

  /** A run row after one more ledger event. */
  function Recorded(
    run: Run, kind: EventKind, edge: Option<Edge>, attempt: Option<AttemptId>, now: nat): Run
  {
    run.(lastEventSeq := run.lastEventSeq + 1,
         events := run.events + [Event(run.lastEventSeq + 1, kind, edge, attempt, now)])
  }

  /** A run row after a transition, including release of its admission. */
  function Moved(
    run: Run, to: RunStatus, kind: EventKind, attempt: Option<AttemptId>,
    patch: CurrentPatch, now: nat): Run
  {
    var logged := Recorded(run, kind, Some(Edge(run.status, to)), attempt, now);
    logged.(status := to,
            current := Patched(run.current, patch),
            admission := if IsTerminal(to) then run.admission.(active := false)
                         else run.admission)
  }

  function ProjectedSessions(sessions: seq<Session>, r: RunId, run: Run, to: RunStatus): (ss: seq<Session>)
    ensures |ss| == |sessions|
  {
    if run.session.None? || run.parent.Some? || run.session.value >= |sessions| then sessions
    else
      var s := run.session.value;
      var row := sessions[s];
      if row.current == Some(r) && !IsClosed(row.state)
         && (row.state != Projection(to) || IsTerminal(to))
      then sessions[s := row.(state := Projection(to),
                              current := if IsTerminal(to) then None else row.current)]
      else sessions
  }

  function TransitionRun(
    db: Db, r: RunId, expectFrom: set<RunStatus>, to: RunStatus, kind: EventKind,
    attempt: Option<AttemptId>, patch: CurrentPatch): Tx
  {
    if r >= |db.runs| then Err(RunNotFound)
    else
      var run := db.runs[r];
      if IsTerminal(to) && run.call.Some? then Err(LockHeld)
      else if run.status !in expectFrom then Err(UnexpectedStatus(run.status))
      else if !IsTransitionAllowed(run.status, to) then Err(InvalidTransition(run.status, to))
      else Ok(db.(
        runs := db.runs[r := Moved(run, to, kind, attempt, patch, db.now)],
        outbox := db.outbox + [OutboxRow(r, run.lastEventSeq + 1)],
        sessions := ProjectedSessions(db.sessions, r, run, to)))
  }

  function AppendEvent(db: Db, r: RunId, kind: EventKind, attempt: Option<AttemptId>): Tx
  {
    if r >= |db.runs| then Err(RunNotFound)
    else
      var run := db.runs[r];
      Ok(db.(
        runs := db.runs[r := Recorded(run, kind, None, attempt, db.now)],
        outbox := db.outbox + [OutboxRow(r, run.lastEventSeq + 1)]))
  }

  // -------------------------------------------------------------- attempts

  /** Highest attempt number of a run, 0 when it has none. */
  function MaxAttemptNo(attempts: seq<Attempt>, r: RunId): nat
  {
    if attempts == [] then 0
    else
      var n := |attempts| - 1;
      var rest := MaxAttemptNo(attempts[..n], r);
      if attempts[n].run == r && attempts[n].no > rest then attempts[n].no else rest
  }

  function Claim(db: Db, r: RunId, ttl: nat): Tx
  {
    if r >= |db.runs| || db.runs[r].status != Queued then Err(NotClaimable)
    else
      var a := |db.attempts|;
      var row := Attempt(r, MaxAttemptNo(db.attempts, r) + 1, ActiveAttempt, db.now + ttl);
      TransitionRun(db.(attempts := db.attempts + [row]), r, {Queued}, Starting, AttemptStarted,
                    Some(a), SetCurrent(a))
  }

  function Heartbeat(db: Db, a: AttemptId, ttl: nat): Tx
  {
    if a < |db.attempts| && db.attempts[a].state == ActiveAttempt
    then Ok(db.(attempts := db.attempts[a := db.attempts[a].(leaseUntil := db.now + ttl)]))
    else Ok(db)
  }

  function WithAttemptState(db: Db, a: AttemptId, state: AttemptState): Db
    requires a < |db.attempts|
  {
    db.(attempts := db.attempts[a := db.attempts[a].(state := state)])
  }

  /** Executing a claimed run starts without checking that the attempt still owns it. */
  function StartRunning(db: Db, a: AttemptId): Tx
  {
    if a >= |db.attempts| then Err(NotOwner)
    else TransitionRun(db, db.attempts[a].run, {Starting}, Running, AttemptStarted, Some(a), KeepCurrent)
  }

  /** Transitions an epoch writes about its own run, none of them ownership-checked. */
  datatype EpochMove =
    | SuspendForApproval | SuspendForSignal | StartVerifying
    | VerificationRejected | CompleteRun | GiveUp

  function Epoch(db: Db, a: AttemptId, move: EpochMove): Tx
  {
    if a >= |db.attempts| then Err(NotOwner)
    else
      var r := db.attempts[a].run;
      match move
      case SuspendForApproval =>
        TransitionRun(db, r, {Running}, WaitingApproval, ApprovalRequested, Some(a), KeepCurrent)
      case SuspendForSignal =>
        TransitionRun(db, r, {Running}, WaitingSignal, SignalReceived, Some(a), KeepCurrent)
      case StartVerifying =>
        TransitionRun(db, r, {Running}, Verifying, VerificationStarted, Some(a), KeepCurrent)
      case VerificationRejected =>
        TransitionRun(db, r, {Verifying}, Running, VerificationFailed, Some(a), KeepCurrent)
      case CompleteRun =>
        TransitionRun(db, r, {Verifying}, Completed, RunCompleted, Some(a), KeepCurrent)
      case GiveUp =>
        TransitionRun(db, r, {Running}, Failed, RunFailed, Some(a), KeepCurrent)
  }

  datatype ExitReason = SettledByEpoch | BudgetExhausted | EpochError | LeaseLost

  function Settle(db: Db, a: AttemptId, reason: ExitReason): Tx
  {
    if reason.LeaseLost? then Ok(db)
    else if a >= |db.attempts| || db.attempts[a].run >= |db.runs| then Err(NotOwner)
    else
      var row := db.attempts[a];
      if db.runs[row.run].call.Some? then Err(LockHeld)
      else if row.state != ActiveAttempt then Ok(db)
      else
        var exited := WithAttemptState(db, a, Exited);
        match reason
        case BudgetExhausted =>
          TransitionRun(exited, row.run, {Running}, Failed, RunFailed, Some(a), KeepCurrent)
        case EpochError =>
          if row.no >= db.cfg.maxAttempts
          then TransitionRun(exited, row.run, {Running, Starting, Verifying}, Failed, RunFailed,
                             Some(a), KeepCurrent)
          else TransitionRun(exited, row.run, {Running, Starting, Verifying}, Queued,
                             RetryScheduled(row.no), Some(a), ClearCurrent)
        case _ => Ok(exited)
  }

  /** An attempt the reaper may take: active, lease passed, no provider call in flight. */
  predicate Reapable(db: Db, a: AttemptId)
  {
    && a < |db.attempts|
    && db.attempts[a].state == ActiveAttempt
    && db.attempts[a].leaseUntil < db.now
    && db.attempts[a].run < |db.runs|
    && db.runs[db.attempts[a].run].call.None?
  }

  function Reap(db: Db, a: AttemptId): Tx
  {
    if !Reapable(db, a) then Err(NotReapable)
    else
      var row := db.attempts[a];
      var orphaned := WithAttemptState(db, a, Orphaned);
      if !IsExecuting(db.runs[row.run].status) then Ok(orphaned)
      else if row.no >= db.cfg.maxAttempts
      then TransitionRun(orphaned, row.run, {Starting, Running, Verifying}, Failed, RunFailed,
                         Some(a), KeepCurrent)
      else TransitionRun(orphaned, row.run, {Starting, Running, Verifying}, Queued,
                         AttemptOrphaned(row.no), Some(a), ClearCurrent)
  }

  function ExitIfActive(db: Db, a: Option<AttemptId>): Db
  {
    if a.Some? && a.value < |db.attempts| && db.attempts[a.value].state == ActiveAttempt
    then WithAttemptState(db, a.value, Exited)
    else db
  }

  function CancelRun(db: Db, r: RunId): Tx
  {
    if r >= |db.runs| then Err(RunNotFound)
    else if IsTerminal(db.runs[r].status) then Err(UnexpectedStatus(db.runs[r].status))
    else
      var cancelled :- TransitionRun(db, r, {db.runs[r].status}, Cancelled, RunCancelled, None, KeepCurrent);
      Ok(ExitIfActive(cancelled, db.runs[r].current))
  }

  /** Wake a run that waits for a human decision or a signal. */
  function Resume(db: Db, r: RunId, from: RunStatus, kind: EventKind): Tx
    requires from == WaitingApproval || from == WaitingSignal
  {
    TransitionRun(db, r, {from}, Queued, kind, None, ClearCurrent)
  }

  // ----------------------------------------------------------- model calls

  datatype JsNumber = Finite(value: real) | NonFinite

  datatype ModelLimit = ModelLimit(maxTokens: nat, remaining: Option<int>, inputCeiling: nat)

  const MAX_SAFE_INTEGER: nat := 9007199254740991

  function NormalizeRequestedMax(value: Option<JsNumber>): (n: Option<nat>)
    ensures n.Some? <==> value.Some? && value.value.Finite? && value.value.value > 0.0
    ensures n.Some? ==> n.value as real <= value.value.value < n.value as real + 1.0
  {
    if value.None? || value.value.NonFinite? || value.value.value <= 0.0 then None
    else Some(value.value.value.Floor)
  }

  /** Bound the next provider call so that a conforming answer fits the run's budget. */
  function LimitModelInvocation(
    budget: Option<nat>, used: nat, inputCeiling: nat,
    requestedMax: Option<JsNumber>, defaultMax: nat): (limit: Option<ModelLimit>)
    ensures budget.None? ==> limit.Some?
    ensures budget.Some? ==> (limit.Some? <==> used + inputCeiling < budget.value)
    ensures limit.Some? ==> limit.value.inputCeiling == inputCeiling
    ensures limit.Some? && budget.Some? ==>
              && used + limit.value.inputCeiling + limit.value.maxTokens <= budget.value
              && limit.value.maxTokens <= MAX_SAFE_INTEGER
              && limit.value.remaining == Some(budget.value - used)
    ensures limit.Some? ==>
              var normalized := NormalizeRequestedMax(requestedMax);
              var requested: nat := if normalized.Some? then normalized.value else defaultMax;
              && limit.value.maxTokens <= requested
              && (limit.value.maxTokens == requested || limit.value.maxTokens == MAX_SAFE_INTEGER
                  || (budget.Some? && limit.value.maxTokens == budget.value - used - inputCeiling))
  {
    var normalized := NormalizeRequestedMax(requestedMax);
    var requested: nat := if normalized.Some? then normalized.value else defaultMax;
    if budget.None? then Some(ModelLimit(requested, None, inputCeiling))
    else
      var remaining := budget.value - used;
      var outputCapacity := remaining - inputCeiling;
      if outputCapacity <= 0 then None
      else Some(ModelLimit(Min(Min(requested, outputCapacity), MAX_SAFE_INTEGER),
                           Some(remaining), inputCeiling))
  }

  predicate OwnsRunning(db: Db, r: RunId, a: AttemptId)
  {
    && r < |db.runs| && a < |db.attempts|
    && db.attempts[a].run == r
    && db.runs[r].status == Running
    && db.runs[r].current == Some(a)
    && db.attempts[a].state == ActiveAttempt
  }

  /** Take the run's invocation lock, check ownership and bound the call. */
  function BeginModelInvocation(
    db: Db, r: RunId, a: AttemptId, inputCeiling: nat,
    requestedMax: Option<JsNumber>, defaultMax: nat): Tx
  {
    if r >= |db.runs| then Err(RunNotFound)
    else if db.runs[r].call.Some? then Err(LockHeld)
    else if !OwnsRunning(db, r, a) then Err(NotOwner)
    else
      var run := db.runs[r];
      var limit := LimitModelInvocation(run.tokenBudget, run.tokensUsed, inputCeiling, requestedMax, defaultMax);
      var started :- AppendEvent(db, r, ModelInvocationStarted, Some(a));
      if limit.None? then Ok(started)
      else Ok(started.(runs := started.runs[r :=
        started.runs[r].(call := Some(ModelCall(a, inputCeiling, limit.value.maxTokens)))]))
  }

  /** Record metered usage and release the lock; a stale attempt records too. */
  function CompleteModelInvocation(db: Db, r: RunId, inputTokens: nat, outputTokens: nat): Tx
  {
    if r >= |db.runs| || db.runs[r].call.None? then Err(NotInvoking)
    else
      var run := db.runs[r];
      var logged :- AppendEvent(db, r, ModelInvocationCompleted(inputTokens, outputTokens),
                                Some(run.call.value.attempt));
      Ok(logged.(runs := logged.runs[r := logged.runs[r].(
        tokensUsed := run.tokensUsed + inputTokens + outputTokens, call := None)]))
  }

  /** The provider call failed or the lock's database session was lost. */
  function AbandonModelInvocation(db: Db, r: RunId): Tx
  {
    if r >= |db.runs| || db.runs[r].call.None? then Err(NotInvoking)
    else Ok(db.(runs := db.runs[r := db.runs[r].(call := None)]))
  }
}
