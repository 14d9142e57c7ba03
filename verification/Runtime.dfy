/** Executions of the kernel: any interleaving of transactions by any number of workers,
    API callers and clock ticks, from empty tables. */
module Runtime {
  import opened Prelude
  import opened RunStates
  import opened Tables
  import opened Kernel
  import opened Admissions
  import opened Children
  import opened Sessions
  import opened Evolution
  import opened Fencing
  import opened Lineage
  import opened Invariants
  import opened Transactions
  import opened Delegation
  import opened SessionTransactions
  import opened InboundEvents

  datatype Step =
    | OpenSession(tenant: TenantId)
    | CloseSession(session: SessionId)
    | Submit(input: RunInput)
    | Spawn(parent: RunId, attempt: AttemptId, budgets: seq<Option<int>>)
    | Wake(parent: RunId)
    | ClaimRun(run: RunId, ttl: nat)
    | Beat(attempt: AttemptId, ttl: nat)
    | Start(attempt: AttemptId)
    | Advance(attempt: AttemptId, move: EpochMove)
    | SettleAttempt(attempt: AttemptId, reason: ExitReason)
    | ReapAttempt(attempt: AttemptId)
    | Cancel(run: RunId)
    | Decide(run: RunId, approved: bool)
    | Signal(run: RunId)
    | Log(run: RunId, kind: EventKind, author: Option<AttemptId>)
    | BeginCall(run: RunId, attempt: AttemptId, ceiling: nat, requestedMax: Option<JsNumber>, defaultMax: nat)
    | CompleteCall(run: RunId, inputTokens: nat, outputTokens: nat)
    | AbandonCall(run: RunId)
    | Receive(event: InboundInput)
    | Dispatch(session: SessionId, at: nat)
    | Postpone(session: SessionId, until: nat)
    | Tick(later: nat)

  function Apply(db: Db, step: Step): Tx
  {
    match step
    case OpenSession(t) => CreateSession(db, t)
    case CloseSession(s) => CancelSession(db, s)
    case Submit(input) => CreateRun(db, input)
    case Spawn(p, a, budgets) => SpawnChildren(db, p, a, budgets)
    case Wake(p) => WakeParent(db, p)
    case ClaimRun(r, ttl) => Claim(db, r, ttl)
    case Beat(a, ttl) => Heartbeat(db, a, ttl)
    case Start(a) => StartRunning(db, a)
    case Advance(a, move) => Epoch(db, a, move)
    case SettleAttempt(a, reason) => Settle(db, a, reason)
    case ReapAttempt(a) => Reap(db, a)
    case Cancel(r) => CancelRun(db, r)
    case Decide(r, approved) =>
      Resume(db, r, WaitingApproval, if approved then ApprovalReceived else ApprovalDenied)
    case Signal(r) => Resume(db, r, WaitingSignal, SignalReceived)
    case Log(r, kind, author) => AppendEvent(db, r, kind, author)
    case BeginCall(r, a, ceiling, requestedMax, defaultMax) =>
      BeginModelInvocation(db, r, a, ceiling, requestedMax, defaultMax)
    case CompleteCall(r, i, o) => CompleteModelInvocation(db, r, i, o)
    case AbandonCall(r) => AbandonModelInvocation(db, r)
    case Receive(e) =>
      var received :- ReceiveEvent(db, e);
      Ok(received.db)
    case Dispatch(s, at) => DispatchNext(db, s, at)
    case Postpone(s, until) => Ok(PostponeQueue(db, s, until))
    case Tick(later) => Ok(db.(now := later))
  }

  /** Assumptions on the environment: clocks do not run backwards, providers respect the
      ceilings they were given, and submitted runs claim no lineage of their own. */
  predicate Permitted(db: Db, step: Step)
  {
    match step
    case Submit(input) => input.parent.None? && input.predecessor.None? && input.generation == 0
    case Log(_, kind, _) => UsageTokens(kind) == 0 && !IsRequeue(kind)
    case CompleteCall(r, i, o) => Conforms(db, r, i, o)
    case Tick(later) => db.now <= later
    case _ => true
  }

  lemma StepKeeps(db: Db, step: Step)
    requires Inv(db) && Permitted(db, step) && Apply(db, step).Ok?
    ensures Keeps(db, Apply(db, step).value)
  {
    hide Inv, Evolves;
    match step
    case OpenSession(t) => CreateSessionKeeps(db, t);
    case CloseSession(s) => CancelSessionKeeps(db, s);
    case Submit(input) => CreateRunKeeps(db, input);
    case Spawn(p, a, budgets) => SpawnChildrenKeeps(db, p, a, budgets);
    case Wake(p) => WakeParentKeeps(db, p);
    case ClaimRun(r, ttl) => ClaimKeeps(db, r, ttl);
    case Beat(a, ttl) => HeartbeatKeeps(db, a, ttl);
    case Start(a) => StartRunningKeeps(db, a);
    case Advance(a, move) => EpochKeeps(db, a, move);
    case SettleAttempt(a, reason) => SettleKeeps(db, a, reason);
    case ReapAttempt(a) => ReapKeeps(db, a);
    case Cancel(r) => CancelRunKeeps(db, r);
    case Decide(r, approved) =>
      ResumeKeeps(db, r, WaitingApproval, if approved then ApprovalReceived else ApprovalDenied);
    case Signal(r) => ResumeKeeps(db, r, WaitingSignal, SignalReceived);
    case Log(r, kind, author) => AppendKeeps(db, r, kind, author);
    case BeginCall(r, a, ceiling, requestedMax, defaultMax) => BeginKeeps(db, r, a, ceiling, requestedMax, defaultMax);
    case CompleteCall(r, i, o) => CompleteKeeps(db, r, i, o);
    case AbandonCall(r) => AbandonKeeps(db, r);
    case Receive(e) => ReceiveKeeps(db, e);
    case Dispatch(s, at) => DispatchKeeps(db, s, at);
    case Postpone(s, until) => PostponeKeeps(db, s, until);
    case Tick(later) => TickKeeps(db, later);
  }

  // ------------------------------------------------------------- inbound events

  lemma {:induction false} SpawnAllQuiet(
    db: Db, parent: RunId, a: AttemptId, tenant: TenantId, budgets: seq<Option<int>>)
    requires Inv(db) && parent < |db.runs|
    requires SpawnAll(db, parent, a, tenant, budgets).Ok?
    ensures Quiet(db, SpawnAll(db, parent, a, tenant, budgets).value)
    decreases |budgets|
  {
    hide Inv, Evolves;
    if budgets != [] {
      var n := |budgets| - 1;
      var before := SpawnAll(db, parent, a, tenant, budgets[..n]).value;
      SpawnAllQuiet(db, parent, a, tenant, budgets[..n]);
      SpawnAllKeeps(db, parent, a, tenant, budgets[..n]);
      CreateRunShape(before, ChildInput(tenant, parent, budgets[n]));
    }
  }

  lemma {:induction false} ReplaceAllQuiet(db: Db, parent: RunId, cs: seq<RunId>)
    requires Inv(db) && parent < |db.runs|
    requires forall c :: c in cs ==> Replaceable(db, parent, c)
    requires forall i, j :: 0 <= i < j < |cs| ==> cs[i] < cs[j]
    requires ReplaceAll(db, parent, cs).Ok?
    ensures Quiet(db, ReplaceAll(db, parent, cs).value)
    decreases |cs|
  {
    hide Inv, Evolves, Replaceable;
    if cs != [] {
      var n := |cs| - 1;
      var before := ReplaceAll(db, parent, cs[..n]).value;
      ReplaceAllQuiet(db, parent, cs[..n]);
      ReplaceAllKeeps(db, parent, cs[..n]);
      CreateRunShape(before, ReplacementInput(before, parent, cs[n]));
    }
  }

  predicate TouchesInbound(step: Step)
  {
    step.OpenSession? || step.CloseSession? || step.Receive? || step.Dispatch? || step.Postpone?
  }

  lemma QuietTransitive(a: Db, b: Db, c: Db)
    requires Quiet(a, b) && Quiet(b, c)
    ensures Quiet(a, c)
  {
  }

  lemma SpawnQuiet(db: Db, p: RunId, a: AttemptId, budgets: seq<Option<int>>)
    requires Inv(db) && SpawnChildren(db, p, a, budgets).Ok?
    ensures Quiet(db, SpawnChildren(db, p, a, budgets).value)
  {
    hide Inv, SpawnAll, TransitionRun, Quiet;
    var spawned := SpawnAll(db, p, a, db.runs[p].tenant, budgets).value;
    SpawnAllQuiet(db, p, a, db.runs[p].tenant, budgets);
    TransitionQuiet(spawned, p, {Running}, WaitingChildren, ChildRunSpawned, Some(a), ClearCurrent);
    QuietTransitive(db, spawned, SpawnChildren(db, p, a, budgets).value);
  }

  lemma AppendQuiet(db: Db, r: RunId, kind: EventKind, attempt: Option<AttemptId>)
    requires AppendEvent(db, r, kind, attempt).Ok?
    ensures Quiet(db, AppendEvent(db, r, kind, attempt).value)
  {
  }

  lemma WakeQuiet(db: Db, p: RunId)
    requires Inv(db) && WakeParent(db, p).Ok?
    ensures Quiet(db, WakeParent(db, p).value)
  {
    assert Quiet(db, db);
    hide Inv, ReplaceAll, TransitionRun, AppendEvent, Replaceable, DeferralRecorded, AllChildrenTerminal, Quiet;
    var failed := ReplaceableBelow(db, p, |db.runs|);
    if failed != [] {
      var replaced := ReplaceAll(db, p, failed);
      if replaced.Ok? {
        ReplaceAllQuiet(db, p, failed);
      } else if !DeferralRecorded(db, p, replaced.error.reason) {
        AppendQuiet(db, p, ChildReplacementDeferred(replaced.error.reason), None);
      }
    } else {
      TransitionQuiet(db, p, {WaitingChildren}, Queued, ChildrenResolved, None, ClearCurrent);
    }
  }

  /** Steps about one run or attempt. */
  lemma SingleRowQuiet(db: Db, step: Step)
    requires Apply(db, step).Ok? && !TouchesInbound(step) && !step.Submit? && !step.Spawn? && !step.Wake?
    ensures Quiet(db, Apply(db, step).value)
  {
    if step.Advance? {
      EpochQuiet(db, step.attempt, step.move);
    } else if step.SettleAttempt? || step.ReapAttempt? {
      LeaveQuiet(db, step);
    } else {
      OtherQuiet(db, step);
    }
  }

  lemma EpochQuiet(db: Db, a: AttemptId, move: EpochMove)
    requires Epoch(db, a, move).Ok?
    ensures Quiet(db, Epoch(db, a, move).value)
  {
    hide Moved;
  }

  lemma LeaveQuiet(db: Db, step: Step)
    requires Apply(db, step).Ok? && (step.SettleAttempt? || step.ReapAttempt?)
    ensures Quiet(db, Apply(db, step).value)
  {
    hide Moved;
  }

  lemma OtherQuiet(db: Db, step: Step)
    requires Apply(db, step).Ok? && !TouchesInbound(step) && !step.Submit? && !step.Spawn? && !step.Wake?
    requires !step.Advance? && !step.SettleAttempt? && !step.ReapAttempt?
    ensures Quiet(db, Apply(db, step).value)
  {
    hide MaxAttemptNo, Moved, Recorded, LimitModelInvocation;
  }

  lemma StepQuiet(db: Db, step: Step)
    requires Inv(db) && Permitted(db, step) && Apply(db, step).Ok? && !TouchesInbound(step)
    ensures Quiet(db, Apply(db, step).value)
  {
    match step
    case Submit(input) => CreateRunShape(db, input);
    case Spawn(p, a, budgets) => SpawnQuiet(db, p, a, budgets);
    case Wake(p) => WakeQuiet(db, p);
    case _ => SingleRowQuiet(db, step);
  }

  lemma StepInbound(db: Db, step: Step)
    requires Inv(db) && InboundOk(db) && Permitted(db, step) && Apply(db, step).Ok?
    ensures InboundOk(Apply(db, step).value)
    ensures ReceiptsKept(db, Apply(db, step).value)
  {
    hide Inv, Evolves;
    if !TouchesInbound(step) {
      StepKeeps(db, step);
      StepQuiet(db, step);
      QuietKeepsInbound(db, Apply(db, step).value);
    } else {
      match step
      case OpenSession(t) => OpenInbound(db, t);
      case CloseSession(s) => CancelInbound(db, s); CancelReceipts(db, s);
      case Receive(e) => ReceiveInbound(db, e); ReceiveReceipts(db, e);
      case Dispatch(s, at) => DispatchedRow(db, s, at); DispatchReceipts(db, s, at);
      case Postpone(s, until) => PostponeInbound(db, s, until);
    }
  }

  lemma OpenInbound(db: Db, t: TenantId)
    requires InboundOk(db) && CreateSession(db, t).Ok?
    ensures InboundOk(CreateSession(db, t).value)
  {
    var db' := CreateSession(db, t).value;
    forall i | 0 <= i < |db'.inbound|
      ensures EventRowOk(db', db'.inbound[i])
    {
      assert EventRowOk(db, db.inbound[i]);
    }
    forall i | 0 <= i < |db.inbound|
      ensures db.inbound[i].session != |db.sessions|
    {
      assert EventRowOk(db, db.inbound[i]);
    }
    ReceivedNone(db.inbound, |db.sessions|);
  }

  lemma CancelReceipts(db: Db, s: SessionId)
    requires CancelSession(db, s).Ok?
    ensures ReceiptsKept(db, CancelSession(db, s).value)
  {
    if !IsClosed(db.sessions[s].state) {
      CancelEachQuiet(db, LiveRuns(db, s, false, |db.runs|) + LiveRuns(db, s, true, |db.runs|));
    }
  }

  lemma ReceiveReceipts(db: Db, e: InboundInput)
    requires ReceiveEvent(db, e).Ok?
    ensures ReceiptsKept(db, ReceiveEvent(db, e).value.db)
  {
    hide Moved, Recorded;
  }

  lemma DispatchReceipts(db: Db, s: SessionId, at: nat)
    requires Inv(db) && DispatchNext(db, s, at).Ok?
    ensures ReceiptsKept(db, DispatchNext(db, s, at).value)
  {
    hide Inv;
    hide CreateRun;
    CreateRunShape(db, DispatchInput(db, s));
  }

  // ------------------------------------------------------------------ executions

  ghost predicate Initial(db: Db)
  {
    && db.runs == [] && db.attempts == [] && db.outbox == []
    && db.sessions == [] && db.inbound == []
  }

  /** Step n leads from state n to the next. */
  ghost predicate Taken(states: seq<Db>, steps: seq<Step>, n: nat)
    requires |states| == |steps| + 1 && n < |steps|
  {
    Permitted(states[n], steps[n]) && Apply(states[n], steps[n]) == Ok(states[n + 1])
  }

  ghost predicate Execution(states: seq<Db>, steps: seq<Step>)
  {
    && |states| == |steps| + 1
    && Initial(states[0])
    && forall i :: 0 <= i < |steps| ==> Taken(states, steps, i)
  }

  lemma InitialInv(db: Db)
    requires Initial(db)
    ensures Inv(db) && InboundOk(db)
  {
  }

  /** Every reachable state satisfies the kernel invariant. */
  lemma {:induction false} Reachable(states: seq<Db>, steps: seq<Step>, i: nat)
    requires Execution(states, steps) && i < |states|
    ensures Inv(states[i]) && InboundOk(states[i])
    decreases i
  {
    hide Inv, InboundOk, Apply, Permitted;
    if i == 0 {
      InitialInv(states[0]);
    } else {
      Reachable(states, steps, i - 1);
      assert Taken(states, steps, i - 1);
      StepKeeps(states[i - 1], steps[i - 1]);
      StepInbound(states[i - 1], steps[i - 1]);
    }
  }

  /** Between any two points of an execution the tables only evolve. */
  lemma {:induction false} History(states: seq<Db>, steps: seq<Step>, i: nat, j: nat)
    requires Execution(states, steps) && i <= j < |states|
    ensures Evolves(states[i], states[j]) && ReceiptsKept(states[i], states[j])
    decreases j
  {
    hide Inv, InboundOk, Apply, Permitted;
    if i < j {
      History(states, steps, i, j - 1);
      Reachable(states, steps, j - 1);
      assert Taken(states, steps, j - 1);
      StepKeeps(states[j - 1], steps[j - 1]);
      StepInbound(states[j - 1], steps[j - 1]);
      EvolvesTransitive(states[i], states[j - 1], states[j]);
    }
  }
}
