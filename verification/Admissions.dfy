/** Tenant capacity and run creation: src/store/admissions.ts and src/store/runs.ts. */
module Admissions {
  import opened Prelude
  import opened RunStates
  import opened Tables
  import opened Kernel

  function UsageTokens(kind: EventKind): nat {
    if kind.ModelInvocationCompleted? then kind.inputTokens + kind.outputTokens else 0
  }

  /** Metered tokens of all ledger events that happened on one day. */
  function DayUsage(events: seq<Event>, day: nat): nat
  {
    if events == [] then 0
    else
      var last := events[|events| - 1];
      DayUsage(events[..|events| - 1], day) + (if Day(last.at) == day then UsageTokens(last.kind) else 0)
  }

  /** What one run contributes to its tenant's capacity, for each of the three queries. */
  function UsedOn(run: Run, t: TenantId, day: nat): int {
    if run.tenant == t then DayUsage(run.events, day) else 0
  }

  function Unspent(run: Run, t: TenantId): int {
    if run.tenant == t && run.admission.active then Max(run.admission.reserved - run.tokensUsed, 0) else 0
  }

  function Occupies(run: Run, t: TenantId): int {
    if run.tenant == t && run.admission.active then 1 else 0
  }

  function UsedByRun(runs: seq<Run>, t: TenantId, day: nat): (w: seq<int>)
    ensures |w| == |runs| && forall i :: 0 <= i < |w| ==> w[i] == UsedOn(runs[i], t, day)
  {
    seq(|runs|, i requires 0 <= i < |runs| => UsedOn(runs[i], t, day))
  }

  function UnspentByRun(runs: seq<Run>, t: TenantId): (w: seq<int>)
    ensures |w| == |runs| && forall i :: 0 <= i < |w| ==> w[i] == Unspent(runs[i], t)
  {
    seq(|runs|, i requires 0 <= i < |runs| => Unspent(runs[i], t))
  }

  function OccupiedByRun(runs: seq<Run>, t: TenantId): (w: seq<int>)
    ensures |w| == |runs| && forall i :: 0 <= i < |w| ==> w[i] == Occupies(runs[i], t)
  {
    seq(|runs|, i requires 0 <= i < |runs| => Occupies(runs[i], t))
  }

  function UsedToday(db: Db, t: TenantId): int { Sum(UsedByRun(db.runs, t, Day(db.now))) }

  function RemainingReserved(db: Db, t: TenantId): int { Sum(UnspentByRun(db.runs, t)) }

  function ActiveCount(db: Db, t: TenantId): int { Sum(OccupiedByRun(db.runs, t)) }

  /** Release admissions that a terminal run left active. */
  function Reconciled(run: Run, t: TenantId): Run {
    if run.tenant == t && run.admission.active && IsTerminal(run.status)
    then run.(admission := run.admission.(active := false))
    else run
  }

  function ReconcileTerminal(db: Db, t: TenantId): Db {
    db.(runs := seq(|db.runs|, i requires 0 <= i < |db.runs| => Reconciled(db.runs[i], t)))
  }

  datatype Capacity = Capacity(reserved: nat, budget: Option<nat>)

  /** The capacity decision taken under the tenant row lock. */
  function DecideCapacity(
    tenant: Tenant, active: int, usedToday: int, remainingReserved: int, requested: Option<int>)
    : Result<Capacity, KernelError>
  {
    if tenant.maxConcurrent.Some? && active >= tenant.maxConcurrent.value
    then Err(AdmissionRejected(ConcurrencyExhausted))
    else if requested.Some? && requested.value <= 0 then Err(AdmissionRejected(TokenCapacityExhausted))
    else if tenant.dailyBudget.None?
    then Ok(if requested.Some? then Capacity(requested.value, Some(requested.value)) else Capacity(0, None))
    else
      var available := tenant.dailyBudget.value - usedToday - remainingReserved;
      var reservation := if requested.Some? then requested.value else available;
      if reservation <= 0 || reservation > available then Err(AdmissionRejected(TokenCapacityExhausted))
      else Ok(Capacity(reservation, Some(reservation)))
  }

  function PrepareRunAdmission(db: Db, t: TenantId, requested: Option<int>): Result<Capacity, KernelError>
  {
    if t >= |db.tenants| || !db.tenants[t].active then Err(AdmissionRejected(TenantUnavailable))
    else DecideCapacity(db.tenants[t], ActiveCount(db, t), UsedToday(db, t), RemainingReserved(db, t), requested)
  }

  datatype RunInput = RunInput(
    tenant: TenantId,
    session: Option<SessionId>,
    parent: Option<RunId>,
    predecessor: Option<RunId>,
    generation: nat,
    tokenBudget: Option<int>,
    agentVersionOwned: bool)

  /** The session a new run belongs to: its parent's when it is delegated. */
  function SessionFor(db: Db, input: RunInput): Result<Option<SessionId>, KernelError>
  {
    if input.parent.None? then Ok(input.session)
    else if input.parent.value >= |db.runs| then Err(LineageRejected)
    else
      var parent := db.runs[input.parent.value];
      if parent.tenant != input.tenant then Err(LineageRejected)
      else if input.session.Some? && input.session != parent.session then Err(LineageRejected)
      else Ok(parent.session)
  }

  predicate SessionAccepts(db: Db, input: RunInput, session: Option<SessionId>)
  {
    session.Some? ==>
      && session.value < |db.sessions|
      && db.sessions[session.value].tenant == input.tenant
      && !IsClosed(db.sessions[session.value].state)
      && (input.parent.None? ==> db.sessions[session.value].state == Idle)
  }

  function FreshRun(input: RunInput, session: Option<SessionId>, capacity: Capacity): Run
  {
    Run(input.tenant, session, input.parent, input.predecessor, input.generation,
        capacity.budget, Created, None, 0, 0, [], Admission(true, capacity.reserved), None)
  }

  /** Insert the run and its admission, and make it its session's current run. */
  function InsertRun(db: Db, input: RunInput, session: Option<SessionId>, capacity: Capacity): Db
    requires session.Some? ==> session.value < |db.sessions|
  {
    var r := |db.runs|;
    db.(runs := db.runs + [FreshRun(input, session, capacity)],
        sessions := if session.Some? && input.parent.None?
                    then db.sessions[session.value := db.sessions[session.value].(
                           state := Active, current := Some(r))]
                    else db.sessions)
  }

  /** Admit and create a run, driven CREATED, RESOLVING, QUEUED in one transaction. */
  function CreateRun(db: Db, input: RunInput): Tx
  {
    if input.tenant >= |db.tenants| || !db.tenants[input.tenant].active
    then Err(AdmissionRejected(TenantUnavailable))
    else
      var reconciled := ReconcileTerminal(db, input.tenant);
      var capacity :- PrepareRunAdmission(reconciled, input.tenant, input.tokenBudget);
      var session :- SessionFor(reconciled, input);
      if !SessionAccepts(reconciled, input, session) then Err(SessionRejected)
      else if !input.agentVersionOwned then Err(AgentVersionMismatch)
      else
        var r := |db.runs|;
        var inserted := InsertRun(reconciled, input, session, capacity);
        var resolving :- TransitionRun(inserted, r, {Created}, Resolving, RunCreated, None, KeepCurrent);
        TransitionRun(resolving, r, {Resolving}, Queued, RunQueued, None, KeepCurrent)
  }
}
