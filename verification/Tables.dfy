/** The kernel's durable tables. A table is an append-only sequence of rows and a
    row's id is its position, so a foreign key is an index and a fresh id is the
    length of the table. */
module Tables {
  import opened Prelude
  import opened RunStates

  type TenantId = nat
  type RunId = nat
  type AttemptId = nat
  type SessionId = nat
  type InboundId = nat

  datatype AdmissionReason = TenantUnavailable | ConcurrencyExhausted | TokenCapacityExhausted

  /** Ledger event types, with the payload parts the kernel reads back. */
  datatype EventKind =
    | RunCreated | RunQueued | AttemptStarted
    | AttemptOrphaned(attemptNo: nat) | RetryScheduled(attemptNo: nat)
    | RunCompleted | RunFailed | RunCancelled
    | VerificationStarted | VerificationFailed
    | ApprovalRequested | ApprovalReceived | ApprovalDenied | SignalReceived
    | ChildRunSpawned | ChildRunReplaced | ChildrenResolved
    | ChildReplacementDeferred(reason: AdmissionReason)
    | ModelInvocationStarted
    | ModelInvocationCompleted(inputTokens: nat, outputTokens: nat)
    | ToolInvocationStarted | ToolInvocationCommitted | ToolInvocationFailed | ActionDenied

  datatype Edge = Edge(from: RunStatus, to: RunStatus)

  /** One ledger row; transition events carry the edge they took. */
  datatype Event = Event(
    seqNo: nat, kind: EventKind, edge: Option<Edge>, attempt: Option<AttemptId>, at: nat)

  datatype OutboxRow = OutboxRow(run: RunId, seqNo: nat)

  /** A provider call in flight under the run's model-invocation lock. */
  datatype ModelCall = ModelCall(attempt: AttemptId, inputCeiling: nat, maxTokens: nat)

  datatype Admission = Admission(active: bool, reserved: nat)

  datatype Run = Run(
    tenant: TenantId,
    session: Option<SessionId>,
    parent: Option<RunId>,
    predecessor: Option<RunId>,
    generation: nat,
    tokenBudget: Option<nat>,
    status: RunStatus,
    current: Option<AttemptId>,
    tokensUsed: nat,
    lastEventSeq: nat,
    events: seq<Event>,
    admission: Admission,
    call: Option<ModelCall>)

  datatype AttemptState = ActiveAttempt | Exited | Orphaned

  datatype Attempt = Attempt(run: RunId, no: nat, state: AttemptState, leaseUntil: nat)

  datatype Tenant = Tenant(active: bool, maxConcurrent: Option<nat>, dailyBudget: Option<nat>)

  datatype Session = Session(
    tenant: TenantId, state: SessionState, current: Option<RunId>, receivedSeq: nat)

  datatype DispatchClass = CurrentRun | FutureRun

  datatype InboundStatus = Pending | Consumed(run: RunId) | Dispatched(run: RunId) | Stale

  /** Identity a producer gives an event; the tenant is part of it. */
  datatype Source = Source(tenant: TenantId, sourceType: string, sourceId: string, eventId: string)

  datatype Inbound = Inbound(
    session: SessionId, source: Source, digest: string, receivedSeq: nat,
    cls: DispatchClass, status: InboundStatus, dispatchAfter: nat)

  datatype Config = Config(maxAttempts: nat, maxChildReplacements: nat)

  datatype Db = Db(
    cfg: Config,
    tenants: seq<Tenant>,
    runs: seq<Run>,
    attempts: seq<Attempt>,
    outbox: seq<OutboxRow>,
    sessions: seq<Session>,
    inbound: seq<Inbound>,
    now: nat)

  const DAY_MS: nat := 86400000

  /** UTC day of a timestamp in milliseconds. */
  function Day(t: nat): nat { t / DAY_MS }
}
