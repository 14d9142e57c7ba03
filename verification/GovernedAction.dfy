/** The governed-action protocol of src/harness/governedAction.ts as a state machine. Each
    call is an actor with a program counter; every database transaction, every message to
    the receiver and every failure is one step, and steps of different actors interleave
    freely with the kernel's transactions.

    The receiver follows bench/externalSystem.ts: an accepted request appends an effect,
    and a receiver that honours idempotency keys answers a repeated key with the first
    effect instead. An effect's position is its transaction id. */
module GovernedAction {
  import opened Prelude
  import opened RunStates
  import opened Tables
  import opened Kernel
  import opened Lineage
  import opened Runtime

  type ActorId = nat
  type ReceiptId = nat
  type ApprovalId = nat
  type GrantId = nat
  type EffectId = nat

  /** How an interrupted action is recovered: resend under the same key, ask the provider
      what happened, or hand over to a human (reconcile without a reconciler). */
  datatype Recovery = RetryWithKey | Reconcile | Manual

  /** A connector action; its connector fixes how it is recovered. */
  datatype Action = Action(name: string, recovery: Recovery)

  /** The idempotency key, an injective digest of lineage root, action and arguments. */
  datatype Key = Key(root: RunId, action: Action, args: string)

  datatype ReceiptStatus = PendingReceipt | Committed(result: EffectId) | FailedReceipt | NeedsReconciliation

  /** A receipt row; `creator` and `grant` record which call inserted it and what it consumed. */
  datatype Receipt = Receipt(
    run: RunId, key: Key, approval: Option<ApprovalId>, status: ReceiptStatus,
    creator: ActorId, grant: Option<GrantId>)

  datatype ApprovalStatus = Undecided | Approved | Denied | Expired

  datatype Approval = Approval(run: RunId, key: Key, status: ApprovalStatus, expiresAt: Option<nat>)

  datatype Grant = Grant(
    run: RunId, allows: set<string>, requiresApproval: bool,
    maxCalls: Option<nat>, callsUsed: nat, expiresAt: Option<nat>)

  datatype Effect = Effect(key: Key, sender: ActorId)

  /** The one request an actor may send. */
  datatype Wire = Unsent | InTransit | Served(effect: EffectId) | Lost

  datatype Outcome =
    | CompletedWith(result: EffectId, deduplicated: bool)
    | SuspendedForApproval(approval: ApprovalId)
    | DeniedOutcome
    | ReconciliationRequired
    | Threw

  /** Where a call stands; the names follow the source's order. */
  datatype Pc =
    | AwaitingLock
    | CheckingOwner
    | FindingReceipt
    | Reconciling
    | ClosingReconciled(found: EffectId)
    | Marking(rethrow: bool)
    | SelectingGrant
    | CheckingApproval
    | ResolvingCredential
    | RecheckingApproval
    | InsertingReceipt
    | RecheckingOwner
    | RevalidatingGrant
    | FinalApproval
    | FinalOwner
    | Dispatching
    | AwaitingReply
    | Committing(answer: EffectId)
    | Denying
    | RequestingApproval
    | Releasing(outcome: Outcome)
    | Finished(result: Outcome)
    | Dead

  /** session: the database session that carries the advisory lock is alive.
      inserted: this call created the receipt.
      absent: a provider certified to this call that no earlier one has taken or will take effect.
      barred: such a certificate, given to another call since, covers this one. */
  datatype Actor = Actor(
    run: RunId, attempt: AttemptId, key: Key, pc: Pc, session: bool,
    receipt: Option<ReceiptId>, inserted: bool, absent: bool, barred: bool,
    grant: Option<GrantId>, approval: Option<ApprovalId>, wire: Wire)

  datatype Commit = Commit(run: RunId, attempt: AttemptId)

  /** terminal: a provider's not_found binds every call known under the key, also one that has
      yet to send; otherwise it covers only requests that have been sent. */
  datatype Sys = Sys(
    terminal: bool,
    db: Db,
    receipts: seq<Receipt>,
    approvals: seq<Approval>,
    grants: seq<Grant>,
    holders: map<Key, ActorId>,
    actors: seq<Actor>,
    effects: seq<Effect>,
    commits: seq<Commit>)

  /** Answers from outside the tables: the receiver, the provider, configuration, failures. */
  datatype Choice =
    | Go
    | Found(receipt: ReceiptId) | NotFound
    | Remote(effect: EffectId) | CertifiedAbsent | Unknown
    | UseGrant(grant: GrantId) | Ungranted | Refused | Invalid
    | Fail

  // ------------------------------------------------------------------- helpers

  function Put(s: Sys, i: ActorId, actor: Actor): Sys
    requires i < |s.actors|
  {
    s.(actors := s.actors[i := actor])
  }

  function Goto(s: Sys, i: ActorId, pc: Pc): Sys
    requires i < |s.actors|
  {
    Put(s, i, s.actors[i].(pc := pc))
  }

  /** The ledger after an event on the actor's run. */
  function Audited(s: Sys, i: ActorId, kind: EventKind): Sys
    requires i < |s.actors|
  {
    var logged := AppendEvent(s.db, s.actors[i].run, kind, Some(s.actors[i].attempt));
    if logged.Ok? then s.(db := logged.value) else s
  }

  /** The attempt is current, active and inside its lease, and the run is RUNNING. */
  predicate IsOwner(db: Db, run: RunId, attempt: AttemptId)
  {
    OwnsRunning(db, run, attempt) && db.attempts[attempt].leaseUntil > db.now
  }

  /** q is the run or one of the runs it replaced. */
  predicate InLineage(runs: seq<Run>, run: RunId, q: RunId)
    requires run < |runs|
    decreases run
  {
    q == run
    || (runs[run].predecessor.Some? && runs[run].predecessor.value < run
        && InLineage(runs, runs[run].predecessor.value, q))
  }

  predicate ReceiptMatches(s: Sys, run: RunId, key: Key, id: ReceiptId)
    requires run < |s.db.runs|
  {
    id < |s.receipts| && s.receipts[id].key == key && InLineage(s.db.runs, run, s.receipts[id].run)
  }

  function Rank(status: ReceiptStatus): nat {
    if status.Committed? then 0 else if status.PendingReceipt? then 1 else 2
  }

  /** The row the ordered lineage query returns first. */
  predicate BestReceipt(s: Sys, run: RunId, key: Key, id: ReceiptId)
    requires run < |s.db.runs|
  {
    && ReceiptMatches(s, run, key, id)
    && forall o: ReceiptId :: o < |s.receipts| && ReceiptMatches(s, run, key, o) ==>
         Rank(s.receipts[id].status) < Rank(s.receipts[o].status)
         || (Rank(s.receipts[id].status) == Rank(s.receipts[o].status) && o <= id)
  }

  predicate NoReceiptFor(s: Sys, run: RunId, key: Key)
    requires run < |s.db.runs|
  {
    forall o: ReceiptId :: o < |s.receipts| ==> !ReceiptMatches(s, run, key, o)
  }

  /** Newest approval of the run for this key. */
  function LastApproval(approvals: seq<Approval>, run: RunId, key: Key): (a: Option<ApprovalId>)
    ensures a.Some? ==> a.value < |approvals| && approvals[a.value].run == run && approvals[a.value].key == key
    ensures forall b :: 0 <= b < |approvals| && approvals[b].run == run && approvals[b].key == key ==>
              a.Some? && b <= a.value
  {
    if approvals == [] then None
    else
      var n := |approvals| - 1;
      if approvals[n].run == run && approvals[n].key == key then Some(n)
      else LastApproval(approvals[..n], run, key)
  }

  predicate PastDeadline(deadline: Option<nat>, now: nat) { deadline.Some? && deadline.value <= now }

  /** The approval row after locking it for execution; an open decision past its deadline expires. */
  function LockedApproval(row: Approval, now: nat): Approval {
    if PastDeadline(row.expiresAt, now) && (row.status.Undecided? || row.status.Approved?)
    then row.(status := Expired)
    else row
  }

  /** What locking approval `a` for this run and key answers, None when it authorizes nothing here. */
  function ApprovalAnswer(s: Sys, run: RunId, key: Key, a: ApprovalId): Option<ApprovalStatus>
  {
    if a < |s.approvals| && s.approvals[a].run == run && s.approvals[a].key == key
    then Some(LockedApproval(s.approvals[a], s.db.now).status)
    else None
  }

  function WithApprovalLocked(s: Sys, run: RunId, key: Key, a: ApprovalId): Sys
  {
    if a < |s.approvals| && s.approvals[a].run == run && s.approvals[a].key == key
    then s.(approvals := s.approvals[a := LockedApproval(s.approvals[a], s.db.now)])
    else s
  }

  predicate GrantCovers(s: Sys, g: GrantId, run: RunId, key: Key)
  {
    && g < |s.grants|
    && s.grants[g].run == run
    && key.action.name in s.grants[g].allows
    && !PastDeadline(s.grants[g].expiresAt, s.db.now)
  }

  predicate GrantHasCalls(grant: Grant) {
    grant.maxCalls.Some? ==> grant.callsUsed < grant.maxCalls.value
  }

  predicate NeedsApproval(s: Sys, actor: Actor)
  {
    actor.grant.Some? && actor.grant.value < |s.grants| && s.grants[actor.grant.value].requiresApproval
  }

  /** First effect recorded for a key. */
  function FirstEffect(effects: seq<Effect>, key: Key): (e: Option<EffectId>)
    ensures e.Some? ==> e.value < |effects| && effects[e.value].key == key
    ensures e.None? ==> forall k :: 0 <= k < |effects| ==> effects[k].key != key
  {
    if effects == [] then None
    else
      var n := |effects| - 1;
      var before := FirstEffect(effects[..n], key);
      if before.Some? then before
      else if effects[n].key == key then Some(n)
      else None
  }

  /** Session lock release; a lost session holds nothing. */
  function Unlocked(s: Sys, i: ActorId): Sys
    requires i < |s.actors|
  {
    var key := s.actors[i].key;
    if key in s.holders && s.holders[key] == i
    then s.(holders := map k | k in s.holders && k != key :: s.holders[k])
    else s
  }

  // ------------------------------------------------------- the call, step by step

  /** Take the advisory lock on the key. */
  function Acquire(s: Sys, i: ActorId): Option<Sys>
    requires i < |s.actors|
  {
    var actor := s.actors[i];
    if actor.key in s.holders then None
    else Some(Goto(s.(holders := s.holders[actor.key := i]), i, CheckingOwner))
  }

  function CheckOwner(s: Sys, i: ActorId, next: Pc): Option<Sys>
    requires i < |s.actors|
  {
    var actor := s.actors[i];
    Some(Goto(s, i, if IsOwner(s.db, actor.run, actor.attempt) then next else Releasing(Threw)))
  }

  /** Look up the lineage's receipt and branch on what it says. */
  function FindReceipt(s: Sys, i: ActorId, choice: Choice): Option<Sys>
    requires i < |s.actors|
  {
    var actor := s.actors[i];
    if actor.run >= |s.db.runs| then None
    else if choice.NotFound? && NoReceiptFor(s, actor.run, actor.key) then Some(Goto(s, i, SelectingGrant))
    else if choice.Found? && BestReceipt(s, actor.run, actor.key, choice.receipt) then
      var row := s.receipts[choice.receipt];
      var bound := actor.(receipt := Some(choice.receipt), approval := row.approval);
      match row.status
      case Committed(v) => Some(Put(s, i, bound.(pc := Releasing(CompletedWith(v, true)))))
      case PendingReceipt =>
        Some(Put(s, i, bound.(pc := match actor.key.action.recovery
                                    case RetryWithKey => SelectingGrant
                                    case Reconcile => Reconciling
                                    case Manual => Marking(false))))
      case _ => Some(Put(s, i, bound.(pc := Releasing(ReconciliationRequired))))
    else None
  }

  /** The provider's certificate: requests already sent under the key are lost, and a terminal
      one bars the calls behind them for good. */
  function Silenced(actor: Actor, key: Key, terminal: bool): Actor {
    if actor.key != key then actor
    else actor.(wire := if actor.wire.InTransit? then Lost else actor.wire, barred := actor.barred || terminal)
  }

  function AskProvider(s: Sys, i: ActorId, choice: Choice): Option<Sys>
    requires i < |s.actors|
  {
    var key := s.actors[i].key;
    match choice
    case Remote(e) =>
      if e < |s.effects| && s.effects[e].key == key then Some(Goto(s, i, ClosingReconciled(e))) else None
    case CertifiedAbsent =>
      if FirstEffect(s.effects, key).Some? then None
      else
        var silenced := s.(actors := seq(|s.actors|, j requires 0 <= j < |s.actors| => Silenced(s.actors[j], key, s.terminal)));
        Some(Put(silenced, i, silenced.actors[i].(absent := true, barred := false, pc := SelectingGrant)))
    case Unknown => Some(Goto(s, i, Marking(false)))
    case Fail => Some(Goto(s, i, Releasing(Threw)))
    case _ => None
  }

  /** Close the receipt with the effect that stands behind it. A failure is audited only after
      a dispatch; closing a reconciled receipt just fails. */
  function CommitReceipt(s: Sys, i: ActorId, e: EffectId, deduplicated: bool): Option<Sys>
    requires i < |s.actors|
  {
    var actor := s.actors[i];
    if !IsOwner(s.db, actor.run, actor.attempt) || actor.receipt.None? || actor.receipt.value >= |s.receipts|
       || s.receipts[actor.receipt.value].status != PendingReceipt
    then
      Some(if actor.pc.ClosingReconciled? then Goto(s, i, Releasing(Threw))
           else if actor.key.action.recovery.Manual? then Goto(s, i, Marking(true))
           else Goto(Audited(s, i, ToolInvocationFailed), i, Releasing(Threw)))
    else
      var id := actor.receipt.value;
      var closed := s.(receipts := s.receipts[id := s.receipts[id].(status := Committed(e))],
                       commits := s.commits + [Commit(actor.run, actor.attempt)]);
      Some(Goto(Audited(closed, i, ToolInvocationCommitted), i, Releasing(CompletedWith(e, deduplicated))))
  }

  /** UPDATE ... WHERE status = 'PENDING'. */
  function WithStatus(s: Sys, id: Option<ReceiptId>, status: ReceiptStatus): (s': Sys)
    ensures s'.actors == s.actors && s'.db == s.db
  {
    if id.Some? && id.value < |s.receipts| && s.receipts[id.value].status == PendingReceipt
    then s.(receipts := s.receipts[id.value := s.receipts[id.value].(status := status)])
    else s
  }

  /** Leave the receipt FAILED or NEEDS_RECONCILIATION, if it is still pending. */
  function CloseReceipt(s: Sys, i: ActorId, status: ReceiptStatus, kind: EventKind, outcome: Outcome): Option<Sys>
    requires i < |s.actors|
  {
    var actor := s.actors[i];
    if !IsOwner(s.db, actor.run, actor.attempt) then Some(Goto(s, i, Releasing(Threw)))
    else Some(Goto(Audited(WithStatus(s, actor.receipt, status), i, kind), i, Releasing(outcome)))
  }

  function Deny(s: Sys, i: ActorId): Sys
    requires i < |s.actors|
  {
    Goto(Audited(s, i, ActionDenied), i, Releasing(DeniedOutcome))
  }

  /** Pick a usable grant, or refuse: nothing was dispatched when the earlier outcome is
      known absent, otherwise a pending receipt needs reconciliation. */
  function SelectGrant(s: Sys, i: ActorId, choice: Choice): Option<Sys>
    requires i < |s.actors|
  {
    var actor := s.actors[i];
    match choice
    case UseGrant(g) =>
      if GrantCovers(s, g, actor.run, actor.key) && (actor.receipt.Some? || GrantHasCalls(s.grants[g])) then
        Some(Put(s, i, actor.(grant := Some(g),
          pc := if s.grants[g].requiresApproval then CheckingApproval else ResolvingCredential)))
      else None
    case Ungranted => Some(Put(s, i, actor.(grant := None, pc := ResolvingCredential)))
    case Refused =>
      Some(if actor.receipt.None? then Deny(s, i)
           else Goto(s, i, if actor.absent then Denying else Marking(false)))
    case Invalid =>
      Some(if actor.receipt.Some? && actor.absent then Goto(s, i, Denying) else Deny(s, i))
    case _ => None
  }

  /** The approval bound to the receipt, or else the newest one asked for. */
  function ApprovalCandidate(s: Sys, actor: Actor): Option<ApprovalId>
  {
    if actor.approval.Some? then actor.approval else LastApproval(s.approvals, actor.run, actor.key)
  }

  /** Branch on the answer of locking approval a. */
  function OnAnswer(s: Sys, i: ActorId, a: ApprovalId, answer: Option<ApprovalStatus>): Sys
    requires i < |s.actors|
  {
    var actor := s.actors[i];
    match answer
    case Some(Approved) => Put(s, i, actor.(approval := Some(a), pc := ResolvingCredential))
    case Some(Denied) =>
      if actor.receipt.Some? && actor.absent then Goto(s, i, Denying) else Deny(s, i)
    case Some(Undecided) => Goto(s, i, Releasing(DeniedOutcome))
    case _ => if actor.receipt.Some? then Goto(s, i, RequestingApproval) else Deny(s, i)
  }

  function CheckApproval(s: Sys, i: ActorId): Option<Sys>
    requires i < |s.actors|
  {
    var actor := s.actors[i];
    var candidate := ApprovalCandidate(s, actor);
    if candidate.None? then Some(Goto(s, i, RequestingApproval))
    else
      var locked := WithApprovalLocked(s, actor.run, actor.key, candidate.value);
      Some(OnAnswer(locked, i, candidate.value, ApprovalAnswer(s, actor.run, actor.key, candidate.value)))
  }

  function AfterAuthority(actor: Actor): Pc {
    if actor.receipt.None? then InsertingReceipt else RecheckingOwner
  }

  function ResolveCredential(s: Sys, i: ActorId, choice: Choice): Option<Sys>
    requires i < |s.actors|
  {
    var actor := s.actors[i];
    match choice
    case Go =>
      Some(Goto(s, i, if NeedsApproval(s, actor) && actor.approval.Some? then RecheckingApproval
                      else AfterAuthority(actor)))
    case Fail => Some(Goto(Audited(s, i, ToolInvocationFailed), i, Releasing(Threw)))
    case _ => None
  }

  function OnRecheck(s: Sys, i: ActorId, answer: Option<ApprovalStatus>): Sys
    requires i < |s.actors|
  {
    var actor := s.actors[i];
    if answer == Some(Approved) then Goto(s, i, AfterAuthority(actor))
    else if answer == Some(Expired) && actor.receipt.Some? then Goto(s, i, RequestingApproval)
    else if actor.receipt.Some? && actor.absent then Goto(s, i, Denying)
    else Deny(s, i)
  }

  function RecheckApproval(s: Sys, i: ActorId): Option<Sys>
    requires i < |s.actors|
  {
    var actor := s.actors[i];
    if actor.approval.None? then None
    else
      Some(OnRecheck(WithApprovalLocked(s, actor.run, actor.key, actor.approval.value), i,
                     ApprovalAnswer(s, actor.run, actor.key, actor.approval.value)))
  }

  /** The run has no receipt under the key yet and the grant, if one is needed, can pay. */
  predicate MayInsert(s: Sys, actor: Actor)
  {
    && (forall o :: 0 <= o < |s.receipts| ==> s.receipts[o].run != actor.run || s.receipts[o].key != actor.key)
    && (actor.grant.Some? ==>
          GrantCovers(s, actor.grant.value, actor.run, actor.key) && GrantHasCalls(s.grants[actor.grant.value]))
  }

  function CallCharged(grants: seq<Grant>, grant: Option<GrantId>): (gs: seq<Grant>)
    ensures |gs| == |grants|
  {
    if grant.None? || grant.value >= |grants| then grants
    else grants[grant.value := grants[grant.value].(callsUsed := grants[grant.value].callsUsed + 1)]
  }

  /** Consume the grant and insert the PENDING receipt; ownership is not rechecked here. */
  function InsertReceipt(s: Sys, i: ActorId): Option<Sys>
    requires i < |s.actors|
  {
    var actor := s.actors[i];
    if !MayInsert(s, actor) then Some(Goto(s, i, Releasing(Threw)))
    else
      var row := Receipt(actor.run, actor.key, actor.approval, PendingReceipt, i, actor.grant);
      var recorded := s.(grants := CallCharged(s.grants, actor.grant), receipts := s.receipts + [row]);
      Some(Put(Audited(recorded, i, ToolInvocationStarted), i,
               actor.(receipt := Some(|s.receipts|), inserted := true, pc := RecheckingOwner)))
  }

  function RevalidateGrant(s: Sys, i: ActorId): Option<Sys>
    requires i < |s.actors|
  {
    var actor := s.actors[i];
    if actor.grant.Some? && !GrantCovers(s, actor.grant.value, actor.run, actor.key) then
      Some(if actor.inserted || actor.absent then Goto(s, i, Denying) else Deny(s, i))
    else
      Some(Goto(s, i, if NeedsApproval(s, actor) && actor.approval.Some? then FinalApproval else FinalOwner))
  }

  function OnFinalAnswer(s: Sys, i: ActorId, answer: Option<ApprovalStatus>): Sys
    requires i < |s.actors|
  {
    var actor := s.actors[i];
    match answer
    case Some(Approved) => Goto(s, i, FinalOwner)
    case Some(Expired) => Goto(s, i, RequestingApproval)
    case _ => if actor.inserted || actor.absent then Goto(s, i, Denying) else Deny(s, i)
  }

  function CheckFinalApproval(s: Sys, i: ActorId): Option<Sys>
    requires i < |s.actors|
  {
    var actor := s.actors[i];
    if actor.approval.None? then None
    else
      Some(OnFinalAnswer(WithApprovalLocked(s, actor.run, actor.key, actor.approval.value), i,
                         ApprovalAnswer(s, actor.run, actor.key, actor.approval.value)))
  }

  /** Suspend the run on a fresh approval, rebinding a recovered receipt to it. */
  function RequestApproval(s: Sys, i: ActorId, expiresAt: Option<nat>): Option<Sys>
    requires i < |s.actors|
  {
    var actor := s.actors[i];
    var moved := Epoch(s.db, actor.attempt, SuspendForApproval);
    if !IsOwner(s.db, actor.run, actor.attempt) || moved.Err? then Some(Goto(s, i, Releasing(Threw)))
    else
      var a := |s.approvals|;
      var requested := s.(db := moved.value,
                          approvals := s.approvals + [Approval(actor.run, actor.key, Undecided, expiresAt)]);
      if actor.receipt.None? then Some(Goto(requested, i, Releasing(SuspendedForApproval(a))))
      else if actor.receipt.value >= |s.receipts| || s.receipts[actor.receipt.value].status != PendingReceipt
      then Some(Goto(s, i, Releasing(Threw)))
      else
        var id := actor.receipt.value;
        Some(Goto(requested.(receipts := s.receipts[id := s.receipts[id].(approval := Some(a))]), i,
                  Releasing(SuspendedForApproval(a))))
  }

  /** Hand the request to the transport. */
  function Send(s: Sys, i: ActorId): Sys
    requires i < |s.actors|
  {
    Put(s, i, s.actors[i].(wire := InTransit, pc := AwaitingReply))
  }

  function Await(s: Sys, i: ActorId, choice: Choice): Option<Sys>
    requires i < |s.actors|
  {
    var actor := s.actors[i];
    if choice.Go? && actor.wire.Served? then Some(Goto(s, i, Committing(actor.wire.effect)))
    else if choice.Fail? then
      Some(if actor.key.action.recovery.Manual? then Goto(s, i, Marking(true))
           else Goto(if actor.session then Audited(s, i, ToolInvocationFailed) else s, i, Releasing(Threw)))
    else None
  }

  predicate NeedsDatabase(pc: Pc) {
    !pc.Dispatching? && !pc.AwaitingReply? && !pc.Reconciling?
  }

  predicate InFence(pc: Pc) {
    !pc.AwaitingLock? && !pc.Finished? && !pc.Dead?
  }

  /** One step of call i. A call whose session is gone fails at its next query. */
  function Advance(s: Sys, i: ActorId, choice: Choice, deadline: Option<nat>): Option<Sys>
    requires i < |s.actors|
  {
    var actor := s.actors[i];
    if InFence(actor.pc) && !actor.session && NeedsDatabase(actor.pc) then
      Some(Goto(s, i, Finished(if actor.pc.Releasing? then actor.pc.outcome else Threw)))
    else
      match actor.pc
      case AwaitingLock => Acquire(s, i)
      case CheckingOwner => CheckOwner(s, i, FindingReceipt)
      case FindingReceipt => FindReceipt(s, i, choice)
      case Reconciling => AskProvider(s, i, choice)
      case ClosingReconciled(e) => CommitReceipt(s, i, e, true)
      case Marking(rethrow) =>
        CloseReceipt(s, i, NeedsReconciliation, ToolInvocationFailed,
                     if rethrow then Threw else ReconciliationRequired)
      case SelectingGrant => SelectGrant(s, i, choice)
      case CheckingApproval => CheckApproval(s, i)
      case ResolvingCredential => ResolveCredential(s, i, choice)
      case RecheckingApproval => RecheckApproval(s, i)
      case InsertingReceipt => InsertReceipt(s, i)
      case RecheckingOwner => CheckOwner(s, i, RevalidatingGrant)
      case RevalidatingGrant => RevalidateGrant(s, i)
      case FinalApproval => CheckFinalApproval(s, i)
      case FinalOwner => CheckOwner(s, i, Dispatching)
      case Dispatching => Some(Send(s, i))
      case AwaitingReply => Await(s, i, choice)
      case Committing(e) => CommitReceipt(s, i, e, false)
      case Denying => CloseReceipt(s, i, FailedReceipt, ActionDenied, DeniedOutcome)
      case RequestingApproval => RequestApproval(s, i, deadline)
      case Releasing(outcome) => Some(Goto(Unlocked(s, i), i, Finished(outcome)))
      case Finished(_) => None
      case Dead => None
  }

  // --------------------------------------------------------------- environment

  /** Start a call for an attempt of a run; the key is rooted at the lineage's first run. */
  function Launch(s: Sys, run: RunId, attempt: AttemptId, action: Action, args: string): Option<Sys>
  {
    if run < |s.db.runs| && attempt < |s.db.attempts| && s.db.attempts[attempt].run == run then
      Some(s.(actors := s.actors + [Actor(run, attempt, Key(RootOf(s.db.runs, run), action, args),
                                          AwaitingLock, true, None, false, false, false, None, None, Unsent)]))
    else None
  }

  /** The process dies, or the call notices that its session is gone and aborts. */
  function Crash(s: Sys, i: ActorId): Option<Sys>
    requires i < |s.actors|
  {
    if s.actors[i].pc.Finished? || s.actors[i].pc.Dead? then None
    else Some(Put(Unlocked(s, i), i, s.actors[i].(pc := Dead, session := false)))
  }

  /** The database drops the lock's session and the call has not noticed yet. */
  function LoseSession(s: Sys, i: ActorId): Option<Sys>
    requires i < |s.actors|
  {
    if !InFence(s.actors[i].pc) then None
    else Some(Put(Unlocked(s, i), i, s.actors[i].(session := false)))
  }

  /** The receiver serves a request, unless the provider has certified that it never will; a
      repeated key is answered with the first effect when the receiver deduplicates. */
  function Deliver(s: Sys, i: ActorId): Option<Sys>
    requires i < |s.actors|
  {
    var actor := s.actors[i];
    if !actor.wire.InTransit? || actor.barred then None
    else
      var seen := FirstEffect(s.effects, actor.key);
      if actor.key.action.recovery.RetryWithKey? && seen.Some?
      then Some(Put(s, i, actor.(wire := Served(seen.value))))
      else Some(Put(s.(effects := s.effects + [Effect(actor.key, i)]), i,
                    actor.(wire := Served(|s.effects|))))
  }

  function Drop(s: Sys, i: ActorId): Option<Sys>
    requires i < |s.actors|
  {
    if s.actors[i].wire.InTransit? then Some(Put(s, i, s.actors[i].(wire := Lost))) else None
  }

  /** A human decides an open approval and wakes the run if it waits for one. */
  function DecideApproval(s: Sys, a: ApprovalId, approve: bool): Option<Sys>
  {
    if a >= |s.approvals| || s.approvals[a].status != Undecided then None
    else
      var decided := s.(approvals := s.approvals[a := s.approvals[a].(status := if approve then Approved else Denied)]);
      var woken := Resume(s.db, s.approvals[a].run, WaitingApproval, if approve then ApprovalReceived else ApprovalDenied);
      Some(if woken.Ok? then decided.(db := woken.value) else decided)
  }

  function IssueGrant(s: Sys, grant: Grant): Option<Sys>
  {
    if grant.callsUsed == 0 then Some(s.(grants := s.grants + [grant])) else None
  }

  datatype Label =
    | KernelStep(step: Step)
    | LaunchStep(run: RunId, attempt: AttemptId, action: Action, args: string)
    | ActorStep(actor: ActorId, choice: Choice, deadline: Option<nat>)
    | CrashStep(actor: ActorId)
    | LoseSessionStep(actor: ActorId)
    | DeliverStep(actor: ActorId)
    | DropStep(actor: ActorId)
    | DecideStep(approval: ApprovalId, approve: bool)
    | GrantStep(grant: Grant)

  /** The successor state, None when the step is not enabled. */
  function Next(s: Sys, move: Label): Option<Sys>
  {
    match move
    case KernelStep(step) =>
      if Permitted(s.db, step) && Apply(s.db, step).Ok? then Some(s.(db := Apply(s.db, step).value)) else None
    case LaunchStep(r, a, action, args) => Launch(s, r, a, action, args)
    case ActorStep(i, choice, deadline) => if i < |s.actors| then Advance(s, i, choice, deadline) else None
    case CrashStep(i) => if i < |s.actors| then Crash(s, i) else None
    case LoseSessionStep(i) => if i < |s.actors| then LoseSession(s, i) else None
    case DeliverStep(i) => if i < |s.actors| then Deliver(s, i) else None
    case DropStep(i) => if i < |s.actors| then Drop(s, i) else None
    case DecideStep(a, approve) => DecideApproval(s, a, approve)
    case GrantStep(grant) => IssueGrant(s, grant)
  }
}
