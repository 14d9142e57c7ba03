/** What a step of the governed-action protocol can no longer change. */
module Finality {
  import opened Prelude
  import opened Tables
  import opened Kernel
  import opened GovernedAction
  import Runtime

  /** Receipts keep their identity, and a status other than PENDING is final. */
  ghost predicate ReceiptsSettle(s: Sys, s': Sys)
  {
    && |s.receipts| <= |s'.receipts|
    && forall id :: 0 <= id < |s.receipts| ==>
         var o, n := s.receipts[id], s'.receipts[id];
         && n.run == o.run && n.key == o.key && n.creator == o.creator && n.grant == o.grant
         && (o.status != PendingReceipt ==> n.status == o.status)
  }

  /** Approvals keep their identity; a denial or an expiry is final and a grant can only expire. */
  ghost predicate ApprovalsSettle(s: Sys, s': Sys)
  {
    && |s.approvals| <= |s'.approvals|
    && forall a :: 0 <= a < |s.approvals| ==>
         var o, n := s.approvals[a], s'.approvals[a];
         && n.run == o.run && n.key == o.key && n.expiresAt == o.expiresAt
         && (o.status.Denied? || o.status.Expired? ==> n.status == o.status)
         && (o.status.Approved? ==> n.status.Approved? || n.status.Expired?)
  }

  /** Calls keep their identity, effects stay, grants change only in their counter. */
  ghost predicate Settles(s: Sys, s': Sys)
  {
    && s'.terminal == s.terminal
    && ReceiptsSettle(s, s')
    && ApprovalsSettle(s, s')
    && s.effects <= s'.effects
    && |s.actors| <= |s'.actors|
    && (forall i :: 0 <= i < |s.actors| ==>
          s'.actors[i].run == s.actors[i].run && s'.actors[i].attempt == s.actors[i].attempt
          && s'.actors[i].key == s.actors[i].key)
    && |s.grants| <= |s'.grants|
    && (forall g :: 0 <= g < |s.grants| ==>
          s'.grants[g] == s.grants[g].(callsUsed := s'.grants[g].callsUsed)
          && s.grants[g].callsUsed <= s'.grants[g].callsUsed)
  }

  lemma SettlesTransitive(a: Sys, b: Sys, c: Sys)
    requires Settles(a, b) && Settles(b, c)
    ensures Settles(a, c)
  {
  }

  lemma SettlesRefl(s: Sys)
    ensures Settles(s, s)
  {
  }

  /** Only the call's own record, the ledger and the locks differ. */
  ghost predicate Local(s: Sys, s': Sys, i: ActorId)
  {
    && i < |s.actors| && |s'.actors| == |s.actors|
    && s' == s.(db := s'.db, holders := s'.holders, actors := s.actors[i := s'.actors[i]])
    && s'.actors[i].run == s.actors[i].run && s'.actors[i].attempt == s.actors[i].attempt
    && s'.actors[i].key == s.actors[i].key
  }

  lemma LocalSettles(s: Sys, s': Sys, i: ActorId)
    requires Local(s, s', i)
    ensures Settles(s, s')
  {
  }

  lemma AuditedLocal(s: Sys, i: ActorId, kind: EventKind)
    requires i < |s.actors|
    ensures Audited(s, i, kind) == s.(db := Audited(s, i, kind).db)
  {
  }

  lemma ReceiptRowSettles(s: Sys, id: ReceiptId, row: Receipt)
    requires id < |s.receipts| && s.receipts[id].status == PendingReceipt
    requires row == s.receipts[id].(status := row.status, approval := row.approval)
    ensures Settles(s, s.(receipts := s.receipts[id := row]))
  {
  }

  lemma CommitsSettle(s: Sys, commits: seq<Commit>)
    ensures Settles(s, s.(commits := commits))
  {
  }

  lemma QuietMove(s: Sys, i: ActorId, pc: Pc)
    requires i < |s.actors|
    ensures Local(s, Goto(s, i, pc), i)
  {
  }

  lemma LoggedMove(s: Sys, i: ActorId, kind: EventKind, pc: Pc)
    requires i < |s.actors|
    ensures Local(s, Goto(Audited(s, i, kind), i, pc), i)
  {
    hide Audited;
    AuditedLocal(s, i, kind);
  }

  lemma StatusSettles(s: Sys, id: Option<ReceiptId>, status: ReceiptStatus)
    ensures Settles(s, WithStatus(s, id, status))
  {
  }

  lemma CloseSettles(s: Sys, i: ActorId, status: ReceiptStatus, kind: EventKind, outcome: Outcome)
    requires i < |s.actors|
    ensures Settles(s, CloseReceipt(s, i, status, kind, outcome).value)
  {
    hide Settles, Local, IsOwner, Audited, WithStatus, Goto;
    var s' := CloseReceipt(s, i, status, kind, outcome).value;
    var closed := WithStatus(s, s.actors[i].receipt, status);
    if IsOwner(s.db, s.actors[i].run, s.actors[i].attempt) {
      StatusSettles(s, s.actors[i].receipt, status);
      LoggedMove(closed, i, kind, Releasing(outcome));
      LocalSettles(closed, s', i);
      SettlesTransitive(s, closed, s');
    } else {
      QuietMove(s, i, Releasing(Threw));
      LocalSettles(s, s', i);
    }
  }

  lemma CommitSettles(s: Sys, i: ActorId, e: EffectId, deduplicated: bool)
    requires i < |s.actors|
    ensures Settles(s, CommitReceipt(s, i, e, deduplicated).value)
  {
    hide Settles, IsOwner, Audited;
    var actor := s.actors[i];
    var s' := CommitReceipt(s, i, e, deduplicated).value;
    if !IsOwner(s.db, actor.run, actor.attempt) || actor.receipt.None? || actor.receipt.value >= |s.receipts|
       || s.receipts[actor.receipt.value].status != PendingReceipt {
      AuditedLocal(s, i, ToolInvocationFailed);
      LocalSettles(s, s', i);
    } else {
      var id := actor.receipt.value;
      var closed := s.(receipts := s.receipts[id := s.receipts[id].(status := Committed(e))]);
      var marked := closed.(commits := s.commits + [Commit(actor.run, actor.attempt)]);
      ReceiptRowSettles(s, id, s.receipts[id].(status := Committed(e)));
      CommitsSettle(closed, marked.commits);
      SettlesTransitive(s, closed, marked);
      AuditedLocal(marked, i, ToolInvocationCommitted);
      LocalSettles(marked, s', i);
      SettlesTransitive(s, marked, s');
    }
  }

  lemma InsertSettles(s: Sys, i: ActorId)
    requires i < |s.actors|
    ensures Settles(s, InsertReceipt(s, i).value)
  {
    hide MayInsert, Audited;
    AuditedLocal(s.(grants := CallCharged(s.grants, s.actors[i].grant),
                    receipts := s.receipts + [Receipt(s.actors[i].run, s.actors[i].key, s.actors[i].approval,
                                                      PendingReceipt, i, s.actors[i].grant)]), i, ToolInvocationStarted);
  }

  lemma RequestSettles(s: Sys, i: ActorId, deadline: Option<nat>)
    requires i < |s.actors|
    ensures Settles(s, RequestApproval(s, i, deadline).value)
  {
    hide Epoch, IsOwner;
  }

  lemma LockSettles(s: Sys, run: RunId, key: Key, a: ApprovalId)
    ensures Settles(s, WithApprovalLocked(s, run, key, a))
    ensures WithApprovalLocked(s, run, key, a).actors == s.actors
  {
  }

  lemma LockedThenLocal(s: Sys, s': Sys, i: ActorId, a: ApprovalId)
    requires i < |s.actors| && Local(WithApprovalLocked(s, s.actors[i].run, s.actors[i].key, a), s', i)
    ensures Settles(s, s')
  {
    hide Settles, Local;
    LockSettles(s, s.actors[i].run, s.actors[i].key, a);
    var locked := WithApprovalLocked(s, s.actors[i].run, s.actors[i].key, a);
    LocalSettles(locked, s', i);
    SettlesTransitive(s, locked, s');
  }

  lemma AnswerLocal(s: Sys, i: ActorId, a: ApprovalId, answer: Option<ApprovalStatus>)
    requires i < |s.actors|
    ensures Local(s, OnAnswer(s, i, a, answer), i)
  {
    hide Audited;
    AuditedLocal(s, i, ActionDenied);
  }

  /** Checking an approval locks at most one row and then moves the call. */
  lemma CheckSettles(s: Sys, i: ActorId)
    requires i < |s.actors|
    ensures Settles(s, CheckApproval(s, i).value)
  {
    hide Settles, OnAnswer, ApprovalCandidate, WithApprovalLocked, ApprovalAnswer;
    var actor := s.actors[i];
    var s' := CheckApproval(s, i).value;
    var candidate := ApprovalCandidate(s, actor);
    if candidate.None? {
      LocalSettles(s, s', i);
    } else {
      LockSettles(s, actor.run, actor.key, candidate.value);
      AnswerLocal(WithApprovalLocked(s, actor.run, actor.key, candidate.value), i, candidate.value,
                  ApprovalAnswer(s, actor.run, actor.key, candidate.value));
      hide Local;
      LockedThenLocal(s, s', i, candidate.value);
    }
  }

  lemma LaterAnswersLocal(s: Sys, i: ActorId, answer: Option<ApprovalStatus>)
    requires i < |s.actors|
    ensures Local(s, OnRecheck(s, i, answer), i) && Local(s, OnFinalAnswer(s, i, answer), i)
  {
    hide Audited;
    AuditedLocal(s, i, ActionDenied);
  }

  lemma RecheckSettles(s: Sys, i: ActorId)
    requires i < |s.actors| && s.actors[i].approval.Some?
    ensures Settles(s, RecheckApproval(s, i).value)
    ensures Settles(s, CheckFinalApproval(s, i).value)
  {
    hide Settles, Local, OnRecheck, OnFinalAnswer, WithApprovalLocked, ApprovalAnswer;
    var actor := s.actors[i];
    var a := actor.approval.value;
    LockSettles(s, actor.run, actor.key, a);
    LaterAnswersLocal(WithApprovalLocked(s, actor.run, actor.key, a), i, ApprovalAnswer(s, actor.run, actor.key, a));
    LockedThenLocal(s, RecheckApproval(s, i).value, i, a);
    LockedThenLocal(s, CheckFinalApproval(s, i).value, i, a);
  }

  lemma AskSettles(s: Sys, i: ActorId, choice: Choice)
    requires i < |s.actors| && AskProvider(s, i, choice).Some?
    ensures Settles(s, AskProvider(s, i, choice).value)
  {
    hide FirstEffect;
  }

  /** Lookups, owner checks, the send and the release change nothing but the call and the lock. */
  lemma LookupSettles(s: Sys, i: ActorId, choice: Choice, deadline: Option<nat>)
    requires i < |s.actors| && Advance(s, i, choice, deadline).Some?
    requires var pc := s.actors[i].pc;
             pc.AwaitingLock? || pc.CheckingOwner? || pc.FindingReceipt? || pc.RecheckingOwner? || pc.FinalOwner?
             || pc.Dispatching? || pc.Releasing?
    ensures Settles(s, Advance(s, i, choice, deadline).value)
  {
    hide Settles, BestReceipt, NoReceiptFor, IsOwner, AskProvider, CommitReceipt, CloseReceipt, SelectGrant, CheckApproval,
         ResolveCredential, RecheckApproval, InsertReceipt, RevalidateGrant, CheckFinalApproval, RequestApproval, Await;
    LocalSettles(s, Advance(s, i, choice, deadline).value, i);
  }

  /** So do those of the other control states that touch neither receipts nor approvals. */
  lemma OtherSettles(s: Sys, i: ActorId, choice: Choice, deadline: Option<nat>)
    requires i < |s.actors| && Advance(s, i, choice, deadline).Some?
    requires var pc := s.actors[i].pc;
             pc.SelectingGrant? || pc.RevalidatingGrant?
    ensures Settles(s, Advance(s, i, choice, deadline).value)
  {
    hide Settles, Audited, GrantCovers;
    AuditedLocal(s, i, ActionDenied);
    LocalSettles(s, Advance(s, i, choice, deadline).value, i);
  }

  lemma FailureSettles(s: Sys, i: ActorId, choice: Choice, deadline: Option<nat>)
    requires i < |s.actors| && Advance(s, i, choice, deadline).Some?
    requires s.actors[i].pc.ResolvingCredential? || s.actors[i].pc.AwaitingReply?
    ensures Settles(s, Advance(s, i, choice, deadline).value)
  {
    hide Settles, Audited;
    AuditedLocal(s, i, ToolInvocationFailed);
    LocalSettles(s, Advance(s, i, choice, deadline).value, i);
  }

  lemma AdvanceSettles(s: Sys, i: ActorId, choice: Choice, deadline: Option<nat>)
    requires i < |s.actors| && Advance(s, i, choice, deadline).Some?
    ensures Settles(s, Advance(s, i, choice, deadline).value)
  {
    hide Settles, CommitReceipt, CloseReceipt, InsertReceipt, RequestApproval, CheckApproval, AskProvider;
    var actor := s.actors[i];
    if InFence(actor.pc) && !actor.session && NeedsDatabase(actor.pc) {
      LocalSettles(s, Advance(s, i, choice, deadline).value, i);
    } else {
      match actor.pc
      case ClosingReconciled(e) => CommitSettles(s, i, e, true);
      case Committing(e) => CommitSettles(s, i, e, false);
      case Marking(rethrow) =>
        CloseSettles(s, i, NeedsReconciliation, ToolInvocationFailed, if rethrow then Threw else ReconciliationRequired);
      case Denying => CloseSettles(s, i, FailedReceipt, ActionDenied, DeniedOutcome);
      case InsertingReceipt => InsertSettles(s, i);
      case RequestingApproval => RequestSettles(s, i, deadline);
      case CheckingApproval => CheckSettles(s, i);
      case RecheckingApproval => RecheckSettles(s, i);
      case FinalApproval => RecheckSettles(s, i);
      case Reconciling => AskSettles(s, i, choice);
      case AwaitingLock => LookupSettles(s, i, choice, deadline);
      case CheckingOwner => LookupSettles(s, i, choice, deadline);
      case FindingReceipt => LookupSettles(s, i, choice, deadline);
      case RecheckingOwner => LookupSettles(s, i, choice, deadline);
      case FinalOwner => LookupSettles(s, i, choice, deadline);
      case Dispatching => LookupSettles(s, i, choice, deadline);
      case Releasing(_) => LookupSettles(s, i, choice, deadline);
      case ResolvingCredential => FailureSettles(s, i, choice, deadline);
      case AwaitingReply => FailureSettles(s, i, choice, deadline);
      case _ => OtherSettles(s, i, choice, deadline);
    }
  }

  lemma DecideSettles(s: Sys, a: ApprovalId, approve: bool)
    requires DecideApproval(s, a, approve).Some?
    ensures Settles(s, DecideApproval(s, a, approve).value)
  {
    hide Resume;
  }

  lemma DeliverSettles(s: Sys, i: ActorId)
    requires i < |s.actors| && Deliver(s, i).Some?
    ensures Settles(s, Deliver(s, i).value)
  {
    hide FirstEffect;
  }

  lemma NextSettles(s: Sys, move: Label)
    requires Next(s, move).Some?
    ensures Settles(s, Next(s, move).value)
  {
    hide Settles, Advance, Deliver, DecideApproval, Runtime.Apply, Runtime.Permitted;
    match move
    case ActorStep(i, choice, deadline) => AdvanceSettles(s, i, choice, deadline);
    case CrashStep(i) => LocalSettles(s, Crash(s, i).value, i);
    case LoseSessionStep(i) => LocalSettles(s, LoseSession(s, i).value, i);
    case DropStep(i) => LocalSettles(s, Drop(s, i).value, i);
    case DecideStep(a, approve) => DecideSettles(s, a, approve);
    case DeliverStep(i) => DeliverSettles(s, i);
    case _ => MoreSettles(s, Next(s, move).value);
  }

  /** New rows and a new database settle nothing. */
  lemma MoreSettles(s: Sys, s': Sys)
    requires s' == s.(db := s'.db, actors := s'.actors, grants := s'.grants)
    requires s.actors <= s'.actors && s.grants <= s'.grants
    ensures Settles(s, s')
  {
  }
}
