/** Approvals over whole executions, for every call, also one that has lost its lock session:
    what is sent under an approval-requiring grant passed its last check with a granted
    approval, and no last check passes after a denial. */
module ApprovalHistory {
  import opened Prelude
  import opened Tables
  import opened Kernel
  import opened GovernedAction
  import opened ProtocolInvariant
  import opened ProtocolSteps
  import opened Authority
  import opened AuthoritySteps
  import opened Finality
  import opened ExactlyOnce
  import Runtime

  /** Past the last approval check. */
  predicate Checked(actor: Actor) { actor.pc.FinalOwner? || actor.pc.Dispatching? || actor.wire != Unsent }

  /** Locking the call's approval now grants it. */
  predicate Granted(s: Sys, actor: Actor)
  {
    actor.approval.Some? && ApprovalAnswer(s, actor.run, actor.key, actor.approval.value) == Some(Approved)
  }

  // ------------------------------------------------------------------- one step

  /** How call i can get past its last check in one step of its own. */
  ghost predicate PassesCheck(s: Sys, i: ActorId)
    requires i < |s.actors|
  {
    var actor := s.actors[i];
    || (actor.pc.FinalApproval? && actor.session && Granted(s, actor))
    || (actor.pc.RevalidatingGrant? && !(NeedsApproval(s, actor) && actor.approval.Some?))
  }

  ghost predicate SameAuthority(a: Actor, b: Actor)
  {
    b.grant == a.grant && b.approval == a.approval && b.run == a.run && b.key == a.key
  }

  /** A step of call i: the others keep their authority and pass no check; call i gets past its
      last check only by passing it, and keeps its authority from then on. */
  ghost predicate Orderly(s: Sys, s': Sys, i: ActorId)
    requires i < |s.actors|
  {
    && |s'.actors| == |s.actors|
    && (forall j :: 0 <= j < |s.actors| && j != i ==>
          SameAuthority(s.actors[j], s'.actors[j]) && (Checked(s'.actors[j]) ==> Checked(s.actors[j])))
    && OwnOrderly(s, s'.actors[i], i)
  }

  ghost predicate OwnOrderly(s: Sys, after: Actor, i: ActorId)
    requires i < |s.actors|
  {
    Checked(after) ==> SameAuthority(s.actors[i], after) && (Checked(s.actors[i]) || PassesCheck(s, i))
  }

  lemma PutOrderly(s: Sys, s': Sys, i: ActorId, after: Actor)
    requires i < |s.actors| && s'.actors == s.actors[i := after] && OwnOrderly(s, after, i)
    ensures Orderly(s, s', i)
  {
  }

  /** Moving on without changing the call's authority, not past the check. */
  lemma MoveOrderly(s: Sys, s': Sys, i: ActorId, pc: Pc)
    requires i < |s.actors| && s'.actors == s.actors[i := s.actors[i].(pc := pc)]
    requires pc.FinalOwner? || pc.Dispatching? ==> Checked(s.actors[i]) || PassesCheck(s, i)
    ensures Orderly(s, s', i)
  {
    PutOrderly(s, s', i, s.actors[i].(pc := pc));
  }

  lemma AuditedActors(s: Sys, i: ActorId, kind: EventKind)
    requires i < |s.actors|
    ensures Audited(s, i, kind).actors == s.actors
  {
  }

  lemma DenyOrderly(s: Sys, i: ActorId)
    requires i < |s.actors|
    ensures Orderly(s, Deny(s, i), i)
  {
    hide Audited, Orderly;
    AuditedActors(s, i, ActionDenied);
    MoveOrderly(s, Deny(s, i), i, Releasing(DeniedOutcome));
  }

  lemma OwnerOrderly(s: Sys, i: ActorId, next: Pc)
    requires i < |s.actors| && (next.FinalOwner? || next.Dispatching? ==> Checked(s.actors[i]))
    ensures Orderly(s, CheckOwner(s, i, next).value, i)
  {
    hide IsOwner, Orderly;
    MoveOrderly(s, CheckOwner(s, i, next).value, i,
                if IsOwner(s.db, s.actors[i].run, s.actors[i].attempt) then next else Releasing(Threw));
  }

  lemma AcquireOrderly(s: Sys, i: ActorId)
    requires i < |s.actors| && Acquire(s, i).Some?
    ensures Orderly(s, Acquire(s, i).value, i)
  {
    hide Orderly;
    MoveOrderly(s, Acquire(s, i).value, i, CheckingOwner);
  }

  lemma FindOrderly(s: Sys, i: ActorId, choice: Choice)
    requires i < |s.actors| && s.actors[i].wire == Unsent && FindReceipt(s, i, choice).Some?
    ensures Orderly(s, FindReceipt(s, i, choice).value, i)
  {
    hide Orderly, BestReceipt, NoReceiptFor;
    var s' := FindReceipt(s, i, choice).value;
    PutOrderly(s, s', i, s'.actors[i]);
  }

  lemma AskOrderly(s: Sys, i: ActorId, choice: Choice)
    requires i < |s.actors| && s.actors[i].wire == Unsent && s.actors[i].pc.Reconciling? && AskProvider(s, i, choice).Some?
    ensures Orderly(s, AskProvider(s, i, choice).value, i)
  {
    hide FirstEffect;
  }

  lemma SelectOrderly(s: Sys, i: ActorId, choice: Choice)
    requires i < |s.actors| && s.actors[i].wire == Unsent && SelectGrant(s, i, choice).Some?
    ensures Orderly(s, SelectGrant(s, i, choice).value, i)
  {
    hide Orderly, Deny, GrantCovers;
    DenyOrderly(s, i);
    var s' := SelectGrant(s, i, choice).value;
    if s' != Deny(s, i) {
      PutOrderly(s, s', i, s'.actors[i]);
    }
  }

  lemma ResolveOrderly(s: Sys, i: ActorId, choice: Choice)
    requires i < |s.actors| && ResolveCredential(s, i, choice).Some?
    ensures Orderly(s, ResolveCredential(s, i, choice).value, i)
  {
    hide Orderly, Audited;
    AuditedActors(s, i, ToolInvocationFailed);
    var s' := ResolveCredential(s, i, choice).value;
    MoveOrderly(s, s', i, s'.actors[i].pc);
  }

  lemma LockedActors(s: Sys, run: RunId, key: Key, a: ApprovalId)
    ensures WithApprovalLocked(s, run, key, a).actors == s.actors && WithApprovalLocked(s, run, key, a).grants == s.grants
  {
  }

  /** What was orderly after locking an approval was so before. */
  lemma LockedOrderly(s: Sys, locked: Sys, s': Sys, i: ActorId)
    requires i < |s.actors| && locked.actors == s.actors && Orderly(locked, s', i)
    requires PassesCheck(locked, i) ==> PassesCheck(s, i)
    ensures Orderly(s, s', i)
  {
  }

  lemma AnswerOrderly(s: Sys, i: ActorId, a: ApprovalId, answer: Option<ApprovalStatus>)
    requires i < |s.actors| && s.actors[i].wire == Unsent && s.actors[i].pc.CheckingApproval?
    ensures Orderly(s, OnAnswer(s, i, a, answer), i)
  {
    hide Orderly, Deny;
    DenyOrderly(s, i);
    var actor := s.actors[i];
    MoveOrderly(s, Goto(s, i, Denying), i, Denying);
    MoveOrderly(s, Goto(s, i, RequestingApproval), i, RequestingApproval);
    MoveOrderly(s, Goto(s, i, Releasing(DeniedOutcome)), i, Releasing(DeniedOutcome));
    var granted := actor.(approval := Some(a), pc := ResolvingCredential);
    PutOrderly(s, Put(s, i, granted), i, granted);
  }

  lemma CheckOrderly(s: Sys, i: ActorId)
    requires i < |s.actors| && s.actors[i].wire == Unsent && s.actors[i].pc.CheckingApproval?
    ensures Orderly(s, CheckApproval(s, i).value, i)
  {
    hide Orderly, OnAnswer, ApprovalCandidate, WithApprovalLocked, ApprovalAnswer;
    var actor := s.actors[i];
    var c := ApprovalCandidate(s, actor);
    if c.None? {
      MoveOrderly(s, CheckApproval(s, i).value, i, RequestingApproval);
    } else {
      var locked := WithApprovalLocked(s, actor.run, actor.key, c.value);
      LockedActors(s, actor.run, actor.key, c.value);
      AnswerOrderly(locked, i, c.value, ApprovalAnswer(s, actor.run, actor.key, c.value));
      LockedOrderly(s, locked, CheckApproval(s, i).value, i);
    }
  }

  lemma RecheckedOrderly(s: Sys, i: ActorId, answer: Option<ApprovalStatus>)
    requires i < |s.actors| && s.actors[i].pc.RecheckingApproval?
    ensures Orderly(s, OnRecheck(s, i, answer), i)
  {
    hide Orderly, Deny;
    DenyOrderly(s, i);
    MoveOrderly(s, Goto(s, i, Denying), i, Denying);
    MoveOrderly(s, Goto(s, i, RequestingApproval), i, RequestingApproval);
    MoveOrderly(s, Goto(s, i, AfterAuthority(s.actors[i])), i, AfterAuthority(s.actors[i]));
  }

  lemma RecheckOrderly(s: Sys, i: ActorId)
    requires i < |s.actors| && s.actors[i].pc.RecheckingApproval? && RecheckApproval(s, i).Some?
    ensures Orderly(s, RecheckApproval(s, i).value, i)
  {
    hide Orderly, OnRecheck, WithApprovalLocked, ApprovalAnswer;
    var actor := s.actors[i];
    var locked := WithApprovalLocked(s, actor.run, actor.key, actor.approval.value);
    LockedActors(s, actor.run, actor.key, actor.approval.value);
    RecheckedOrderly(locked, i, ApprovalAnswer(s, actor.run, actor.key, actor.approval.value));
    LockedOrderly(s, locked, RecheckApproval(s, i).value, i);
  }

  lemma InsertOrderly(s: Sys, i: ActorId)
    requires i < |s.actors| && s.actors[i].wire == Unsent
    ensures Orderly(s, InsertReceipt(s, i).value, i)
  {
    hide Orderly, MayInsert, CallCharged, AppendEvent;
    var s' := InsertReceipt(s, i).value;
    PutOrderly(s, s', i, s'.actors[i]);
  }

  lemma RevalidateOrderly(s: Sys, i: ActorId)
    requires i < |s.actors| && s.actors[i].pc.RevalidatingGrant?
    ensures Orderly(s, RevalidateGrant(s, i).value, i)
  {
    hide Orderly, Deny, GrantCovers, NeedsApproval;
    DenyOrderly(s, i);
    MoveOrderly(s, Goto(s, i, Denying), i, Denying);
    MoveOrderly(s, Goto(s, i, FinalApproval), i, FinalApproval);
    if PassesCheck(s, i) {
      MoveOrderly(s, Goto(s, i, FinalOwner), i, FinalOwner);
    }
  }

  lemma FinalOrderly(s: Sys, i: ActorId)
    requires i < |s.actors| && s.actors[i].pc.FinalApproval? && s.actors[i].session && CheckFinalApproval(s, i).Some?
    ensures Orderly(s, CheckFinalApproval(s, i).value, i)
  {
    hide Orderly, Audited, WithApprovalLocked, ApprovalAnswer;
    var actor := s.actors[i];
    var locked := WithApprovalLocked(s, actor.run, actor.key, actor.approval.value);
    LockedActors(s, actor.run, actor.key, actor.approval.value);
    AuditedActors(locked, i, ActionDenied);
    var s' := CheckFinalApproval(s, i).value;
    MoveOrderly(s, s', i, s'.actors[i].pc);
  }

  lemma RequestOrderly(s: Sys, i: ActorId, deadline: Option<nat>)
    requires i < |s.actors|
    ensures Orderly(s, RequestApproval(s, i, deadline).value, i)
  {
    hide Orderly, IsOwner, Epoch;
    var s' := RequestApproval(s, i, deadline).value;
    MoveOrderly(s, s', i, s'.actors[i].pc);
  }

  lemma SendOrderly(s: Sys, i: ActorId)
    requires i < |s.actors| && s.actors[i].pc.Dispatching?
    ensures Orderly(s, Send(s, i), i)
  {
    hide Orderly;
    PutOrderly(s, Send(s, i), i, Send(s, i).actors[i]);
  }

  lemma AwaitOrderly(s: Sys, i: ActorId, choice: Choice)
    requires i < |s.actors| && Await(s, i, choice).Some?
    ensures Orderly(s, Await(s, i, choice).value, i)
  {
    hide Orderly, Audited, Goto;
    EndOrderly(s, s, i, ToolInvocationFailed, Releasing(Threw));
    EndOrderly(s, s, i, ToolInvocationFailed, Marking(true));
    if s.actors[i].wire.Served? {
      CommittingOrderly(s, i);
    }
  }

  lemma CommittingOrderly(s: Sys, i: ActorId)
    requires i < |s.actors| && s.actors[i].wire.Served?
    ensures Orderly(s, Goto(s, i, Committing(s.actors[i].wire.effect)), i)
  {
    hide Orderly;
    MoveOrderly(s, Goto(s, i, Committing(s.actors[i].wire.effect)), i, Committing(s.actors[i].wire.effect));
  }

  /** Ending a call, with or without an event in the ledger. */
  lemma EndOrderly(s: Sys, closed: Sys, i: ActorId, kind: EventKind, pc: Pc)
    requires i < |s.actors| && closed.actors == s.actors && (pc.Marking? || pc.Releasing?)
    ensures Orderly(s, Goto(closed, i, pc), i) && Orderly(s, Goto(Audited(closed, i, kind), i, pc), i)
  {
    hide Orderly, Audited;
    AuditedActors(closed, i, kind);
    MoveOrderly(s, Goto(closed, i, pc), i, pc);
    MoveOrderly(s, Goto(Audited(closed, i, kind), i, pc), i, pc);
  }

  lemma CommitOrderly(s: Sys, i: ActorId, e: EffectId, deduplicated: bool)
    requires i < |s.actors|
    ensures Orderly(s, CommitReceipt(s, i, e, deduplicated).value, i)
  {
    hide Orderly, IsOwner, Audited, Goto;
    var actor := s.actors[i];
    EndOrderly(s, s, i, ToolInvocationFailed, Releasing(Threw));
    EndOrderly(s, s, i, ToolInvocationFailed, Marking(true));
    if actor.receipt.Some? && actor.receipt.value < |s.receipts| {
      var id := actor.receipt.value;
      var closed := s.(receipts := s.receipts[id := s.receipts[id].(status := Committed(e))],
                       commits := s.commits + [Commit(actor.run, actor.attempt)]);
      EndOrderly(s, closed, i, ToolInvocationCommitted, Releasing(CompletedWith(e, deduplicated)));
    }
  }

  lemma CloseOrderly(s: Sys, i: ActorId, status: ReceiptStatus, kind: EventKind, outcome: Outcome)
    requires i < |s.actors|
    ensures Orderly(s, CloseReceipt(s, i, status, kind, outcome).value, i)
  {
    hide Orderly, IsOwner, Audited, WithStatus, Goto;
    EndOrderly(s, s, i, kind, Releasing(Threw));
    EndOrderly(s, WithStatus(s, s.actors[i].receipt, status), i, kind, Releasing(outcome));
  }

  lemma AdvanceOrderly(s: Sys, i: ActorId, choice: Choice, deadline: Option<nat>)
    requires i < |s.actors| && Advance(s, i, choice, deadline).Some?
    requires BeforeSend(s.actors[i].pc) ==> s.actors[i].wire == Unsent
    ensures Orderly(s, Advance(s, i, choice, deadline).value, i)
  {
    hide Orderly, Acquire, CheckOwner, FindReceipt, AskProvider, CommitReceipt, CloseReceipt, SelectGrant, CheckApproval,
         ResolveCredential, RecheckApproval, InsertReceipt, RevalidateGrant, CheckFinalApproval, RequestApproval, Send, Await;
    var actor := s.actors[i];
    if InFence(actor.pc) && !actor.session && NeedsDatabase(actor.pc) {
      MoveOrderly(s, Advance(s, i, choice, deadline).value, i,
                  Finished(if actor.pc.Releasing? then actor.pc.outcome else Threw));
    } else {
      match actor.pc
      case AwaitingLock => AcquireOrderly(s, i);
      case CheckingOwner => OwnerOrderly(s, i, FindingReceipt);
      case FindingReceipt => FindOrderly(s, i, choice);
      case Reconciling => AskOrderly(s, i, choice);
      case ClosingReconciled(e) => CommitOrderly(s, i, e, true);
      case Marking(rethrow) =>
        CloseOrderly(s, i, NeedsReconciliation, ToolInvocationFailed, if rethrow then Threw else ReconciliationRequired);
      case SelectingGrant => SelectOrderly(s, i, choice);
      case CheckingApproval => CheckOrderly(s, i);
      case ResolvingCredential => ResolveOrderly(s, i, choice);
      case RecheckingApproval => RecheckOrderly(s, i);
      case InsertingReceipt => InsertOrderly(s, i);
      case RecheckingOwner => OwnerOrderly(s, i, RevalidatingGrant);
      case RevalidatingGrant => RevalidateOrderly(s, i);
      case FinalApproval => FinalOrderly(s, i);
      case FinalOwner => OwnerOrderly(s, i, Dispatching);
      case Dispatching => SendOrderly(s, i);
      case AwaitingReply => AwaitOrderly(s, i, choice);
      case Committing(e) => CommitOrderly(s, i, e, false);
      case Denying => CloseOrderly(s, i, FailedReceipt, ActionDenied, DeniedOutcome);
      case RequestingApproval => RequestOrderly(s, i, deadline);
      case Releasing(outcome) => MoveOrderly(s, Goto(Unlocked(s, i), i, Finished(outcome)), i, Finished(outcome));
    }
  }

  /** What a step of the environment leaves of the calls; a new call is not past any check. */
  ghost predicate Undirected(s: Sys, s': Sys)
  {
    && |s.actors| <= |s'.actors|
    && (forall j :: 0 <= j < |s.actors| ==>
          SameAuthority(s.actors[j], s'.actors[j]) && (Checked(s'.actors[j]) ==> Checked(s.actors[j])))
    && forall j :: |s.actors| <= j < |s'.actors| ==> !Checked(s'.actors[j])
  }

  lemma EnvironmentUndirected(s: Sys, move: Label)
    requires Next(s, move).Some? && !move.ActorStep?
    ensures Undirected(s, Next(s, move).value)
  {
    hide Resume, FirstEffect, Runtime.Apply, Runtime.Permitted, Unlocked;
    if move.CrashStep? { UnlockedActors(s, move.actor); }
    if move.LoseSessionStep? { UnlockedActors(s, move.actor); }
  }

  lemma UnlockedActors(s: Sys, i: ActorId)
    requires i < |s.actors|
    ensures Unlocked(s, i).actors == s.actors
  {
  }

  // ------------------------------------------------------------------- executions

  /** Step c of the execution is the last check of call i, passed with a granted approval. */
  ghost predicate CheckedAt(states: seq<Sys>, moves: seq<Label>, c: nat, i: ActorId)
    requires |states| == |moves| + 1
  {
    && c < |moves| && i < |states[c].actors|
    && moves[c].ActorStep? && moves[c].actor == i
    && states[c].actors[i].pc.FinalApproval? && states[c].actors[i].session
    && Granted(states[c], states[c].actors[i])
  }

  /** The call is at or past its send, under a grant that asks for approval. */
  ghost predicate UnderApproval(s: Sys, i: ActorId)
  {
    i < |s.actors| && Checked(s.actors[i]) && NeedsApproval(s, s.actors[i])
  }

  lemma NeedsApprovalStable(s: Sys, s': Sys, a: Actor, b: Actor)
    requires AuthorityOk(s, a) && Settles(s, s') && SameAuthority(a, b)
    ensures NeedsApproval(s', b) == NeedsApproval(s, a)
  {
  }

  lemma AuthorityOfRevalidating(s: Sys, actor: Actor)
    requires AuthorityOk(s, actor)
    ensures actor.pc.RevalidatingGrant? && NeedsApproval(s, actor) ==> actor.approval.Some?
  {
  }

  /** A step past the check under such a grant is a granted check. */
  lemma PassIsGranted(s: Sys, i: ActorId)
    requires AuthInv(s) && i < |s.actors| && PassesCheck(s, i) && NeedsApproval(s, s.actors[i])
    ensures s.actors[i].pc.FinalApproval? && s.actors[i].session && Granted(s, s.actors[i])
  {
    ActorAuthority(s, i);
    AuthorityOfRevalidating(s, s.actors[i]);
  }

  lemma CheckedByOwnStep(s: Sys, move: Label, i: ActorId)
    requires SysInv(s) && AuthInv(s) && Next(s, move).Some? && move.ActorStep? && UnderApproval(Next(s, move).value, i)
    ensures i < |s.actors| && SameAuthority(s.actors[i], Next(s, move).value.actors[i])
    ensures UnderApproval(s, i)
            || (move.actor == i && s.actors[i].pc.FinalApproval? && s.actors[i].session && Granted(s, s.actors[i]))
  {
    hide SysInv, AuthInv, Settles, AuthorityOk, Advance, NeedsApproval, PassesCheck, Checked, Granted;
    var j := move.actor;
    var s' := Next(s, move).value;
    NextSettles(s, move);
    assert BeforeSend(s.actors[j].pc) ==> s.actors[j].wire == Unsent by { ActorFacts(s, j); }
    AdvanceOrderly(s, j, move.choice, move.deadline);
    ActorAuthority(s, i);
    NeedsApprovalStable(s, s', s.actors[i], s'.actors[i]);
    if !Checked(s.actors[i]) {
      PassIsGranted(s, i);
    }
  }

  lemma CheckedByEnvironment(s: Sys, move: Label, i: ActorId)
    requires AuthInv(s) && Next(s, move).Some? && !move.ActorStep? && UnderApproval(Next(s, move).value, i)
    ensures i < |s.actors| && SameAuthority(s.actors[i], Next(s, move).value.actors[i])
    ensures UnderApproval(s, i)
  {
    hide AuthInv, Settles, AuthorityOk, Next, NeedsApproval, Checked;
    var s' := Next(s, move).value;
    NextSettles(s, move);
    EnvironmentUndirected(s, move);
    ActorAuthority(s, i);
    NeedsApprovalStable(s, s', s.actors[i], s'.actors[i]);
  }

  /** Every send under an approval-requiring grant was preceded by a last check that found the
      call's own approval granted, whatever has become of the call's session since. */
  lemma {:induction false} SendWasChecked(states: seq<Sys>, moves: seq<Label>, n: nat, i: ActorId) returns (c: nat)
    requires Trace(states, moves) && n < |states| && UnderApproval(states[n], i)
    ensures c < n && CheckedAt(states, moves, c, i)
    ensures i < |states[c].actors| && SameAuthority(states[c].actors[i], states[n].actors[i])
    decreases n
  {
    hide SysInv, AuthInv, Next, NeedsApproval, Checked, Granted;
    if n > 0 {
      TraceInv(states, moves, n - 1);
      assert Made(states, moves, n - 1);
      if moves[n - 1].ActorStep? {
        CheckedByOwnStep(states[n - 1], moves[n - 1], i);
      } else {
        CheckedByEnvironment(states[n - 1], moves[n - 1], i);
      }
      if UnderApproval(states[n - 1], i) {
        c := SendWasChecked(states, moves, n - 1, i);
      } else {
        c := n - 1;
      }
    }
  }

  /** A granted check rests on the newest approval under the key, which is of that run and open
      to no other verdict. */
  lemma GrantedIsNewest(s: Sys, i: ActorId, a: ApprovalId)
    requires SysInv(s) && AuthInv(s) && i < |s.actors|
    requires s.actors[i].pc.FinalApproval? && s.actors[i].session && Granted(s, s.actors[i])
    requires a < |s.approvals| && s.approvals[a].run == s.actors[i].run && s.approvals[a].key == s.actors[i].key
    ensures !s.approvals[a].status.Denied?
  {
    hide SysInv;
    ActorAuthority(s, i);
    var mine := s.actors[i].approval.value;
    assert a < mine || a == mine;
  }

  /** A denial is final: whatever the run sends under that key and such a grant afterwards had
      passed its last check, with a granted approval, before the denial. */
  lemma DenialIsFinal(states: seq<Sys>, moves: seq<Label>, m: nat, n: nat, a: ApprovalId, i: ActorId) returns (c: nat)
    requires Trace(states, moves) && m <= n < |states|
    requires a < |states[m].approvals| && states[m].approvals[a].status.Denied?
    requires UnderApproval(states[n], i)
    requires states[n].actors[i].run == states[m].approvals[a].run && states[n].actors[i].key == states[m].approvals[a].key
    ensures c < m && CheckedAt(states, moves, c, i)
  {
    hide SysInv, AuthInv, Next, NeedsApproval, Checked, Granted;
    c := SendWasChecked(states, moves, n, i);
    if m <= c {
      TraceSettles(states, moves, m, c);
      TraceInv(states, moves, c);
      GrantedIsNewest(states[c], i, a);
    }
  }
}
