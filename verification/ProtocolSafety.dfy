/** Every step of the governed-action protocol keeps its invariant, and what that means for
    every execution: effects, receipts and answers. */
module ProtocolSafety {
  import opened Prelude
  import opened RunStates
  import opened Tables
  import opened Kernel
  import opened Invariants
  import opened Transactions
  import opened Runtime
  import opened GovernedAction
  import opened ProtocolInvariant
  import opened ProtocolSteps
  import opened ProtocolEvents
  import opened ProtocolEffects

  // -------------------------------------------------------------------- every step

  lemma FindKeeps(s: Sys, i: ActorId, choice: Choice)
    requires SysInv(s) && i < |s.actors| && s.actors[i].pc.FindingReceipt? && s.actors[i].session
    requires FindReceipt(s, i, choice).Some?
    ensures SysInv(FindReceipt(s, i, choice).value)
  {
    hide SysInv, BestReceipt, NoReceiptFor;
    match choice
    case NotFound => NotFoundKeeps(s, i);
    case Found(id) => FoundKeeps(s, i, id);
  }

  /** A call up to the point where it decides how to proceed. */
  lemma LookupKeeps(s: Sys, i: ActorId, choice: Choice, deadline: Option<nat>)
    requires SysInv(s) && i < |s.actors| && (BeforeLookup(s.actors[i].pc) || s.actors[i].pc.Reconciling?)
    requires s.actors[i].session || s.actors[i].pc.Reconciling?
    requires GovernedAction.Advance(s, i, choice, deadline).Some?
    ensures SysInv(GovernedAction.Advance(s, i, choice, deadline).value)
  {
    hide SysInv, Acquire, CheckOwner, FindReceipt, AskProvider;
    match s.actors[i].pc
    case AwaitingLock => AcquireKeeps(s, i);
    case CheckingOwner => FirstOwnerKeeps(s, i);
    case FindingReceipt => FindKeeps(s, i, choice);
    case Reconciling => AskProviderKeeps(s, i, choice);
  }

  /** A call that gathers its authority. */
  lemma AuthorityKeeps(s: Sys, i: ActorId, choice: Choice, deadline: Option<nat>)
    requires SysInv(s) && i < |s.actors| && s.actors[i].session
    requires s.actors[i].pc.SelectingGrant? || s.actors[i].pc.CheckingApproval? || s.actors[i].pc.ResolvingCredential?
             || s.actors[i].pc.RecheckingApproval? || s.actors[i].pc.InsertingReceipt?
             || s.actors[i].pc.RequestingApproval?
    requires GovernedAction.Advance(s, i, choice, deadline).Some?
    ensures SysInv(GovernedAction.Advance(s, i, choice, deadline).value)
  {
    hide SysInv, SelectGrant, CheckApproval, ResolveCredential, RecheckApproval, InsertReceipt, RequestApproval;
    match s.actors[i].pc
    case SelectingGrant => SelectGrantKeeps(s, i, choice);
    case CheckingApproval => CheckApprovalKeeps(s, i);
    case ResolvingCredential => ResolveCredentialKeeps(s, i, choice);
    case RecheckingApproval => RecheckApprovalKeeps(s, i);
    case InsertingReceipt => InsertReceiptKeeps(s, i);
    case RequestingApproval => RequestApprovalKeeps(s, i, deadline);
  }

  lemma DispatchKeeps(s: Sys, i: ActorId, choice: Choice, deadline: Option<nat>)
    requires SysInv(s) && i < |s.actors| && (Armed(s.actors[i].pc) || s.actors[i].pc.AwaitingReply?)
    requires s.actors[i].session || !NeedsDatabase(s.actors[i].pc)
    requires GovernedAction.Advance(s, i, choice, deadline).Some?
    ensures SysInv(GovernedAction.Advance(s, i, choice, deadline).value)
  {
    hide SysInv, CheckOwner, RevalidateGrant, CheckFinalApproval, Send, Await;
    match s.actors[i].pc
    case RecheckingOwner => ArmedOwnerKeeps(s, i, RevalidatingGrant);
    case RevalidatingGrant => RevalidateGrantKeeps(s, i);
    case FinalApproval => FinalApprovalKeeps(s, i);
    case FinalOwner => ArmedOwnerKeeps(s, i, Dispatching);
    case Dispatching => SendKeeps(s, i);
    case AwaitingReply => AwaitKeeps(s, i, choice);
  }

  lemma ClosingKeeps(s: Sys, i: ActorId, choice: Choice, deadline: Option<nat>)
    requires SysInv(s) && i < |s.actors| && s.actors[i].session
    requires s.actors[i].pc.ClosingReconciled? || s.actors[i].pc.Committing? || s.actors[i].pc.Marking?
             || s.actors[i].pc.Denying? || s.actors[i].pc.Releasing?
    requires GovernedAction.Advance(s, i, choice, deadline).Some?
    ensures SysInv(GovernedAction.Advance(s, i, choice, deadline).value)
  {
    hide SysInv, CommitReceipt, CloseReceipt, Unlocked;
    match s.actors[i].pc
    case ClosingReconciled(e) => CommitKeeps(s, i, e, true);
    case Committing(e) => CommitKeeps(s, i, e, false);
    case Marking(rethrow) =>
      CloseKeeps(s, i, NeedsReconciliation, ToolInvocationFailed, if rethrow then Threw else ReconciliationRequired);
    case Denying => CloseKeeps(s, i, FailedReceipt, ActionDenied, DeniedOutcome);
    case Releasing(outcome) => ReleaseKeeps(s, i);
  }

  lemma AdvanceKeeps(s: Sys, i: ActorId, choice: Choice, deadline: Option<nat>)
    requires SysInv(s) && i < |s.actors| && GovernedAction.Advance(s, i, choice, deadline).Some?
    ensures SysInv(GovernedAction.Advance(s, i, choice, deadline).value)
  {
    hide SysInv;
    var actor := s.actors[i];
    assert actor.pc.AwaitingLock? ==> actor.session by { ActorFacts(s, i); }
    if InFence(actor.pc) && !actor.session && NeedsDatabase(actor.pc) {
      SeveredKeeps(s, i);
    } else {
      assert !actor.pc.Finished? && !actor.pc.Dead?;
      hide GovernedAction.Advance;
      if BeforeLookup(actor.pc) || actor.pc.Reconciling? {
        LookupKeeps(s, i, choice, deadline);
      } else if Armed(actor.pc) || actor.pc.AwaitingReply? {
        DispatchKeeps(s, i, choice, deadline);
      } else if actor.pc.ClosingReconciled? || actor.pc.Committing? || actor.pc.Marking?
             || actor.pc.Denying? || actor.pc.Releasing? {
        ClosingKeeps(s, i, choice, deadline);
      } else {
        AuthorityKeeps(s, i, choice, deadline);
      }
    }
  }

  lemma DecideKeeps(s: Sys, a: ApprovalId, approve: bool)
    requires SysInv(s) && DecideApproval(s, a, approve).Some?
    ensures SysInv(DecideApproval(s, a, approve).value)
  {
    var s' := DecideApproval(s, a, approve).value;
    var kind := if approve then ApprovalReceived else ApprovalDenied;
    if Resume(s.db, s.approvals[a].run, WaitingApproval, kind).Ok? {
      ResumeKeeps(s.db, s.approvals[a].run, WaitingApproval, kind);
    } else {
      KeepsSame(s.db);
    }
    hide SysInv, Keeps, Resume;
    DbFrame(s, s'.db);
    AuthorityFrame(s.(db := s'.db), s'.approvals, s.grants);
  }

  lemma NextKeeps(s: Sys, move: Label)
    requires SysInv(s) && Next(s, move).Some?
    ensures SysInv(Next(s, move).value)
  {
    hide SysInv, Apply, Permitted, GovernedAction.Advance, Crash, LoseSession, Deliver, Drop, Launch, DecideApproval;
    match move
    case KernelStep(step) => KernelKeeps(s, step);
    case LaunchStep(r, a, action, args) => LaunchKeeps(s, r, a, action, args);
    case ActorStep(i, choice, deadline) => AdvanceKeeps(s, i, choice, deadline);
    case CrashStep(i) => CrashKeeps(s, i);
    case LoseSessionStep(i) => LoseSessionKeeps(s, i);
    case DeliverStep(i) => DeliverKeeps(s, i);
    case DropStep(i) => DropKeeps(s, i);
    case DecideStep(a, approve) => DecideKeeps(s, a, approve);
    case GrantStep(grant) => AuthorityFrame(s, s.approvals, s.grants + [grant]);
  }

  lemma KernelKeeps(s: Sys, step: Step)
    requires SysInv(s) && Permitted(s.db, step) && Apply(s.db, step).Ok?
    ensures SysInv(s.(db := Apply(s.db, step).value))
  {
    hide Apply, Permitted, Keeps, Inv;
    StepKeeps(s.db, step);
    DbFrame(s, Apply(s.db, step).value);
  }
}
