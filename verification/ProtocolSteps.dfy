/** Steps of a call that stay within its own control state keep the protocol invariant. */
module ProtocolSteps {
  import opened Prelude
  import opened Tables
  import opened Kernel
  import opened Evolution
  import opened Lineage
  import opened Invariants
  import opened Transactions
  import opened Runtime
  import opened GovernedAction
  import opened ProtocolInvariant

  // ---------------------------------------------------------------------- frames

  /** Same receipts up to the approval they are bound to. */
  ghost predicate SameReceipts(s: Sys, s': Sys)
  {
    && |s'.receipts| == |s.receipts|
    && forall id :: 0 <= id < |s.receipts| ==>
         && s'.receipts[id].run == s.receipts[id].run
         && s'.receipts[id].key == s.receipts[id].key
         && s'.receipts[id].status == s.receipts[id].status
         && s'.receipts[id].creator == s.receipts[id].creator
  }

  /** Same call up to the authority it has picked. */
  ghost predicate SameCall(o: Actor, n: Actor)
  {
    n == o.(grant := n.grant, approval := n.approval)
  }

  /** Nothing the protocol invariant reads has changed, except that the kernel moved on. */
  ghost predicate Background(s: Sys, s': Sys)
  {
    && s'.terminal == s.terminal
    && Keeps(s.db, s'.db)
    && SameReceipts(s, s')
    && s'.holders == s.holders && s'.effects == s.effects
    && |s'.actors| == |s.actors|
    && forall j :: 0 <= j < |s.actors| ==> SameCall(s.actors[j], s'.actors[j])
  }

  lemma ReceiptsFramed(s: Sys, s': Sys)
    requires ReceiptsOk(s) && Evolves(s.db, s'.db) && SameReceipts(s, s')
    requires s'.effects == s.effects && |s.actors| <= |s'.actors|
    ensures ReceiptsOk(s')
  {
    forall id | 0 <= id < |s'.receipts|
      ensures s'.receipts[id].run < |s'.db.runs|
      ensures s'.receipts[id].key.root == RootOf(s'.db.runs, s'.receipts[id].run)
    {
      RootStable(s.db, s'.db, s.receipts[id].run);
    }
  }

  lemma ActorFramed(s: Sys, s': Sys, j: ActorId)
    requires j < |s.actors| && ActorOk(s, j) && Background(s, s')
    ensures ActorOk(s', j)
  {
    assert SameCall(s.actors[j], s'.actors[j]);
    PlacedStable(s, s', s.actors[j]);
  }

  lemma RivalsFramed(s: Sys, s': Sys)
    requires RivalsOk(s) && FailedOk(s) && Background(s, s')
    ensures RivalsOk(s') && FailedOk(s')
  {
    forall a: ActorId, b: ActorId | SameKey(s', a, b)
      ensures Rivals(s', a, b)
    {
      assert SameCall(s.actors[a], s'.actors[a]) && SameCall(s.actors[b], s'.actors[b]);
      assert SameKey(s, a, b);
    }
    forall id: ReceiptId, j: ActorId | FailedFor(s', id, j) && Guarded(s', s'.actors[j].key)
      ensures !Threat(s'.actors[j])
    {
      assert SameCall(s.actors[j], s'.actors[j]);
      assert FailedFor(s, id, j);
    }
  }

  lemma BackgroundKeeps(s: Sys, s': Sys)
    requires SysInv(s) && Background(s, s')
    ensures SysInv(s')
  {
    hide ActorOk, ReceiptsOk, RivalsOk, FailedOk, Inv, Evolves;
    RivalsFramed(s, s');
    ReceiptsFramed(s, s');
    forall j | 0 <= j < |s'.actors|
      ensures ActorOk(s', j)
    {
      ActorFramed(s, s', j);
    }
    assert forall j :: 0 <= j < |s.actors| ==> SameCall(s.actors[j], s'.actors[j]);
    assert EffectsOk(s') && LocksOk(s');
  }

  lemma ActorFacts(s: Sys, i: ActorId)
    requires SysInv(s) && i < |s.actors|
    ensures ActorOk(s, i) && Inv(s.db)
  {
  }

  lemma DbFrame(s: Sys, db': Db)
    requires SysInv(s) && Keeps(s.db, db')
    ensures SysInv(s.(db := db'))
  {
    hide SysInv, Keeps;
    BackgroundKeeps(s, s.(db := db'));
  }

  lemma AuthorityFrame(s: Sys, approvals: seq<Approval>, grants: seq<Grant>)
    requires SysInv(s)
    ensures SysInv(s.(approvals := approvals, grants := grants))
  {
    KeepsSame(s.db);
    hide SysInv, Keeps;
    BackgroundKeeps(s, s.(approvals := approvals, grants := grants));
  }

  lemma CommitsFrame(s: Sys, commits: seq<Commit>)
    requires SysInv(s)
    ensures SysInv(s.(commits := commits))
  {
    KeepsSame(s.db);
    hide SysInv, Keeps;
    BackgroundKeeps(s, s.(commits := commits));
  }

  lemma RelabelFrame(s: Sys, i: ActorId, grant: Option<GrantId>, approval: Option<ApprovalId>)
    requires SysInv(s) && i < |s.actors|
    ensures SysInv(Put(s, i, s.actors[i].(grant := grant, approval := approval)))
  {
    KeepsSame(s.db);
    hide SysInv, Keeps;
    BackgroundKeeps(s, Put(s, i, s.actors[i].(grant := grant, approval := approval)));
  }

  lemma RebindFrame(s: Sys, id: ReceiptId, approval: Option<ApprovalId>)
    requires SysInv(s) && id < |s.receipts|
    ensures SysInv(s.(receipts := s.receipts[id := s.receipts[id].(approval := approval)]))
  {
    KeepsSame(s.db);
    hide SysInv, Keeps;
    BackgroundKeeps(s, s.(receipts := s.receipts[id := s.receipts[id].(approval := approval)]));
  }

  lemma AuditedFrame(s: Sys, i: ActorId, kind: EventKind)
    requires SysInv(s) && i < |s.actors|
    requires kind.ToolInvocationStarted? || kind.ToolInvocationCommitted? || kind.ToolInvocationFailed? || kind.ActionDenied?
    ensures SysInv(Audited(s, i, kind))
    ensures Audited(s, i, kind) == s.(db := Audited(s, i, kind).db)
  {
    ActorFacts(s, i);
    AppendKeeps(s.db, s.actors[i].run, kind, Some(s.actors[i].attempt));
    DbFrame(s, Audited(s, i, kind).db);
  }

  lemma ApprovalFrame(s: Sys, run: RunId, key: Key, a: ApprovalId)
    requires SysInv(s)
    ensures SysInv(WithApprovalLocked(s, run, key, a))
    ensures WithApprovalLocked(s, run, key, a).actors == s.actors
  {
    AuthorityFrame(s, WithApprovalLocked(s, run, key, a).approvals, s.grants);
  }

  // ----------------------------------------------------------------------- jumps

  /** A program counter the call may move to without touching shared state. */
  ghost predicate MayJump(actor: Actor, pc: Pc)
  {
    var recovery := actor.key.action.recovery;
    && InFence(actor.pc)
    && (actor.session ==> InFence(pc))
    && !BeforeLookup(pc)
    && !pc.Reconciling? && !pc.ClosingReconciled?
    && (Working(pc) ==> Working(actor.pc))
    && (Armed(pc) ==> actor.session)
    && (BeforeSend(pc) ==> BeforeSend(actor.pc))
    && (NeedsReceipt(pc) ==> actor.receipt.Some?)
    && (Working(pc) && BeforeSend(pc) && !pc.Marking? && actor.receipt.Some? && !recovery.RetryWithKey? ==>
          actor.inserted || actor.absent)
    && (Armed(pc) && recovery.Manual? ==> actor.inserted)
    && (pc.Denying? ==> actor.inserted || actor.absent)
    && (pc.InsertingReceipt? ==> actor.receipt.None?)
    && (pc.Committing? ==> actor.wire == Served(pc.answer))
    && (pc.Releasing? ==> !pc.outcome.CompletedWith?)
    && (pc.Finished? && pc.result.CompletedWith? ==> actor.pc == Releasing(pc.result))
  }

  /** The pending receipt a holder works on is its key's only one, so none of that key is FAILED. */
  lemma HolderSeesNoFailed(s: Sys, i: ActorId)
    requires SysInv(s) && i < |s.actors| && Working(s.actors[i].pc) && s.actors[i].session
    ensures forall id: ReceiptId :: id < |s.receipts| && s.receipts[id].key == s.actors[i].key ==>
              s.receipts[id].status == PendingReceipt
  {
    ActorFacts(s, i);
    forall id: ReceiptId | id < |s.receipts| && s.receipts[id].key == s.actors[i].key
      ensures s.receipts[id].status == PendingReceipt
    {
      var mine := s.actors[i].receipt.value;
      assert id == mine || id < mine || mine < id;
    }
  }

  lemma JumpActor(s: Sys, i: ActorId, pc: Pc)
    requires i < |s.actors| && ActorOk(s, i) && MayJump(s.actors[i], pc)
    ensures ActorOk(Goto(s, i, pc), i)
  {
  }

  lemma JumpRivals(s: Sys, i: ActorId, pc: Pc)
    requires SysInv(s) && i < |s.actors| && MayJump(s.actors[i], pc)
    ensures RivalsOk(Goto(s, i, pc))
  {
    var s' := Goto(s, i, pc);
    assert Deciding(pc) ==> Deciding(s.actors[i].pc);
    forall a: ActorId, b: ActorId | SameKey(s', a, b)
      ensures Rivals(s', a, b)
    {
      assert SameKey(s, a, b);
    }
  }

  lemma JumpFailed(s: Sys, i: ActorId, pc: Pc)
    requires SysInv(s) && i < |s.actors| && MayJump(s.actors[i], pc)
    ensures FailedOk(Goto(s, i, pc))
  {
    var s' := Goto(s, i, pc);
    if Armed(pc) {
      HolderSeesNoFailed(s, i);
    }
    forall id: ReceiptId, j: ActorId | FailedFor(s', id, j) && Guarded(s', s'.actors[j].key)
      ensures !Threat(s'.actors[j])
    {
      assert FailedFor(s, id, j);
    }
  }

  lemma OtherUnmoved(s: Sys, i: ActorId, pc: Pc, j: ActorId)
    requires i < |s.actors| && j < |s.actors| && j != i && ActorOk(s, j)
    ensures ActorOk(Goto(s, i, pc), j)
  {
  }

  lemma JumpOthers(s: Sys, i: ActorId, pc: Pc)
    requires SysInv(s) && i < |s.actors| && MayJump(s.actors[i], pc)
    ensures forall j :: 0 <= j < |s.actors| ==> ActorOk(Goto(s, i, pc), j)
  {
    hide ActorOk;
    forall j | 0 <= j < |s.actors|
      ensures ActorOk(Goto(s, i, pc), j)
    {
      ActorFacts(s, j);
      if j == i { JumpActor(s, i, pc); } else { OtherUnmoved(s, i, pc, j); }
    }
  }

  lemma JumpKeeps(s: Sys, i: ActorId, pc: Pc)
    requires SysInv(s) && i < |s.actors| && MayJump(s.actors[i], pc)
    ensures SysInv(Goto(s, i, pc))
  {
    hide ActorOk, RivalsOk, FailedOk, Inv;
    var s' := Goto(s, i, pc);
    JumpOthers(s, i, pc);
    JumpRivals(s, i, pc);
    JumpFailed(s, i, pc);
    ActorFacts(s, i);
    assert LocksOk(s') && ReceiptsOk(s') && EffectsOk(s');
  }

  lemma RelabelKeeps(s: Sys, i: ActorId, grant: Option<GrantId>, approval: Option<ApprovalId>, pc: Pc)
    requires SysInv(s) && i < |s.actors| && MayJump(s.actors[i], pc)
    ensures SysInv(Put(s, i, s.actors[i].(grant := grant, approval := approval, pc := pc)))
  {
    hide SysInv;
    RelabelFrame(s, i, grant, approval);
    var t := Put(s, i, s.actors[i].(grant := grant, approval := approval));
    assert Put(s, i, s.actors[i].(grant := grant, approval := approval, pc := pc)) == Goto(t, i, pc);
    JumpKeeps(t, i, pc);
  }

  /** The facts about a call's own fields that its control state guarantees. */
  ghost predicate Shape(actor: Actor)
  {
    && (NeedsReceipt(actor.pc) ==> actor.receipt.Some?)
    && (actor.inserted || actor.absent ==> actor.receipt.Some?)
    && (Armed(actor.pc) && actor.key.action.recovery.Manual? ==> actor.inserted)
    && (actor.absent ==> actor.key.action.recovery.Reconcile?)
    && (Deciding(actor.pc) && !actor.pc.Marking? && !actor.pc.Reconciling? && !actor.pc.ClosingReconciled? ==>
          actor.receipt.None? || actor.key.action.recovery.RetryWithKey? || actor.inserted || actor.absent)
  }

  lemma ActorShape(s: Sys, i: ActorId)
    requires SysInv(s) && i < |s.actors|
    ensures Shape(s.actors[i])
  {
    ActorFacts(s, i);
  }

  // --------------------------------------------------------- steps local to one call

  lemma DenyKeeps(s: Sys, i: ActorId)
    requires SysInv(s) && i < |s.actors| && Working(s.actors[i].pc) && s.actors[i].session
    ensures SysInv(Deny(s, i))
  {
    hide SysInv, Audited;
    AuditedFrame(s, i, ActionDenied);
    JumpKeeps(Audited(s, i, ActionDenied), i, Releasing(DeniedOutcome));
  }

  /** Close the receipt as FAILED when the call may, otherwise only deny. */
  lemma DenyOrFailKeeps(s: Sys, i: ActorId, close: bool)
    requires SysInv(s) && i < |s.actors| && s.actors[i].session && Deciding(s.actors[i].pc)
    requires close ==> s.actors[i].inserted || s.actors[i].absent
    ensures SysInv(if close then Goto(s, i, Denying) else Deny(s, i))
  {
    hide SysInv;
    ActorShape(s, i);
    if close { JumpKeeps(s, i, Denying); } else { DenyKeeps(s, i); }
  }

  lemma ThrowKeeps(s: Sys, i: ActorId, audit: bool)
    requires SysInv(s) && i < |s.actors| && InFence(s.actors[i].pc)
    ensures SysInv(Goto(if audit then Audited(s, i, ToolInvocationFailed) else s, i, Releasing(Threw)))
  {
    hide SysInv, Audited;
    AuditedFrame(s, i, ToolInvocationFailed);
    JumpKeeps(if audit then Audited(s, i, ToolInvocationFailed) else s, i, Releasing(Threw));
  }

  /** A call without its session fails at the next query. */
  lemma SeveredKeeps(s: Sys, i: ActorId)
    requires SysInv(s) && i < |s.actors| && InFence(s.actors[i].pc) && !s.actors[i].session
    ensures SysInv(Goto(s, i, Finished(if s.actors[i].pc.Releasing? then s.actors[i].pc.outcome else Threw)))
  {
    hide SysInv;
    JumpKeeps(s, i, Finished(if s.actors[i].pc.Releasing? then s.actors[i].pc.outcome else Threw));
  }

  /** Owner checks on the way to the send. */
  lemma ArmedOwnerKeeps(s: Sys, i: ActorId, next: Pc)
    requires SysInv(s) && i < |s.actors| && s.actors[i].session
    requires (s.actors[i].pc.RecheckingOwner? && next == RevalidatingGrant)
             || (s.actors[i].pc.FinalOwner? && next == Dispatching)
    ensures SysInv(CheckOwner(s, i, next).value)
  {
    hide SysInv, IsOwner;
    ActorShape(s, i);
    if IsOwner(s.db, s.actors[i].run, s.actors[i].attempt) {
      JumpKeeps(s, i, next);
    } else {
      JumpKeeps(s, i, Releasing(Threw));
    }
  }

  lemma SelectGrantKeeps(s: Sys, i: ActorId, choice: Choice)
    requires SysInv(s) && i < |s.actors| && s.actors[i].pc.SelectingGrant? && s.actors[i].session
    requires SelectGrant(s, i, choice).Some?
    ensures SysInv(SelectGrant(s, i, choice).value)
  {
    var actor := s.actors[i];
    ActorShape(s, i);
    hide SysInv, GrantCovers, Audited;
    match choice
    case UseGrant(g) =>
      RelabelKeeps(s, i, Some(g), actor.approval,
                   if s.grants[g].requiresApproval then CheckingApproval else ResolvingCredential);
    case Ungranted => RelabelKeeps(s, i, None, actor.approval, ResolvingCredential);
    case Refused =>
      if actor.receipt.Some? && !actor.absent {
        JumpKeeps(s, i, Marking(false));
      } else {
        DenyOrFailKeeps(s, i, actor.receipt.Some?);
      }
    case Invalid => DenyOrFailKeeps(s, i, actor.receipt.Some? && actor.absent);
  }

  /** Branching on the answer of a locked approval. */
  lemma AnsweredKeeps(s: Sys, i: ActorId, a: ApprovalId, answer: Option<ApprovalStatus>)
    requires SysInv(s) && i < |s.actors| && s.actors[i].pc.CheckingApproval? && s.actors[i].session
    ensures SysInv(OnAnswer(s, i, a, answer))
  {
    hide SysInv, Deny;
    var actor := s.actors[i];
    ActorShape(s, i);
    match answer
    case Some(Approved) => RelabelKeeps(s, i, actor.grant, Some(a), ResolvingCredential);
    case Some(Denied) => DenyOrFailKeeps(s, i, actor.receipt.Some? && actor.absent);
    case Some(Undecided) => JumpKeeps(s, i, Releasing(DeniedOutcome));
    case _ => if actor.receipt.Some? { JumpKeeps(s, i, RequestingApproval); } else { DenyKeeps(s, i); }
  }

  lemma CheckApprovalKeeps(s: Sys, i: ActorId)
    requires SysInv(s) && i < |s.actors| && s.actors[i].pc.CheckingApproval? && s.actors[i].session
    ensures SysInv(CheckApproval(s, i).value)
  {
    hide SysInv, OnAnswer, ApprovalCandidate, WithApprovalLocked, ApprovalAnswer;
    var actor := s.actors[i];
    var candidate := ApprovalCandidate(s, actor);
    if candidate.None? {
      ActorShape(s, i);
      JumpKeeps(s, i, RequestingApproval);
    } else {
      ApprovalFrame(s, actor.run, actor.key, candidate.value);
      AnsweredKeeps(WithApprovalLocked(s, actor.run, actor.key, candidate.value), i, candidate.value,
                    ApprovalAnswer(s, actor.run, actor.key, candidate.value));
    }
  }

  lemma ResolveCredentialKeeps(s: Sys, i: ActorId, choice: Choice)
    requires SysInv(s) && i < |s.actors| && s.actors[i].pc.ResolvingCredential? && s.actors[i].session
    requires ResolveCredential(s, i, choice).Some?
    ensures SysInv(ResolveCredential(s, i, choice).value)
  {
    hide SysInv, Audited;
    var actor := s.actors[i];
    ActorShape(s, i);
    match choice
    case Go =>
      JumpKeeps(s, i, if NeedsApproval(s, actor) && actor.approval.Some? then RecheckingApproval else AfterAuthority(actor));
    case Fail => ThrowKeeps(s, i, true);
  }

  lemma RecheckAnsweredKeeps(s: Sys, i: ActorId, answer: Option<ApprovalStatus>)
    requires SysInv(s) && i < |s.actors| && s.actors[i].pc.RecheckingApproval? && s.actors[i].session
    ensures SysInv(OnRecheck(s, i, answer))
  {
    hide SysInv, Deny;
    var actor := s.actors[i];
    ActorShape(s, i);
    if answer == Some(Approved) {
      JumpKeeps(s, i, AfterAuthority(actor));
    } else if answer == Some(Expired) && actor.receipt.Some? {
      JumpKeeps(s, i, RequestingApproval);
    } else {
      DenyOrFailKeeps(s, i, actor.receipt.Some? && actor.absent);
    }
  }

  lemma RecheckApprovalKeeps(s: Sys, i: ActorId)
    requires SysInv(s) && i < |s.actors| && s.actors[i].pc.RecheckingApproval? && s.actors[i].session
    requires RecheckApproval(s, i).Some?
    ensures SysInv(RecheckApproval(s, i).value)
  {
    hide SysInv, OnRecheck, WithApprovalLocked, ApprovalAnswer;
    var actor := s.actors[i];
    ApprovalFrame(s, actor.run, actor.key, actor.approval.value);
    RecheckAnsweredKeeps(WithApprovalLocked(s, actor.run, actor.key, actor.approval.value), i,
                         ApprovalAnswer(s, actor.run, actor.key, actor.approval.value));
  }

  lemma RevalidateGrantKeeps(s: Sys, i: ActorId)
    requires SysInv(s) && i < |s.actors| && s.actors[i].pc.RevalidatingGrant? && s.actors[i].session
    ensures SysInv(RevalidateGrant(s, i).value)
  {
    hide SysInv, Audited, GrantCovers;
    var actor := s.actors[i];
    ActorShape(s, i);
    if actor.grant.Some? && !GrantCovers(s, actor.grant.value, actor.run, actor.key) {
      DenyOrFailKeeps(s, i, actor.inserted || actor.absent);
    } else {
      JumpKeeps(s, i, if NeedsApproval(s, actor) && actor.approval.Some? then FinalApproval else FinalOwner);
    }
  }

  lemma FinalAnsweredKeeps(s: Sys, i: ActorId, answer: Option<ApprovalStatus>)
    requires SysInv(s) && i < |s.actors| && s.actors[i].pc.FinalApproval? && s.actors[i].session
    ensures SysInv(OnFinalAnswer(s, i, answer))
  {
    hide SysInv, Deny;
    var actor := s.actors[i];
    ActorShape(s, i);
    match answer
    case Some(Approved) => JumpKeeps(s, i, FinalOwner);
    case Some(Expired) => JumpKeeps(s, i, RequestingApproval);
    case _ => DenyOrFailKeeps(s, i, actor.inserted || actor.absent);
  }

  lemma FinalApprovalKeeps(s: Sys, i: ActorId)
    requires SysInv(s) && i < |s.actors| && s.actors[i].pc.FinalApproval? && s.actors[i].session
    requires CheckFinalApproval(s, i).Some?
    ensures SysInv(CheckFinalApproval(s, i).value)
  {
    hide SysInv, OnFinalAnswer, WithApprovalLocked, ApprovalAnswer;
    var actor := s.actors[i];
    ApprovalFrame(s, actor.run, actor.key, actor.approval.value);
    FinalAnsweredKeeps(WithApprovalLocked(s, actor.run, actor.key, actor.approval.value), i,
                       ApprovalAnswer(s, actor.run, actor.key, actor.approval.value));
  }

  lemma AwaitKeeps(s: Sys, i: ActorId, choice: Choice)
    requires SysInv(s) && i < |s.actors| && s.actors[i].pc.AwaitingReply?
    requires Await(s, i, choice).Some?
    ensures SysInv(Await(s, i, choice).value)
  {
    hide SysInv, Audited;
    var actor := s.actors[i];
    ActorShape(s, i);
    if choice.Go? && actor.wire.Served? {
      JumpKeeps(s, i, Committing(actor.wire.effect));
    } else if actor.key.action.recovery.Manual? {
      JumpKeeps(s, i, Marking(true));
    } else {
      ThrowKeeps(s, i, actor.session);
    }
  }

  /** Storing the request, the suspended run and the receipt's new binding. */
  lemma RequestedFrame(s: Sys, db': Db, approvals: seq<Approval>, id: Option<ReceiptId>, approval: ApprovalId)
    requires SysInv(s) && Keeps(s.db, db')
    requires id.Some? ==> id.value < |s.receipts|
    ensures SysInv(s.(db := db', approvals := approvals))
    ensures id.Some? ==>
      SysInv(s.(db := db', approvals := approvals,
                receipts := s.receipts[id.value := s.receipts[id.value].(approval := Some(approval))]))
  {
    hide SysInv, Keeps;
    DbFrame(s, db');
    AuthorityFrame(s.(db := db'), approvals, s.grants);
    if id.Some? {
      RebindFrame(s.(db := db', approvals := approvals), id.value, Some(approval));
    }
  }

  lemma SuspendKeeps(s: Sys, attempt: AttemptId)
    requires SysInv(s) && Epoch(s.db, attempt, SuspendForApproval).Ok?
    ensures Keeps(s.db, Epoch(s.db, attempt, SuspendForApproval).value)
  {
    EpochKeeps(s.db, attempt, SuspendForApproval);
  }

  lemma RequestApprovalKeeps(s: Sys, i: ActorId, deadline: Option<nat>)
    requires SysInv(s) && i < |s.actors| && s.actors[i].pc.RequestingApproval? && s.actors[i].session
    ensures RequestApproval(s, i, deadline).Some? && SysInv(RequestApproval(s, i, deadline).value)
  {
    hide SysInv, IsOwner, Epoch, Keeps;
    var actor := s.actors[i];
    var moved := Epoch(s.db, actor.attempt, SuspendForApproval);
    var a := |s.approvals|;
    var approvals := s.approvals + [Approval(actor.run, actor.key, Undecided, deadline)];
    if !IsOwner(s.db, actor.run, actor.attempt) || moved.Err?
       || (actor.receipt.Some? && (actor.receipt.value >= |s.receipts|
                                   || s.receipts[actor.receipt.value].status != PendingReceipt)) {
      ThrowKeeps(s, i, false);
    } else {
      SuspendKeeps(s, actor.attempt);
      RequestedFrame(s, moved.value, approvals, actor.receipt, a);
      var asked := s.(db := moved.value, approvals := approvals);
      if actor.receipt.Some? {
        var id := actor.receipt.value;
        asked := asked.(receipts := s.receipts[id := s.receipts[id].(approval := Some(a))]);
      }
      JumpKeeps(asked, i, Releasing(SuspendedForApproval(a)));
    }
  }
}
