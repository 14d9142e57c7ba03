/** Every step of the protocol keeps the invariants on approvals, grants and commits. */
module AuthoritySteps {
  import opened Prelude
  import opened RunStates
  import opened Tables
  import opened Kernel
  import opened Evolution
  import opened Fencing
  import opened Lineage
  import opened Invariants
  import opened Transactions
  import opened Runtime
  import opened GovernedAction
  import opened ProtocolInvariant
  import opened ProtocolSteps
  import opened ProtocolEvents
  import opened ProtocolEffects
  import opened Authority

  lemma SameEvolves(db: Db)
    ensures Evolves(db, db)
  {
  }

  lemma AuditedEvolves(s: Sys, i: ActorId, kind: EventKind)
    requires SysInv(s) && i < |s.actors|
    requires kind.ToolInvocationStarted? || kind.ToolInvocationCommitted? || kind.ToolInvocationFailed? || kind.ActionDenied?
    ensures Evolves(s.db, Audited(s, i, kind).db)
    ensures Audited(s, i, kind) == s.(db := Audited(s, i, kind).db)
  {
    ActorFacts(s, i);
    AppendKeeps(s.db, s.actors[i].run, kind, Some(s.actors[i].attempt));
  }

  lemma ActorAuthority(s: Sys, i: ActorId)
    requires AuthInv(s) && i < |s.actors|
    ensures AuthorityOk(s, s.actors[i])
  {
  }

  /** A step that only rewrites the call's own record. */
  lemma OwnPut(s: Sys, i: ActorId, actor: Actor)
    requires AuthInv(s) && i < |s.actors| && AuthorityOk(s, actor)
    ensures AuthInv(Put(s, i, actor))
  {
    var s' := Put(s, i, actor);
    SameEvolves(s.db);
    assert AuthorityOk(s', actor);
    hide AuthInv, AuthorityOk, Evolves;
    PlainStep(s, s', i);
  }

  lemma SilencedAuthority(s: Sys, key: Key, j: ActorId)
    requires j < |s.actors| && AuthorityOk(s, s.actors[j])
    ensures AuthorityOk(SilencedFor(s, key), SilencedFor(s, key).actors[j])
  {
  }

  lemma SilenceAuthority(s: Sys, key: Key)
    requires AuthInv(s)
    ensures AuthInv(SilencedFor(s, key))
  {
    hide AuthorityOk, ApprovalsOk, BindingsOk, GrantsOk, CommitsOk, Evolves;
    var s' := SilencedFor(s, key);
    SameEvolves(s.db);
    TablesKept(s, s', key);
    forall j | 0 <= j < |s'.actors|
      ensures AuthorityOk(s', s'.actors[j])
    {
      SilencedAuthority(s, key, j);
    }
  }

  /** A new control state that asks for no authority the call does not have. */
  ghost predicate NoNewAuthority(s: Sys, actor: Actor, pc: Pc)
  {
    && !BeforeLookup(pc) && !pc.RequestingApproval?
    && (InFence(pc) ==> InFence(actor.pc))
    && (Working(pc) ==> Working(actor.pc))
    && (Authorized(pc) ==> Authorized(actor.pc) || !NeedsApproval(s, actor))
    && (pc.FinalOwner? || pc.Dispatching? ==> actor.pc.FinalOwner? || !NeedsApproval(s, actor))
  }

  /** The call moves on, the ledger may grow and receipt statuses may change. */
  lemma MoveOn(s: Sys, s': Sys, i: ActorId, pc: Pc)
    requires AuthInv(s) && i < |s.actors| && NoNewAuthority(s, s.actors[i], pc)
    requires s' == s.(db := s'.db, receipts := s'.receipts, actors := s.actors[i := s.actors[i].(pc := pc)])
    requires Evolves(s.db, s'.db) && SameBindings(s, s')
    ensures AuthInv(s')
  {
    hide AuthInv, Evolves, SameBindings;
    ActorAuthority(s, i);
    PlainStep(s, s', i);
  }

  lemma MoveQuietly(s: Sys, i: ActorId, pc: Pc)
    requires AuthInv(s) && i < |s.actors| && NoNewAuthority(s, s.actors[i], pc)
    ensures AuthInv(Goto(s, i, pc))
  {
    hide AuthInv, Evolves, NoNewAuthority;
    SameEvolves(s.db);
    MoveOn(s, Goto(s, i, pc), i, pc);
  }

  lemma MoveLogged(s: Sys, i: ActorId, kind: EventKind, pc: Pc)
    requires SysInv(s) && AuthInv(s) && i < |s.actors| && NoNewAuthority(s, s.actors[i], pc)
    requires kind.ToolInvocationFailed? || kind.ActionDenied?
    ensures AuthInv(Goto(Audited(s, i, kind), i, pc))
  {
    hide SysInv, AuthInv, Evolves, NoNewAuthority, Audited;
    AuditedEvolves(s, i, kind);
    MoveOn(s, Goto(Audited(s, i, kind), i, pc), i, pc);
  }

  lemma DenyAuthority(s: Sys, i: ActorId)
    requires SysInv(s) && AuthInv(s) && i < |s.actors| && InFence(s.actors[i].pc)
    ensures AuthInv(Deny(s, i))
  {
    hide SysInv, AuthInv;
    MoveLogged(s, i, ActionDenied, Releasing(DeniedOutcome));
  }

  // ------------------------------------------------------------------------ the lookup

  /** The owner's run is the newest of its lineage, so no approval under the key is of a newer one. */
  lemma OwnerHasNewestApproval(s: Sys, i: ActorId)
    requires SysInv(s) && AuthInv(s) && i < |s.actors| && IsOwner(s.db, s.actors[i].run, s.actors[i].attempt)
    ensures NewestRun(s, s.actors[i])
  {
    hide SysInv, RootOf;
    ActorFacts(s, i);
    forall a | 0 <= a < |s.approvals| && s.approvals[a].key == s.actors[i].key
      ensures s.approvals[a].run <= s.actors[i].run
    {
      LiveIsNewest(s.db, s.approvals[a].run, s.actors[i].run);
    }
  }

  lemma AcquireAuthority(s: Sys, i: ActorId)
    requires AuthInv(s) && i < |s.actors| && s.actors[i].pc.AwaitingLock? && Acquire(s, i).Some?
    ensures AuthInv(Acquire(s, i).value)
  {
    hide AuthInv, Evolves;
    ActorAuthority(s, i);
    SameEvolves(s.db);
    PlainStep(s, Acquire(s, i).value, i);
  }

  lemma MayLookUp(s: Sys, i: ActorId)
    requires AuthInv(s) && i < |s.actors| && s.actors[i].pc.CheckingOwner? && NewestRun(s, s.actors[i])
    ensures AuthInv(Goto(s, i, FindingReceipt))
  {
    ActorAuthority(s, i);
    hide AuthInv, NewestRun;
    OwnPut(s, i, s.actors[i].(pc := FindingReceipt));
  }

  lemma FirstOwnerAuthority(s: Sys, i: ActorId)
    requires SysInv(s) && AuthInv(s) && i < |s.actors| && s.actors[i].pc.CheckingOwner?
    ensures AuthInv(CheckOwner(s, i, FindingReceipt).value)
  {
    hide SysInv, IsOwner, NewestRun, AuthInv;
    if IsOwner(s.db, s.actors[i].run, s.actors[i].attempt) {
      OwnerHasNewestApproval(s, i);
      MayLookUp(s, i);
    } else {
      MoveQuietly(s, i, Releasing(Threw));
    }
  }

  lemma BoundToLast(s: Sys, id: ReceiptId)
    requires AuthInv(s) && id < |s.receipts| && s.receipts[id].approval.Some?
    ensures IsLastFor(s.approvals, s.receipts[id].key, s.receipts[id].approval.value)
  {
  }

  lemma FoundAuthority(s: Sys, i: ActorId, id: ReceiptId, pc: Pc)
    requires AuthInv(s) && i < |s.actors| && s.actors[i].pc.FindingReceipt? && s.actors[i].wire == Unsent
    requires id < |s.receipts| && s.receipts[id].key == s.actors[i].key
    requires pc.SelectingGrant? || pc.Reconciling? || pc.Marking? || pc.Releasing?
    ensures AuthInv(Put(s, i, s.actors[i].(receipt := Some(id), approval := s.receipts[id].approval, pc := pc)))
  {
    ActorAuthority(s, i);
    if s.receipts[id].approval.Some? {
      BoundToLast(s, id);
    }
    hide AuthInv, NewestRun, IsLastFor;
    OwnPut(s, i, s.actors[i].(receipt := Some(id), approval := s.receipts[id].approval, pc := pc));
  }

  lemma NotFoundAuthority(s: Sys, i: ActorId)
    requires AuthInv(s) && i < |s.actors| && s.actors[i].pc.FindingReceipt? && s.actors[i].wire == Unsent
    ensures AuthInv(Goto(s, i, SelectingGrant))
  {
    hide AuthInv, IsLastFor;
    ActorAuthority(s, i);
    OwnPut(s, i, s.actors[i].(pc := SelectingGrant));
  }

  lemma FindAuthority(s: Sys, i: ActorId, choice: Choice)
    requires AuthInv(s) && i < |s.actors| && s.actors[i].pc.FindingReceipt? && FindReceipt(s, i, choice).Some?
    requires s.actors[i].wire == Unsent
    ensures AuthInv(FindReceipt(s, i, choice).value)
  {
    hide AuthInv, NoReceiptFor, InLineage;
    if choice.NotFound? {
      NotFoundAuthority(s, i);
    } else {
      FoundAuthority(s, i, choice.receipt, FindReceipt(s, i, choice).value.actors[i].pc);
    }
  }

  lemma AskAuthority(s: Sys, i: ActorId, choice: Choice)
    requires AuthInv(s) && i < |s.actors| && s.actors[i].pc.Reconciling? && AskProvider(s, i, choice).Some?
    ensures AuthInv(AskProvider(s, i, choice).value)
  {
    hide AuthInv, FirstEffect;
    match choice
    case Remote(e) => MoveQuietly(s, i, ClosingReconciled(e));
    case Unknown => MoveQuietly(s, i, Marking(false));
    case Fail => MoveQuietly(s, i, Releasing(Threw));
    case CertifiedAbsent =>
      var silenced := SilencedFor(s, s.actors[i].key);
      SilenceAuthority(s, s.actors[i].key);
      ActorAuthority(silenced, i);
      hide NewestRun, IsLastFor;
      OwnPut(silenced, i, silenced.actors[i].(absent := true, barred := false, pc := SelectingGrant));
  }

  // --------------------------------------------------------------------- the authority

  /** Picking a grant leads to the approval check exactly when the grant asks for one. */
  lemma GrantPicked(s: Sys, i: ActorId, grant: Option<GrantId>)
    requires AuthInv(s) && i < |s.actors| && s.actors[i].pc.SelectingGrant? && s.actors[i].wire == Unsent
    requires grant.Some? ==> grant.value < |s.grants|
    ensures AuthInv(Put(s, i, s.actors[i].(grant := grant,
              pc := if grant.Some? && s.grants[grant.value].requiresApproval then CheckingApproval else ResolvingCredential)))
  {
    ActorAuthority(s, i);
    hide AuthInv, NewestRun, IsLastFor;
    OwnPut(s, i, s.actors[i].(grant := grant,
      pc := if grant.Some? && s.grants[grant.value].requiresApproval then CheckingApproval else ResolvingCredential));
  }

  /** Refusing: close the receipt, mark it, or just deny. */
  lemma RefuseAuthority(s: Sys, i: ActorId)
    requires SysInv(s) && AuthInv(s) && i < |s.actors| && s.actors[i].pc.SelectingGrant?
    ensures AuthInv(Goto(s, i, Denying)) && AuthInv(Goto(s, i, Marking(false))) && AuthInv(Deny(s, i))
  {
    hide SysInv, AuthInv, Deny;
    MoveQuietly(s, i, Denying);
    MoveQuietly(s, i, Marking(false));
    DenyAuthority(s, i);
  }

  lemma SelectAuthority(s: Sys, i: ActorId, choice: Choice)
    requires SysInv(s) && AuthInv(s) && i < |s.actors| && s.actors[i].pc.SelectingGrant? && SelectGrant(s, i, choice).Some?
    requires s.actors[i].wire == Unsent
    ensures AuthInv(SelectGrant(s, i, choice).value)
  {
    hide SysInv, AuthInv, Deny;
    match choice
    case UseGrant(g) => GrantPicked(s, i, Some(g));
    case Ungranted => GrantPicked(s, i, None);
    case _ => RefuseAuthority(s, i);
  }

  lemma ResolveAuthority(s: Sys, i: ActorId, choice: Choice)
    requires SysInv(s) && AuthInv(s) && i < |s.actors| && s.actors[i].pc.ResolvingCredential?
    requires ResolveCredential(s, i, choice).Some?
    ensures AuthInv(ResolveCredential(s, i, choice).value)
  {
    hide SysInv, AuthInv, Audited;
    var actor := s.actors[i];
    match choice
    case Go =>
      MoveQuietly(s, i, if NeedsApproval(s, actor) && actor.approval.Some? then RecheckingApproval
                        else AfterAuthority(actor));
    case Fail => MoveLogged(s, i, ToolInvocationFailed, Releasing(Threw));
  }

  lemma RevalidateAuthority(s: Sys, i: ActorId)
    requires SysInv(s) && AuthInv(s) && i < |s.actors| && s.actors[i].pc.RevalidatingGrant?
    ensures AuthInv(RevalidateGrant(s, i).value)
  {
    hide SysInv, AuthInv, Audited, GrantCovers;
    var actor := s.actors[i];
    ActorAuthority(s, i);
    if actor.grant.Some? && !GrantCovers(s, actor.grant.value, actor.run, actor.key) {
      if actor.inserted || actor.absent { MoveQuietly(s, i, Denying); } else { DenyAuthority(s, i); }
    } else {
      MoveQuietly(s, i, if NeedsApproval(s, actor) && actor.approval.Some? then FinalApproval else FinalOwner);
    }
  }

  // ------------------------------------------------------------------------ approvals

  lemma LockTouches(s: Sys, actor: Actor, a: ApprovalId)
    ensures ApprovalsTouched(s, WithApprovalLocked(s, actor.run, actor.key, a), actor.key)
    ensures WithApprovalLocked(s, actor.run, actor.key, a)
         == s.(approvals := WithApprovalLocked(s, actor.run, actor.key, a).approvals)
    ensures |WithApprovalLocked(s, actor.run, actor.key, a).approvals| == |s.approvals|
  {
  }

  /** Locking an approval leaves its holder's knowledge intact, up to the approval's own expiry. */
  lemma LockKeepsAuthority(s: Sys, i: ActorId, a: ApprovalId)
    requires SysInv(s) && AuthInv(s) && i < |s.actors| && s.actors[i].session
    requires Working(s.actors[i].pc) && !s.actors[i].pc.FinalOwner? && !s.actors[i].pc.Dispatching?
    ensures AuthInv(WithApprovalLocked(s, s.actors[i].run, s.actors[i].key, a))
  {
    hide SysInv, AuthInv, Evolves, Exclusive, WithApprovalLocked;
    var actor := s.actors[i];
    LockTouches(s, actor, a);
    ActorAuthority(s, i);
    HolderExclusive(s, i);
    SameEvolves(s.db);
    LockingStep(s, WithApprovalLocked(s, actor.run, actor.key, a), i);
  }

  /** An approval that has run out is the newest of its run and key, so all of them have. */
  lemma ExpiredMeansAll(s: Sys, actor: Actor, a: ApprovalId)
    requires ApprovalsOk(s) && NewestRun(s, actor) && IsLastFor(s.approvals, actor.key, a)
    requires s.approvals[a].run == actor.run ==> s.approvals[a].status.Expired?
    ensures AllExpired(s, actor)
  {
    forall b | 0 <= b < |s.approvals| && s.approvals[b].run == actor.run && s.approvals[b].key == actor.key
      ensures s.approvals[b].status.Expired?
    {
      assert b <= a;
      if b < a {
        assert s.approvals[b].run <= s.approvals[a].run <= actor.run;
      }
    }
  }

  /** Under one key, what follows an approval of the newest run is of that run too. */
  lemma AfterNewest(s: Sys, actor: Actor, a: ApprovalId, b: ApprovalId)
    requires ApprovalsOk(s) && NewestRun(s, actor) && a < b < |s.approvals|
    requires s.approvals[a].run == actor.run && s.approvals[a].key == actor.key && s.approvals[b].key == actor.key
    ensures s.approvals[b].run == actor.run
  {
  }

  lemma CandidateIsLast(s: Sys, actor: Actor)
    requires NewestRun(s, actor) && ApprovalsOk(s)
    requires actor.approval.Some? ==> IsLastFor(s.approvals, actor.key, actor.approval.value)
    ensures ApprovalCandidate(s, actor).Some? ==> IsLastFor(s.approvals, actor.key, ApprovalCandidate(s, actor).value)
    ensures ApprovalCandidate(s, actor).None? ==> AllExpired(s, actor)
  {
    var c := ApprovalCandidate(s, actor);
    if actor.approval.None? && c.Some? {
      forall b | c.value < b < |s.approvals|
        ensures s.approvals[b].key != actor.key
      {
        if s.approvals[b].key == actor.key {
          AfterNewest(s, actor, c.value, b);
        }
      }
    }
  }

  /** Asking again is allowed when the newest approval of the key is expired or of an older run. */
  lemma AskAgain(s: Sys, i: ActorId, a: ApprovalId)
    requires AuthInv(s) && i < |s.actors| && Working(s.actors[i].pc) && s.actors[i].wire == Unsent && s.actors[i].session
    requires IsLastFor(s.approvals, s.actors[i].key, a)
    requires s.approvals[a].run == s.actors[i].run ==> s.approvals[a].status.Expired?
    ensures AuthInv(Goto(s, i, RequestingApproval))
  {
    var actor := s.actors[i];
    ActorAuthority(s, i);
    ExpiredMeansAll(s, actor, a);
    hide AuthInv, NewestRun, IsLastFor, AllExpired;
    OwnPut(s, i, actor.(pc := RequestingApproval));
  }

  lemma PickApproved(s: Sys, i: ActorId, a: ApprovalId)
    requires AuthInv(s) && i < |s.actors| && s.actors[i].pc.CheckingApproval? && s.actors[i].wire == Unsent
    requires IsLastFor(s.approvals, s.actors[i].key, a)
    ensures AuthInv(Put(s, i, s.actors[i].(approval := Some(a), pc := ResolvingCredential)))
  {
    ActorAuthority(s, i);
    hide AuthInv, NewestRun, IsLastFor;
    OwnPut(s, i, s.actors[i].(approval := Some(a), pc := ResolvingCredential));
  }

  lemma AnswerAuthority(s: Sys, i: ActorId, a: ApprovalId, answer: Option<ApprovalStatus>)
    requires SysInv(s) && AuthInv(s) && i < |s.actors| && s.actors[i].pc.CheckingApproval? && s.actors[i].session
    requires s.actors[i].wire == Unsent && IsLastFor(s.approvals, s.actors[i].key, a)
    requires answer == if s.approvals[a].run == s.actors[i].run then Some(s.approvals[a].status) else None
    ensures AuthInv(OnAnswer(s, i, a, answer))
  {
    hide SysInv, AuthInv, Deny;
    var actor := s.actors[i];
    match answer
    case Some(Approved) => PickApproved(s, i, a);
    case Some(Denied) =>
      if actor.receipt.Some? && actor.absent { MoveQuietly(s, i, Denying); } else { DenyAuthority(s, i); }
    case Some(Undecided) => MoveQuietly(s, i, Releasing(DeniedOutcome));
    case _ => if actor.receipt.Some? { AskAgain(s, i, a); } else { DenyAuthority(s, i); }
  }

  /** Locking answers for the row it leaves behind. */
  lemma AnswerOfLocked(s: Sys, actor: Actor, a: ApprovalId)
    requires IsLastFor(s.approvals, actor.key, a)
    ensures IsLastFor(WithApprovalLocked(s, actor.run, actor.key, a).approvals, actor.key, a)
    ensures var row := WithApprovalLocked(s, actor.run, actor.key, a).approvals[a];
            ApprovalAnswer(s, actor.run, actor.key, a) == if row.run == actor.run then Some(row.status) else None
  {
  }

  /** Nothing was asked for yet under the run and key. */
  lemma FirstRequest(s: Sys, i: ActorId)
    requires AuthInv(s) && i < |s.actors| && s.actors[i].pc.CheckingApproval? && s.actors[i].wire == Unsent
    requires AllExpired(s, s.actors[i])
    ensures AuthInv(Goto(s, i, RequestingApproval))
  {
    ActorAuthority(s, i);
    hide AuthInv, NewestRun, IsLastFor, AllExpired;
    OwnPut(s, i, s.actors[i].(pc := RequestingApproval));
  }

  lemma CandidateAuthority(s: Sys, i: ActorId)
    requires AuthInv(s) && i < |s.actors| && s.actors[i].pc.CheckingApproval? && s.actors[i].session
    ensures var c := ApprovalCandidate(s, s.actors[i]);
            if c.Some? then IsLastFor(s.approvals, s.actors[i].key, c.value) else AllExpired(s, s.actors[i])
  {
    ActorAuthority(s, i);
    CandidateIsLast(s, s.actors[i]);
  }

  lemma CheckAuthority(s: Sys, i: ActorId)
    requires SysInv(s) && AuthInv(s) && i < |s.actors| && s.actors[i].pc.CheckingApproval? && s.actors[i].session
    requires s.actors[i].wire == Unsent
    ensures AuthInv(CheckApproval(s, i).value)
  {
    hide SysInv, AuthInv, IsLastFor, AllExpired, ApprovalCandidate, OnAnswer, ApprovalAnswer, WithApprovalLocked;
    var actor := s.actors[i];
    CandidateAuthority(s, i);
    var c := ApprovalCandidate(s, actor);
    if c.None? {
      FirstRequest(s, i);
    } else {
      LockKeepsAuthority(s, i, c.value);
      ApprovalFrame(s, actor.run, actor.key, c.value);
      AnswerOfLocked(s, actor, c.value);
      AnswerAuthority(WithApprovalLocked(s, actor.run, actor.key, c.value), i, c.value,
                      ApprovalAnswer(s, actor.run, actor.key, c.value));
    }
  }

  /** The answer of locking the call's own, newest approval. */
  ghost predicate AnswersFor(s: Sys, actor: Actor, answer: Option<ApprovalStatus>)
  {
    && actor.approval.Some? && IsLastFor(s.approvals, actor.key, actor.approval.value)
    && var row := s.approvals[actor.approval.value];
       answer == if row.run == actor.run then Some(row.status) else None
  }

  lemma LockedAnswers(s: Sys, i: ActorId)
    requires SysInv(s) && AuthInv(s) && i < |s.actors| && s.actors[i].session && s.actors[i].approval.Some?
    requires s.actors[i].pc.RecheckingApproval? || s.actors[i].pc.FinalApproval?
    ensures var actor := s.actors[i];
            var locked := WithApprovalLocked(s, actor.run, actor.key, actor.approval.value);
            && SysInv(locked) && AuthInv(locked) && locked.actors == s.actors
            && AnswersFor(locked, actor, ApprovalAnswer(s, actor.run, actor.key, actor.approval.value))
  {
    hide SysInv, AuthInv, NewestRun, ApprovalAnswer, WithApprovalLocked;
    var actor := s.actors[i];
    var a := actor.approval.value;
    ActorAuthority(s, i);
    LockKeepsAuthority(s, i, a);
    ApprovalFrame(s, actor.run, actor.key, a);
    AnswerOfLocked(s, actor, a);
  }

  lemma RecheckAnswered(s: Sys, i: ActorId, answer: Option<ApprovalStatus>)
    requires SysInv(s) && AuthInv(s) && i < |s.actors| && s.actors[i].pc.RecheckingApproval? && s.actors[i].session
    requires s.actors[i].wire == Unsent && AnswersFor(s, s.actors[i], answer)
    ensures AuthInv(OnRecheck(s, i, answer))
  {
    hide SysInv, AuthInv, IsLastFor, Deny;
    var actor := s.actors[i];
    if answer == Some(Approved) {
      MoveQuietly(s, i, AfterAuthority(actor));
    } else if answer == Some(Expired) && actor.receipt.Some? {
      AskAgain(s, i, actor.approval.value);
    } else if actor.receipt.Some? && actor.absent {
      MoveQuietly(s, i, Denying);
    } else {
      DenyAuthority(s, i);
    }
  }

  lemma RecheckAuthority(s: Sys, i: ActorId)
    requires SysInv(s) && AuthInv(s) && i < |s.actors| && s.actors[i].pc.RecheckingApproval? && s.actors[i].session
    requires s.actors[i].wire == Unsent && RecheckApproval(s, i).Some?
    ensures AuthInv(RecheckApproval(s, i).value)
  {
    hide SysInv, AuthInv, AnswersFor, OnRecheck, WithApprovalLocked, ApprovalAnswer;
    var actor := s.actors[i];
    LockedAnswers(s, i);
    RecheckAnswered(WithApprovalLocked(s, actor.run, actor.key, actor.approval.value), i,
                    ApprovalAnswer(s, actor.run, actor.key, actor.approval.value));
  }

  /** Passing the last check: the approval is the call's own, the newest, and granted. */
  lemma ApprovedPasses(s: Sys, i: ActorId)
    requires AuthInv(s) && i < |s.actors| && s.actors[i].pc.FinalApproval? && s.actors[i].session
    requires s.actors[i].wire == Unsent && AnswersFor(s, s.actors[i], Some(Approved))
    ensures AuthInv(Goto(s, i, FinalOwner))
  {
    ActorAuthority(s, i);
    hide AuthInv, NewestRun;
    OwnPut(s, i, s.actors[i].(pc := FinalOwner));
  }

  lemma FinalAnswered(s: Sys, i: ActorId, answer: Option<ApprovalStatus>)
    requires SysInv(s) && AuthInv(s) && i < |s.actors| && s.actors[i].pc.FinalApproval? && s.actors[i].session
    requires s.actors[i].wire == Unsent && AnswersFor(s, s.actors[i], answer)
    ensures AuthInv(OnFinalAnswer(s, i, answer))
  {
    hide SysInv, AuthInv, IsLastFor, Deny;
    var actor := s.actors[i];
    match answer
    case Some(Approved) => ApprovedPasses(s, i);
    case Some(Expired) => AskAgain(s, i, actor.approval.value);
    case _ =>
      if actor.inserted || actor.absent { MoveQuietly(s, i, Denying); } else { DenyAuthority(s, i); }
  }

  lemma FinalApprovalAuthority(s: Sys, i: ActorId)
    requires SysInv(s) && AuthInv(s) && i < |s.actors| && s.actors[i].pc.FinalApproval? && s.actors[i].session
    requires s.actors[i].wire == Unsent && CheckFinalApproval(s, i).Some?
    ensures AuthInv(CheckFinalApproval(s, i).value)
  {
    hide SysInv, AuthInv, AnswersFor, OnFinalAnswer, WithApprovalLocked, ApprovalAnswer;
    var actor := s.actors[i];
    LockedAnswers(s, i);
    FinalAnswered(WithApprovalLocked(s, actor.run, actor.key, actor.approval.value), i,
                  ApprovalAnswer(s, actor.run, actor.key, actor.approval.value));
  }

  // --------------------------------------------------------------- a fresh approval

  /** The approval, the suspended run and the receipt's new binding, before the call moves on. */
  function Requested(s: Sys, i: ActorId, db': Db, deadline: Option<nat>): Sys
    requires i < |s.actors| && (s.actors[i].receipt.Some? ==> s.actors[i].receipt.value < |s.receipts|)
  {
    var actor := s.actors[i];
    var a := |s.approvals|;
    var asked := s.(db := db', approvals := s.approvals + [Approval(actor.run, actor.key, Undecided, deadline)]);
    Goto(if actor.receipt.None? then asked
         else asked.(receipts := s.receipts[actor.receipt.value :=
                       s.receipts[actor.receipt.value].(approval := Some(a))]),
         i, Releasing(SuspendedForApproval(a)))
  }

  lemma RequestedApprovals(s: Sys, i: ActorId, db': Db, deadline: Option<nat>)
    requires i < |s.actors| && (s.actors[i].receipt.Some? ==> s.actors[i].receipt.value < |s.receipts|)
    requires ApprovalsOk(s) && Evolves(s.db, db') && Placed(s, s.actors[i])
    requires NewestRun(s, s.actors[i]) && AllExpired(s, s.actors[i])
    ensures ApprovalsOk(Requested(s, i, db', deadline))
  {
    hide RootOf;
    var s' := Requested(s, i, db', deadline);
    forall a | 0 <= a < |s'.approvals|
      ensures s'.approvals[a].run < |db'.runs|
      ensures RootOf(db'.runs, s'.approvals[a].run) == RootOf(s.db.runs, s'.approvals[a].run)
    {
      RootStable(s.db, db', s'.approvals[a].run);
    }
  }

  /** The only receipt under the key is the one the asking call holds. */
  lemma OnlyOwnReceipt(s: Sys, i: ActorId, id: ReceiptId)
    requires SysInv(s) && i < |s.actors| && s.actors[i].pc.RequestingApproval? && s.actors[i].session
    requires id < |s.receipts| && s.receipts[id].key == s.actors[i].key
    ensures s.actors[i].receipt == Some(id)
  {
    hide SysInv, Inv, RootOf;
    ActorFacts(s, i);
    TableFacts(s);
    var mine := s.actors[i].receipt.value;
    assert mine < id || id < mine || mine == id;
  }

  lemma LastKept(approvals: seq<Approval>, row: Approval, key: Key, a: ApprovalId)
    requires IsLastFor(approvals, key, a) && row.key != key
    ensures IsLastFor(approvals + [row], key, a)
  {
  }

  lemma RequestedBindings(s: Sys, i: ActorId, db': Db, deadline: Option<nat>)
    requires SysInv(s) && i < |s.actors| && s.actors[i].pc.RequestingApproval? && s.actors[i].session
    requires s.actors[i].receipt.Some? ==> s.actors[i].receipt.value < |s.receipts|
    requires BindingsOk(s)
    ensures BindingsOk(Requested(s, i, db', deadline))
  {
    hide SysInv;
    var s' := Requested(s, i, db', deadline);
    var actor := s.actors[i];
    assert actor.receipt.Some? ==> s.receipts[actor.receipt.value].key == actor.key by {
      ActorFacts(s, i);
    }
    forall id | 0 <= id < |s'.receipts| && s'.receipts[id].approval.Some?
      ensures IsLastFor(s'.approvals, s'.receipts[id].key, s'.receipts[id].approval.value)
    {
      if s.receipts[id].key == actor.key {
        OnlyOwnReceipt(s, i, id);
      } else {
        assert s'.receipts[id] == s.receipts[id];
        assert IsLastFor(s.approvals, s.receipts[id].key, s.receipts[id].approval.value);
        LastKept(s.approvals, Approval(actor.run, actor.key, Undecided, deadline), s.receipts[id].key,
                 s'.receipts[id].approval.value);
      }
    }
  }

  lemma RequestedGrants(s: Sys, i: ActorId, db': Db, deadline: Option<nat>)
    requires i < |s.actors| && (s.actors[i].receipt.Some? ==> s.actors[i].receipt.value < |s.receipts|)
    requires GrantsOk(s) && CommitsOk(s) && Evolves(s.db, db')
    ensures GrantsOk(Requested(s, i, db', deadline)) && CommitsOk(Requested(s, i, db', deadline))
  {
    hide TrailOk;
    var s' := Requested(s, i, db', deadline);
    forall g | 0 <= g < |s.grants|
      ensures CallsUnder(s'.receipts, g) == CallsUnder(s.receipts, g)
    {
      SameCalls(s.receipts, s'.receipts, g);
    }
    TrailKept(s, s');
    forall c | 0 <= c < |s.commits|
      ensures AttemptEvolves(s.db.attempts[s.commits[c].attempt], db'.attempts[s.commits[c].attempt])
    {
    }
  }

  lemma RequestedShape(s: Sys, i: ActorId, db': Db, deadline: Option<nat>)
    requires i < |s.actors| && (s.actors[i].receipt.Some? ==> s.actors[i].receipt.value < |s.receipts|)
    requires AuthorityOk(s, s.actors[i]) && s.actors[i].wire == Unsent
    ensures var s' := Requested(s, i, db', deadline);
            && OthersSame(s, s', i) && ApprovalsTouched(s, s', s.actors[i].key) && GrantsTouched(s, s')
            && AuthorityOk(s', s'.actors[i])
  {
  }

  lemma RequestedAuthority(s: Sys, i: ActorId, db': Db, deadline: Option<nat>)
    requires SysInv(s) && AuthInv(s) && i < |s.actors| && s.actors[i].pc.RequestingApproval? && s.actors[i].session
    requires s.actors[i].receipt.Some? ==> s.actors[i].receipt.value < |s.receipts|
    requires Evolves(s.db, db') && s.actors[i].wire == Unsent
    ensures AuthInv(Requested(s, i, db', deadline))
  {
    ActorFacts(s, i);
    ActorAuthority(s, i);
    HolderExclusive(s, i);
    assert NewestRun(s, s.actors[i]) && AllExpired(s, s.actors[i]);
    hide SysInv, Exclusive, ApprovalsOk, BindingsOk, GrantsOk, CommitsOk, Evolves, NewestRun, AllExpired, AuthorityOk, Requested;
    RequestedApprovals(s, i, db', deadline);
    RequestedBindings(s, i, db', deadline);
    RequestedGrants(s, i, db', deadline);
    RequestedShape(s, i, db', deadline);
    AssembleAuthority(s, Requested(s, i, db', deadline), i);
  }

  lemma RequestAuthority(s: Sys, i: ActorId, deadline: Option<nat>)
    requires SysInv(s) && AuthInv(s) && i < |s.actors| && s.actors[i].pc.RequestingApproval? && s.actors[i].session
    requires s.actors[i].wire == Unsent
    ensures AuthInv(RequestApproval(s, i, deadline).value)
  {
    hide SysInv, AuthInv, IsOwner, Epoch, Evolves;
    var actor := s.actors[i];
    var moved := Epoch(s.db, actor.attempt, SuspendForApproval);
    if !IsOwner(s.db, actor.run, actor.attempt) || moved.Err?
       || (actor.receipt.Some? && (actor.receipt.value >= |s.receipts|
                                   || s.receipts[actor.receipt.value].status != PendingReceipt)) {
      MoveQuietly(s, i, Releasing(Threw));
    } else {
      SuspendKeeps(s, actor.attempt);
      RequestedAuthority(s, i, moved.value, deadline);
    }
  }

  // --------------------------------------------------------------------- the receipt

  lemma {:induction false} CallsAppend(receipts: seq<Receipt>, row: Receipt, g: GrantId)
    ensures CallsUnder(receipts + [row], g) == CallsUnder(receipts, g) + (if row.grant == Some(g) then 1 else 0)
  {
    assert (receipts + [row])[..|receipts|] == receipts;
  }

  /** The grant's counter moves together with the receipt it paid for. */
  lemma InsertGrants(s: Sys, i: ActorId)
    requires GrantsOk(s) && i < |s.actors|
    requires s.actors[i].grant.Some? ==>
      s.actors[i].grant.value < |s.grants| && GrantHasCalls(s.grants[s.actors[i].grant.value])
    ensures GrantsOk(Inserted(s.(grants := CallCharged(s.grants, s.actors[i].grant)), i))
  {
    var actor := s.actors[i];
    var row := Receipt(actor.run, actor.key, actor.approval, PendingReceipt, i, actor.grant);
    forall g | 0 <= g < |s.grants|
      ensures CallsUnder(s.receipts + [row], g) == CallsUnder(s.receipts, g) + (if row.grant == Some(g) then 1 else 0)
    {
      CallsAppend(s.receipts, row, g);
    }
  }

  /** Auditing a call puts the event into its run's ledger. */
  lemma AuditLogs(s: Sys, i: ActorId, kind: EventKind)
    requires SysInv(s) && i < |s.actors|
    ensures s.actors[i].run < |Audited(s, i, kind).db.runs|
    ensures Logged(Audited(s, i, kind).db.runs[s.actors[i].run], kind, s.actors[i].attempt)
    ensures Mentioned(Audited(s, i, kind).db.runs[s.actors[i].run], kind)
  {
    hide SysInv, Inv;
    ActorFacts(s, i);
    var run := s.db.runs[s.actors[i].run];
    var after := Audited(s, i, kind).db.runs[s.actors[i].run];
    assert after.events[|run.events|].kind == kind;
    assert after.events[|run.events|].attempt == Some(s.actors[i].attempt);
  }

  /** The kernel moved on under the calls. */
  lemma DbAuthority(s: Sys, db': Db)
    requires AuthInv(s) && Evolves(s.db, db')
    ensures AuthInv(s.(db := db'))
  {
    var s' := s.(db := db');
    if s.actors == [] {
      TablesKept(s, s', Key(0, Action("", Manual), ""));
    } else {
      ActorAuthority(s, 0);
      assert AuthorityOk(s', s'.actors[0]);
      hide AuthInv, AuthorityOk, Evolves;
      PlainStep(s, s', 0);
    }
  }

  lemma LoggedAuthority(s: Sys, i: ActorId, kind: EventKind)
    requires SysInv(s) && AuthInv(s) && i < |s.actors|
    requires kind.ToolInvocationStarted? || kind.ToolInvocationCommitted? || kind.ToolInvocationFailed? || kind.ActionDenied?
    ensures AuthInv(Audited(s, i, kind))
  {
    hide AuthInv, SysInv, Audited, Evolves;
    AuditedEvolves(s, i, kind);
    DbAuthority(s, Audited(s, i, kind).db);
  }

  lemma InsertedAuthority(s: Sys, i: ActorId, grants: seq<Grant>)
    requires AuthInv(s) && i < |s.actors| && s.actors[i].pc.InsertingReceipt? && s.actors[i].session
    requires s.actors[i].wire == Unsent && GrantsTouched(s, s.(grants := grants))
    requires s.actors[i].run < |s.db.runs| && Mentioned(s.db.runs[s.actors[i].run], ToolInvocationStarted)
    requires GrantsOk(Inserted(s.(grants := grants), i))
    ensures AuthInv(Inserted(s.(grants := grants), i))
  {
    var s' := Inserted(s.(grants := grants), i);
    ActorAuthority(s, i);
    assert AuthorityOk(s', s'.actors[i]);
    hide GrantsOk, CallsUnder;
    assert ApprovalsOk(s') && CommitsOk(s') && BindingsOk(s');
    hide ApprovalsOk, CommitsOk, BindingsOk, AuthorityOk;
    AssembleAuthority(s, s', i);
  }

  /** The grant's charge and the receipt together, on a state that has logged the start. */
  lemma PaidInsertAuthority(s: Sys, i: ActorId)
    requires AuthInv(s) && i < |s.actors| && s.actors[i].pc.InsertingReceipt? && s.actors[i].session
    requires s.actors[i].wire == Unsent
    requires s.actors[i].run < |s.db.runs| && Mentioned(s.db.runs[s.actors[i].run], ToolInvocationStarted)
    requires s.actors[i].grant.Some? ==>
      s.actors[i].grant.value < |s.grants| && GrantHasCalls(s.grants[s.actors[i].grant.value])
    ensures AuthInv(Inserted(s.(grants := CallCharged(s.grants, s.actors[i].grant)), i))
  {
    InsertGrants(s, i);
    hide AuthInv, GrantsOk, GrantHasCalls;
    InsertedAuthority(s, i, CallCharged(s.grants, s.actors[i].grant));
  }

  lemma InsertAuthority(s: Sys, i: ActorId)
    requires SysInv(s) && AuthInv(s) && i < |s.actors| && s.actors[i].pc.InsertingReceipt? && s.actors[i].session
    requires s.actors[i].wire == Unsent
    ensures AuthInv(InsertReceipt(s, i).value)
  {
    var actor := s.actors[i];
    if !MayInsert(s, actor) {
      hide SysInv, AuthInv, MayInsert;
      MoveQuietly(s, i, Releasing(Threw));
    } else {
      assert actor.grant.Some? ==> actor.grant.value < |s.grants| && GrantHasCalls(s.grants[actor.grant.value]);
      hide SysInv, AuthInv, MayInsert, GrantHasCalls, CallCharged;
      LoggedAuthority(s, i, ToolInvocationStarted);
      AuditLogs(s, i, ToolInvocationStarted);
      PaidInsertAuthority(Audited(s, i, ToolInvocationStarted), i);
    }
  }

  lemma ClosedAuthority(s: Sys, i: ActorId, status: ReceiptStatus, outcome: Outcome)
    requires AuthInv(s) && i < |s.actors| && InFence(s.actors[i].pc)
    requires s.actors[i].receipt.Some? && s.actors[i].receipt.value < |s.receipts|
    ensures AuthInv(Closed(s, i, status, outcome))
  {
    hide AuthInv, Evolves;
    SameEvolves(s.db);
    MoveOn(s, Closed(s, i, status, outcome), i, Releasing(outcome));
  }

  lemma CloseAuthority(s: Sys, i: ActorId, status: ReceiptStatus, kind: EventKind, outcome: Outcome)
    requires SysInv(s) && AuthInv(s) && i < |s.actors| && s.actors[i].session && NeedsReceipt(s.actors[i].pc)
    requires kind.ToolInvocationFailed? || kind.ActionDenied?
    ensures AuthInv(CloseReceipt(s, i, status, kind, outcome).value)
  {
    hide SysInv, AuthInv, IsOwner;
    ReceiptInHand(s, i);
    if !IsOwner(s.db, s.actors[i].run, s.actors[i].attempt) {
      MoveQuietly(s, i, Releasing(Threw));
    } else {
      LoggedAuthority(s, i, kind);
      CloseShape(s, i, status, kind, outcome);
      AuditedEvolves(s, i, kind);
      hide CloseReceipt, Audited, Evolves;
      ClosedAuthority(Audited(s, i, kind), i, status, outcome);
    }
  }

  /** The committing attempt owns the run, so its number is the highest. */
  lemma OwnerIsLatest(s: Sys, i: ActorId, c: nat)
    requires SysInv(s) && i < |s.actors| && IsOwner(s.db, s.actors[i].run, s.actors[i].attempt)
    requires CommitsOk(s) && c < |s.commits| && s.commits[c].run == s.actors[i].run
    ensures s.db.attempts[s.commits[c].attempt].no <= s.db.attempts[s.actors[i].attempt].no
  {
    ActorFacts(s, i);
    assert FencingOk(s.db);
  }

  lemma OwnerCommits(s: Sys, i: ActorId)
    requires SysInv(s) && CommitsOk(s) && i < |s.actors| && IsOwner(s.db, s.actors[i].run, s.actors[i].attempt)
    requires Logged(s.db.runs[s.actors[i].run], ToolInvocationCommitted, s.actors[i].attempt)
    ensures CommitsOk(s.(commits := s.commits + [Commit(s.actors[i].run, s.actors[i].attempt)]))
  {
    hide SysInv, Logged;
    var actor := s.actors[i];
    forall c | 0 <= c < |s.commits| && s.commits[c].run == actor.run
      ensures s.db.attempts[s.commits[c].attempt].no <= s.db.attempts[actor.attempt].no
    {
      OwnerIsLatest(s, i, c);
    }
  }

  lemma MoreCommits(s: Sys, commits: seq<Commit>)
    requires AuthInv(s) && CommitsOk(s.(commits := commits))
    ensures AuthInv(s.(commits := commits))
  {
    hide CommitsOk;
    var s' := s.(commits := commits);
    assert ApprovalsOk(s') && BindingsOk(s') && GrantsOk(s');
    forall j | 0 <= j < |s'.actors|
      ensures AuthorityOk(s', s'.actors[j])
    {
      assert AuthorityOk(s, s.actors[j]);
    }
  }

  lemma CommittedAuthority(s: Sys, i: ActorId)
    requires SysInv(s) && AuthInv(s) && i < |s.actors| && IsOwner(s.db, s.actors[i].run, s.actors[i].attempt)
    requires Logged(s.db.runs[s.actors[i].run], ToolInvocationCommitted, s.actors[i].attempt)
    ensures AuthInv(s.(commits := s.commits + [Commit(s.actors[i].run, s.actors[i].attempt)]))
  {
    hide SysInv, ApprovalsOk, BindingsOk, GrantsOk, CommitsOk, AuthorityOk, Logged;
    OwnerCommits(s, i);
    MoreCommits(s, s.commits + [Commit(s.actors[i].run, s.actors[i].attempt)]);
  }

  lemma LostAuthority(s: Sys, i: ActorId, e: EffectId, deduplicated: bool)
    requires SysInv(s) && AuthInv(s) && i < |s.actors| && InFence(s.actors[i].pc) && Working(s.actors[i].pc)
    requires !IsOwner(s.db, s.actors[i].run, s.actors[i].attempt)
    ensures AuthInv(CommitReceipt(s, i, e, deduplicated).value)
  {
    hide SysInv, AuthInv, IsOwner, Audited, CommitReceipt;
    CommitLost(s, i, e, deduplicated);
    if s.actors[i].pc.ClosingReconciled? {
      MoveQuietly(s, i, Releasing(Threw));
    } else if s.actors[i].key.action.recovery.Manual? {
      MoveQuietly(s, i, Marking(true));
    } else {
      MoveLogged(s, i, ToolInvocationFailed, Releasing(Threw));
    }
  }

  lemma CommitAuthority(s: Sys, i: ActorId, e: EffectId, deduplicated: bool)
    requires SysInv(s) && AuthInv(s) && i < |s.actors| && s.actors[i].session && NeedsReceipt(s.actors[i].pc)
    ensures AuthInv(CommitReceipt(s, i, e, deduplicated).value)
  {
    hide SysInv, AuthInv, IsOwner, CommitReceipt;
    ReceiptInHand(s, i);
    if IsOwner(s.db, s.actors[i].run, s.actors[i].attempt) {
      WonAuthority(s, i, e, deduplicated);
    } else {
      LostAuthority(s, i, e, deduplicated);
    }
  }

  lemma WonAuthority(s: Sys, i: ActorId, e: EffectId, deduplicated: bool)
    requires SysInv(s) && AuthInv(s) && i < |s.actors| && Closes(s, i, NeedsReconciliation, Threw)
    requires IsOwner(s.db, s.actors[i].run, s.actors[i].attempt)
    ensures AuthInv(CommitReceipt(s, i, e, deduplicated).value)
  {
    var actor := s.actors[i];
    CommitShape(s, i, e, deduplicated);
    AuditedFrame(s, i, ToolInvocationCommitted);
    var logged := Audited(s, i, ToolInvocationCommitted);
    assert IsOwner(logged.db, actor.run, actor.attempt);
    AuditLogs(s, i, ToolInvocationCommitted);
    hide SysInv, AuthInv, IsOwner, Audited, CommitReceipt;
    LoggedAuthority(s, i, ToolInvocationCommitted);
    CommittedAuthority(logged, i);
    ClosedAuthority(logged.(commits := s.commits + [Commit(actor.run, actor.attempt)]), i,
                    Committed(e), CompletedWith(e, deduplicated));
  }

  // --------------------------------------------------------- the send and the end

  lemma SendAuthority(s: Sys, i: ActorId)
    requires AuthInv(s) && i < |s.actors| && s.actors[i].pc.Dispatching?
    ensures AuthInv(Send(s, i))
  {
    ActorAuthority(s, i);
    hide AuthInv, IsLastFor, NewestRun;
    OwnPut(s, i, s.actors[i].(wire := InTransit, pc := AwaitingReply));
  }

  lemma AwaitAuthority(s: Sys, i: ActorId, choice: Choice)
    requires SysInv(s) && AuthInv(s) && i < |s.actors| && s.actors[i].pc.AwaitingReply? && Await(s, i, choice).Some?
    ensures AuthInv(Await(s, i, choice).value)
  {
    hide SysInv, AuthInv, Audited, NoNewAuthority;
    var actor := s.actors[i];
    AnyMove(s, i);
    if choice.Go? && actor.wire.Served? {
      MoveQuietly(s, i, Committing(actor.wire.effect));
    } else if actor.key.action.recovery.Manual? {
      MoveQuietly(s, i, Marking(true));
    } else if actor.session {
      MoveLogged(s, i, ToolInvocationFailed, Releasing(Threw));
    } else {
      MoveQuietly(s, i, Releasing(Threw));
    }
  }

  lemma AnyMove(s: Sys, i: ActorId)
    requires i < |s.actors| && s.actors[i].pc.AwaitingReply?
    ensures forall pc: Pc :: pc.Committing? || pc.Marking? || pc.Releasing? ==> NoNewAuthority(s, s.actors[i], pc)
  {
  }

  lemma HoldersAuthority(s: Sys, holders: map<Key, ActorId>)
    requires AuthInv(s)
    ensures AuthInv(s.(holders := holders))
  {
    var s' := s.(holders := holders);
    forall j | 0 <= j < |s'.actors|
      ensures AuthorityOk(s', s'.actors[j])
    {
      ActorAuthority(s, j);
    }
    assert ApprovalsOk(s') && BindingsOk(s') && GrantsOk(s') && CommitsOk(s');
  }

  /** Letting go of the lock, whatever becomes of the call. */
  lemma LetGoAuthority(s: Sys, s': Sys, i: ActorId)
    requires AuthInv(s) && i < |s.actors| && LetGo(s, s', i)
    ensures AuthInv(s')
  {
    hide AuthInv, IsLastFor, NewestRun;
    ActorAuthority(s, i);
    OwnPut(s, i, s'.actors[i]);
    HoldersAuthority(Put(s, i, s'.actors[i]), s'.holders);
  }

  lemma EffectsAuthority(s: Sys, effects: seq<Effect>)
    requires AuthInv(s)
    ensures AuthInv(s.(effects := effects))
  {
    var s' := s.(effects := effects);
    forall j | 0 <= j < |s'.actors|
      ensures AuthorityOk(s', s'.actors[j])
    {
      ActorAuthority(s, j);
    }
    assert ApprovalsOk(s') && BindingsOk(s') && GrantsOk(s') && CommitsOk(s');
  }

  lemma WireAuthority(s: Sys, i: ActorId, wire: Wire)
    requires AuthInv(s) && i < |s.actors| && s.actors[i].wire != Unsent
    ensures AuthInv(Put(s, i, s.actors[i].(wire := wire)))
  {
    ActorAuthority(s, i);
    hide AuthInv, IsLastFor, NewestRun;
    OwnPut(s, i, s.actors[i].(wire := wire));
  }

  lemma DeliverAuthority(s: Sys, i: ActorId)
    requires AuthInv(s) && i < |s.actors| && Deliver(s, i).Some?
    ensures AuthInv(Deliver(s, i).value)
  {
    hide AuthInv, FirstEffect;
    var s' := Deliver(s, i).value;
    WireAuthority(s, i, s'.actors[i].wire);
    EffectsAuthority(Put(s, i, s'.actors[i]), s'.effects);
  }

  // -------------------------------------------------------------------- environment

  lemma LaunchAuthority(s: Sys, run: RunId, attempt: AttemptId, action: Action, args: string)
    requires AuthInv(s) && Launch(s, run, attempt, action, args).Some?
    ensures AuthInv(Launch(s, run, attempt, action, args).value)
  {
    var s' := Launch(s, run, attempt, action, args).value;
    forall j | 0 <= j < |s'.actors|
      ensures AuthorityOk(s', s'.actors[j])
    {
      if j < |s.actors| { ActorAuthority(s, j); }
    }
    assert ApprovalsOk(s') && BindingsOk(s') && GrantsOk(s') && CommitsOk(s');
  }

  lemma DecidedTables(s: Sys, s': Sys, a: ApprovalId, status: ApprovalStatus)
    requires ApprovalsOk(s) && BindingsOk(s) && GrantsOk(s) && CommitsOk(s)
    requires a < |s.approvals| && s.approvals[a].status.Undecided?
    requires s' == s.(approvals := s.approvals[a := s.approvals[a].(status := status)])
    ensures ApprovalsOk(s') && BindingsOk(s') && GrantsOk(s') && CommitsOk(s')
  {
    hide ApprovalsOk, BindingsOk, GrantsOk, CommitsOk, Evolves;
    SameEvolves(s.db);
    TablesKept(s, s', s.approvals[a].key);
  }

  lemma DecidedCall(s: Sys, s': Sys, a: ApprovalId, status: ApprovalStatus, actor: Actor)
    requires AuthorityOk(s, actor) && a < |s.approvals| && s.approvals[a].status.Undecided?
    requires s' == s.(approvals := s.approvals[a := s.approvals[a].(status := status)])
    ensures AuthorityOk(s', actor)
  {
  }

  lemma DecidedAuthority(s: Sys, a: ApprovalId, status: ApprovalStatus)
    requires AuthInv(s) && a < |s.approvals| && s.approvals[a].status.Undecided?
    ensures AuthInv(s.(approvals := s.approvals[a := s.approvals[a].(status := status)]))
  {
    hide AuthorityOk, ApprovalsOk, BindingsOk, GrantsOk, CommitsOk;
    var s' := s.(approvals := s.approvals[a := s.approvals[a].(status := status)]);
    DecidedTables(s, s', a, status);
    forall j | 0 <= j < |s'.actors|
      ensures AuthorityOk(s', s'.actors[j])
    {
      DecidedCall(s, s', a, status, s.actors[j]);
    }
  }

  lemma DecideAuthority(s: Sys, a: ApprovalId, approve: bool)
    requires SysInv(s) && AuthInv(s) && DecideApproval(s, a, approve).Some?
    ensures AuthInv(DecideApproval(s, a, approve).value)
  {
    var kind := if approve then ApprovalReceived else ApprovalDenied;
    var woken := Resume(s.db, s.approvals[a].run, WaitingApproval, kind);
    if woken.Ok? {
      ResumeKeeps(s.db, s.approvals[a].run, WaitingApproval, kind);
    }
    hide SysInv, AuthInv, Resume, Evolves;
    DecidedAuthority(s, a, if approve then Approved else Denied);
    if woken.Ok? {
      DbAuthority(s.(approvals := s.approvals[a := s.approvals[a].(status := if approve then Approved else Denied)]),
                  woken.value);
    }
  }

  lemma {:induction false} NoCallsYet(receipts: seq<Receipt>, g: GrantId)
    requires forall id :: 0 <= id < |receipts| && receipts[id].grant.Some? ==> receipts[id].grant.value < g
    ensures CallsUnder(receipts, g) == 0
  {
    if receipts != [] {
      NoCallsYet(receipts[..|receipts| - 1], g);
    }
  }

  lemma GrantAuthority(s: Sys, grant: Grant)
    requires AuthInv(s) && IssueGrant(s, grant).Some?
    ensures AuthInv(IssueGrant(s, grant).value)
  {
    var s' := IssueGrant(s, grant).value;
    NoCallsYet(s.receipts, |s.grants|);
    forall j | 0 <= j < |s'.actors|
      ensures AuthorityOk(s', s'.actors[j])
    {
      ActorAuthority(s, j);
    }
    assert ApprovalsOk(s') && BindingsOk(s') && GrantsOk(s') && CommitsOk(s');
  }

  // -------------------------------------------------------------------- every step

  lemma LookupAuthority(s: Sys, i: ActorId, choice: Choice, deadline: Option<nat>)
    requires SysInv(s) && AuthInv(s) && i < |s.actors| && (BeforeLookup(s.actors[i].pc) || s.actors[i].pc.Reconciling?)
    requires s.actors[i].session || s.actors[i].pc.Reconciling?
    requires GovernedAction.Advance(s, i, choice, deadline).Some? && s.actors[i].wire == Unsent
    ensures AuthInv(GovernedAction.Advance(s, i, choice, deadline).value)
  {
    hide SysInv, AuthInv, Acquire, CheckOwner, FindReceipt, AskProvider;
    match s.actors[i].pc
    case AwaitingLock => AcquireAuthority(s, i);
    case CheckingOwner => FirstOwnerAuthority(s, i);
    case FindingReceipt => FindAuthority(s, i, choice);
    case Reconciling => AskAuthority(s, i, choice);
  }

  lemma GatherAuthority(s: Sys, i: ActorId, choice: Choice, deadline: Option<nat>)
    requires SysInv(s) && AuthInv(s) && i < |s.actors| && s.actors[i].session
    requires s.actors[i].pc.SelectingGrant? || s.actors[i].pc.CheckingApproval? || s.actors[i].pc.ResolvingCredential?
             || s.actors[i].pc.RecheckingApproval? || s.actors[i].pc.InsertingReceipt?
             || s.actors[i].pc.RequestingApproval?
    requires GovernedAction.Advance(s, i, choice, deadline).Some? && s.actors[i].wire == Unsent
    ensures AuthInv(GovernedAction.Advance(s, i, choice, deadline).value)
  {
    hide SysInv, AuthInv, SelectGrant, CheckApproval, ResolveCredential, RecheckApproval, InsertReceipt, RequestApproval;
    match s.actors[i].pc
    case SelectingGrant => SelectAuthority(s, i, choice);
    case CheckingApproval => CheckAuthority(s, i);
    case ResolvingCredential => ResolveAuthority(s, i, choice);
    case RecheckingApproval => RecheckAuthority(s, i);
    case InsertingReceipt => InsertAuthority(s, i);
    case RequestingApproval => RequestAuthority(s, i, deadline);
  }

  lemma OwnerAuthority(s: Sys, i: ActorId, next: Pc)
    requires AuthInv(s) && i < |s.actors|
    requires (s.actors[i].pc.RecheckingOwner? && next == RevalidatingGrant)
             || (s.actors[i].pc.FinalOwner? && next == Dispatching)
    ensures AuthInv(CheckOwner(s, i, next).value)
  {
    hide AuthInv, IsOwner;
    MoveQuietly(s, i, if IsOwner(s.db, s.actors[i].run, s.actors[i].attempt) then next else Releasing(Threw));
  }

  lemma DispatchAuthority(s: Sys, i: ActorId, choice: Choice, deadline: Option<nat>)
    requires SysInv(s) && AuthInv(s) && i < |s.actors| && (Armed(s.actors[i].pc) || s.actors[i].pc.AwaitingReply?)
    requires s.actors[i].session || !NeedsDatabase(s.actors[i].pc)
    requires GovernedAction.Advance(s, i, choice, deadline).Some?
    requires Armed(s.actors[i].pc) ==> s.actors[i].wire == Unsent
    ensures AuthInv(GovernedAction.Advance(s, i, choice, deadline).value)
  {
    hide SysInv, AuthInv, CheckOwner, RevalidateGrant, CheckFinalApproval, Send, Await;
    match s.actors[i].pc
    case RecheckingOwner => OwnerAuthority(s, i, RevalidatingGrant);
    case RevalidatingGrant => RevalidateAuthority(s, i);
    case FinalApproval => FinalApprovalAuthority(s, i);
    case FinalOwner => OwnerAuthority(s, i, Dispatching);
    case Dispatching => SendAuthority(s, i);
    case AwaitingReply => AwaitAuthority(s, i, choice);
  }

  lemma ClosingAuthority(s: Sys, i: ActorId, choice: Choice, deadline: Option<nat>)
    requires SysInv(s) && AuthInv(s) && i < |s.actors| && s.actors[i].session
    requires s.actors[i].pc.ClosingReconciled? || s.actors[i].pc.Committing? || s.actors[i].pc.Marking?
             || s.actors[i].pc.Denying? || s.actors[i].pc.Releasing?
    requires GovernedAction.Advance(s, i, choice, deadline).Some?
    ensures AuthInv(GovernedAction.Advance(s, i, choice, deadline).value)
  {
    hide SysInv, AuthInv, CommitReceipt, CloseReceipt;
    match s.actors[i].pc
    case ClosingReconciled(e) => CommitAuthority(s, i, e, true);
    case Committing(e) => CommitAuthority(s, i, e, false);
    case Marking(rethrow) =>
      CloseAuthority(s, i, NeedsReconciliation, ToolInvocationFailed, if rethrow then Threw else ReconciliationRequired);
    case Denying => CloseAuthority(s, i, FailedReceipt, ActionDenied, DeniedOutcome);
    case Releasing(outcome) => LetGoAuthority(s, Goto(Unlocked(s, i), i, Finished(outcome)), i);
  }

  lemma SeveredAuthority(s: Sys, i: ActorId, choice: Choice, deadline: Option<nat>)
    requires AuthInv(s) && i < |s.actors|
    requires InFence(s.actors[i].pc) && !s.actors[i].session && NeedsDatabase(s.actors[i].pc)
    ensures AuthInv(GovernedAction.Advance(s, i, choice, deadline).value)
  {
    hide AuthInv;
    MoveQuietly(s, i, Finished(if s.actors[i].pc.Releasing? then s.actors[i].pc.outcome else Threw));
  }

  lemma AdvanceAuthority(s: Sys, i: ActorId, choice: Choice, deadline: Option<nat>)
    requires SysInv(s) && AuthInv(s) && i < |s.actors| && GovernedAction.Advance(s, i, choice, deadline).Some?
    ensures AuthInv(GovernedAction.Advance(s, i, choice, deadline).value)
  {
    var actor := s.actors[i];
    assert (actor.pc.AwaitingLock? ==> actor.session) && (BeforeSend(actor.pc) ==> actor.wire == Unsent) by {
      ActorFacts(s, i);
    }
    assert !actor.pc.Finished? && !actor.pc.Dead?;
    hide SysInv, AuthInv, GovernedAction.Advance;
    if InFence(actor.pc) && !actor.session && NeedsDatabase(actor.pc) {
      SeveredAuthority(s, i, choice, deadline);
    } else {
      if BeforeLookup(actor.pc) || actor.pc.Reconciling? {
        LookupAuthority(s, i, choice, deadline);
      } else if Armed(actor.pc) || actor.pc.AwaitingReply? {
        DispatchAuthority(s, i, choice, deadline);
      } else if actor.pc.ClosingReconciled? || actor.pc.Committing? || actor.pc.Marking?
             || actor.pc.Denying? || actor.pc.Releasing? {
        ClosingAuthority(s, i, choice, deadline);
      } else {
        GatherAuthority(s, i, choice, deadline);
      }
    }
  }

  lemma KernelAuthority(s: Sys, step: Step)
    requires SysInv(s) && AuthInv(s) && Permitted(s.db, step) && Apply(s.db, step).Ok?
    ensures AuthInv(s.(db := Apply(s.db, step).value))
  {
    hide AuthInv, Apply, Permitted, Evolves;
    StepKeeps(s.db, step);
    DbAuthority(s, Apply(s.db, step).value);
  }

  lemma NextAuthority(s: Sys, move: Label)
    requires SysInv(s) && AuthInv(s) && Next(s, move).Some?
    ensures AuthInv(Next(s, move).value)
  {
    hide SysInv, AuthInv, Apply, Permitted, GovernedAction.Advance, Deliver, Launch, DecideApproval;
    match move
    case KernelStep(step) => KernelAuthority(s, step);
    case LaunchStep(r, a, action, args) => LaunchAuthority(s, r, a, action, args);
    case ActorStep(i, choice, deadline) => AdvanceAuthority(s, i, choice, deadline);
    case CrashStep(i) => LetGoAuthority(s, Crash(s, i).value, i);
    case LoseSessionStep(i) => LetGoAuthority(s, LoseSession(s, i).value, i);
    case DeliverStep(i) => DeliverAuthority(s, i);
    case DropStep(i) => WireAuthority(s, i, Lost);
    case DecideStep(a, approve) => DecideAuthority(s, a, approve);
    case GrantStep(grant) => GrantAuthority(s, grant);
  }
}
