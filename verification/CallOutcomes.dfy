/** What every step of a governed call must do, on table rows: src/harness/governedAction.ts step
    by step, stated for the states that executions reach. */
module CallOutcomes {
  import opened Prelude
  import opened RunStates
  import opened Tables
  import opened Kernel
  import opened Lineage
  import opened Invariants
  import opened GovernedAction
  import opened ProtocolInvariant
  import opened ProtocolSteps
  import opened ProtocolEvents
  import opened Authority
  import opened AuthoritySteps
  import opened KernelOutcomes

  // ------------------------------------------------------------------ vocabulary

  /** Call i inside the fence with its lock session, at this control state. */
  ghost predicate At(s: Sys, i: ActorId, pc: Pc)
  {
    SysInv(s) && AuthInv(s) && i < |s.actors| && s.actors[i].session && s.actors[i].pc == pc
  }

  /** Only the call's record changes. */
  ghost predicate Turned(s: Sys, s': Sys, i: ActorId, actor: Actor)
  {
    i < |s.actors| && s' == s.(actors := s.actors[i := actor])
  }

  /** The call's record changes and its run's ledger has one more event by its attempt. */
  ghost predicate TurnedNoting(s: Sys, s': Sys, i: ActorId, kind: EventKind, actor: Actor)
  {
    && i < |s.actors| && s.actors[i].run < |s.db.runs|
    && s' == s.(db := s'.db, actors := s.actors[i := actor])
    && var run := s.db.runs[s.actors[i].run];
       Noted(s.db, s'.db, s.actors[i].run, kind, Some(s.actors[i].attempt), run.call, run.tokensUsed)
  }

  /** The call ends denied, and the denial is in the ledger. */
  ghost predicate TurnedDown(s: Sys, s': Sys, i: ActorId)
  {
    i < |s.actors| && TurnedNoting(s, s', i, ActionDenied, s.actors[i].(pc := Releasing(DeniedOutcome)))
  }

  /** The attempt is the running run's own, active and inside its lease. */
  ghost predicate Owns(db: Db, run: RunId, attempt: AttemptId)
  {
    && run < |db.runs| && db.runs[run].status == Running && db.runs[run].current == Some(attempt)
    && attempt < |db.attempts| && db.attempts[attempt].run == run
    && db.attempts[attempt].state == ActiveAttempt && db.attempts[attempt].leaseUntil > db.now
  }

  lemma AuditNotesOn(s: Sys, closed: Sys, i: ActorId, kind: EventKind, actor: Actor)
    requires SysInv(s) && i < |s.actors| && closed.db == s.db && closed.actors == s.actors
    ensures Audited(closed, i, kind).actors == s.actors
    ensures TurnedNoting(closed, Put(Audited(closed, i, kind), i, actor), i, kind, actor)
  {
    assert s.actors[i].run < |s.db.runs| && Inv(s.db) by { ActorFacts(s, i); }
    hide SysInv, Inv;
    SoundRow(s.db, s.actors[i].run);
  }

  /** What the invariants say of the call itself. */
  lemma CallFacts(s: Sys, i: ActorId)
    requires SysInv(s) && AuthInv(s) && i < |s.actors|
    ensures var actor := s.actors[i];
            && actor.run < |s.db.runs| && Inv(s.db) && ReceiptsOk(s)
            && (BeforeSend(actor.pc) ==> actor.wire == Unsent)
            && (InFence(actor.pc) && actor.session ==> actor.key in s.holders && s.holders[actor.key] == i)
            && (Authorized(actor.pc) && NeedsApproval(s, actor) ==> actor.approval.Some?)
            && (Working(actor.pc) && actor.session && actor.receipt.Some? ==>
                  actor.receipt.value < |s.receipts| && s.receipts[actor.receipt.value].status == PendingReceipt)
            && (actor.pc.InsertingReceipt? && actor.session ==>
                  actor.receipt.None? && forall id :: 0 <= id < |s.receipts| ==> s.receipts[id].key != actor.key)
  {
    hide AuthInv, Inv, ReceiptsOk, EffectsOk, RivalsOk, FailedOk;
    ActorFacts(s, i);
    TableFacts(s);
    ActorAuthority(s, i);
  }

  lemma DenyTurnsDown(s: Sys, i: ActorId)
    requires SysInv(s) && i < |s.actors|
    ensures TurnedDown(s, Deny(s, i), i)
  {
    hide SysInv, TurnedNoting, Audited;
    AuditNotesOn(s, s, i, ActionDenied, s.actors[i].(pc := Releasing(DeniedOutcome)));
  }

  // ------------------------------------------------------------- lock and ownership

  /** A call that has lost its lock session ends at its next query. */
  lemma SeveredOutcome(s: Sys, i: ActorId, choice: Choice, deadline: Option<nat>)
    requires i < |s.actors| && InFence(s.actors[i].pc) && !s.actors[i].session
    requires !s.actors[i].pc.Dispatching? && !s.actors[i].pc.AwaitingReply? && !s.actors[i].pc.Reconciling?
    ensures var ended := if s.actors[i].pc.Releasing? then s.actors[i].pc.outcome else Threw;
            Advance(s, i, choice, deadline).Some?
            && Turned(s, Advance(s, i, choice, deadline).value, i, s.actors[i].(pc := Finished(ended)))
  {
  }

  /** The lock is taken exactly when nobody holds it, and given back at the end. */
  lemma LockOutcome(s: Sys, i: ActorId, choice: Choice, deadline: Option<nat>)
    requires i < |s.actors|
    ensures At(s, i, AwaitingLock) ==>
              && (Advance(s, i, choice, deadline).Some? <==> s.actors[i].key !in s.holders)
              && (Advance(s, i, choice, deadline).Some? ==>
                    Turned(s.(holders := s.holders[s.actors[i].key := i]), Advance(s, i, choice, deadline).value, i,
                           s.actors[i].(pc := CheckingOwner)))
    ensures s.actors[i].pc.Releasing? && At(s, i, s.actors[i].pc) ==>
              Advance(s, i, choice, deadline).Some?
              && Turned(s.(holders := s.holders - {s.actors[i].key}), Advance(s, i, choice, deadline).value, i,
                        s.actors[i].(pc := Finished(s.actors[i].pc.outcome)))
  {
    hide CheckOwner, FindReceipt, AskProvider, CommitReceipt, CloseReceipt, SelectGrant, CheckApproval,
         ResolveCredential, RecheckApproval, InsertReceipt, RevalidateGrant, CheckFinalApproval, RequestApproval,
         Await;
    hide SysInv, AuthInv, Inv;
    if s.actors[i].pc.Releasing? && At(s, i, s.actors[i].pc) {
      CallFacts(s, i);
      assert Unlocked(s, i).holders == s.holders - {s.actors[i].key};
    }
  }

  /** Each ownership check passes exactly for the current owner inside its lease. */
  lemma OwnershipOutcome(s: Sys, i: ActorId, next: Pc, choice: Choice, deadline: Option<nat>)
    requires i < |s.actors|
    requires (At(s, i, CheckingOwner) && next == FindingReceipt) || (At(s, i, RecheckingOwner) && next == RevalidatingGrant)
             || (At(s, i, FinalOwner) && next == Dispatching)
    ensures Advance(s, i, choice, deadline).Some?
    ensures Turned(s, Advance(s, i, choice, deadline).value, i,
                   s.actors[i].(pc := if Owns(s.db, s.actors[i].run, s.actors[i].attempt) then next else Releasing(Threw)))
  {
    hide Acquire, FindReceipt, AskProvider, CommitReceipt, CloseReceipt, SelectGrant, CheckApproval,
         ResolveCredential, RecheckApproval, InsertReceipt, RevalidateGrant, CheckFinalApproval, RequestApproval,
         Await;
    hide SysInv, AuthInv;
  }

  // -------------------------------------------------------------------- the lookup

  /** The lookup finds nothing exactly when no receipt carries the key. */
  lemma NotFoundOutcome(s: Sys, i: ActorId, deadline: Option<nat>)
    requires At(s, i, FindingReceipt)
    ensures Advance(s, i, NotFound, deadline).Some? <==>
              forall id :: 0 <= id < |s.receipts| ==> s.receipts[id].key != s.actors[i].key
    ensures Advance(s, i, NotFound, deadline).Some? ==>
              Turned(s, Advance(s, i, NotFound, deadline).value, i, s.actors[i].(pc := SelectingGrant))
  {
    hide Acquire, CheckOwner, AskProvider, CommitReceipt, CloseReceipt, SelectGrant, CheckApproval,
         ResolveCredential, RecheckApproval, InsertReceipt, RevalidateGrant, CheckFinalApproval, RequestApproval,
         Await;
    hide SysInv, AuthInv, InLineage, Inv, ReceiptsOk;
    CallFacts(s, i);
    if NoReceiptFor(s, s.actors[i].run, s.actors[i].key) {
      NotFoundMeansNone(s, i);
    }
  }

  /** Where a receipt of this status leads. */
  function Recovered(status: ReceiptStatus, recovery: Recovery): Pc {
    match status
    case Committed(e) => Releasing(CompletedWith(e, true))
    case PendingReceipt =>
      (match recovery
       case RetryWithKey => SelectingGrant
       case Reconcile => Reconciling
       case Manual => Marking(false))
    case _ => Releasing(ReconciliationRequired)
  }

  /** It finds exactly the receipt that carries the key, and follows its status and the recovery
      policy of the action. */
  lemma FoundOutcome(s: Sys, i: ActorId, id: ReceiptId, deadline: Option<nat>)
    requires At(s, i, FindingReceipt)
    ensures Advance(s, i, Found(id), deadline).Some? <==> id < |s.receipts| && s.receipts[id].key == s.actors[i].key
    ensures Advance(s, i, Found(id), deadline).Some? ==>
              Turned(s, Advance(s, i, Found(id), deadline).value, i,
                     s.actors[i].(receipt := Some(id), approval := s.receipts[id].approval,
                                  pc := Recovered(s.receipts[id].status, s.actors[i].key.action.recovery)))
  {
    hide Acquire, CheckOwner, AskProvider, CommitReceipt, CloseReceipt, SelectGrant, CheckApproval,
         ResolveCredential, RecheckApproval, InsertReceipt, RevalidateGrant, CheckFinalApproval, RequestApproval,
         Await;
    hide SysInv, AuthInv, InLineage, Inv, ReceiptsOk;
    CallFacts(s, i);
    if id < |s.receipts| && s.receipts[id].key == s.actors[i].key {
      LookupSeesAll(s, i, id);
      OnlyReceipt(s, s.actors[i].run, s.actors[i].key, id);
    }
  }

  lemma OnlyReceipt(s: Sys, run: RunId, key: Key, id: ReceiptId)
    requires ReceiptsOk(s) && run < |s.db.runs| && ReceiptMatches(s, run, key, id)
    ensures BestReceipt(s, run, key, id)
  {
    hide InLineage, RootOf;
    forall o: ReceiptId | o < |s.receipts| && ReceiptMatches(s, run, key, o)
      ensures o == id
    {
      assert o == id || o < id || id < o;
    }
  }

  // ---------------------------------------------------------------- reconciliation

  /** The provider's answer: a committed effect of the key is closed with, a certificate of
      absence is given only when there is none, and anything else is uncertain. */
  lemma ReconcileOutcome(s: Sys, i: ActorId, e: EffectId, deadline: Option<nat>)
    requires At(s, i, Reconciling)
    ensures Advance(s, i, Remote(e), deadline).Some? <==> e < |s.effects| && s.effects[e].key == s.actors[i].key
    ensures Advance(s, i, Remote(e), deadline).Some? ==>
              Turned(s, Advance(s, i, Remote(e), deadline).value, i, s.actors[i].(pc := ClosingReconciled(e)))
    ensures Advance(s, i, CertifiedAbsent, deadline).Some? <==>
              forall f :: 0 <= f < |s.effects| ==> s.effects[f].key != s.actors[i].key
    ensures Advance(s, i, CertifiedAbsent, deadline).Some? ==>
              var s' := Advance(s, i, CertifiedAbsent, deadline).value;
              && |s'.actors| == |s.actors| && s' == s.(actors := s'.actors)
              && (forall j :: 0 <= j < |s.actors| && s.actors[j].key != s.actors[i].key ==> s'.actors[j] == s.actors[j])
              && (forall j :: 0 <= j < |s.actors| && j != i && s.actors[j].key == s.actors[i].key ==>
                    && (s.actors[j].wire.InTransit? ==> s'.actors[j].wire == Lost)
                    && (!s.actors[j].wire.InTransit? ==> s'.actors[j].wire == s.actors[j].wire)
                    && s'.actors[j] == s.actors[j].(wire := s'.actors[j].wire, barred := s.actors[j].barred || s.terminal))
              && s'.actors[i] == s.actors[i].(absent := true, barred := false, pc := SelectingGrant)
    ensures Advance(s, i, Unknown, deadline).Some?
            && Turned(s, Advance(s, i, Unknown, deadline).value, i, s.actors[i].(pc := Marking(false)))
    ensures Advance(s, i, Fail, deadline).Some?
            && Turned(s, Advance(s, i, Fail, deadline).value, i, s.actors[i].(pc := Releasing(Threw)))
  {
    hide Acquire, CheckOwner, FindReceipt, CommitReceipt, CloseReceipt, SelectGrant, CheckApproval,
         ResolveCredential, RecheckApproval, InsertReceipt, RevalidateGrant, CheckFinalApproval, RequestApproval,
         Await;
    hide SysInv, AuthInv, Inv, ReceiptsOk, FirstEffect;
    CallFacts(s, i);
    FirstEffectIsFirst(s.effects, s.actors[i].key);
  }

  // ------------------------------------------------------------------ closing receipts

  /** What committing the call's receipt with an effect leaves. */
  ghost predicate CommittedIn(s: Sys, s': Sys, i: ActorId, e: EffectId, deduplicated: bool)
  {
    && i < |s.actors| && s.actors[i].receipt.Some? && s.actors[i].receipt.value < |s.receipts|
    && var id := s.actors[i].receipt.value;
       TurnedNoting(s.(receipts := s.receipts[id := s.receipts[id].(status := Committed(e))],
                       commits := s.commits + [Commit(s.actors[i].run, s.actors[i].attempt)]),
                    s', i, ToolInvocationCommitted, s.actors[i].(pc := Releasing(CompletedWith(e, deduplicated))))
  }

  /** The current owner commits its receipt with the effect; anyone else fails, and what a
      dispatch has left uncertain is noted, or marked for a human under the manual policy. */
  lemma CommitOutcome(s: Sys, i: ActorId, e: EffectId, choice: Choice, deadline: Option<nat>)
    requires At(s, i, Committing(e)) || At(s, i, ClosingReconciled(e))
    ensures Advance(s, i, choice, deadline).Some?
    ensures var s' := Advance(s, i, choice, deadline).value;
            if Owns(s.db, s.actors[i].run, s.actors[i].attempt)
            then CommittedIn(s, s', i, e, s.actors[i].pc.ClosingReconciled?)
            else if s.actors[i].pc.ClosingReconciled? then Turned(s, s', i, s.actors[i].(pc := Releasing(Threw)))
            else if s.actors[i].key.action.recovery.Manual? then Turned(s, s', i, s.actors[i].(pc := Marking(true)))
            else TurnedNoting(s, s', i, ToolInvocationFailed, s.actors[i].(pc := Releasing(Threw)))
  {
    hide Acquire, CheckOwner, FindReceipt, AskProvider, CloseReceipt, SelectGrant, CheckApproval, ResolveCredential,
         RecheckApproval, InsertReceipt, RevalidateGrant, CheckFinalApproval, RequestApproval, Await;
    hide SysInv, AuthInv, Audited, TurnedNoting;
    var actor := s.actors[i];
    PendingInHand(s, i);
    AuditNotesOn(s, s, i, ToolInvocationFailed, actor.(pc := Releasing(Threw)));
    var id := actor.receipt.value;
    AuditNotesOn(s, s.(receipts := s.receipts[id := s.receipts[id].(status := Committed(e))],
                       commits := s.commits + [Commit(actor.run, actor.attempt)]), i, ToolInvocationCommitted,
                 actor.(pc := Releasing(CompletedWith(e, actor.pc.ClosingReconciled?))));
  }

  /** A working call's receipt is pending. */
  lemma PendingInHand(s: Sys, i: ActorId)
    requires SysInv(s) && i < |s.actors| && s.actors[i].session && NeedsReceipt(s.actors[i].pc)
    ensures s.actors[i].receipt.Some? && s.actors[i].receipt.value < |s.receipts|
    ensures s.receipts[s.actors[i].receipt.value].status == PendingReceipt
    ensures s.actors[i].run < |s.db.runs|
  {
    ActorFacts(s, i);
  }

  /** Refusing leaves the receipt FAILED, an uncertain outcome NEEDS_RECONCILIATION, both by the
      current owner only. */
  lemma CloseOutcome(s: Sys, i: ActorId, choice: Choice, deadline: Option<nat>)
    requires At(s, i, Denying) || (exists rethrow :: At(s, i, Marking(rethrow)))
    ensures Advance(s, i, choice, deadline).Some?
    ensures var s', pc := Advance(s, i, choice, deadline).value, s.actors[i].pc;
            if Owns(s.db, s.actors[i].run, s.actors[i].attempt)
            then
              && s.actors[i].receipt.Some? && s.actors[i].receipt.value < |s.receipts|
              && var id := s.actors[i].receipt.value;
                 TurnedNoting(
                   s.(receipts := s.receipts[id := s.receipts[id].(status := if pc.Denying? then FailedReceipt else NeedsReconciliation)]),
                   s', i, if pc.Denying? then ActionDenied else ToolInvocationFailed,
                   s.actors[i].(pc := Releasing(if pc.Denying? then DeniedOutcome
                                                else if pc.rethrow then Threw else ReconciliationRequired)))
            else Turned(s, s', i, s.actors[i].(pc := Releasing(Threw)))
  {
    hide Acquire, CheckOwner, FindReceipt, AskProvider, CommitReceipt, SelectGrant, CheckApproval, ResolveCredential,
         RecheckApproval, InsertReceipt, RevalidateGrant, CheckFinalApproval, RequestApproval, Await;
    hide SysInv, AuthInv, Audited, TurnedNoting;
    var actor := s.actors[i];
    PendingInHand(s, i);
    var id := actor.receipt.value;
    if actor.pc.Denying? {
      AuditNotesOn(s, s.(receipts := s.receipts[id := s.receipts[id].(status := FailedReceipt)]), i, ActionDenied,
                   actor.(pc := Releasing(DeniedOutcome)));
    } else {
      AuditNotesOn(s, s.(receipts := s.receipts[id := s.receipts[id].(status := NeedsReconciliation)]), i, ToolInvocationFailed,
                   actor.(pc := Releasing(if actor.pc.rethrow then Threw else ReconciliationRequired)));
    }
  }

  // --------------------------------------------------------------------- the grant

  /** The grant is the run's, allows the action and has not expired. */
  ghost predicate Permits(s: Sys, g: GrantId, actor: Actor)
  {
    && g < |s.grants| && s.grants[g].run == actor.run && actor.key.action.name in s.grants[g].allows
    && (s.grants[g].expiresAt.None? || s.db.now < s.grants[g].expiresAt.value)
  }

  ghost predicate CallsLeft(grant: Grant) { grant.maxCalls.None? || grant.callsUsed < grant.maxCalls.value }

  /** A permitting grant can be chosen while it has calls left, or for a receipt that was already
      paid for; it then decides whether a human is asked. Without one the call is refused, and
      what that does to a receipt depends on whether its outcome is known to be absent. */
  lemma SelectOutcome(s: Sys, i: ActorId, g: GrantId, deadline: Option<nat>)
    requires At(s, i, SelectingGrant)
    ensures Advance(s, i, UseGrant(g), deadline).Some? <==>
              Permits(s, g, s.actors[i]) && (s.actors[i].receipt.Some? || CallsLeft(s.grants[g]))
    ensures Advance(s, i, UseGrant(g), deadline).Some? ==>
              Turned(s, Advance(s, i, UseGrant(g), deadline).value, i,
                     s.actors[i].(grant := Some(g),
                                  pc := if s.grants[g].requiresApproval then CheckingApproval else ResolvingCredential))
    ensures Advance(s, i, Ungranted, deadline).Some?
            && Turned(s, Advance(s, i, Ungranted, deadline).value, i,
                      s.actors[i].(grant := None, pc := ResolvingCredential))
    ensures Advance(s, i, Refused, deadline).Some?
            && var s' := Advance(s, i, Refused, deadline).value;
               if s.actors[i].receipt.None? then TurnedDown(s, s', i)
               else Turned(s, s', i, s.actors[i].(pc := if s.actors[i].absent then Denying else Marking(false)))
    ensures Advance(s, i, Invalid, deadline).Some?
            && var s' := Advance(s, i, Invalid, deadline).value;
               if s.actors[i].receipt.Some? && s.actors[i].absent then Turned(s, s', i, s.actors[i].(pc := Denying))
               else TurnedDown(s, s', i)
  {
    hide Acquire, CheckOwner, FindReceipt, AskProvider, CommitReceipt, CloseReceipt, CheckApproval,
         ResolveCredential, RecheckApproval, InsertReceipt, RevalidateGrant, CheckFinalApproval, RequestApproval,
         Await;
    hide SysInv, AuthInv, Deny, TurnedDown;
    DenyTurnsDown(s, i);
  }

  /** Before the send the grant is looked at again. */
  lemma RevalidateOutcome(s: Sys, i: ActorId, choice: Choice, deadline: Option<nat>)
    requires At(s, i, RevalidatingGrant)
    ensures Advance(s, i, choice, deadline).Some?
    ensures var actor, s' := s.actors[i], Advance(s, i, choice, deadline).value;
            if actor.grant.None? then Turned(s, s', i, actor.(pc := FinalOwner))
            else if Permits(s, actor.grant.value, actor) then
              Turned(s, s', i, actor.(pc := if s.grants[actor.grant.value].requiresApproval then FinalApproval else FinalOwner))
            else if actor.inserted || actor.absent then Turned(s, s', i, actor.(pc := Denying))
            else TurnedDown(s, s', i)
  {
    hide Acquire, CheckOwner, FindReceipt, AskProvider, CommitReceipt, CloseReceipt, SelectGrant, CheckApproval,
         ResolveCredential, RecheckApproval, InsertReceipt, CheckFinalApproval, RequestApproval, Await;
    hide SysInv, AuthInv, Inv, ReceiptsOk, Deny, TurnedDown;
    CallFacts(s, i);
    DenyTurnsDown(s, i);
  }

  // ------------------------------------------------------------------ the approval

  /** Approval a was asked for by this run under this key. */
  ghost predicate Mine(s: Sys, actor: Actor, a: ApprovalId)
  {
    a < |s.approvals| && s.approvals[a].run == actor.run && s.approvals[a].key == actor.key
  }

  /** The approval a call looks at: the one bound to its receipt, else the newest of its run and key. */
  ghost predicate Looked(s: Sys, actor: Actor, a: ApprovalId)
  {
    || actor.approval == Some(a)
    || (actor.approval.None? && Mine(s, actor, a) && forall b :: a < b < |s.approvals| ==> !Mine(s, actor, b))
  }

  /** The approval's status now: an open or granted one expires with its deadline. */
  function StatusAt(row: Approval, now: nat): ApprovalStatus {
    if row.expiresAt.Some? && row.expiresAt.value <= now && (row.status == Undecided || row.status == Approved)
    then Expired else row.status
  }

  /** Looking at an approval of one's own writes its expiry down. */
  ghost function Seen(s: Sys, actor: Actor, a: ApprovalId): Sys
  {
    if Mine(s, actor, a)
    then s.(approvals := s.approvals[a := s.approvals[a].(status := StatusAt(s.approvals[a], s.db.now))])
    else s
  }

  /** What the call learns: its own approval's status now; a foreign approval counts as expired for
      asking again. */
  ghost function Verdict(s: Sys, actor: Actor, a: ApprovalId): Option<ApprovalStatus>
  {
    if Mine(s, actor, a) then Some(StatusAt(s.approvals[a], s.db.now)) else None
  }

  lemma SeenIsLocked(s: Sys, actor: Actor, a: ApprovalId)
    ensures WithApprovalLocked(s, actor.run, actor.key, a) == Seen(s, actor, a)
    ensures ApprovalAnswer(s, actor.run, actor.key, a) == Verdict(s, actor, a)
    ensures Seen(s, actor, a).actors == s.actors && Seen(s, actor, a).db == s.db
  {
    if Mine(s, actor, a) && StatusAt(s.approvals[a], s.db.now) == s.approvals[a].status {
      assert s.approvals[a].(status := s.approvals[a].status) == s.approvals[a];
      assert s.approvals[a := s.approvals[a]] == s.approvals;
    }
  }

  lemma SeenDenies(s: Sys, i: ActorId, a: ApprovalId)
    requires SysInv(s) && i < |s.actors|
    ensures Seen(s, s.actors[i], a).actors == s.actors
    ensures TurnedDown(Seen(s, s.actors[i], a), Deny(Seen(s, s.actors[i], a), i), i)
  {
    hide SysInv, TurnedNoting, Audited;
    SeenIsLocked(s, s.actors[i], a);
    AuditNotesOn(s, Seen(s, s.actors[i], a), i, ActionDenied, s.actors[i].(pc := Releasing(DeniedOutcome)));
  }

  /** The first look: only a granted approval lets the call go on, and then it does. A denial
      fails the receipt whose outcome is known to be absent, else denies; an open decision ends
      the call without a note; an expired or foreign approval is asked for again when there is a
      receipt to recover and denied otherwise. */
  lemma CheckOutcome(s: Sys, i: ActorId, a: ApprovalId, choice: Choice, deadline: Option<nat>)
    requires At(s, i, CheckingApproval) && Looked(s, s.actors[i], a)
    ensures Advance(s, i, choice, deadline).Some?
    ensures var actor, s', seen := s.actors[i], Advance(s, i, choice, deadline).value, Seen(s, s.actors[i], a);
            match Verdict(s, actor, a)
            case Some(Approved) => Turned(seen, s', i, actor.(approval := Some(a), pc := ResolvingCredential))
            case Some(Denied) =>
              if actor.receipt.Some? && actor.absent then Turned(seen, s', i, actor.(pc := Denying))
              else TurnedDown(seen, s', i)
            case Some(Undecided) => Turned(seen, s', i, actor.(pc := Releasing(DeniedOutcome)))
            case _ =>
              if actor.receipt.Some? then Turned(seen, s', i, actor.(pc := RequestingApproval))
              else TurnedDown(seen, s', i)
  {
    hide Acquire, CheckOwner, FindReceipt, AskProvider, CommitReceipt, CloseReceipt, SelectGrant, ResolveCredential,
         RecheckApproval, InsertReceipt, RevalidateGrant, CheckFinalApproval, RequestApproval, Await;
    hide SysInv, AuthInv, Deny, TurnedDown, WithApprovalLocked, ApprovalAnswer, Seen, Verdict;
    var actor := s.actors[i];
    LookedIsCandidate(s, actor, a);
    SeenIsLocked(s, actor, a);
    SeenDenies(s, i, a);
  }

  lemma LookedIsCandidate(s: Sys, actor: Actor, a: ApprovalId)
    requires Looked(s, actor, a)
    ensures ApprovalCandidate(s, actor) == Some(a)
  {
    hide LastApproval;
    if actor.approval.None? {
      var last := LastApproval(s.approvals, actor.run, actor.key);
      assert Mine(s, actor, last.value);
      assert !(a < last.value);
    }
  }

  /** With no approval of its run and key yet, the call asks for one. */
  lemma AskOutcome(s: Sys, i: ActorId, choice: Choice, deadline: Option<nat>)
    requires At(s, i, CheckingApproval) && s.actors[i].approval.None?
    requires forall a :: 0 <= a < |s.approvals| ==> !Mine(s, s.actors[i], a)
    ensures Advance(s, i, choice, deadline).Some?
    ensures Turned(s, Advance(s, i, choice, deadline).value, i, s.actors[i].(pc := RequestingApproval))
  {
    hide Acquire, CheckOwner, FindReceipt, AskProvider, CommitReceipt, CloseReceipt, SelectGrant, ResolveCredential,
         RecheckApproval, InsertReceipt, RevalidateGrant, CheckFinalApproval, RequestApproval, Await;
    hide SysInv, AuthInv, LastApproval;
    var last := LastApproval(s.approvals, s.actors[i].run, s.actors[i].key);
    assert last.Some? ==> Mine(s, s.actors[i], last.value);
  }

  /** After the credential: granted goes on, expired is asked for again when a receipt is being
      recovered, anything else is refused. */
  lemma RecheckOutcome(s: Sys, i: ActorId, a: ApprovalId, choice: Choice, deadline: Option<nat>)
    requires At(s, i, RecheckingApproval) && s.actors[i].approval == Some(a)
    ensures Advance(s, i, choice, deadline).Some?
    ensures var actor, s', seen := s.actors[i], Advance(s, i, choice, deadline).value, Seen(s, s.actors[i], a);
            var verdict := Verdict(s, actor, a);
            if verdict == Some(Approved) then
              Turned(seen, s', i, actor.(pc := if actor.receipt.None? then InsertingReceipt else RecheckingOwner))
            else if verdict == Some(Expired) && actor.receipt.Some? then Turned(seen, s', i, actor.(pc := RequestingApproval))
            else if actor.receipt.Some? && actor.absent then Turned(seen, s', i, actor.(pc := Denying))
            else TurnedDown(seen, s', i)
  {
    hide Acquire, CheckOwner, FindReceipt, AskProvider, CommitReceipt, CloseReceipt, SelectGrant, CheckApproval,
         ResolveCredential, InsertReceipt, RevalidateGrant, CheckFinalApproval, RequestApproval, Await;
    hide SysInv, AuthInv, Deny, TurnedDown, WithApprovalLocked, ApprovalAnswer, Seen, Verdict;
    SeenIsLocked(s, s.actors[i], a);
    SeenDenies(s, i, a);
  }

  /** The last look: granted goes on to the send, expired is asked for again, anything else is
      refused, which fails the receipt when nothing can have been dispatched under it. */
  lemma FinalOutcome(s: Sys, i: ActorId, a: ApprovalId, choice: Choice, deadline: Option<nat>)
    requires At(s, i, FinalApproval) && s.actors[i].approval == Some(a)
    ensures Advance(s, i, choice, deadline).Some?
    ensures var actor, s', seen := s.actors[i], Advance(s, i, choice, deadline).value, Seen(s, s.actors[i], a);
            match Verdict(s, actor, a)
            case Some(Approved) => Turned(seen, s', i, actor.(pc := FinalOwner))
            case Some(Expired) => Turned(seen, s', i, actor.(pc := RequestingApproval))
            case _ =>
              if actor.inserted || actor.absent then Turned(seen, s', i, actor.(pc := Denying))
              else TurnedDown(seen, s', i)
  {
    hide Acquire, CheckOwner, FindReceipt, AskProvider, CommitReceipt, CloseReceipt, SelectGrant, CheckApproval,
         ResolveCredential, RecheckApproval, InsertReceipt, RevalidateGrant, RequestApproval, Await;
    hide SysInv, AuthInv, Deny, TurnedDown, WithApprovalLocked, ApprovalAnswer, Seen, Verdict;
    SeenIsLocked(s, s.actors[i], a);
    SeenDenies(s, i, a);
  }

  /** The current owner suspends its run on a fresh open approval, to which a recovered receipt is
      bound; anyone else fails. */
  lemma RequestOutcome(s: Sys, i: ActorId, choice: Choice, deadline: Option<nat>)
    requires At(s, i, RequestingApproval)
    ensures Advance(s, i, choice, deadline).Some?
    ensures var actor, s', a := s.actors[i], Advance(s, i, choice, deadline).value, |s.approvals|;
            if Owns(s.db, actor.run, actor.attempt) then
              && Transitioned(s.db, s'.db, actor.run, WaitingApproval, Some(actor.attempt), ApprovalRequested,
                              Some(actor.attempt), s.db.attempts)
              && (actor.receipt.Some? ==> actor.receipt.value < |s.receipts|)
              && s' == s.(
                   db := s'.db,
                   approvals := s.approvals + [Approval(actor.run, actor.key, Undecided, deadline)],
                   receipts := if actor.receipt.None? then s.receipts
                               else s.receipts[actor.receipt.value := s.receipts[actor.receipt.value].(approval := Some(a))],
                   actors := s.actors[i := actor.(pc := Releasing(SuspendedForApproval(a)))])
            else Turned(s, s', i, actor.(pc := Releasing(Threw)))
  {
    hide Acquire, CheckOwner, FindReceipt, AskProvider, CommitReceipt, CloseReceipt, SelectGrant, CheckApproval,
         ResolveCredential, RecheckApproval, InsertReceipt, RevalidateGrant, CheckFinalApproval, Await;
    hide SysInv, AuthInv, Inv, ReceiptsOk, Transitioned, Epoch, IsOwner, Owns;
    var actor := s.actors[i];
    OwnsMeans(s, i);
    CallFacts(s, i);
    EpochOutcome(s.db, actor.attempt, SuspendForApproval, Running, WaitingApproval, ApprovalRequested);
  }

  lemma OwnsMeans(s: Sys, i: ActorId)
    requires SysInv(s) && i < |s.actors|
    ensures Inv(s.db)
    ensures var actor := s.actors[i];
            && IsOwner(s.db, actor.run, actor.attempt) == Owns(s.db, actor.run, actor.attempt)
            && (Owns(s.db, actor.run, actor.attempt) ==>
                  && actor.attempt < |s.db.attempts| && RunOf(s.db, actor.attempt) == actor.run < |s.db.runs|
                  && s.db.runs[actor.run].status == Running && s.db.runs[actor.run].current == Some(actor.attempt))
  {
    hide SysInv, Inv;
    ActorFacts(s, i);
  }

  // ------------------------------------------------------- credential, receipt, send

  /** A credential lets the call go on, to the second look when the grant asks for approval; a
      failure is noted and thrown. */
  lemma CredentialOutcome(s: Sys, i: ActorId, deadline: Option<nat>)
    requires At(s, i, ResolvingCredential)
    ensures var actor := s.actors[i];
            && Advance(s, i, Go, deadline).Some?
            && Turned(s, Advance(s, i, Go, deadline).value, i,
                      actor.(pc := if actor.grant.Some? && actor.grant.value < |s.grants| && s.grants[actor.grant.value].requiresApproval
                                   then RecheckingApproval
                                   else if actor.receipt.None? then InsertingReceipt else RecheckingOwner))
            && Advance(s, i, Fail, deadline).Some?
            && TurnedNoting(s, Advance(s, i, Fail, deadline).value, i, ToolInvocationFailed, actor.(pc := Releasing(Threw)))
  {
    hide Acquire, CheckOwner, FindReceipt, AskProvider, CommitReceipt, CloseReceipt, SelectGrant, CheckApproval,
         RecheckApproval, InsertReceipt, RevalidateGrant, CheckFinalApproval, RequestApproval, Await;
    hide SysInv, AuthInv, Inv, ReceiptsOk, Audited, TurnedNoting;
    CallFacts(s, i);
    AuditNotesOn(s, s, i, ToolInvocationFailed, s.actors[i].(pc := Releasing(Threw)));
  }

  /** The grant, if the call uses one, pays for one call. */
  ghost function Charged(s: Sys, grant: Option<GrantId>): Sys
  {
    if grant.None? || grant.value >= |s.grants| then s
    else s.(grants := s.grants[grant.value := s.grants[grant.value].(callsUsed := s.grants[grant.value].callsUsed + 1)])
  }

  /** The receipt is inserted exactly when the call's grant still permits it and has a call left;
      the grant is charged, the receipt is pending and bound to the call's approval. */
  lemma InsertOutcome(s: Sys, i: ActorId, choice: Choice, deadline: Option<nat>)
    requires At(s, i, InsertingReceipt)
    ensures Advance(s, i, choice, deadline).Some?
    ensures var actor, s' := s.actors[i], Advance(s, i, choice, deadline).value;
            if actor.grant.None? || (Permits(s, actor.grant.value, actor) && CallsLeft(s.grants[actor.grant.value])) then
              TurnedNoting(
                Charged(s, actor.grant).(receipts :=
                  s.receipts + [Receipt(actor.run, actor.key, actor.approval, PendingReceipt, i, actor.grant)]),
                s', i, ToolInvocationStarted,
                actor.(receipt := Some(|s.receipts|), inserted := true, pc := RecheckingOwner))
            else Turned(s, s', i, actor.(pc := Releasing(Threw)))
  {
    hide Acquire, CheckOwner, FindReceipt, AskProvider, CommitReceipt, CloseReceipt, SelectGrant, CheckApproval,
         ResolveCredential, RecheckApproval, RevalidateGrant, CheckFinalApproval, RequestApproval, Await;
    hide SysInv, AuthInv, Inv, ReceiptsOk, Audited, TurnedNoting;
    var actor := s.actors[i];
    CallFacts(s, i);
    AuditNotesOn(s, Charged(s, actor.grant).(receipts :=
                   s.receipts + [Receipt(actor.run, actor.key, actor.approval, PendingReceipt, i, actor.grant)]),
                 i, ToolInvocationStarted, actor.(receipt := Some(|s.receipts|), inserted := true, pc := RecheckingOwner));
  }

  /** The send hands the request over, and the reply is what the receiver served; a failure is
      marked under the manual policy, else noted while the session lasts. */
  lemma SendOutcome(s: Sys, i: ActorId, choice: Choice, deadline: Option<nat>)
    requires i < |s.actors| && SysInv(s)
    ensures s.actors[i].pc.Dispatching? ==>
              Advance(s, i, choice, deadline).Some?
              && Turned(s, Advance(s, i, choice, deadline).value, i, s.actors[i].(wire := InTransit, pc := AwaitingReply))
    ensures s.actors[i].pc.AwaitingReply? ==>
              && (Advance(s, i, Go, deadline).Some? <==> s.actors[i].wire.Served?)
              && (Advance(s, i, Go, deadline).Some? ==>
                    Turned(s, Advance(s, i, Go, deadline).value, i, s.actors[i].(pc := Committing(s.actors[i].wire.effect))))
              && Advance(s, i, Fail, deadline).Some?
              && var s' := Advance(s, i, Fail, deadline).value;
                 if s.actors[i].key.action.recovery.Manual? then Turned(s, s', i, s.actors[i].(pc := Marking(true)))
                 else if s.actors[i].session then TurnedNoting(s, s', i, ToolInvocationFailed, s.actors[i].(pc := Releasing(Threw)))
                 else Turned(s, s', i, s.actors[i].(pc := Releasing(Threw)))
  {
    hide Acquire, CheckOwner, FindReceipt, AskProvider, CommitReceipt, CloseReceipt, SelectGrant, CheckApproval,
         ResolveCredential, RecheckApproval, InsertReceipt, RevalidateGrant, CheckFinalApproval, RequestApproval;
    hide SysInv, Audited, TurnedNoting;
    AuditNotesOn(s, s, i, ToolInvocationFailed, s.actors[i].(pc := Releasing(Threw)));
  }

  // -------------------------------------------------------------------- the others

  /** A request in transit that no certificate bars is served: a repeated key of the retry policy
      from the first effect, anything else by a new effect of the call. */
  lemma DeliverOutcome(s: Sys, i: ActorId)
    requires i < |s.actors|
    ensures Next(s, DeliverStep(i)).Some? <==> s.actors[i].wire.InTransit? && !s.actors[i].barred
    ensures Next(s, DeliverStep(i)).Some? ==>
              var s', actor := Next(s, DeliverStep(i)).value, s.actors[i];
              if actor.key.action.recovery.RetryWithKey? && exists e: EffectId :: FirstOf(s.effects, actor.key, e)
              then exists e: EffectId :: FirstOf(s.effects, actor.key, e) && Turned(s, s', i, actor.(wire := Served(e)))
              else Turned(s.(effects := s.effects + [Effect(actor.key, i)]), s', i, actor.(wire := Served(|s.effects|)))
  {
    hide FirstEffect;
    FirstEffectIsFirst(s.effects, s.actors[i].key);
  }

  /** Effect e is the first of its key. */
  ghost predicate FirstOf(effects: seq<Effect>, key: Key, e: EffectId)
  {
    e < |effects| && effects[e].key == key && forall f :: 0 <= f < e ==> effects[f].key != key
  }

  lemma {:induction false} FirstEffectIsFirst(effects: seq<Effect>, key: Key)
    ensures FirstEffect(effects, key).Some? ==> FirstOf(effects, key, FirstEffect(effects, key).value)
    ensures FirstEffect(effects, key).None? ==> forall e: EffectId :: !FirstOf(effects, key, e)
  {
    if effects != [] {
      FirstEffectIsFirst(effects[..|effects| - 1], key);
    }
  }

  /** A call starts, holding nothing, for an attempt of a run; its key is rooted at the first run of
      the lineage, so a replacement uses its predecessor's key. */
  lemma LaunchOutcome(s: Sys, run: RunId, attempt: AttemptId, action: Action, args: string)
    ensures Next(s, LaunchStep(run, attempt, action, args)).Some? <==>
              run < |s.db.runs| && attempt < |s.db.attempts| && s.db.attempts[attempt].run == run
    ensures Next(s, LaunchStep(run, attempt, action, args)).Some? ==>
              Next(s, LaunchStep(run, attempt, action, args)).value == s.(actors := s.actors + [
                Actor(run, attempt, Key(RootOf(s.db.runs, run), action, args), AwaitingLock, true, None, false, false,
                      false, None, None, Unsent)])
    ensures run < |s.db.runs| ==>
              var root := RootOf(s.db.runs, run);
              if s.db.runs[run].predecessor.Some? && s.db.runs[run].predecessor.value < run
              then root == RootOf(s.db.runs, s.db.runs[run].predecessor.value) else root == run
  {
  }

  /** An open approval can be decided once; the decision wakes the run that waits for it. */
  lemma DecideOutcome(s: Sys, a: ApprovalId, approve: bool)
    requires SysInv(s) && AuthInv(s)
    ensures Next(s, DecideStep(a, approve)).Some? <==> a < |s.approvals| && s.approvals[a].status == Undecided
    ensures Next(s, DecideStep(a, approve)).Some? ==>
              var s', run := Next(s, DecideStep(a, approve)).value, s.approvals[a].run;
              var kind := if approve then ApprovalReceived else ApprovalDenied;
              && run < |s.db.runs|
              && s' == s.(db := s'.db,
                          approvals := s.approvals[a := s.approvals[a].(status := if approve then Approved else Denied)])
              && if s.db.runs[run].status == WaitingApproval
                 then Transitioned(s.db, s'.db, run, Queued, None, kind, None, s.db.attempts)
                 else s'.db == s.db
  {
    hide SysInv, AuthInv, Inv, Transitioned, Resume, LocksOk, ReceiptsOk, EffectsOk, RivalsOk, FailedOk;
    TableFacts(s);
    if a < |s.approvals| {
      ApprovalHasRun(s, a);
      ResumeOutcome(s.db, s.approvals[a].run, WaitingApproval, if approve then ApprovalReceived else ApprovalDenied);
    }
  }

  lemma ApprovalHasRun(s: Sys, a: ApprovalId)
    requires AuthInv(s) && a < |s.approvals|
    ensures s.approvals[a].run < |s.db.runs|
  {
  }
}
