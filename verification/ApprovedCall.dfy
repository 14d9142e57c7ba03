/** An authorized call gets through: from every sound state in which nothing stands in its way its
    own steps and one delivery lead to a committed receipt, with or without a grant that asks for
    approval; and such states are reached. */
module ApprovedCall {
  import opened Prelude
  import opened RunStates
  import opened Tables
  import opened Kernel
  import opened Lineage
  import opened Invariants
  import opened GovernedAction
  import opened ProtocolInvariant
  import opened ProtocolSafety
  import opened Authority
  import opened AuthoritySteps
  import opened KernelOutcomes
  import opened CallOutcomes
  import opened ExactlyOnce
  import opened WeakCertificate
  import Runtime

  // ----------------------------------------------------------------------- paths

  /** Any number of steps of the whole system. */
  ghost predicate Path(states: seq<Sys>, moves: seq<Label>)
  {
    |states| == |moves| + 1 && forall n :: 0 <= n < |moves| ==> Linked(states, moves, n)
  }

  ghost predicate Linked(states: seq<Sys>, moves: seq<Label>, n: nat)
    requires |states| == |moves| + 1 && n < |moves|
  {
    Next(states[n], moves[n]) == Some(states[n + 1])
  }

  ghost predicate Leads(s: Sys, s': Sys)
  {
    exists states, moves :: PathFrom(states, moves, s, s')
  }

  ghost predicate PathFrom(states: seq<Sys>, moves: seq<Label>, s: Sys, s': Sys)
  {
    Path(states, moves) && states[0] == s && states[|moves|] == s'
  }

  lemma Stay(s: Sys)
    ensures Leads(s, s)
  {
    var moves: seq<Label> := [];
    assert PathFrom([s], moves, s, s);
  }

  lemma LongerPath(states: seq<Sys>, moves: seq<Label>, s0: Sys, s: Sys, move: Label, s': Sys)
    requires PathFrom(states, moves, s0, s) && Next(s, move) == Some(s')
    ensures PathFrom(states + [s'], moves + [move], s0, s')
  {
    hide Next;
    var ss, ms := states + [s'], moves + [move];
    forall n | 0 <= n < |ms|
      ensures Linked(ss, ms, n)
    {
      if n < |moves| {
        assert Linked(states, moves, n);
      }
    }
  }

  lemma Onward(s0: Sys, s: Sys, move: Label) returns (s': Sys)
    requires Leads(s0, s) && SysInv(s) && AuthInv(s) && Next(s, move).Some?
    ensures Next(s, move) == Some(s') && Leads(s0, s') && SysInv(s') && AuthInv(s')
  {
    hide SysInv, AuthInv, Next, PathFrom;
    s' := Next(s, move).value;
    NextKeeps(s, move);
    NextAuthority(s, move);
    var states, moves :| PathFrom(states, moves, s0, s);
    LongerPath(states, moves, s0, s, move, s');
  }

  lemma Move(s0: Sys, s: Sys, i: ActorId, choice: Choice) returns (s': Sys)
    requires Leads(s0, s) && SysInv(s) && AuthInv(s) && i < |s.actors| && GovernedAction.Advance(s, i, choice, None).Some?
    ensures GovernedAction.Advance(s, i, choice, None) == Some(s') && Leads(s0, s') && SysInv(s') && AuthInv(s')
  {
    hide SysInv, AuthInv, Leads, GovernedAction.Advance;
    s' := Onward(s0, s, ActorStep(i, choice, None));
  }

  // ------------------------------------------------------------------ nothing in the way

  /** The call's attempt owns the running run; its grant, if it is to use one, permits the action;
      and the newest approval of its run and key, if that grant asks for one, is granted and in
      time. */
  ghost predicate Clear(s: Sys, i: ActorId, g: Option<GrantId>, a: Option<ApprovalId>)
  {
    && i < |s.actors| && s.actors[i].session
    && Owns(s.db, s.actors[i].run, s.actors[i].attempt)
    && (g.Some? ==> Permits(s, g.value, s.actors[i]) && (s.grants[g.value].requiresApproval <==> a.Some?))
    && (g.None? ==> a.None?)
    && (a.Some? ==> InForce(s, s.actors[i], a.value))
  }

  ghost predicate InForce(s: Sys, actor: Actor, a: ApprovalId)
  {
    && Mine(s, actor, a) && StatusAt(s.approvals[a], s.db.now) == Approved
    && forall b :: a < b < |s.approvals| ==> !Mine(s, actor, b)
  }

  /** No receipt carries the call's key and the grant can pay. */
  ghost predicate Unpaid(s: Sys, i: ActorId, g: Option<GrantId>)
    requires i < |s.actors|
  {
    && s.actors[i].receipt.None?
    && (forall id :: 0 <= id < |s.receipts| ==> s.receipts[id].key != s.actors[i].key)
    && (g.Some? ==> g.value < |s.grants| && CallsLeft(s.grants[g.value]))
  }

  /** Steps that only move the call, or note something, leave the way clear. */
  lemma StaysClear(s: Sys, s': Sys, i: ActorId, g: Option<GrantId>, a: Option<ApprovalId>)
    requires Clear(s, i, g, a) && i < |s'.actors|
    requires s'.actors[i].run == s.actors[i].run && s'.actors[i].attempt == s.actors[i].attempt
    requires s'.actors[i].key == s.actors[i].key && s'.actors[i].session
    requires s'.approvals == s.approvals && SameTerms(s, s')
    requires s'.db == s.db || exists kind :: NotedBy(s, s', i, kind)
    ensures Clear(s', i, g, a)
  {
    if a.Some? {
      StaysInForce(s, s', s.actors[i], s'.actors[i], a.value);
    }
    hide InForce;
  }

  lemma StaysInForce(s: Sys, s': Sys, actor: Actor, actor': Actor, a: ApprovalId)
    requires InForce(s, actor, a) && s'.approvals == s.approvals && s'.db.now == s.db.now
    requires actor'.run == actor.run && actor'.key == actor.key
    ensures InForce(s', actor', a)
  {
    forall b | a < b < |s'.approvals|
      ensures !Mine(s', actor', b)
    {
      assert !Mine(s, actor, b);
    }
  }

  /** Grants keep everything but their counters. */
  ghost predicate SameTerms(s: Sys, s': Sys)
  {
    |s'.grants| == |s.grants|
    && forall g :: 0 <= g < |s.grants| ==> s'.grants[g] == s.grants[g].(callsUsed := s'.grants[g].callsUsed)
  }

  ghost predicate NotedBy(s: Sys, s': Sys, i: ActorId, kind: EventKind)
  {
    && i < |s.actors| && s.actors[i].run < |s.db.runs|
    && var run := s.db.runs[s.actors[i].run];
       Noted(s.db, s'.db, s.actors[i].run, kind, Some(s.actors[i].attempt), run.call, run.tokensUsed)
  }

  /** Looking at an approval in force changes nothing. */
  lemma InForceIsSeen(s: Sys, actor: Actor, a: ApprovalId)
    requires InForce(s, actor, a)
    ensures Seen(s, actor, a) == s && Verdict(s, actor, a) == Some(Approved)
    ensures actor.approval.None? ==> Looked(s, actor, a)
  {
    assert s.approvals[a].(status := Approved) == s.approvals[a];
    assert s.approvals[a := s.approvals[a]] == s.approvals;
  }

  // ------------------------------------------------------------------- the stages

  /** How far the call is: its control state and the authority it carries. */
  ghost predicate Stage(s: Sys, i: ActorId, g: Option<GrantId>, a: Option<ApprovalId>, pc: Pc)
  {
    SysInv(s) && AuthInv(s) && Clear(s, i, g, a) && s.actors[i].pc == pc && s.actors[i].wire == Unsent && !s.actors[i].barred
  }

  /** Under the lock: it finds no receipt and chooses its grant. */
  lemma Begins(s0: Sys, s: Sys, i: ActorId, g: Option<GrantId>, a: Option<ApprovalId>) returns (s': Sys)
    requires Leads(s0, s) && Stage(s, i, g, a, CheckingOwner) && Unpaid(s, i, g) && s.actors[i].approval.None?
    ensures Leads(s0, s')
    ensures Stage(s', i, g, a, if a.Some? then CheckingApproval else ResolvingCredential)
    ensures Unpaid(s', i, g) && s'.actors[i].approval.None? && s'.actors[i].grant == g && s'.actors[i].key == s.actors[i].key
  {
    hide SysInv, AuthInv, Leads, GovernedAction.Advance, Owns, Permits, InForce;
    OwnershipOutcome(s, i, FindingReceipt, Go, None);
    var s1 := Move(s0, s, i, Go);
    StaysClear(s, s1, i, g, a);
    NotFoundOutcome(s1, i, None);
    var s2 := Move(s0, s1, i, NotFound);
    StaysClear(s1, s2, i, g, a);
    s' := Chooses(s0, s2, i, g, a);
  }

  lemma Chooses(s0: Sys, s: Sys, i: ActorId, g: Option<GrantId>, a: Option<ApprovalId>) returns (s': Sys)
    requires Leads(s0, s) && Stage(s, i, g, a, SelectingGrant) && Unpaid(s, i, g) && s.actors[i].approval.None?
    ensures Leads(s0, s')
    ensures Stage(s', i, g, a, if a.Some? then CheckingApproval else ResolvingCredential)
    ensures Unpaid(s', i, g) && s'.actors[i].approval.None? && s'.actors[i].grant == g && s'.actors[i].key == s.actors[i].key
  {
    hide SysInv, AuthInv, Leads, GovernedAction.Advance, Owns, InForce;
    SelectOutcome(s, i, if g.Some? then g.value else 0, None);
    s' := Move(s0, s, i, if g.Some? then UseGrant(g.value) else Ungranted);
    StaysClear(s, s', i, g, a);
  }

  /** The two early looks at the approval, around the credential. */
  lemma Authorizes(s0: Sys, s: Sys, i: ActorId, g: Option<GrantId>, a: Option<ApprovalId>) returns (s': Sys)
    requires Leads(s0, s) && Stage(s, i, g, a, if a.Some? then CheckingApproval else ResolvingCredential)
    requires Unpaid(s, i, g) && s.actors[i].approval.None? && s.actors[i].grant == g
    ensures Leads(s0, s') && Stage(s', i, g, a, InsertingReceipt)
    ensures Unpaid(s', i, g) && s'.actors[i].approval == a && s'.actors[i].grant == g && s'.actors[i].key == s.actors[i].key
  {
    hide SysInv, AuthInv, Leads, GovernedAction.Advance, Owns, InForce;
    var s1 := s;
    if a.Some? {
      InForceIsSeen(s, s.actors[i], a.value);
      CheckOutcome(s, i, a.value, Go, None);
      s1 := Move(s0, s, i, Go);
      StaysClear(s, s1, i, g, a);
    }
    CredentialOutcome(s1, i, None);
    var s2 := Move(s0, s1, i, Go);
    StaysClear(s1, s2, i, g, a);
    s' := s2;
    if a.Some? {
      InForceIsSeen(s2, s2.actors[i], a.value);
      RecheckOutcome(s2, i, a.value, Go, None);
      s' := Move(s0, s2, i, Go);
      StaysClear(s2, s', i, g, a);
    }
  }

  /** The pending receipt is the call's own. */
  ghost predicate InHand(s: Sys, i: ActorId, id: ReceiptId, a: Option<ApprovalId>, g: Option<GrantId>)
    requires i < |s.actors|
  {
    && s.actors[i].receipt == Some(id) && s.actors[i].approval == a && s.actors[i].grant == g && s.actors[i].inserted
    && id < |s.receipts| && s.receipts[id].key == s.actors[i].key && s.receipts[id].approval == a && s.receipts[id].grant == g
  }

  /** The grant pays and the receipt is inserted. */
  lemma Inserts(s0: Sys, s: Sys, i: ActorId, g: Option<GrantId>, a: Option<ApprovalId>) returns (s': Sys)
    requires Leads(s0, s) && Stage(s, i, g, a, InsertingReceipt) && Unpaid(s, i, g)
    requires s.actors[i].approval == a && s.actors[i].grant == g
    ensures Leads(s0, s') && Stage(s', i, g, a, RecheckingOwner) && InHand(s', i, |s.receipts|, a, g)
    ensures s'.actors[i].key == s.actors[i].key
  {
    hide SysInv, AuthInv, Leads, GovernedAction.Advance, Owns, InForce, Permits;
    InsertOutcome(s, i, Go, None);
    s' := Move(s0, s, i, Go);
    assert NotedBy(s, s', i, ToolInvocationStarted);
    StaysClear(s, s', i, g, a);
  }

  /** The last checks pass. */
  lemma Rechecks(s0: Sys, s: Sys, i: ActorId, id: ReceiptId, g: Option<GrantId>, a: Option<ApprovalId>) returns (s': Sys)
    requires Leads(s0, s) && Stage(s, i, g, a, RecheckingOwner) && InHand(s, i, id, a, g)
    ensures Leads(s0, s') && Stage(s', i, g, a, Dispatching) && InHand(s', i, id, a, g)
    ensures s'.actors[i].key == s.actors[i].key
  {
    hide SysInv, AuthInv, Leads, GovernedAction.Advance, Owns, InForce;
    OwnershipOutcome(s, i, RevalidatingGrant, Go, None);
    var s1 := Move(s0, s, i, Go);
    StaysClear(s, s1, i, g, a);
    RevalidateOutcome(s1, i, Go, None);
    var s2 := Move(s0, s1, i, Go);
    StaysClear(s1, s2, i, g, a);
    if a.Some? {
      InForceIsSeen(s2, s2.actors[i], a.value);
      FinalOutcome(s2, i, a.value, Go, None);
      var s3 := Move(s0, s2, i, Go);
      StaysClear(s2, s3, i, g, a);
      s2 := s3;
    }
    OwnershipOutcome(s2, i, Dispatching, Go, None);
    s' := Move(s0, s2, i, Go);
    StaysClear(s2, s', i, g, a);
  }

  /** The request is sent, served and answered. */
  lemma Sends(s0: Sys, s: Sys, i: ActorId, id: ReceiptId, g: Option<GrantId>, a: Option<ApprovalId>)
    returns (s': Sys, e: EffectId)
    requires Leads(s0, s) && Stage(s, i, g, a, Dispatching) && InHand(s, i, id, a, g)
    ensures Leads(s0, s') && SysInv(s') && AuthInv(s') && Clear(s', i, g, a) && s'.actors[i].pc == Committing(e)
    ensures InHand(s', i, id, a, g) && e < |s'.effects| && s'.effects[e].key == s'.actors[i].key == s.actors[i].key
  {
    hide SysInv, AuthInv, Leads, GovernedAction.Advance, Next, Owns, InForce, Permits;
    SendOutcome(s, i, Go, None);
    var s1 := Move(s0, s, i, Go);
    StaysClear(s, s1, i, g, a);
    DeliverOutcome(s1, i);
    var s2 := Onward(s0, s1, DeliverStep(i));
    StaysClear(s1, s2, i, g, a);
    e := s2.actors[i].wire.effect;
    SendOutcome(s2, i, Go, None);
    s' := Move(s0, s2, i, Go);
    StaysClear(s2, s', i, g, a);
  }

  /** The call is over, with its own receipt committed to an effect of its key, under the grant and
      approval it was to use. */
  ghost predicate Through(s: Sys, i: ActorId, id: ReceiptId, e: EffectId, g: Option<GrantId>, a: Option<ApprovalId>)
  {
    && i < |s.actors| && s.actors[i].pc == Finished(CompletedWith(e, false))
    && InHand(s, i, id, a, g) && s.receipts[id].status == Committed(e)
    && e < |s.effects| && s.effects[e].key == s.actors[i].key
    && (g.Some? ==> g.value < |s.grants| && (s.grants[g.value].requiresApproval <==> a.Some?))
  }

  lemma Commits(s0: Sys, s: Sys, i: ActorId, id: ReceiptId, e: EffectId, g: Option<GrantId>, a: Option<ApprovalId>)
    returns (s': Sys)
    requires Leads(s0, s) && SysInv(s) && AuthInv(s) && Clear(s, i, g, a) && s.actors[i].pc == Committing(e)
    requires InHand(s, i, id, a, g) && e < |s.effects| && s.effects[e].key == s.actors[i].key
    ensures Leads(s0, s') && Through(s', i, id, e, g, a) && s'.actors[i].key == s.actors[i].key
  {
    hide SysInv, AuthInv, Leads, GovernedAction.Advance, Owns, InForce;
    CommitOutcome(s, i, e, Go, None);
    var s1 := Move(s0, s, i, Go);
    LockOutcome(s1, i, Go, None);
    s' := Move(s0, s1, i, Go);
  }

  /** Every authorized first call of a key gets through from the moment it holds the lock. */
  lemma AuthorizedCallCommits(s: Sys, i: ActorId, g: Option<GrantId>, a: Option<ApprovalId>)
    returns (s': Sys, id: ReceiptId, e: EffectId)
    requires Stage(s, i, g, a, CheckingOwner) && Unpaid(s, i, g) && s.actors[i].approval.None?
    ensures Leads(s, s') && Through(s', i, id, e, g, a) && s'.actors[i].key == s.actors[i].key
  {
    hide SysInv, AuthInv, Leads, Clear, Unpaid, InHand;
    Stay(s);
    var s1 := Begins(s, s, i, g, a);
    var s2 := Authorizes(s, s1, i, g, a);
    var s3 := Inserts(s, s2, i, g, a);
    id := |s2.receipts|;
    var s4 := Rechecks(s, s3, i, id, g, a);
    var s5;
    s5, e := Sends(s, s4, i, id, g, a);
    s' := Commits(s, s5, i, id, e, g, a);
  }

  // ------------------------------------------------------------------- an execution

  lemma ReachedOn(s: Sys, s': Sys)
    requires Reached(s) && Leads(s, s')
    ensures Reached(s')
  {
    hide Next, ExactlyOnce.Start;
    var before, done :| Trace(before, done) && |before| == |done| + 1 && before[|done|] == s;
    var states, moves :| PathFrom(states, moves, s, s');
    var ss, ms := before + states[1..], done + moves;
    forall n | 0 <= n < |ms|
      ensures Made(ss, ms, n)
    {
      if n < |done| {
        assert Made(before, done, n);
      } else {
        assert Linked(states, moves, n - |done|);
      }
    }
    assert Trace(ss, ms) && ss[|ms|] == s';
  }

  const Ask: Grant := Grant(0, {"refund"}, true, Some(1), 0, None)

  /** Run 0 is running under its newest attempt, and there is nothing else in the kernel. */
  ghost predicate Running0(db: Db, a: AttemptId)
  {
    && Owns(db, 0, a) && db.runs[0].predecessor.None? && |db.attempts| == a + 1
  }

  /** A queued run is claimed and started by a new attempt. */
  lemma Reclaimed(s: Sys) returns (s': Sys)
    requires Reached(s) && |s.db.runs| > 0 && s.db.runs[0].status == Queued && s.db.runs[0].predecessor.None?
    ensures Reached(s') && s' == s.(db := s'.db) && Running0(s'.db, |s.db.attempts|)
  {
    hide SysInv, AuthInv, Reached, Transitioned, Claim, StartRunning, Next, NextNumber;
    ReachedIsSound(s);
    ClaimOutcome(s.db, 0, 10);
    ClaimMoves(s, 10);
    var s1 := Step(s, KernelStep(Runtime.ClaimRun(0, 10)));
    ClaimedBy(s.db, s1.db);
    ReachedIsSound(s1);
    StartOutcome(s1.db, |s.db.attempts|);
    StartMoves(s1, |s.db.attempts|);
    s' := Step(s1, KernelStep(Runtime.Start(|s.db.attempts|)));
    StartedBy(s1.db, s'.db, |s.db.attempts|);
  }

  lemma ReachedIsSound(s: Sys)
    requires Reached(s)
    ensures SysInv(s) && AuthInv(s) && Inv(s.db)
  {
    hide AuthInv, Next;
    var states, moves :| Trace(states, moves) && |states| == |moves| + 1 && states[|moves|] == s;
    TraceInv(states, moves, |moves|);
  }

  lemma ClaimMoves(s: Sys, ttl: nat)
    ensures Next(s, KernelStep(Runtime.ClaimRun(0, ttl))) ==
            if Claim(s.db, 0, ttl).Ok? then Some(s.(db := Claim(s.db, 0, ttl).value)) else None
  {
    hide Claim;
  }

  lemma StartMoves(s: Sys, a: AttemptId)
    ensures Next(s, KernelStep(Runtime.Start(a))) ==
            if StartRunning(s.db, a).Ok? then Some(s.(db := StartRunning(s.db, a).value)) else None
  {
    hide StartRunning;
  }

  lemma ClaimedBy(db: Db, db': Db)
    requires |db.runs| > 0 && db.runs[0].predecessor.None?
    requires exists no: nat :: NextNumber(db.attempts, 0, no) &&
               Transitioned(db, db', 0, Starting, Some(|db.attempts|), AttemptStarted, Some(|db.attempts|),
                            db.attempts + [Attempt(0, no, ActiveAttempt, db.now + 10)])
    ensures Taken(db', |db.attempts|)
  {
  }

  /** The newest attempt has claimed run 0. */
  ghost predicate Taken(db: Db, a: AttemptId)
  {
    && |db.runs| > 0 && db.runs[0].status == Starting && db.runs[0].current == Some(a) && db.runs[0].predecessor.None?
    && |db.attempts| == a + 1 && db.attempts[a].run == 0
    && db.attempts[a].state == ActiveAttempt && db.attempts[a].leaseUntil > db.now
  }

  lemma StartedBy(db: Db, db': Db, a: AttemptId)
    requires Taken(db, a) && Transitioned(db, db', 0, Running, db.runs[0].current, AttemptStarted, Some(a), db.attempts)
    ensures Running0(db', a)
  {
  }

  function Caller(attempt: AttemptId, pc: Pc, grant: Option<GrantId>): Actor {
    Actor(0, attempt, RefundKey, pc, true, None, false, false, false, grant, None, Unsent)
  }

  /** The first call, alone under an approval-requiring grant. */
  ghost predicate First(s: Sys, pc: Pc, grant: Option<GrantId>)
  {
    && Reached(s) && s.grants == [Ask] && s.approvals == [] && s.receipts == []
    && s.actors == [Caller(0, pc, grant)] && Running0(s.db, 0)
  }

  lemma FirstBegins() returns (s: Sys)
    ensures First(s, AwaitingLock, None) && s.holders == map[]
  {
    hide Reached, Owns;
    var s0 := Queue();
    var s1 := Reclaimed(s0);
    var s2 := Granting(s1, Ask);
    OwnsHasRun(s2.db, 0, 0);
    assert RootOf(s2.db.runs, 0) == 0;
    s := Begun(s2, Refund, "{}");
  }

  lemma OwnsHasRun(db: Db, run: RunId, attempt: AttemptId)
    requires Owns(db, run, attempt)
    ensures run < |db.runs| && attempt < |db.attempts| && db.attempts[attempt].run == run
  {
  }

  lemma Granting(s: Sys, grant: Grant) returns (s': Sys)
    requires Reached(s) && grant.callsUsed == 0
    ensures Reached(s') && s' == s.(grants := s.grants + [grant])
  {
    hide Reached;
    s' := Step(s, GrantStep(grant));
  }

  lemma FirstLooks() returns (s: Sys)
    ensures First(s, FindingReceipt, None) && s.holders == map[RefundKey := 0]
  {
    hide Reached, Owns, SysInv, AuthInv, GovernedAction.Advance;
    var s0 := FirstBegins();
    ReachedIsSound(s0);
    LockOutcome(s0, 0, Go, None);
    var s1 := WeakCertificate.Act(s0, 0, Go);
    ReachedIsSound(s1);
    OwnershipOutcome(s1, 0, FindingReceipt, Go, None);
    s := WeakCertificate.Act(s1, 0, Go);
  }

  lemma FirstChooses() returns (s: Sys)
    ensures First(s, CheckingApproval, Some(0)) && s.holders == map[RefundKey := 0]
  {
    hide Reached, Running0, SysInv, AuthInv, GovernedAction.Advance;
    var s0 := FirstLooks();
    ReachedIsSound(s0);
    NotFoundOutcome(s0, 0, None);
    var s1 := WeakCertificate.Act(s0, 0, NotFound);
    ReachedIsSound(s1);
    SelectOutcome(s1, 0, 0, None);
    s := WeakCertificate.Act(s1, 0, UseGrant(0));
  }

  /** It asks a human, suspends its run and ends. */
  lemma FirstAsks() returns (s: Sys)
    ensures Reached(s) && s.grants == [Ask] && s.receipts == [] && s.holders == map[] && |s.actors| == 1
    ensures s.approvals == [Approval(0, RefundKey, Undecided, None)]
    ensures |s.db.runs| > 0 && s.db.runs[0].status == WaitingApproval && s.db.runs[0].predecessor.None?
    ensures |s.db.attempts| == 1
  {
    hide Reached, SysInv, AuthInv, GovernedAction.Advance;
    var s0 := FirstChooses();
    ReachedIsSound(s0);
    AskOutcome(s0, 0, Go, None);
    var s1 := WeakCertificate.Act(s0, 0, Go);
    ReachedIsSound(s1);
    RequestOutcome(s1, 0, Go, None);
    var s2 := WeakCertificate.Act(s1, 0, Go);
    ReachedIsSound(s2);
    LockOutcome(s2, 0, Go, None);
    s := WeakCertificate.Act(s2, 0, Go);
  }

  /** The human agrees, the run is claimed again and its next attempt calls. */
  lemma SecondBegins() returns (s: Sys)
    ensures Reached(s) && s.grants == [Ask] && s.receipts == [] && |s.actors| == 2 && Running0(s.db, 1)
    ensures s.approvals == [Approval(0, RefundKey, Approved, None)]
    ensures s.actors[1] == Caller(1, CheckingOwner, None)
  {
    hide Reached, SysInv, AuthInv, Owns, GovernedAction.Advance, Next;
    var s0 := FirstAsks();
    ReachedIsSound(s0);
    DecideOutcome(s0, 0, true);
    var s1 := Step(s0, DecideStep(0, true));
    var s2 := Reclaimed(s1);
    OwnsHasRun(s2.db, 0, 1);
    assert RootOf(s2.db.runs, 0) == 0;
    var s3 := Launched(s2);
    ReachedIsSound(s3);
    LockOutcome(s3, 1, Go, None);
    s := WeakCertificate.Act(s3, 1, Go);
  }

  lemma Launched(s: Sys) returns (s': Sys)
    requires Reached(s) && |s.db.runs| > 0 && |s.db.attempts| == 2 && s.db.attempts[1].run == 0
    ensures Reached(s') && s' == s.(actors := s.actors + [Caller(1, AwaitingLock, None).(key := Key(RootOf(s.db.runs, 0), Refund, "{}"))])
  {
    hide Reached, RootOf;
    s' := Step(s, LaunchStep(0, 1, Refund, "{}"));
  }

  /** A call under an approval-requiring grant that was asked for, granted, sent and committed. */
  lemma ApprovedCallReached() returns (s: Sys, id: ReceiptId, e: EffectId)
    ensures Reached(s) && Through(s, 1, id, e, Some(0), Some(0)) && s.actors[1].key == RefundKey
  {
    hide Reached, SysInv, AuthInv, Owns, Leads, Through;
    var s0 := SecondBegins();
    ReachedIsSound(s0);
    assert InForce(s0, s0.actors[1], 0);
    s, id, e := AuthorizedCallCommits(s0, 1, Some(0), Some(0));
    ReachedOn(s0, s);
    ThroughHasCall(s, 1, id, e, Some(0), Some(0));
  }

  lemma ThroughHasCall(s: Sys, i: ActorId, id: ReceiptId, e: EffectId, g: Option<GrantId>, a: Option<ApprovalId>)
    requires Through(s, i, id, e, g, a)
    ensures i < |s.actors|
  {
  }
}
