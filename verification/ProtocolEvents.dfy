/** Steps that touch what other calls can see: the lock, the receipt row, the receiver. */
module ProtocolEvents {
  import opened Prelude
  import opened Lineage
  import opened Invariants
  import opened GovernedAction
  import opened ProtocolInvariant
  import opened ProtocolSteps

  // ------------------------------------------------------------- what others see

  /** Receipt rows are kept; only rows of `key` may change status, and COMMITTED never does. */
  ghost predicate ReceiptsTouched(s: Sys, s': Sys, key: Key)
  {
    && |s.receipts| <= |s'.receipts|
    && (forall id :: 0 <= id < |s.receipts| ==>
          && s'.receipts[id].run == s.receipts[id].run
          && s'.receipts[id].key == s.receipts[id].key
          && s'.receipts[id].creator == s.receipts[id].creator
          && (s.receipts[id].status.Committed? || s.receipts[id].key != key ==>
                s'.receipts[id].status == s.receipts[id].status))
    && (forall id :: |s.receipts| <= id < |s'.receipts| ==> s'.receipts[id].key == key)
  }

  /** Only call i, its lock and its key's receipt change. */
  ghost predicate Touches(s: Sys, s': Sys, i: ActorId)
  {
    && i < |s.actors| && |s'.actors| == |s.actors|
    && s'.terminal == s.terminal
    && s'.db == s.db
    && (forall j :: 0 <= j < |s.actors| && j != i ==> s'.actors[j] == s.actors[j])
    && s'.actors[i].key == s.actors[i].key
    && (forall k :: k != s.actors[i].key ==> (k in s'.holders <==> k in s.holders))
    && (forall k :: k != s.actors[i].key && k in s.holders ==> s'.holders[k] == s.holders[k])
    && ReceiptsTouched(s, s', s.actors[i].key)
    && s.effects <= s'.effects
  }

  /** No other call under the same key is inside the fence with its session alive. */
  ghost predicate Exclusive(s: Sys, i: ActorId)
  {
    forall j: ActorId :: SameKey(s, i, j) && j != i ==> !(InFence(s.actors[j].pc) && s.actors[j].session)
  }

  lemma HolderExclusive(s: Sys, i: ActorId)
    requires SysInv(s) && i < |s.actors| && InFence(s.actors[i].pc) && s.actors[i].session
    ensures Exclusive(s, i)
  {
    forall j: ActorId | SameKey(s, i, j) && j != i
      ensures !(InFence(s.actors[j].pc) && s.actors[j].session)
    {
      assert ActorOk(s, i) && ActorOk(s, j);
    }
  }

  ghost predicate Shielded(s: Sys, s': Sys, i: ActorId)
  {
    Exclusive(s, i) || (s'.receipts == s.receipts && s'.holders == s.holders)
  }

  lemma OtherKeeps(s: Sys, s': Sys, i: ActorId, j: ActorId)
    requires Touches(s, s', i) && Shielded(s, s', i)
    requires j < |s.actors| && j != i && ActorOk(s, j)
    ensures ActorOk(s', j)
  {
    assert s.actors[j].key == s.actors[i].key ==> SameKey(s, i, j);
  }

  lemma LocksKept(s: Sys, s': Sys, i: ActorId)
    requires Touches(s, s', i) && LocksOk(s)
    requires s.actors[i].key in s'.holders ==>
               || (s'.holders[s.actors[i].key] == i && s'.actors[i].session && InFence(s'.actors[i].pc))
               || (s'.holders == s.holders && s.holders[s.actors[i].key] != i)
    ensures LocksOk(s')
  {
  }

  /** Nothing about i makes it a stronger rival of the other calls. */
  ghost predicate Calm(s: Sys, s': Sys, i: ActorId)
    requires i < |s.actors| && i < |s'.actors|
  {
    && (HoldsNewReceipt(s'.actors[i]) ==> HoldsNewReceipt(s.actors[i]))
    && (HoldsCertificate(s'.actors[i]) ==> HoldsCertificate(s.actors[i]))
    && (s.actors[i].key.action.recovery.Reconcile? && Potent(s'.actors[i]) ==> Potent(s.actors[i]))
    && (Threat(s'.actors[i]) ==> Threat(s.actors[i]))
    && (s'.actors[i].receipt.Some? ==> s.actors[i].receipt.Some? || Exclusive(s, i))
    && (forall id :: 0 <= id < |s'.receipts| && s'.receipts[id].status == FailedReceipt ==>
          id < |s.receipts| && s.receipts[id].status == FailedReceipt)
  }

  lemma CalmKeeps(s: Sys, s': Sys, i: ActorId)
    requires RivalsOk(s) && FailedOk(s) && Touches(s, s', i) && Calm(s, s', i)
    ensures RivalsOk(s') && FailedOk(s')
  {
    forall a: ActorId, b: ActorId | SameKey(s', a, b)
      ensures Rivals(s', a, b)
    {
      assert SameKey(s, a, b) && SameKey(s, b, a);
    }
    forall id: ReceiptId, j: ActorId | FailedFor(s', id, j) && Guarded(s', s'.actors[j].key)
      ensures !Threat(s'.actors[j])
    {
      assert FailedFor(s, id, j);
    }
  }

  /** The pieces that together give the invariant after a step of call i. */
  lemma Assemble(s: Sys, s': Sys, i: ActorId)
    requires SysInv(s) && Touches(s, s', i) && Shielded(s, s', i)
    requires ActorOk(s', i) && LocksOk(s') && ReceiptsOk(s') && EffectsOk(s')
    requires RivalsOk(s') && FailedOk(s')
    ensures SysInv(s')
  {
    hide ActorOk, LocksOk, ReceiptsOk, EffectsOk, RivalsOk, FailedOk, Inv;
    forall j | 0 <= j < |s'.actors|
      ensures ActorOk(s', j)
    {
      if j != i {
        OtherKeeps(s, s', i, j);
      }
    }
  }

  lemma TableFacts(s: Sys)
    requires SysInv(s)
    ensures Inv(s.db) && LocksOk(s) && ReceiptsOk(s) && EffectsOk(s)
    ensures RivalsOk(s) && FailedOk(s)
  {
  }

  /** A step that rewrites only the call's own record and perhaps who holds its key. */
  lemma RelockKeeps(s: Sys, s': Sys, i: ActorId)
    requires SysInv(s) && Touches(s, s', i) && Shielded(s, s', i)
    requires s'.receipts == s.receipts && s'.effects == s.effects
    requires s'.actors[i].wire == s.actors[i].wire
    requires ActorOk(s', i) && Calm(s, s', i) && LocksOk(s')
    ensures SysInv(s')
  {
    hide SysInv, Inv, ActorOk, RivalsOk, FailedOk, LocksOk, Shielded, Calm;
    TableFacts(s);
    CalmKeeps(s, s', i);
    assert ReceiptsOk(s');
    assert EffectsOk(s');
    Assemble(s, s', i);
  }

  lemma PutKeeps(s: Sys, i: ActorId, actor: Actor)
    requires SysInv(s) && i < |s.actors|
    requires actor.key == s.actors[i].key && actor.wire == s.actors[i].wire
    requires InFence(s.actors[i].pc) && s.actors[i].session ==> InFence(actor.pc) && actor.session
    requires ActorOk(Put(s, i, actor), i) && Calm(s, Put(s, i, actor), i)
    ensures SysInv(Put(s, i, actor))
  {
    hide SysInv, Inv, ActorOk, RivalsOk, FailedOk, Calm, EffectsOk, ReceiptsOk;
    var s' := Put(s, i, actor);
    TableFacts(s);
    LocksKept(s, s', i);
    RelockKeeps(s, s', i);
  }

  // ------------------------------------------------------------------------ the lock

  lemma FreeLockExclusive(s: Sys, i: ActorId)
    requires SysInv(s) && i < |s.actors| && s.actors[i].key !in s.holders
    ensures Exclusive(s, i)
  {
    forall j: ActorId | SameKey(s, i, j) && j != i
      ensures !(InFence(s.actors[j].pc) && s.actors[j].session)
    {
      ActorFacts(s, j);
    }
  }

  lemma AcquiredActor(s: Sys, i: ActorId)
    requires i < |s.actors| && ActorOk(s, i) && s.actors[i].pc.AwaitingLock? && Acquire(s, i).Some?
    ensures ActorOk(Acquire(s, i).value, i) && s.actors[i].session
  {
  }

  lemma AcquireKeeps(s: Sys, i: ActorId)
    requires SysInv(s) && i < |s.actors| && s.actors[i].pc.AwaitingLock? && Acquire(s, i).Some?
    ensures SysInv(Acquire(s, i).value)
  {
    hide SysInv, Inv, ActorOk, RivalsOk, FailedOk, EffectsOk, ReceiptsOk, Exclusive, LocksOk;
    var s' := Acquire(s, i).value;
    TableFacts(s);
    ActorFacts(s, i);
    FreeLockExclusive(s, i);
    AcquiredActor(s, i);
    LocksKept(s, s', i);
    RelockKeeps(s, s', i);
  }

  /** What releasing the lock leaves behind, whatever becomes of the call. */
  ghost predicate LetGo(s: Sys, s': Sys, i: ActorId)
    requires i < |s.actors|
  {
    var actor := s.actors[i];
    && |s'.actors| == |s.actors|
    && s' == Unlocked(s, i).(actors := s'.actors)
    && s'.actors == s.actors[i := s'.actors[i]]
    && s'.actors[i] == actor.(pc := s'.actors[i].pc, session := s'.actors[i].session)
    && !actor.pc.Finished? && !actor.pc.Dead?
    && ((s'.actors[i].pc.Dead? && !s'.actors[i].session)
        || (s'.actors[i].pc == actor.pc && !s'.actors[i].session && InFence(actor.pc))
        || (actor.pc.Releasing? && s'.actors[i].pc == Finished(actor.pc.outcome)))
  }

  lemma LetGoActor(s: Sys, s': Sys, i: ActorId)
    requires i < |s.actors| && ActorOk(s, i) && LetGo(s, s', i)
    ensures ActorOk(s', i)
  {
  }

  lemma LetGoLocks(s: Sys, s': Sys, i: ActorId)
    requires i < |s.actors| && LetGo(s, s', i) && LocksOk(s)
    requires s'.holders != s.holders ==> Exclusive(s, i)
    ensures Touches(s, s', i) && Shielded(s, s', i) && LocksOk(s')
  {
    hide Exclusive;
    LocksKept(s, s', i);
  }

  lemma LetGoCalm(s: Sys, s': Sys, i: ActorId)
    requires i < |s.actors| && LetGo(s, s', i)
    ensures Calm(s, s', i)
  {
    hide Exclusive;
  }

  lemma LetGoKeeps(s: Sys, s': Sys, i: ActorId)
    requires SysInv(s) && i < |s.actors| && LetGo(s, s', i)
    ensures SysInv(s')
  {
    hide SysInv, Inv, ActorOk, LocksOk, RivalsOk, FailedOk, EffectsOk, ReceiptsOk, Exclusive, Shielded, Touches, Calm;
    TableFacts(s);
    ActorFacts(s, i);
    if s'.holders != s.holders {
      HolderExclusive(s, i);
    }
    LetGoActor(s, s', i);
    LetGoLocks(s, s', i);
    LetGoCalm(s, s', i);
    RelockKeeps(s, s', i);
  }

  lemma ReleaseKeeps(s: Sys, i: ActorId)
    requires SysInv(s) && i < |s.actors| && s.actors[i].pc.Releasing? && s.actors[i].session
    ensures SysInv(Goto(Unlocked(s, i), i, Finished(s.actors[i].pc.outcome)))
  {
    hide SysInv;
    LetGoKeeps(s, Goto(Unlocked(s, i), i, Finished(s.actors[i].pc.outcome)), i);
  }

  lemma CrashKeeps(s: Sys, i: ActorId)
    requires SysInv(s) && i < |s.actors| && Crash(s, i).Some?
    ensures SysInv(Crash(s, i).value)
  {
    hide SysInv;
    LetGoKeeps(s, Crash(s, i).value, i);
  }

  lemma LoseSessionKeeps(s: Sys, i: ActorId)
    requires SysInv(s) && i < |s.actors| && LoseSession(s, i).Some?
    ensures SysInv(LoseSession(s, i).value)
  {
    hide SysInv;
    LetGoKeeps(s, LoseSession(s, i).value, i);
  }

  // ------------------------------------------------------------------- the lookup

  /** No receipt under the key sits on a run newer than the owner's. */
  lemma OwnerIsNewest(s: Sys, i: ActorId)
    requires SysInv(s) && i < |s.actors| && IsOwner(s.db, s.actors[i].run, s.actors[i].attempt)
    ensures forall id :: 0 <= id < |s.receipts| && s.receipts[id].key == s.actors[i].key ==>
              s.receipts[id].run <= s.actors[i].run
  {
    hide SysInv, RootOf;
    TableFacts(s);
    ActorFacts(s, i);
    forall id | 0 <= id < |s.receipts| && s.receipts[id].key == s.actors[i].key
      ensures s.receipts[id].run <= s.actors[i].run
    {
      LiveIsNewest(s.db, s.receipts[id].run, s.actors[i].run);
    }
  }

  lemma FirstOwnerKeeps(s: Sys, i: ActorId)
    requires SysInv(s) && i < |s.actors| && s.actors[i].pc.CheckingOwner? && s.actors[i].session
    ensures SysInv(CheckOwner(s, i, FindingReceipt).value)
  {
    hide SysInv, Inv, IsOwner;
    if IsOwner(s.db, s.actors[i].run, s.actors[i].attempt) {
      ActorFacts(s, i);
      OwnerIsNewest(s, i);
      PutKeeps(s, i, s.actors[i].(pc := FindingReceipt));
    } else {
      JumpKeeps(s, i, Releasing(Threw));
    }
  }

  /** The lineage query sees every receipt under the key. */
  lemma LookupSeesAll(s: Sys, i: ActorId, id: ReceiptId)
    requires SysInv(s) && i < |s.actors| && s.actors[i].pc.FindingReceipt? && s.actors[i].session
    requires id < |s.receipts| && s.receipts[id].key == s.actors[i].key
    ensures s.actors[i].run < |s.db.runs| && ReceiptMatches(s, s.actors[i].run, s.actors[i].key, id)
  {
    hide SysInv, RootOf, InLineage;
    TableFacts(s);
    ActorFacts(s, i);
    OlderInLineage(s.db, s.receipts[id].run, s.actors[i].run);
  }

  /** So an empty answer means that no receipt carries the key at all. */
  lemma NotFoundMeansNone(s: Sys, i: ActorId)
    requires SysInv(s) && i < |s.actors| && s.actors[i].pc.FindingReceipt? && s.actors[i].session
    requires s.actors[i].run < |s.db.runs| && NoReceiptFor(s, s.actors[i].run, s.actors[i].key)
    ensures forall id :: 0 <= id < |s.receipts| ==> s.receipts[id].key != s.actors[i].key
  {
    hide SysInv, ReceiptMatches;
    forall id | 0 <= id < |s.receipts|
      ensures s.receipts[id].key != s.actors[i].key
    {
      if s.receipts[id].key == s.actors[i].key {
        LookupSeesAll(s, i, id);
      }
    }
  }

  /** How a call goes on after finding a receipt. */
  ghost predicate BranchesOn(status: ReceiptStatus, recovery: Recovery, pc: Pc)
  {
    match status
    case Committed(v) => pc == Releasing(CompletedWith(v, true))
    case PendingReceipt => (match recovery
                            case RetryWithKey => pc.SelectingGrant?
                            case Reconcile => pc.Reconciling?
                            case Manual => pc == Marking(false))
    case _ => pc == Releasing(ReconciliationRequired)
  }

  lemma FoundActor(s: Sys, i: ActorId, id: ReceiptId, pc: Pc)
    requires i < |s.actors| && ActorOk(s, i) && s.actors[i].pc.FindingReceipt? && s.actors[i].session
    requires id < |s.receipts| && s.receipts[id].key == s.actors[i].key
    requires BranchesOn(s.receipts[id].status, s.actors[i].key.action.recovery, pc)
    ensures ActorOk(Put(s, i, s.actors[i].(receipt := Some(id), approval := s.receipts[id].approval, pc := pc)), i)
  {
  }

  /** Adopting the receipt that the lookup returned. */
  lemma AdoptKeeps(s: Sys, i: ActorId, id: ReceiptId, pc: Pc)
    requires SysInv(s) && i < |s.actors| && s.actors[i].pc.FindingReceipt? && s.actors[i].session
    requires id < |s.receipts| && s.receipts[id].key == s.actors[i].key
    requires BranchesOn(s.receipts[id].status, s.actors[i].key.action.recovery, pc)
    ensures SysInv(Put(s, i, s.actors[i].(receipt := Some(id), approval := s.receipts[id].approval, pc := pc)))
  {
    var actor := s.actors[i];
    ActorFacts(s, i);
    HolderExclusive(s, i);
    assert !actor.inserted && !actor.absent;
    hide SysInv, Inv, Exclusive, ActorOk;
    FoundActor(s, i, id, pc);
    PutKeeps(s, i, actor.(receipt := Some(id), approval := s.receipts[id].approval, pc := pc));
  }

  lemma FoundKeeps(s: Sys, i: ActorId, id: ReceiptId)
    requires SysInv(s) && i < |s.actors| && s.actors[i].pc.FindingReceipt? && s.actors[i].session
    requires FindReceipt(s, i, Found(id)).Some?
    ensures SysInv(FindReceipt(s, i, Found(id)).value)
  {
    assert ReceiptMatches(s, s.actors[i].run, s.actors[i].key, id);
    hide SysInv, InLineage, NoReceiptFor, BestReceipt;
    AdoptKeeps(s, i, id, FindReceipt(s, i, Found(id)).value.actors[i].pc);
  }

  lemma NotFoundKeeps(s: Sys, i: ActorId)
    requires SysInv(s) && i < |s.actors| && s.actors[i].pc.FindingReceipt? && s.actors[i].session
    requires FindReceipt(s, i, NotFound).Some?
    ensures SysInv(FindReceipt(s, i, NotFound).value)
  {
    hide SysInv, Inv, NoReceiptFor;
    ActorFacts(s, i);
    NotFoundMeansNone(s, i);
    PutKeeps(s, i, s.actors[i].(pc := SelectingGrant));
  }

  // ------------------------------------------------------------------ the provider

  lemma FoundRemotelyKeeps(s: Sys, i: ActorId, e: EffectId)
    requires SysInv(s) && i < |s.actors| && s.actors[i].pc.Reconciling?
    requires e < |s.effects| && s.effects[e].key == s.actors[i].key
    ensures SysInv(Goto(s, i, ClosingReconciled(e)))
  {
    hide SysInv, Inv;
    ActorFacts(s, i);
    PutKeeps(s, i, s.actors[i].(pc := ClosingReconciled(e)));
  }
}
