/** Steps that create, close or answer for a receipt, and steps of the receiver. */
module ProtocolEffects {
  import opened Prelude
  import opened Tables
  import opened Kernel
  import opened Lineage
  import opened Invariants
  import opened GovernedAction
  import opened ProtocolInvariant
  import opened ProtocolSteps
  import opened ProtocolEvents

  // --------------------------------------------------------------- closing a receipt

  /** The state in which call i has closed its receipt with `status` and reports `outcome`. */
  function Closed(s: Sys, i: ActorId, status: ReceiptStatus, outcome: Outcome): Sys
    requires i < |s.actors| && s.actors[i].receipt.Some? && s.actors[i].receipt.value < |s.receipts|
  {
    var id := s.actors[i].receipt.value;
    Goto(s.(receipts := s.receipts[id := s.receipts[id].(status := status)]), i, Releasing(outcome))
  }

  ghost predicate Closes(s: Sys, i: ActorId, status: ReceiptStatus, outcome: Outcome)
    requires i < |s.actors|
  {
    var actor := s.actors[i];
    && Working(actor.pc) && actor.session
    && actor.receipt.Some? && actor.receipt.value < |s.receipts|
    && s.receipts[actor.receipt.value].key == actor.key
    && s.receipts[actor.receipt.value].status == PendingReceipt
    && (outcome.CompletedWith? ==> status == Committed(outcome.result))
    && (status.Committed? ==> EffectFor(s, actor.key, status.result))
    && (status.FailedReceipt? ==> actor.pc.Denying?)
  }

  lemma ClosedActor(s: Sys, i: ActorId, status: ReceiptStatus, outcome: Outcome)
    requires i < |s.actors| && ActorOk(s, i) && Closes(s, i, status, outcome)
    ensures ActorOk(Closed(s, i, status, outcome), i)
  {
  }

  lemma ClosedTables(s: Sys, i: ActorId, status: ReceiptStatus, outcome: Outcome)
    requires i < |s.actors| && Closes(s, i, status, outcome)
    requires LocksOk(s) && ReceiptsOk(s) && EffectsOk(s)
    ensures LocksOk(Closed(s, i, status, outcome))
    ensures ReceiptsOk(Closed(s, i, status, outcome))
    ensures EffectsOk(Closed(s, i, status, outcome))
  {
  }

  /** A call that refuses a receipt has no rival that sent or could still send. */
  lemma NoRivalWhileDenying(s: Sys, i: ActorId, j: ActorId)
    requires SysInv(s) && SameKey(s, i, j) && j != i && s.actors[i].pc.Denying? && s.actors[i].session
    requires Guarded(s, s.actors[i].key)
    ensures !Threat(s.actors[j])
  {
    hide SysInv, Inv;
    TableFacts(s);
    ActorFacts(s, i);
    ActorFacts(s, j);
    HolderExclusive(s, i);
    if s.actors[i].inserted {
      assert HoldsNewReceipt(s.actors[i]);
    } else {
      assert HoldsCertificate(s.actors[i]);
    }
  }

  /** Closing the receipt as FAILED tells the truth about every call under the key. */
  lemma DeniedIsTruthful(s: Sys, i: ActorId, outcome: Outcome)
    requires SysInv(s) && i < |s.actors| && Closes(s, i, FailedReceipt, outcome)
    ensures FailedOk(Closed(s, i, FailedReceipt, outcome))
  {
    hide SysInv, Inv, RivalsOk, EffectsOk, ReceiptsOk, LocksOk;
    var s' := Closed(s, i, FailedReceipt, outcome);
    TableFacts(s);
    assert s.actors[i].wire == Unsent by { ActorFacts(s, i); }
    forall id: ReceiptId, j: ActorId | FailedFor(s', id, j) && Guarded(s', s'.actors[j].key)
      ensures !Threat(s'.actors[j])
    {
      if s.actors[j].key == s.actors[i].key {
        if j != i {
          NoRivalWhileDenying(s, i, j);
        }
      } else {
        assert FailedFor(s, id, j);
      }
    }
  }

  lemma ClosedRivals(s: Sys, i: ActorId, status: ReceiptStatus, outcome: Outcome)
    requires SysInv(s) && i < |s.actors| && Closes(s, i, status, outcome)
    ensures RivalsOk(Closed(s, i, status, outcome))
    ensures FailedOk(Closed(s, i, status, outcome))
  {
    hide SysInv, Inv;
    var s' := Closed(s, i, status, outcome);
    TableFacts(s);
    if !status.FailedReceipt? {
      CalmKeeps(s, s', i);
    } else {
      var marked := Closed(s, i, NeedsReconciliation, outcome);
      CalmKeeps(s, marked, i);
      DeniedIsTruthful(s, i, outcome);
      assert forall a: ActorId, b: ActorId :: SameKey(s', a, b) ==> SameKey(marked, a, b);
    }
  }

  lemma ClosedKeeps(s: Sys, i: ActorId, status: ReceiptStatus, outcome: Outcome)
    requires SysInv(s) && i < |s.actors| && Closes(s, i, status, outcome)
    ensures SysInv(Closed(s, i, status, outcome))
  {
    hide SysInv, Inv, ActorOk, LocksOk, ReceiptsOk, EffectsOk, RivalsOk, FailedOk, Exclusive;
    var s' := Closed(s, i, status, outcome);
    TableFacts(s);
    ActorFacts(s, i);
    HolderExclusive(s, i);
    ClosedActor(s, i, status, outcome);
    ClosedTables(s, i, status, outcome);
    ClosedRivals(s, i, status, outcome);
    Assemble(s, s', i);
  }

  /** What is about to be recorded has an effect behind it. */
  lemma AnswerIsBacked(s: Sys, i: ActorId, e: EffectId)
    requires SysInv(s) && i < |s.actors| && s.actors[i].session
    requires s.actors[i].pc == ClosingReconciled(e) || s.actors[i].pc == Committing(e)
    ensures EffectFor(s, s.actors[i].key, e) && Closes(s, i, Committed(e), CompletedWith(e, false))
    ensures s.actors[i].pc.ClosingReconciled? ==> !s.actors[i].key.action.recovery.Manual?
  {
    ActorFacts(s, i);
  }

  lemma CommitShape(s: Sys, i: ActorId, e: EffectId, deduplicated: bool)
    requires i < |s.actors| && Closes(s, i, NeedsReconciliation, Threw)
    requires IsOwner(s.db, s.actors[i].run, s.actors[i].attempt)
    ensures CommitReceipt(s, i, e, deduplicated) ==
      Some(Closed(Audited(s, i, ToolInvocationCommitted), i, Committed(e), CompletedWith(e, deduplicated)).(
        commits := s.commits + [Commit(s.actors[i].run, s.actors[i].attempt)]))
  {
    hide AppendEvent, IsOwner;
  }

  lemma CommitLost(s: Sys, i: ActorId, e: EffectId, deduplicated: bool)
    requires i < |s.actors| && !IsOwner(s.db, s.actors[i].run, s.actors[i].attempt)
    ensures CommitReceipt(s, i, e, deduplicated) ==
      Some(if s.actors[i].pc.ClosingReconciled? then Goto(s, i, Releasing(Threw))
           else if s.actors[i].key.action.recovery.Manual? then Goto(s, i, Marking(true))
           else Goto(Audited(s, i, ToolInvocationFailed), i, Releasing(Threw)))
  {
  }

  lemma WonKeeps(s: Sys, i: ActorId, e: EffectId, deduplicated: bool)
    requires SysInv(s) && i < |s.actors| && Closes(s, i, Committed(e), CompletedWith(e, deduplicated))
    requires IsOwner(s.db, s.actors[i].run, s.actors[i].attempt)
    ensures SysInv(CommitReceipt(s, i, e, deduplicated).value)
  {
    hide SysInv, IsOwner, CommitReceipt, Audited;
    CommitShape(s, i, e, deduplicated);
    AuditedFrame(s, i, ToolInvocationCommitted);
    var logged := Audited(s, i, ToolInvocationCommitted);
    ClosedKeeps(logged, i, Committed(e), CompletedWith(e, deduplicated));
    CommitsFrame(Closed(logged, i, Committed(e), CompletedWith(e, deduplicated)),
                 s.commits + [Commit(s.actors[i].run, s.actors[i].attempt)]);
  }

  lemma CommitKeeps(s: Sys, i: ActorId, e: EffectId, deduplicated: bool)
    requires SysInv(s) && i < |s.actors| && s.actors[i].session
    requires s.actors[i].pc == ClosingReconciled(e) || s.actors[i].pc == Committing(e)
    ensures SysInv(CommitReceipt(s, i, e, deduplicated).value)
  {
    hide SysInv, IsOwner, CommitReceipt, Audited;
    AnswerIsBacked(s, i, e);
    if IsOwner(s.db, s.actors[i].run, s.actors[i].attempt) {
      WonKeeps(s, i, e, deduplicated);
    } else {
      CommitLost(s, i, e, deduplicated);
      if s.actors[i].pc.ClosingReconciled? {
        JumpKeeps(s, i, Releasing(Threw));
      } else if s.actors[i].key.action.recovery.Manual? {
        JumpKeeps(s, i, Marking(true));
      } else {
        ThrowKeeps(s, i, true);
      }
    }
  }

  /** A call inside the fence with a receipt knows that receipt to be pending. */
  lemma ReceiptInHand(s: Sys, i: ActorId)
    requires SysInv(s) && i < |s.actors| && s.actors[i].session && NeedsReceipt(s.actors[i].pc)
    ensures Closes(s, i, NeedsReconciliation, Threw)
  {
    ActorFacts(s, i);
  }

  /** Closing and logging, in either order. */
  lemma CloseShape(s: Sys, i: ActorId, status: ReceiptStatus, kind: EventKind, outcome: Outcome)
    requires i < |s.actors| && Closes(s, i, NeedsReconciliation, Threw)
    requires IsOwner(s.db, s.actors[i].run, s.actors[i].attempt)
    ensures CloseReceipt(s, i, status, kind, outcome) == Some(Closed(Audited(s, i, kind), i, status, outcome))
  {
    hide AppendEvent, IsOwner;
  }

  lemma CloseLost(s: Sys, i: ActorId, status: ReceiptStatus, kind: EventKind, outcome: Outcome)
    requires i < |s.actors| && !IsOwner(s.db, s.actors[i].run, s.actors[i].attempt)
    ensures CloseReceipt(s, i, status, kind, outcome) == Some(Goto(s, i, Releasing(Threw)))
  {
  }

  lemma CloseKeeps(s: Sys, i: ActorId, status: ReceiptStatus, kind: EventKind, outcome: Outcome)
    requires SysInv(s) && i < |s.actors| && s.actors[i].session && !outcome.CompletedWith?
    requires (s.actors[i].pc.Marking? && status == NeedsReconciliation && kind == ToolInvocationFailed)
             || (s.actors[i].pc.Denying? && status == FailedReceipt && kind == ActionDenied)
    ensures SysInv(CloseReceipt(s, i, status, kind, outcome).value)
  {
    hide SysInv, IsOwner, CloseReceipt, Audited;
    var actor := s.actors[i];
    ReceiptInHand(s, i);
    if !IsOwner(s.db, actor.run, actor.attempt) {
      CloseLost(s, i, status, kind, outcome);
      ThrowKeeps(s, i, false);
    } else {
      AuditedFrame(s, i, kind);
      CloseShape(s, i, status, kind, outcome);
      ClosedKeeps(Audited(s, i, kind), i, status, outcome);
    }
  }

  // ------------------------------------------------------------- inserting a receipt

  function Inserted(s: Sys, i: ActorId): Sys
    requires i < |s.actors|
  {
    var actor := s.actors[i];
    Put(s.(receipts := s.receipts + [Receipt(actor.run, actor.key, actor.approval, PendingReceipt, i, actor.grant)]), i,
        actor.(receipt := Some(|s.receipts|), inserted := true, pc := RecheckingOwner))
  }

  lemma InsertedActor(s: Sys, i: ActorId)
    requires i < |s.actors| && ActorOk(s, i) && s.actors[i].pc.InsertingReceipt? && s.actors[i].session
    ensures ActorOk(Inserted(s, i), i)
  {
  }

  lemma InsertedTables(s: Sys, i: ActorId)
    requires i < |s.actors| && ActorOk(s, i) && s.actors[i].pc.InsertingReceipt? && s.actors[i].session
    requires LocksOk(s) && ReceiptsOk(s) && EffectsOk(s)
    ensures LocksOk(Inserted(s, i)) && ReceiptsOk(Inserted(s, i)) && EffectsOk(Inserted(s, i))
  {
    var s' := Inserted(s, i);
    hide HoldsLock, Provenance, Truthful;
    assert LocksOk(s') && EffectsOk(s') by { hide ActorOk, ReceiptsOk; }
    assert ReceiptsOk(s') by { hide LocksOk, EffectsOk; }
  }

  /** Nobody under the key knows a receipt before the first one is inserted. */
  lemma FirstReceiptUnknown(s: Sys, i: ActorId, j: ActorId)
    requires SysInv(s) && SameKey(s, i, j) && s.actors[i].pc.InsertingReceipt? && s.actors[i].session
    ensures s.actors[j].receipt.None? && !Potent(s.actors[j]) && !HoldsNewReceipt(s.actors[j])
    ensures !HoldsCertificate(s.actors[j])
  {
    ActorFacts(s, i);
    ActorFacts(s, j);
  }

  lemma InsertedRivals(s: Sys, i: ActorId)
    requires SysInv(s) && i < |s.actors| && s.actors[i].pc.InsertingReceipt? && s.actors[i].session
    ensures RivalsOk(Inserted(s, i)) && FailedOk(Inserted(s, i))
  {
    var s' := Inserted(s, i);
    TableFacts(s);
    ActorFacts(s, i);
    HolderExclusive(s, i);
    assert forall id :: 0 <= id < |s.receipts| ==> s.receipts[id].key != s.actors[i].key;
    assert s.actors[i].receipt.None? && !s.actors[i].absent && s.actors[i].wire == Unsent;
    hide SysInv, Inv, ActorOk;
    forall a: ActorId, b: ActorId | SameKey(s', a, b)
      ensures Rivals(s', a, b)
    {
      assert SameKey(s, a, b) && SameKey(s, b, a);
      if a == i && b != i {
        FirstReceiptUnknown(s, a, b);
      }
      if b == i && a != i {
        FirstReceiptUnknown(s, b, a);
      }
    }
    forall id: ReceiptId, j: ActorId | FailedFor(s', id, j) && Guarded(s', s'.actors[j].key)
      ensures !Threat(s'.actors[j])
    {
      assert FailedFor(s, id, j);
    }
  }

  lemma InsertedKeeps(s: Sys, i: ActorId)
    requires SysInv(s) && i < |s.actors| && s.actors[i].pc.InsertingReceipt? && s.actors[i].session
    ensures SysInv(Inserted(s, i))
  {
    hide SysInv, Inv, ActorOk, LocksOk, ReceiptsOk, EffectsOk, RivalsOk, FailedOk, Exclusive;
    TableFacts(s);
    ActorFacts(s, i);
    HolderExclusive(s, i);
    InsertedActor(s, i);
    InsertedTables(s, i);
    InsertedRivals(s, i);
    Assemble(s, Inserted(s, i), i);
  }

  lemma InsertReceiptKeeps(s: Sys, i: ActorId)
    requires SysInv(s) && i < |s.actors| && s.actors[i].pc.InsertingReceipt? && s.actors[i].session
    ensures SysInv(InsertReceipt(s, i).value)
  {
    hide SysInv, MayInsert, CallCharged;
    if !MayInsert(s, s.actors[i]) {
      JumpKeeps(s, i, Releasing(Threw));
    } else {
      AuditedFrame(s, i, ToolInvocationStarted);
      var logged := Audited(s, i, ToolInvocationStarted);
      var grants := CallCharged(s.grants, s.actors[i].grant);
      AuthorityFrame(logged, s.approvals, grants);
      InsertedKeeps(logged.(grants := grants), i);
    }
  }

  // ---------------------------------------------------------------------- the send

  lemma SentActor(s: Sys, i: ActorId)
    requires i < |s.actors| && ActorOk(s, i) && s.actors[i].pc.Dispatching?
    ensures ActorOk(Send(s, i), i)
  {
  }

  /** A reconciled call that no certificate covers reaches its send as the only one under its
      key that can cause an effect. */
  lemma SendIsAlone(s: Sys, i: ActorId, j: ActorId)
    requires SysInv(s) && SameKey(s, i, j) && i != j && s.terminal
    requires s.actors[i].pc.Dispatching? && !s.actors[i].barred && s.actors[i].key.action.recovery.Reconcile?
    ensures !Potent(s.actors[j])
  {
    hide SysInv, Inv;
    TableFacts(s);
    ActorFacts(s, i);
    assert Potent(s.actors[i]);
    assert Rivals(s, i, j);
  }

  lemma SentTables(s: Sys, i: ActorId)
    requires i < |s.actors| && s.actors[i].pc.Dispatching? && s.actors[i].wire == Unsent
    requires LocksOk(s) && EffectsOk(s) && ReceiptsOk(s)
    ensures LocksOk(Send(s, i)) && EffectsOk(Send(s, i)) && ReceiptsOk(Send(s, i))
  {
    hide RootOf;
  }

  lemma SendIsCalm(s: Sys, i: ActorId)
    requires i < |s.actors| && ActorOk(s, i) && s.actors[i].pc.Dispatching?
    ensures Touches(s, Send(s, i), i) && Calm(s, Send(s, i), i)
  {
  }

  lemma SendKeeps(s: Sys, i: ActorId)
    requires SysInv(s) && i < |s.actors| && s.actors[i].pc.Dispatching?
    ensures SysInv(Send(s, i))
  {
    TableFacts(s);
    ActorFacts(s, i);
    assert s.actors[i].wire == Unsent;
    hide SysInv, Inv, ActorOk, LocksOk, EffectsOk, ReceiptsOk, RivalsOk, FailedOk, Calm;
    SentActor(s, i);
    SendIsCalm(s, i);
    CalmKeeps(s, Send(s, i), i);
    SentTables(s, i);
    Assemble(s, Send(s, i), i);
  }

  // ------------------------------------------------------------------- the receiver

  lemma WireActor(s: Sys, i: ActorId, wire: Wire, effects: seq<Effect>)
    requires i < |s.actors| && ActorOk(s, i) && s.actors[i].wire.InTransit? && wire != Unsent
    requires s.effects <= effects
    requires wire.Served? ==> EffectFor(s.(effects := effects), s.actors[i].key, wire.effect)
    ensures ActorOk(Put(s.(effects := effects), i, s.actors[i].(wire := wire)), i)
  {
  }

  lemma WireTables(s: Sys, i: ActorId, wire: Wire, effects: seq<Effect>)
    requires i < |s.actors| && LocksOk(s) && ReceiptsOk(s) && s.effects <= effects
    ensures LocksOk(Put(s.(effects := effects), i, s.actors[i].(wire := wire)))
    ensures ReceiptsOk(Put(s.(effects := effects), i, s.actors[i].(wire := wire)))
  {
  }

  /** What happens to a request in transit changes only its sender's wire and adds effects. */
  lemma WireKeeps(s: Sys, i: ActorId, wire: Wire, effects: seq<Effect>)
    requires SysInv(s) && i < |s.actors| && s.actors[i].wire.InTransit? && wire != Unsent
    requires wire.Served? ==> !s.actors[i].barred
    requires s.effects <= effects
    requires wire.Served? ==> EffectFor(s.(effects := effects), s.actors[i].key, wire.effect)
    requires EffectsOk(Put(s.(effects := effects), i, s.actors[i].(wire := wire)))
    ensures SysInv(Put(s.(effects := effects), i, s.actors[i].(wire := wire)))
  {
    var s' := Put(s.(effects := effects), i, s.actors[i].(wire := wire));
    TableFacts(s);
    ActorFacts(s, i);
    hide SysInv, Inv, ActorOk, RivalsOk, FailedOk, EffectsOk;
    WireActor(s, i, wire, effects);
    CalmKeeps(s, s', i);
    hide Calm;
    WireTables(s, i, wire, effects);
    hide LocksOk, ReceiptsOk;
    Assemble(s, s', i);
  }

  lemma DropKeeps(s: Sys, i: ActorId)
    requires SysInv(s) && i < |s.actors| && Drop(s, i).Some?
    ensures SysInv(Drop(s, i).value)
  {
    hide SysInv, Inv, RivalsOk, FailedOk, LocksOk, ReceiptsOk;
    TableFacts(s);
    WireKeeps(s, i, Lost, s.effects);
  }

  lemma DeliverKeeps(s: Sys, i: ActorId)
    requires SysInv(s) && i < |s.actors| && Deliver(s, i).Some?
    ensures SysInv(Deliver(s, i).value)
  {
    hide SysInv, Inv, RivalsOk, FailedOk, LocksOk, ReceiptsOk;
    TableFacts(s);
    var actor := s.actors[i];
    var seen := FirstEffect(s.effects, actor.key);
    if actor.key.action.recovery.RetryWithKey? && seen.Some? {
      WireKeeps(s, i, Served(seen.value), s.effects);
    } else {
      WireKeeps(s, i, Served(|s.effects|), s.effects + [Effect(actor.key, i)]);
    }
  }

  /** The provider certifies absence: every request under the key that was still on its way is lost. */
  function SilencedFor(s: Sys, key: Key): Sys {
    s.(actors := seq(|s.actors|, j requires 0 <= j < |s.actors| => Silenced(s.actors[j], key, s.terminal)))
  }

  lemma SysFromParts(s: Sys)
    requires Inv(s.db) && LocksOk(s) && ReceiptsOk(s) && EffectsOk(s)
    requires forall j :: 0 <= j < |s.actors| ==> ActorOk(s, j)
    requires RivalsOk(s) && FailedOk(s)
    ensures SysInv(s)
  {
  }

  lemma SilencedActor(s: Sys, key: Key, j: ActorId)
    requires j < |s.actors| && ActorOk(s, j)
    ensures ActorOk(SilencedFor(s, key), j)
  {
  }

  lemma SilencedActors(s: Sys, key: Key)
    requires SysInv(s)
    ensures forall j :: 0 <= j < |s.actors| ==> ActorOk(SilencedFor(s, key), j)
  {
    hide SysInv, ActorOk;
    forall j | 0 <= j < |s.actors|
      ensures ActorOk(SilencedFor(s, key), j)
    {
      ActorFacts(s, j);
      SilencedActor(s, key, j);
    }
  }

  lemma SilencedTables(s: Sys, key: Key)
    requires LocksOk(s) && ReceiptsOk(s) && EffectsOk(s)
    ensures LocksOk(SilencedFor(s, key)) && ReceiptsOk(SilencedFor(s, key)) && EffectsOk(SilencedFor(s, key))
  {
    hide RootOf;
  }

  lemma SilencedRivals(s: Sys, key: Key)
    requires RivalsOk(s) && FailedOk(s)
    ensures RivalsOk(SilencedFor(s, key)) && FailedOk(SilencedFor(s, key))
  {
    var s' := SilencedFor(s, key);
    forall a: ActorId, b: ActorId | SameKey(s', a, b)
      ensures Rivals(s', a, b)
    {
      assert SameKey(s, a, b);
    }
    forall id: ReceiptId, j: ActorId | FailedFor(s', id, j) && Guarded(s', s'.actors[j].key)
      ensures !Threat(s'.actors[j])
    {
      assert FailedFor(s, id, j);
    }
  }

  lemma SilenceKeeps(s: Sys, key: Key)
    requires SysInv(s)
    ensures SysInv(SilencedFor(s, key))
  {
    hide SysInv, Inv, ActorOk, LocksOk, ReceiptsOk, EffectsOk, RivalsOk, FailedOk;
    TableFacts(s);
    SilencedActors(s, key);
    SilencedTables(s, key);
    SilencedRivals(s, key);
    SysFromParts(SilencedFor(s, key));
  }

  /** No call under the key of i has caused or has in transit an effect, and those that have yet
      to send are barred when certificates are terminal. */
  ghost predicate AllCold(s: Sys, i: ActorId)
    requires i < |s.actors|
  {
    forall j: ActorId :: SameKey(s, i, j) ==>
      && !s.actors[j].wire.Served? && !s.actors[j].wire.InTransit?
      && (s.terminal ==> s.actors[j].barred)
  }

  lemma CertifiedRivals(s: Sys, i: ActorId, actor: Actor)
    requires SysInv(s) && i < |s.actors| && s.actors[i].pc.Reconciling? && AllCold(s, i)
    requires actor == s.actors[i].(absent := true, barred := false, pc := SelectingGrant)
    ensures RivalsOk(Put(s, i, actor)) && FailedOk(Put(s, i, actor))
  {
    hide SysInv, Inv;
    var s' := Put(s, i, actor);
    TableFacts(s);
    if actor.session {
      HolderExclusive(s, i);
    }
    assert !actor.inserted && actor.wire == Unsent by { ActorFacts(s, i); }
    forall a: ActorId, b: ActorId | SameKey(s', a, b)
      ensures Rivals(s', a, b)
    {
      assert SameKey(s, a, b) && SameKey(s, i, a) == SameKey(s, i, b);
    }
    forall id: ReceiptId, j: ActorId | FailedFor(s', id, j) && Guarded(s', s'.actors[j].key)
      ensures !Threat(s'.actors[j])
    {
      assert FailedFor(s, id, j);
    }
  }

  lemma CertifiedActor(s: Sys, i: ActorId)
    requires i < |s.actors| && s.actors[i].pc.Reconciling? && ActorOk(s, i)
    ensures ActorOk(Put(s, i, s.actors[i].(absent := true, barred := false, pc := SelectingGrant)), i)
  {
  }

  lemma CertifiedTables(s: Sys, i: ActorId, actor: Actor)
    requires i < |s.actors| && s.actors[i].pc.Reconciling?
    requires actor == s.actors[i].(absent := true, barred := false, pc := SelectingGrant)
    requires LocksOk(s) && EffectsOk(s) && ReceiptsOk(s)
    ensures LocksOk(Put(s, i, actor)) && EffectsOk(Put(s, i, actor)) && ReceiptsOk(Put(s, i, actor))
  {
    hide RootOf;
  }

  lemma CertifiedKeeps(s: Sys, i: ActorId)
    requires SysInv(s) && i < |s.actors| && s.actors[i].pc.Reconciling? && AllCold(s, i)
    ensures SysInv(Put(s, i, s.actors[i].(absent := true, barred := false, pc := SelectingGrant)))
  {
    hide SysInv, Inv, ActorOk, RivalsOk, FailedOk, LocksOk, EffectsOk, ReceiptsOk;
    var actor := s.actors[i].(absent := true, barred := false, pc := SelectingGrant);
    TableFacts(s);
    ActorFacts(s, i);
    CertifiedActor(s, i);
    CertifiedRivals(s, i, actor);
    CertifiedTables(s, i, actor);
    Assemble(s, Put(s, i, actor), i);
  }

  /** With no effect under the key and every call silenced, nothing can come of it. */
  lemma SilencedIsCold(s: Sys, key: Key, j: ActorId)
    requires SysInv(s) && j < |s.actors| && s.actors[j].key == key && FirstEffect(s.effects, key).None?
    ensures var actor := SilencedFor(s, key).actors[j];
            !actor.wire.Served? && !actor.wire.InTransit? && (s.terminal ==> actor.barred)
  {
    ActorFacts(s, j);
  }

  lemma AbsenceKeeps(s: Sys, i: ActorId)
    requires SysInv(s) && i < |s.actors| && s.actors[i].pc.Reconciling?
    requires FirstEffect(s.effects, s.actors[i].key).None?
    ensures AskProvider(s, i, CertifiedAbsent).Some? && SysInv(AskProvider(s, i, CertifiedAbsent).value)
  {
    hide SysInv, FirstEffect;
    var key := s.actors[i].key;
    var silenced := SilencedFor(s, key);
    SilenceKeeps(s, key);
    forall j: ActorId | SameKey(silenced, i, j)
      ensures var actor := silenced.actors[j];
              !actor.wire.Served? && !actor.wire.InTransit? && (s.terminal ==> actor.barred)
    {
      SilencedIsCold(s, key, j);
    }
    CertifiedKeeps(silenced, i);
  }

  lemma AskProviderKeeps(s: Sys, i: ActorId, choice: Choice)
    requires SysInv(s) && i < |s.actors| && s.actors[i].pc.Reconciling? && AskProvider(s, i, choice).Some?
    ensures SysInv(AskProvider(s, i, choice).value)
  {
    hide SysInv, FirstEffect;
    ActorShape(s, i);
    match choice
    case Remote(e) => FoundRemotelyKeeps(s, i, e);
    case Unknown => JumpKeeps(s, i, Marking(false));
    case Fail => JumpKeeps(s, i, Releasing(Threw));
    case CertifiedAbsent => AbsenceKeeps(s, i);
  }

  // ----------------------------------------------------------------------- a new call

  lemma LaunchedActors(s: Sys, run: RunId, attempt: AttemptId, action: Action, args: string)
    requires SysInv(s) && Launch(s, run, attempt, action, args).Some?
    ensures var s' := Launch(s, run, attempt, action, args).value;
            forall j :: 0 <= j < |s'.actors| ==> ActorOk(s', j)
  {
    var s' := Launch(s, run, attempt, action, args).value;
    forall j | 0 <= j < |s'.actors|
      ensures ActorOk(s', j)
    {
      if j < |s.actors| { ActorFacts(s, j); }
    }
  }

  lemma LaunchedRivals(s: Sys, run: RunId, attempt: AttemptId, action: Action, args: string)
    requires RivalsOk(s) && FailedOk(s) && Launch(s, run, attempt, action, args).Some?
    ensures var s' := Launch(s, run, attempt, action, args).value; RivalsOk(s') && FailedOk(s')
  {
    hide RootOf;
    var s' := Launch(s, run, attempt, action, args).value;
    forall a: ActorId, b: ActorId | SameKey(s', a, b)
      ensures Rivals(s', a, b)
    {
      if a < |s.actors| && b < |s.actors| { assert SameKey(s, a, b); }
    }
    forall id: ReceiptId, j: ActorId | FailedFor(s', id, j) && Guarded(s', s'.actors[j].key)
      ensures !Threat(s'.actors[j])
    {
      if j < |s.actors| { assert FailedFor(s, id, j); }
    }
  }

  lemma LaunchedTables(s: Sys, run: RunId, attempt: AttemptId, action: Action, args: string)
    requires LocksOk(s) && ReceiptsOk(s) && EffectsOk(s) && Launch(s, run, attempt, action, args).Some?
    ensures var s' := Launch(s, run, attempt, action, args).value; LocksOk(s') && ReceiptsOk(s') && EffectsOk(s')
  {
    hide RootOf;
  }

  lemma LaunchKeeps(s: Sys, run: RunId, attempt: AttemptId, action: Action, args: string)
    requires SysInv(s) && Launch(s, run, attempt, action, args).Some?
    ensures SysInv(Launch(s, run, attempt, action, args).value)
  {
    hide SysInv, Inv, ActorOk, LocksOk, ReceiptsOk, EffectsOk, RivalsOk, FailedOk;
    TableFacts(s);
    LaunchedActors(s, run, attempt, action, args);
    LaunchedRivals(s, run, attempt, action, args);
    LaunchedTables(s, run, attempt, action, args);
    SysFromParts(Launch(s, run, attempt, action, args).value);
  }
}
