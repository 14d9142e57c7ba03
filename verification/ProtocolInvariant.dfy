/** The inductive invariant of the governed-action protocol. */
module ProtocolInvariant {
  import opened Prelude
  import opened Tables
  import opened Evolution
  import opened Lineage
  import opened Invariants
  import opened GovernedAction

  // ------------------------------------------------------------ phases of a call

  predicate BeforeLookup(pc: Pc) { pc.AwaitingLock? || pc.CheckingOwner? || pc.FindingReceipt? }

  predicate Ended(pc: Pc) { pc.Releasing? || pc.Finished? || pc.Dead? }

  /** Between the receipt lookup and the end of the call. */
  predicate Working(pc: Pc) { !BeforeLookup(pc) && !Ended(pc) }

  /** On the way from an existing receipt to the send. */
  predicate Armed(pc: Pc) {
    pc.RecheckingOwner? || pc.RevalidatingGrant? || pc.FinalApproval? || pc.FinalOwner? || pc.Dispatching?
  }

  predicate NeedsReceipt(pc: Pc) {
    Armed(pc) || pc.Reconciling? || pc.ClosingReconciled? || pc.Marking? || pc.AwaitingReply?
    || pc.Committing? || pc.Denying?
  }

  /** The request has not been handed to the transport. */
  predicate BeforeSend(pc: Pc) {
    !pc.AwaitingReply? && !pc.Committing? && !(pc.Marking? && pc.rethrow) && !Ended(pc)
  }

  /** After the lookup and before the send, including the refusals. */
  predicate Deciding(pc: Pc) { Working(pc) && BeforeSend(pc) }

  /** The call can still reach its send, with the authority to do so. */
  predicate MaySend(actor: Actor) {
    (actor.inserted || actor.absent) && ((actor.session && Deciding(actor.pc)) || actor.pc.Dispatching?)
  }

  /** The call has caused an effect, or may still cause one. */
  predicate Potent(actor: Actor) {
    actor.wire.Served? || (!actor.barred && (actor.wire.InTransit? || MaySend(actor)))
  }

  /** The same for a call of any policy, once it is past its checks or can pass them. */
  predicate Threat(actor: Actor) {
    || actor.wire.Served?
    || (!actor.barred && (actor.wire.InTransit? || actor.pc.Dispatching?))
    || (actor.session && Armed(actor.pc))
  }

  // ------------------------------------------------------------------- invariants

  predicate EffectFor(s: Sys, key: Key, e: EffectId) { e < |s.effects| && s.effects[e].key == key }

  /** The call belongs to an attempt of its run and its key to the run's lineage. */
  ghost predicate Placed(s: Sys, actor: Actor)
  {
    && actor.run < |s.db.runs|
    && actor.attempt < |s.db.attempts|
    && s.db.attempts[actor.attempt].run == actor.run
    && actor.key.root == RootOf(s.db.runs, actor.run)
  }

  /** A call inside the fence whose session lives is the lock's holder. */
  ghost predicate HoldsLock(s: Sys, i: ActorId)
    requires i < |s.actors|
  {
    var actor := s.actors[i];
    && (InFence(actor.pc) && actor.session ==> actor.key in s.holders && s.holders[actor.key] == i)
    && (actor.pc.AwaitingLock? ==> actor.session)
  }

  /** What the call knows about its receipt; the lock makes it stay true. */
  ghost predicate KnowsReceipt(s: Sys, actor: Actor)
  {
    && (actor.receipt.Some? ==> actor.receipt.value < |s.receipts| && s.receipts[actor.receipt.value].key == actor.key)
    && (NeedsReceipt(actor.pc) ==> actor.receipt.Some?)
    && (BeforeLookup(actor.pc) ==> actor.receipt.None? && !actor.inserted && !actor.absent)
    && (Working(actor.pc) && actor.session && actor.receipt.Some? ==>
          s.receipts[actor.receipt.value].status == PendingReceipt)
    && (Working(actor.pc) && actor.session && actor.receipt.None? ==>
          forall id :: 0 <= id < |s.receipts| ==> s.receipts[id].key != actor.key)
    && ((Working(actor.pc) || actor.pc.FindingReceipt?) && actor.session ==>
          forall id :: 0 <= id < |s.receipts| && s.receipts[id].key == actor.key ==> s.receipts[id].run <= actor.run)
  }

  /** How the call came by its receipt. */
  ghost predicate Provenance(s: Sys, i: ActorId)
    requires i < |s.actors|
  {
    var actor := s.actors[i];
    && (actor.inserted ==> actor.receipt.Some? && actor.receipt.value < |s.receipts|
                           && s.receipts[actor.receipt.value].creator == i)
    && (actor.absent ==> actor.key.action.recovery.Reconcile? && actor.receipt.Some? && !actor.inserted)
    && (Armed(actor.pc) && actor.key.action.recovery.Manual? ==> actor.inserted)
    && (Armed(actor.pc) && actor.key.action.recovery.Reconcile? ==> actor.inserted || actor.absent)
    && (actor.pc.RequestingApproval? || actor.pc.Denying? || actor.pc.SelectingGrant? || actor.pc.CheckingApproval?
        || actor.pc.ResolvingCredential? || actor.pc.RecheckingApproval? ==>
          actor.receipt.Some? && !actor.key.action.recovery.RetryWithKey? ==> actor.inserted || actor.absent)
    && (actor.pc.Denying? ==> actor.inserted || actor.absent)
    && (actor.pc.InsertingReceipt? ==> actor.receipt.None?)
    && (actor.pc.Reconciling? || actor.pc.ClosingReconciled? ==> actor.key.action.recovery.Reconcile? && !actor.inserted)
    && (actor.wire != Unsent && actor.key.action.recovery.Manual? ==> actor.inserted)
  }

  /** What a call reports or is about to record is backed by an effect or a committed receipt. */
  ghost predicate Truthful(s: Sys, actor: Actor)
  {
    && (BeforeSend(actor.pc) ==> actor.wire == Unsent)
    && (actor.wire != Unsent ==> actor.receipt.Some?)
    && (actor.wire.Served? ==> EffectFor(s, actor.key, actor.wire.effect))
    && (actor.pc.Committing? ==> actor.wire == Served(actor.pc.answer))
    && (actor.pc.ClosingReconciled? ==> EffectFor(s, actor.key, actor.pc.found))
    && (actor.pc.Releasing? && actor.pc.outcome.CompletedWith? ==>
          HasCommitted(s, actor, actor.pc.outcome.result))
    && (actor.pc.Finished? && actor.pc.result.CompletedWith? ==>
          HasCommitted(s, actor, actor.pc.result.result))
  }

  ghost predicate HasCommitted(s: Sys, actor: Actor, e: EffectId)
  {
    && actor.receipt.Some? && actor.receipt.value < |s.receipts|
    && s.receipts[actor.receipt.value].status == Committed(e)
  }

  ghost predicate ActorOk(s: Sys, i: ActorId)
    requires i < |s.actors|
  {
    && Placed(s, s.actors[i])
    && HoldsLock(s, i)
    && KnowsReceipt(s, s.actors[i])
    && Provenance(s, i)
    && Truthful(s, s.actors[i])
  }

  ghost predicate LocksOk(s: Sys)
  {
    forall k :: k in s.holders ==>
      var i := s.holders[k];
      i < |s.actors| && s.actors[i].key == k && s.actors[i].session && InFence(s.actors[i].pc)
  }

  /** One receipt per key, on a run of the key's lineage; COMMITTED is backed by an effect. */
  ghost predicate ReceiptsOk(s: Sys)
  {
    && (forall id :: 0 <= id < |s.receipts| ==>
          var row := s.receipts[id];
          && row.run < |s.db.runs|
          && row.key.root == RootOf(s.db.runs, row.run)
          && row.creator < |s.actors|
          && (row.status.Committed? ==> EffectFor(s, row.key, row.status.result)))
    && (forall a, b :: 0 <= a < b < |s.receipts| ==> s.receipts[a].key != s.receipts[b].key)
  }

  /** Every effect was caused by its own sender. */
  ghost predicate EffectsOk(s: Sys)
  {
    && (forall e :: 0 <= e < |s.effects| ==>
          var x := s.effects[e];
          x.sender < |s.actors| && s.actors[x.sender].key == x.key && s.actors[x.sender].wire == Served(e))
    && (forall e, f :: 0 <= e < f < |s.effects| && s.effects[e].key == s.effects[f].key ==>
          !s.effects[e].key.action.recovery.RetryWithKey?)
  }

  predicate SameKey(s: Sys, i: ActorId, j: ActorId)
  {
    i < |s.actors| && j < |s.actors| && s.actors[i].key == s.actors[j].key
  }

  /** A holder that created its receipt and has not sent. */
  predicate HoldsNewReceipt(actor: Actor) { actor.inserted && actor.session && Deciding(actor.pc) }

  /** A holder with the provider's certificate that nothing sent before will take effect. */
  predicate HoldsCertificate(actor: Actor) { actor.absent && actor.session && Deciding(actor.pc) }

  /** What two different calls under one key cannot be at the same time. While the creator of
      the receipt has not sent, nobody else knows that receipt. Under reconciliation with terminal
      certificates one call at most can cause an effect, and none but the holder of a certificate. */
  predicate Rivals(s: Sys, a: ActorId, b: ActorId)
    requires SameKey(s, a, b)
  {
    a != b ==>
      && (HoldsNewReceipt(s.actors[a]) ==> s.actors[b].receipt.None?)
      && (s.terminal && s.actors[a].key.action.recovery.Reconcile? ==>
            && !(Potent(s.actors[a]) && Potent(s.actors[b]))
            && (HoldsCertificate(s.actors[a]) ==> !Potent(s.actors[b])))
  }

  ghost predicate RivalsOk(s: Sys)
  {
    forall a: ActorId, b: ActorId :: SameKey(s, a, b) ==> Rivals(s, a, b)
  }

  /** What is known of prior calls is strong enough for the key: a terminal certificate, or a
      policy that needs none. */
  predicate Guarded(s: Sys, key: Key) { s.terminal || !key.action.recovery.Reconcile? }

  /** FAILED: no request under the key took effect, may still, or will be sent. */
  ghost predicate FailedOk(s: Sys)
  {
    forall id: ReceiptId, j: ActorId :: FailedFor(s, id, j) && Guarded(s, s.actors[j].key) ==> !Threat(s.actors[j])
  }

  /** Receipt id is FAILED and carries call j's key. */
  predicate FailedFor(s: Sys, id: ReceiptId, j: ActorId)
  {
    && id < |s.receipts| && j < |s.actors|
    && s.receipts[id].status == FailedReceipt
    && s.receipts[id].key == s.actors[j].key
  }

  ghost predicate SysInv(s: Sys)
  {
    && Inv(s.db)
    && (forall i :: 0 <= i < |s.actors| ==> ActorOk(s, i))
    && LocksOk(s)
    && ReceiptsOk(s)
    && EffectsOk(s)
    && RivalsOk(s)
    && FailedOk(s)
  }

  // ------------------------------------------------------------------ lineage facts

  lemma {:induction false} RootStable(db: Db, db': Db, r: RunId)
    requires Evolves(db, db') && r < |db.runs|
    ensures RootOf(db'.runs, r) == RootOf(db.runs, r)
    decreases r
  {
    assert RowEvolves(db.runs[r], db'.runs[r], |db.attempts|);
    if db.runs[r].predecessor.Some? && db.runs[r].predecessor.value < r {
      RootStable(db, db', db.runs[r].predecessor.value);
    }
  }

  /** Older runs with the same root are exactly the ones this run descends from. */
  lemma {:induction false} OlderInLineage(db: Db, q: RunId, r: RunId)
    requires LineageOk(db) && q <= r < |db.runs|
    requires RootOf(db.runs, q) == RootOf(db.runs, r)
    ensures InLineage(db.runs, r, q)
    decreases r
  {
    if q < r {
      assert ReplacementOk(db.cfg, db.runs, r);
      assert db.runs[r].predecessor.Some?;
      var p := db.runs[r].predecessor.value;
      if p < q {
        SameChild(db, p, q, r);
      }
      OlderInLineage(db, q, p);
    }
  }

  lemma PlacedStable(s: Sys, s': Sys, actor: Actor)
    requires Placed(s, actor) && Evolves(s.db, s'.db)
    ensures Placed(s', actor)
  {
    RootStable(s.db, s'.db, actor.run);
    assert AttemptEvolves(s.db.attempts[actor.attempt], s'.db.attempts[actor.attempt]);
  }
}
