/** The receiver of bench/externalSystem.ts, which answers a repeated idempotency key with the
    action it recorded first. It is the environment the protocol dispatches into. */
module Receiver {
  import opened Prelude
  import opened GovernedAction

  /** Repeats are answered from the first record, so a key has one record at most. */
  class ExternalSystem {
    var recorded: seq<Effect>
    var byKey: map<Key, EffectId>
    var receivedCount: map<EffectId, nat>

    ghost predicate Valid()
      reads this
    {
      && (forall k :: k in byKey <==> FirstEffect(recorded, k).Some?)
      && (forall k :: k in byKey ==> FirstEffect(recorded, k) == Some(byKey[k]))
      && (forall e, f :: 0 <= e < f < |recorded| ==> recorded[e].key != recorded[f].key)
      && (forall e: nat :: e in receivedCount <==> e < |recorded|)
      && (forall e :: e in receivedCount ==> receivedCount[e] >= 1)
    }

    constructor ()
      ensures Valid() && recorded == []
    {
      recorded, byKey, receivedCount := [], map[], map[];
    }

    /** A mutating request that carries an idempotency key. */
    method Serve(key: Key, sender: ActorId) returns (transaction: EffectId, replay: bool)
      requires Valid()
      modifies this
      ensures Valid()
      ensures replay <==> FirstEffect(old(recorded), key).Some?
      ensures replay ==> recorded == old(recorded) && Some(transaction) == FirstEffect(recorded, key)
      ensures !replay ==> recorded == old(recorded) + [Effect(key, sender)] && transaction == |old(recorded)|
      ensures transaction < |recorded| && recorded[transaction].key == key
      ensures receivedCount[transaction] == (if replay then old(receivedCount)[transaction] else 0) + 1
    {
      if key in byKey {
        transaction, replay := byKey[key], true;
        receivedCount := receivedCount[transaction := receivedCount[transaction] + 1];
        return;
      }
      transaction, replay := |recorded|, false;
      FirstAppended(recorded, Effect(key, sender));
      recorded := recorded + [Effect(key, sender)];
      receivedCount := receivedCount[transaction := 1];
      byKey := byKey[key := transaction];
    }

    /** The lookup a reconciler makes. */
    method Find(key: Key) returns (found: Option<EffectId>)
      requires Valid()
      ensures found == FirstEffect(recorded, key)
    {
      if key in byKey {
        return Some(byKey[key]);
      }
      return None;
    }
  }

  lemma FirstAppended(effects: seq<Effect>, e: Effect)
    ensures forall k ::
      (FirstEffect(effects + [e], k)
       == if FirstEffect(effects, k).Some? then FirstEffect(effects, k)
          else if e.key == k then Some(|effects|) else None)
  {
    assert (effects + [e])[..|effects|] == effects;
  }
}
