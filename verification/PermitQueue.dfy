/** The admission gate of governed actions, acquireFenceAdmission in src/harness/governedAction.ts:
    a permit is handed to the oldest waiter directly, never through the free count. */
module PermitQueue {
  import opened Prelude

  /** One call of executeGovernedAction; every call is a caller of its own. */
  type Caller = nat

  /** One slot of the pool stays free for work inside the fence, when the pool has two. */
  function FenceLimit(poolMax: nat): (limit: nat)
    ensures limit >= 1
    ensures poolMax >= 2 ==> limit < poolMax
  {
    if poolMax - 1 > 1 then poolMax - 1 else 1
  }

  datatype State = State(holders: set<Caller>, waiters: seq<Caller>)

  datatype Event = Arrive(caller: Caller) | Leave(caller: Caller)

  /** At most `limit` permits are out, and nobody waits while one is free. */
  ghost predicate Sound(limit: nat, s: State)
  {
    && 1 <= limit && |s.holders| <= limit
    && (s.waiters != [] ==> |s.holders| == limit)
    && (forall i, j :: 0 <= i < j < |s.waiters| ==> s.waiters[i] != s.waiters[j])
    && (forall i :: 0 <= i < |s.waiters| ==> s.waiters[i] !in s.holders)
  }

  function Step(limit: nat, s: State, e: Event): State {
    match e
    case Arrive(c) =>
      if c in s.holders || c in s.waiters then s
      else if |s.holders| >= limit then s.(waiters := s.waiters + [c])
      else s.(holders := s.holders + {c})
    case Leave(c) =>
      if c !in s.holders then s
      else if s.waiters == [] then s.(holders := s.holders - {c})
      else State(s.holders - {c} + {s.waiters[0]}, s.waiters[1..])
  }

  lemma StepKeepsSound(limit: nat, s: State, e: Event)
    requires Sound(limit, s)
    ensures Sound(limit, Step(limit, s, e))
  {
    if e.Leave? && e.caller in s.holders && s.waiters != [] {
      assert |s.holders - {e.caller}| == |s.holders| - 1;
    }
  }

  // ----------------------------------------------------------------- bounded waiting

  function After(limit: nat, s: State, es: seq<Event>): State
  {
    if es == [] then s else Step(limit, After(limit, s, es[..|es| - 1]), es[|es| - 1])
  }

  predicate GivesBack(s: State, e: Event) { e.Leave? && e.caller in s.holders }

  /** Permits given back along the way. */
  function Returned(limit: nat, s: State, es: seq<Event>): nat
  {
    if es == [] then 0
    else
      var n := |es| - 1;
      Returned(limit, s, es[..n]) + (if GivesBack(After(limit, s, es[..n]), es[n]) then 1 else 0)
  }

  /** Whoever arrives, a waiter moves up one place with every permit given back. */
  lemma {:induction false} WaitersAdvance(limit: nat, s: State, es: seq<Event>, k: nat)
    requires k < |s.waiters| && Returned(limit, s, es) <= k
    ensures var m := Returned(limit, s, es);
            k - m < |After(limit, s, es).waiters| && After(limit, s, es).waiters[k - m] == s.waiters[k]
    decreases |es|
  {
    hide Step;
    if es != [] {
      WaitersAdvance(limit, s, es[..|es| - 1], k);
      StepMovesQueue(limit, After(limit, s, es[..|es| - 1]), es[|es| - 1]);
    }
  }

  /** One event takes the first waiter or leaves the queue in front of newcomers alone. */
  lemma StepMovesQueue(limit: nat, s: State, e: Event)
    requires s.waiters != []
    ensures if GivesBack(s, e) then Step(limit, s, e).waiters == s.waiters[1..] && s.waiters[0] in Step(limit, s, e).holders
            else s.waiters <= Step(limit, s, e).waiters
  {
  }

  /** So the waiter in place k holds a permit as soon as k + 1 permits have been given back. */
  lemma BoundedWaiting(limit: nat, s: State, es: seq<Event>, k: nat)
    requires k < |s.waiters| && es != []
    requires Returned(limit, s, es[..|es| - 1]) == k && Returned(limit, s, es) == k + 1
    ensures s.waiters[k] in After(limit, s, es).holders
  {
    hide Step;
    WaitersAdvance(limit, s, es[..|es| - 1], k);
    StepMovesQueue(limit, After(limit, s, es[..|es| - 1]), es[|es| - 1]);
  }

  // ------------------------------------------------------------------------ the gate

  class Gate {
    const limit: nat
    var active: nat
    var waiters: seq<Caller>
    /** Callers whose release function has not been called. */
    var holders: set<Caller>

    function Abstract(): State
      reads this
    {
      State(holders, waiters)
    }

    ghost predicate Valid()
      reads this
    {
      active == |holders| && Sound(limit, Abstract())
    }

    constructor (poolMax: nat)
      ensures Valid() && limit == FenceLimit(poolMax) && Abstract() == State({}, [])
    {
      limit := FenceLimit(poolMax);
      active, waiters, holders := 0, [], {};
    }

    /** Take a permit or join the queue. */
    method Acquire(caller: Caller) returns (admitted: bool)
      requires Valid() && caller !in holders && caller !in waiters
      modifies this
      ensures Valid() && Abstract() == Step(limit, old(Abstract()), Arrive(caller))
      ensures admitted <==> caller in holders
    {
      StepKeepsSound(limit, Abstract(), Arrive(caller));
      if active >= limit {
        waiters := waiters + [caller];
        return false;
      }
      active := active + 1;
      holders := holders + {caller};
      return true;
    }

    /** Give the permit back; it goes to the oldest waiter, so a newcomer cannot take it first.
        Releasing twice does nothing. */
    method Release(caller: Caller) returns (next: Option<Caller>)
      requires Valid()
      modifies this
      ensures Valid() && Abstract() == Step(limit, old(Abstract()), Leave(caller))
      ensures next.Some? <==> caller in old(holders) && old(waiters) != []
      ensures next.Some? ==> next.value == old(waiters)[0] && next.value in holders && active == old(active)
    {
      StepKeepsSound(limit, Abstract(), Leave(caller));
      if caller !in holders {
        return None;
      }
      holders := holders - {caller};
      if |waiters| > 0 {
        next := Some(waiters[0]);
        waiters := waiters[1..];
        holders := holders + {next.value};
      } else {
        active := active - 1;
        next := None;
      }
    }
  }
}
