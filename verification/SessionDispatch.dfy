/** Receiving and dispatching session events on the database: src/store/sessionEvents.ts. */
module SessionDispatch {
  import opened Prelude
  import opened RunStates
  import opened Tables
  import opened Kernel
  import opened Admissions
  import opened Sessions
  import opened Store
  import opened Invariants
  import opened SessionTransactions
  import opened InboundEvents

  /** First row with the source identity. */
  method Lookup(d: Database, source: Source) returns (k: nat)
    ensures k == FindSource(d.inbound, source)
  {
    k := 0;
    while k < |d.inbound| && d.inbound[k].source != source
      invariant k <= |d.inbound|
      invariant forall i :: 0 <= i < k ==> !Matches(d.inbound[i], source)
    {
      k := k + 1;
    }
    FirstMatch(d.inbound, source, k);
  }

  lemma FirstMatch(inbound: seq<Inbound>, source: Source, k: nat)
    requires k <= |inbound|
    requires forall i :: 0 <= i < k ==> !Matches(inbound[i], source)
    requires k < |inbound| ==> Matches(inbound[k], source)
    ensures FindSource(inbound, source) == k
  {
  }

  /** Accept an event once, number it, and wake the run that waits for it. */
  method ReceiveEvent(d: Database, input: InboundInput) returns (outcome: Result<(InboundId, bool), KernelError>)
    modifies d
    ensures match Sessions.ReceiveEvent(old(d.Snapshot()), input)
            case Ok(received) => outcome == Ok((received.id, received.replayed)) && d.Snapshot() == received.db
            case Err(e) => outcome == Err(e) && d.Snapshot() == old(d.Snapshot())
  {
    if input.session >= |d.sessions| || d.sessions[input.session].tenant != input.source.tenant {
      return Err(SessionRejected);
    }
    var session := d.sessions[input.session];
    var k := Lookup(d, input.source);
    if k < |d.inbound| {
      if d.inbound[k].digest != input.digest {
        return Err(EventConflict);
      }
      return Ok((k, true));
    }
    if IsClosed(session.state) {
      return Err(DeliveryRejected);
    }
    if input.cls.CurrentRun? {
      if session.current.None? || session.current.value >= |d.runs|
         || d.runs[session.current.value].status != WaitingSignal || !input.waitMatches {
        return Err(DeliveryRejected);
      }
    }
    var saved := d.Snapshot();
    var number := session.receivedSeq + 1;
    d.sessions := d.sessions[input.session := session.(receivedSeq := number)];
    if input.cls.FutureRun? {
      d.inbound := d.inbound +
        [Inbound(input.session, input.source, input.digest, number, FutureRun, Pending, d.now)];
      return Ok((k, false));
    }
    var r := session.current.value;
    var failure := d.TransitionRun(r, {WaitingSignal}, Queued, SignalReceived, None, ClearCurrent);
    if failure.Some? {
      d.Restore(saved);
      return Err(failure.value);
    }
    d.inbound := d.inbound +
      [Inbound(input.session, input.source, input.digest, number, CurrentRun, Consumed(r), d.now)];
    return Ok((k, false));
  }

  // ------------------------------------------------------------------------ dispatch

  method NextReady(d: Database, s: SessionId, at: nat) returns (k: nat)
    ensures k == NextDispatch(d.inbound, s, at)
  {
    k := 0;
    while k < |d.inbound| && !Dispatchable(d.inbound[k], s, at)
      invariant k <= |d.inbound|
      invariant forall i :: 0 <= i < k ==> !Dispatchable(d.inbound[i], s, at)
    {
      k := k + 1;
    }
    FirstReady(d.inbound, s, at, k);
  }

  lemma FirstReady(inbound: seq<Inbound>, s: SessionId, at: nat, k: nat)
    requires k <= |inbound|
    requires forall i :: 0 <= i < k ==> !Dispatchable(inbound[i], s, at)
    requires k < |inbound| ==> Dispatchable(inbound[k], s, at)
    ensures NextDispatch(inbound, s, at) == k
  {
  }

  /** The separate update after a rejected admission. */
  method Postpone(d: Database, s: SessionId, until: nat)
    modifies d`inbound
    ensures d.Snapshot() == PostponeQueue(old(d.Snapshot()), s, until)
  {
    ghost var before := d.inbound;
    for i := 0 to |d.inbound|
      invariant |d.inbound| == |before|
      invariant forall j :: 0 <= j < i ==> d.inbound[j] == Postponed(before[j], s, until)
      invariant forall j :: i <= j < |before| ==> d.inbound[j] == before[j]
    {
      if AwaitsDispatch(d.inbound[i], s) && d.inbound[i].dispatchAfter < until {
        d.inbound := d.inbound[i := d.inbound[i].(dispatchAfter := until)];
      }
    }
  }

  /** One dispatch transaction for a session. */
  method DispatchOne(d: Database, s: SessionId, at: nat) returns (failure: Option<KernelError>)
    modifies d
    ensures Did(DispatchNext(old(d.Snapshot()), s, at), old(d.Snapshot()), d.Snapshot(), failure)
  {
    if s >= |d.sessions| || d.sessions[s].state != Idle {
      return Some(NotReady);
    }
    var k := NextReady(d, s, at);
    if k == |d.inbound| {
      return Some(NotReady);
    }
    var saved := d.Snapshot();
    var r := |d.runs|;
    failure := d.CreateRun(RunInput(d.sessions[s].tenant, Some(s), None, None, 0, None, true));
    if failure.None? {
      if k < |d.inbound| {
        d.inbound := d.inbound[k := d.inbound[k].(status := Dispatched(r))];
      } else {
        d.Restore(saved);
        failure := Some(NotReady);
      }
    }
  }

  /** The oldest waiting event of a session, as the candidate query finds it. */
  method OldestWaiting(d: Database, s: SessionId) returns (k: nat)
    ensures k <= |d.inbound|
    ensures k < |d.inbound| ==> AwaitsDispatch(d.inbound[k], s)
    ensures forall i :: 0 <= i < k ==> !AwaitsDispatch(d.inbound[i], s)
  {
    k := 0;
    while k < |d.inbound| && !AwaitsDispatch(d.inbound[k], s)
      invariant k <= |d.inbound|
      invariant forall i :: 0 <= i < k ==> !AwaitsDispatch(d.inbound[i], s)
    {
      k := k + 1;
    }
  }

  lemma PostponedInOrder(inbound: seq<Inbound>, rewritten: seq<Inbound>, s: SessionId, until: nat)
    requires InOrder(inbound) && |rewritten| == |inbound|
    requires forall i :: 0 <= i < |inbound| ==> rewritten[i] == Postponed(inbound[i], s, until)
    ensures InOrder(rewritten)
  {
  }

  /** What the dispatch loop keeps. */
  ghost predicate Orderly(db: Db) { Inv(db) && InboundOk(db) && InOrder(db.inbound) }

  lemma DispatchOrderly(db: Db, s: SessionId, at: nat)
    requires Orderly(db) && OldestReady(db.inbound, s, at) && DispatchNext(db, s, at).Ok?
    ensures Orderly(DispatchNext(db, s, at).value)
  {
    hide Inv, InboundOk, InOrder, OldestReady, DispatchNext;
    OrderKeptIffOldestReady(db, s, at);
    DispatchKeeps(db, s, at);
    DispatchedRow(db, s, at);
  }

  lemma PostponeOrderly(db: Db, s: SessionId, until: nat)
    requires Orderly(db)
    ensures Orderly(PostponeQueue(db, s, until))
  {
    hide Inv, InboundOk, InOrder;
    PostponedInOrder(db.inbound, PostponeQueue(db, s, until).inbound, s, until);
    PostponeKeeps(db, s, until);
    PostponeInbound(db, s, until);
  }

  /** A worker's dispatch pass: sessions are taken only while their oldest waiting event is
      ready, so a pass that runs undisturbed never lets an event overtake an earlier one. */
  method DispatchPending(d: Database, candidateLimit: nat, retryDelay: nat, at: nat) returns (taken: nat)
    modifies d
    ensures old(Orderly(d.Snapshot())) ==> Orderly(d.Snapshot())
    ensures taken <= candidateLimit
  {
    hide Orderly, DispatchNext, PostponeQueue;
    taken := 0;
    var s := 0;
    while s < |d.sessions| && taken < candidateLimit
      invariant taken <= candidateLimit
      invariant old(Orderly(d.Snapshot())) ==> Orderly(d.Snapshot())
      decreases candidateLimit - taken, |d.sessions| - s
    {
      var k := OldestWaiting(d, s);
      if d.sessions[s].state == Idle && k < |d.inbound| && d.inbound[k].dispatchAfter <= at {
        ghost var before := d.Snapshot();
        var failure := DispatchOne(d, s, at);
        if failure.None? {
          if Orderly(before) {
            DispatchOrderly(before, s, at);
          }
        } else if failure.value.AdmissionRejected? {
          Postpone(d, s, at + retryDelay);
          if Orderly(before) {
            PostponeOrderly(before, s, at + retryDelay);
          }
        } else if !failure.value.NotReady? {
          return;
        }
        taken := taken + 1;
      }
      s := s + 1;
    }
  }
}
