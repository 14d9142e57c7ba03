/** Managed sessions and their inbound events: src/store/sessions.ts and
    src/store/sessionEvents.ts. */
module Sessions {
  import opened Prelude
  import opened RunStates
  import opened Tables
  import opened Kernel
  import opened Admissions

  function CreateSession(db: Db, tenant: TenantId): Tx
  {
    if tenant >= |db.tenants| then Err(AdmissionRejected(TenantUnavailable))
    else Ok(db.(sessions := db.sessions + [Session(tenant, Idle, None, 0)]))
  }

  predicate LiveIn(db: Db, s: SessionId, r: RunId)
    requires r < |db.runs|
  {
    db.runs[r].session == Some(s) && !IsTerminal(db.runs[r].status)
  }

  /** The session's live runs among the first n, delegated or top-level ones. */
  function LiveRuns(db: Db, s: SessionId, topLevel: bool, n: nat): (rs: seq<RunId>)
    requires n <= |db.runs|
    ensures forall r: nat :: r in rs <==> r < n && LiveIn(db, s, r) && db.runs[r].parent.None? == topLevel
    ensures forall i, j :: 0 <= i < j < |rs| ==> rs[i] < rs[j]
  {
    if n == 0 then []
    else
      var below := LiveRuns(db, s, topLevel, n - 1);
      assert forall i :: 0 <= i < |below| ==> below[i] in below;
      below + (if LiveIn(db, s, n - 1) && db.runs[n - 1].parent.None? == topLevel then [n - 1] else [])
  }

  /** Cancel the listed runs in order and fence their current attempts. */
  function CancelEach(db: Db, rs: seq<RunId>): Tx
    decreases |rs|
  {
    if rs == [] then Ok(db)
    else
      var n := |rs| - 1;
      var before :- CancelEach(db, rs[..n]);
      CancelRun(before, rs[n])
  }

  /** Cancel every live run of the session, delegated runs before the top-level one. */
  function FenceSessionRuns(db: Db, s: SessionId): Tx
  {
    CancelEach(db, LiveRuns(db, s, false, |db.runs|) + LiveRuns(db, s, true, |db.runs|))
  }

  function Staled(row: Inbound, s: SessionId): Inbound {
    if row.session == s && row.status == Pending then row.(status := Stale) else row
  }

  function CancelSession(db: Db, s: SessionId): Tx
  {
    if s >= |db.sessions| then Err(SessionRejected)
    else if IsClosed(db.sessions[s].state) then Ok(db)
    else
      var fenced :- FenceSessionRuns(db, s);
      if s >= |fenced.sessions| then Err(SessionRejected)
      else Ok(fenced.(
        inbound := seq(|fenced.inbound|, i requires 0 <= i < |fenced.inbound| => Staled(fenced.inbound[i], s)),
        sessions := fenced.sessions[s := fenced.sessions[s].(
          state := SessionCancelled, current := db.sessions[s].current)]))
  }

  // ------------------------------------------------------------- inbound events

  /** waitMatches: the current run's awaited name, correlation and schema accept the payload. */
  datatype InboundInput = InboundInput(
    session: SessionId, source: Source, digest: string, cls: DispatchClass, waitMatches: bool)

  datatype Received = Received(db: Db, id: InboundId, replayed: bool)

  predicate Matches(row: Inbound, source: Source) { row.source == source }

  /** First row with the given source identity among the first n, or n when there is none. */
  function FindSource(inbound: seq<Inbound>, source: Source): (k: nat)
    ensures k <= |inbound|
    ensures k < |inbound| ==> Matches(inbound[k], source)
    ensures forall i :: 0 <= i < k ==> !Matches(inbound[i], source)
  {
    if inbound == [] then 0
    else if Matches(inbound[0], source) then 0
    else 1 + FindSource(inbound[1..], source)
  }

  function ReceiveEvent(db: Db, input: InboundInput): Result<Received, KernelError>
  {
    if input.session >= |db.sessions| || db.sessions[input.session].tenant != input.source.tenant
    then Err(SessionRejected)
    else
      var session := db.sessions[input.session];
      var k := FindSource(db.inbound, input.source);
      if k < |db.inbound| then
        if db.inbound[k].digest != input.digest then Err(EventConflict)
        else Ok(Received(db, k, true))
      else if IsClosed(session.state) then Err(DeliveryRejected)
      else
        var number := session.receivedSeq + 1;
        var counted := db.(sessions := db.sessions[input.session := session.(receivedSeq := number)]);
        if input.cls.FutureRun? then
          Ok(Received(counted.(inbound := counted.inbound + [Inbound(
            input.session, input.source, input.digest, number, FutureRun, Pending, db.now)]), k, false))
        else if session.current.None? || session.current.value >= |db.runs| then Err(DeliveryRejected)
        else
          var r := session.current.value;
          if db.runs[r].status != WaitingSignal || !input.waitMatches then Err(DeliveryRejected)
          else
            var woken :- Resume(counted, r, WaitingSignal, SignalReceived);
            Ok(Received(woken.(inbound := woken.inbound + [Inbound(
              input.session, input.source, input.digest, number, CurrentRun, Consumed(r), db.now)]), k, false))
  }

  predicate AwaitsDispatch(row: Inbound, s: SessionId) {
    row.session == s && row.status == Pending && row.cls == FutureRun
  }

  predicate Dispatchable(row: Inbound, s: SessionId, at: nat) {
    AwaitsDispatch(row, s) && row.dispatchAfter <= at
  }

  /** First dispatchable event of the session, or the table length. Rows are in received order. */
  function NextDispatch(inbound: seq<Inbound>, s: SessionId, at: nat): (k: nat)
    ensures k <= |inbound|
    ensures k < |inbound| ==> Dispatchable(inbound[k], s, at)
    ensures forall i :: 0 <= i < k ==> !Dispatchable(inbound[i], s, at)
  {
    if inbound == [] then 0
    else if Dispatchable(inbound[0], s, at) then 0
    else 1 + NextDispatch(inbound[1..], s, at)
  }

  function Postponed(row: Inbound, s: SessionId, until: nat): Inbound {
    if AwaitsDispatch(row, s) && row.dispatchAfter < until then row.(dispatchAfter := until) else row
  }

  /** Start a run for the session's next event; a rejected admission rolls back. */
  function DispatchNext(db: Db, s: SessionId, at: nat): Tx
  {
    if s >= |db.sessions| || db.sessions[s].state != Idle then Err(NotReady)
    else
      var k := NextDispatch(db.inbound, s, at);
      if k == |db.inbound| then Err(NotReady)
      else
        var r := |db.runs|;
        var created :- CreateRun(db, RunInput(db.sessions[s].tenant, Some(s), None, None, 0, None, true));
        if k < |created.inbound|
        then Ok(created.(inbound := created.inbound[k := created.inbound[k].(status := Dispatched(r))]))
        else Err(NotReady)
  }

  /** After a rejected admission, on its own: the session's waiting events are put off. */
  function PostponeQueue(db: Db, s: SessionId, until: nat): Db
  {
    db.(inbound := seq(|db.inbound|, i requires 0 <= i < |db.inbound| => Postponed(db.inbound[i], s, until)))
  }
}
