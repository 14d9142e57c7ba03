/** When a run must be admitted: the exact law of src/store/admissions.ts and of run creation,
    for one request and for several in turn. */
module AdmissionLaw {
  import opened Prelude
  import opened RunStates
  import opened Tables
  import opened Kernel
  import opened Admissions
  import opened RowInvariants
  import opened CapacityAccounting
  import opened SessionInvariants
  import opened Invariants
  import opened Transactions

  /** What is left of a tenant's two quotas; None where there is no limit. */
  datatype Room = Room(slots: Option<int>, tokens: Option<int>)

  /** The tenant's live runs. */
  ghost function LiveOf(db: Db, t: TenantId): set<RunId>
  {
    set r: RunId | r < |db.runs| && db.runs[r].tenant == t && !IsTerminal(db.runs[r].status)
  }

  ghost function RoomOf(db: Db, t: TenantId): Room
    requires t < |db.tenants|
  {
    var tenant := db.tenants[t];
    Room(if tenant.maxConcurrent.None? then None else Some(tenant.maxConcurrent.value - |LiveOf(db, t)|),
         if tenant.dailyBudget.None? then None
         else Some(tenant.dailyBudget.value - UsedToday(db, t) - RemainingReserved(db, t)))
  }

  /** A free slot, and the request, or at least one token, in what is left of the day's budget. */
  predicate Fits(room: Room, requested: Option<int>)
  {
    && (room.slots.Some? ==> room.slots.value >= 1)
    && (requested.Some? ==> requested.value >= 1)
    && (room.tokens.Some? ==> (if requested.Some? then requested.value else 1) <= room.tokens.value)
  }

  /** The tokens granted: what was asked for, else all that is left, else no limit at all. */
  function Granted(room: Room, requested: Option<int>): Option<int> {
    if requested.Some? then requested else room.tokens
  }

  function Reserved(room: Room, requested: Option<int>): int {
    if Granted(room, requested).Some? then Granted(room, requested).value else 0
  }

  ghost predicate Admissible(db: Db, t: TenantId, requested: Option<int>)
  {
    t < |db.tenants| && db.tenants[t].active && Fits(RoomOf(db, t), requested)
  }

  /** Why a request is refused. */
  ghost function Refusal(db: Db, t: TenantId): AdmissionReason
  {
    if t >= |db.tenants| || !db.tenants[t].active then TenantUnavailable
    else if RoomOf(db, t).slots.Some? && RoomOf(db, t).slots.value <= 0 then ConcurrencyExhausted
    else TokenCapacityExhausted
  }

  // ---------------------------------------------------------------- counting runs

  ghost function LiveBelow(db: Db, t: TenantId, n: nat): set<RunId>
    requires n <= |db.runs|
  {
    set r: RunId | r < n && db.runs[r].tenant == t && !IsTerminal(db.runs[r].status)
  }

  lemma {:induction false} CountLive(db: Db, t: TenantId, n: nat)
    requires RowsOk(db) && n <= |db.runs|
    ensures Sum(OccupiedByRun(db.runs, t)[..n]) == |LiveBelow(db, t, n)|
  {
    if n == 0 {
      assert LiveBelow(db, t, 0) == {};
    } else {
      hide RowsOk, LiveBelow;
      CountLive(db, t, n - 1);
      var w := OccupiedByRun(db.runs, t);
      assert w[..n] == w[..n - 1] + [w[n - 1]];
      SumAppend(w[..n - 1], w[n - 1]);
      LiveStep(db, t, n - 1);
    }
  }

  lemma LiveStep(db: Db, t: TenantId, r: RunId)
    requires RowsOk(db) && r < |db.runs|
    ensures |LiveBelow(db, t, r + 1)| == |LiveBelow(db, t, r)| + Occupies(db.runs[r], t)
  {
    assert RowOk(db.runs[r], db.now);
    hide RowsOk, RowOk;
    if Occupies(db.runs[r], t) == 1 {
      assert LiveBelow(db, t, r + 1) == LiveBelow(db, t, r) + {r};
    } else {
      assert LiveBelow(db, t, r + 1) == LiveBelow(db, t, r);
    }
  }

  /** The active admissions the decision counts are the tenant's live runs. */
  lemma ActiveIsLive(db: Db, t: TenantId)
    requires RowsOk(db)
    ensures ActiveCount(db, t) == |LiveOf(db, t)|
  {
    CountLive(db, t, |db.runs|);
    assert OccupiedByRun(db.runs, t)[..|db.runs|] == OccupiedByRun(db.runs, t);
    assert LiveBelow(db, t, |db.runs|) == LiveOf(db, t);
  }

  // -------------------------------------------------------------- one admission

  /** A request is granted if and only if the tenant is active and has room for it, and then
      exactly what was asked for or is left; otherwise the reason tells which failed. */
  lemma AdmissionIff(db: Db, t: TenantId, requested: Option<int>)
    requires RowsOk(db)
    ensures PrepareRunAdmission(db, t, requested).Ok? <==> Admissible(db, t, requested)
    ensures Admissible(db, t, requested) ==>
              var capacity, room := PrepareRunAdmission(db, t, requested).value, RoomOf(db, t);
              && capacity.reserved == Reserved(room, requested)
              && (capacity.budget.None? <==> Granted(room, requested).None?)
              && (capacity.budget.Some? ==> capacity.budget.value == Reserved(room, requested))
    ensures !Admissible(db, t, requested) ==>
              PrepareRunAdmission(db, t, requested) == Err(AdmissionRejected(Refusal(db, t)))
  {
    hide RowsOk, UsedToday, RemainingReserved, ActiveCount;
    ActiveIsLive(db, t);
  }

  // ---------------------------------------------------------------- run creation

  /** Where a run with this input would live: in an idle session of its tenant, or with its parent. */
  ghost predicate Placeable(db: Db, input: RunInput)
  {
    match input.parent
    case None =>
      input.session.Some? ==>
        && input.session.value < |db.sessions|
        && db.sessions[input.session.value].tenant == input.tenant
        && db.sessions[input.session.value].state == Idle
    case Some(p) =>
      && p < |db.runs| && db.runs[p].tenant == input.tenant
      && (input.session.Some? ==> input.session == db.runs[p].session)
      && (db.runs[p].session.Some? ==>
            db.runs[p].session.value < |db.sessions| && db.sessions[db.runs[p].session.value].state != SessionCancelled)
  }

  ghost function HomeOf(db: Db, input: RunInput): Option<SessionId>
  {
    if input.parent.Some? && input.parent.value < |db.runs| then db.runs[input.parent.value].session else input.session
  }

  lemma PlaceableIff(db: Db, input: RunInput)
    requires SessionsOk(db)
    ensures SessionFor(db, input).Ok? && SessionAccepts(db, input, SessionFor(db, input).value) <==> Placeable(db, input)
    ensures SessionFor(db, input).Ok? ==> SessionFor(db, input).value == HomeOf(db, input)
  {
    if input.parent.Some? && input.parent.value < |db.runs| {
      assert LivesInSession(db, input.parent.value);
    }
    forall s | 0 <= s < |db.sessions|
      ensures db.sessions[s].state != Archived
    {
      assert MirrorsRun(db, s);
    }
  }

  /** The row of a created run: queued, two events old, with what it was granted. */
  ghost predicate CreatedRow(db: Db, run: Run, input: RunInput)
    requires input.tenant < |db.tenants|
  {
    var room := RoomOf(db, input.tenant);
    && run.tenant == input.tenant && run.session == HomeOf(db, input) && run.parent == input.parent
    && run.predecessor == input.predecessor && run.generation == input.generation
    && (run.tokenBudget.None? <==> Granted(room, input.tokenBudget).None?)
    && (run.tokenBudget.Some? ==> run.tokenBudget.value == Reserved(room, input.tokenBudget))
    && run.admission.active && run.admission.reserved == Reserved(room, input.tokenBudget)
    && run.status == Queued && run.current.None? && run.call.None? && run.tokensUsed == 0
    && run.lastEventSeq == 2
    && run.events == [Event(1, RunCreated, Some(Edge(Created, Resolving)), None, db.now),
                      Event(2, RunQueued, Some(Edge(Resolving, Queued)), None, db.now)]
  }

  /** The tables after a creation: the new row, its two publications, and a top-level run's
      session showing it. */
  ghost predicate CreatedIn(db: Db, db': Db, input: RunInput)
    requires input.tenant < |db.tenants|
  {
    var r := |db.runs|;
    && |db'.runs| == r + 1 && CreatedRow(db, db'.runs[r], input)
    && (input.parent.None? && input.session.Some? ==> input.session.value < |db.sessions|)
    && db' == db.(
         runs := db.runs + [db'.runs[r]],
         outbox := db.outbox + [OutboxRow(r, 1), OutboxRow(r, 2)],
         sessions := if input.parent.None? && input.session.Some?
                     then db.sessions[input.session.value := db.sessions[input.session.value].(state := Active, current := Some(r))]
                     else db.sessions)
  }

  ghost predicate Creatable(db: Db, input: RunInput)
  {
    Admissible(db, input.tenant, input.tokenBudget) && Placeable(db, input) && input.agentVersionOwned
  }

  lemma InsertedQueues(db: Db, input: RunInput, session: Option<SessionId>, capacity: Capacity)
    requires SessionAccepts(db, input, session) && (input.parent.None? ==> session == input.session)
    ensures var inserted := InsertRun(db, input, session, capacity);
            var r := |db.runs|;
            var resolving := TransitionRun(inserted, r, {Created}, Resolving, RunCreated, None, KeepCurrent);
            && resolving.Ok?
            && var queued := TransitionRun(resolving.value, r, {Resolving}, Queued, RunQueued, None, KeepCurrent);
               && queued.Ok?
               && queued.value == inserted.(
                    runs := db.runs + [queued.value.runs[r]],
                    outbox := db.outbox + [OutboxRow(r, 1), OutboxRow(r, 2)])
               && queued.value.runs[r] == FreshRun(input, session, capacity).(
                    status := Queued, lastEventSeq := 2,
                    events := [Event(1, RunCreated, Some(Edge(Created, Resolving)), None, db.now),
                               Event(2, RunQueued, Some(Edge(Resolving, Queued)), None, db.now)])
  {
  }

  /** A run is created if and only if it is admissible, has a place to live and its agent
      version belongs to the tenant. */
  lemma CreationIff(db: Db, input: RunInput)
    requires Inv(db)
    ensures CreateRun(db, input).Ok? <==> Creatable(db, input)
    ensures Creatable(db, input) ==> CreatedIn(db, CreateRun(db, input).value, input)
    ensures !Admissible(db, input.tenant, input.tokenBudget) ==>
              CreateRun(db, input) == Err(AdmissionRejected(Refusal(db, input.tenant)))
  {
    hide Inv, RowsOk, SessionsOk, PrepareRunAdmission, RoomOf, SessionFor, Placeable, SessionAccepts, TransitionRun;
    Parts(db);
    ReconcileIsNoOp(db, input.tenant);
    AdmissionIff(db, input.tenant, input.tokenBudget);
    PlaceableIff(db, input);
    if Creatable(db, input) {
      HomeIsSession(db, input);
      InsertedQueues(db, input, SessionFor(db, input).value, PrepareRunAdmission(db, input.tenant, input.tokenBudget).value);
    }
  }

  lemma HomeIsSession(db: Db, input: RunInput)
    requires SessionFor(db, input).Ok? && SessionAccepts(db, input, SessionFor(db, input).value)
    ensures input.parent.None? ==> SessionFor(db, input).value == input.session
    ensures SessionFor(db, input).value.Some? ==> SessionFor(db, input).value.value < |db.sessions|
  {
  }

  lemma Parts(db: Db)
    requires Inv(db)
    ensures RowsOk(db) && SessionsOk(db) && CapacityOk(db)
  {
  }

  // ------------------------------------------------------------- several in turn

  /** The room left after a grant. */
  function Left(room: Room, requested: Option<int>): Room {
    Room(if room.slots.None? then None else Some(room.slots.value - 1),
         if room.tokens.None? then None else Some(room.tokens.value - Reserved(room, requested)))
  }

  function LeftAfter(room: Room, requests: seq<Option<int>>): Room {
    if requests == [] then room
    else Left(LeftAfter(room, requests[..|requests| - 1]), requests[|requests| - 1])
  }

  /** Each request fits in what its predecessors left. */
  predicate FitInTurn(room: Room, requests: seq<Option<int>>) {
    requests == []
    || (FitInTurn(room, requests[..|requests| - 1])
        && Fits(LeftAfter(room, requests[..|requests| - 1]), requests[|requests| - 1]))
  }

  /** A creation takes exactly its grant out of the tenant's room. */
  lemma CreationTakesRoom(db: Db, input: RunInput, db': Db)
    requires RowsOk(db) && RowsOk(db') && Admissible(db, input.tenant, input.tokenBudget) && CreatedIn(db, db', input)
    ensures RoomOf(db', input.tenant) == Left(RoomOf(db, input.tenant), input.tokenBudget)
  {
    hide RowsOk, ActiveCount, LiveOf, UsedToday, RemainingReserved, CreatedRow, Load, Occupies;
    var t, run := input.tenant, db'.runs[|db.runs|];
    ActiveIsLive(db, t);
    ActiveIsLive(db', t);
    assert db'.runs[..|db.runs|] == db.runs;
    TotalsGrown(db, db', t);
    FreshLoad(db, run, input);
  }

  lemma FreshLoad(db: Db, run: Run, input: RunInput)
    requires input.tenant < |db.tenants| && CreatedRow(db, run, input)
    ensures Occupies(run, input.tenant) == 1
    ensures Reserved(RoomOf(db, input.tenant), input.tokenBudget) >= 0
    ensures Load(run, input.tenant, Day(db.now)) == Reserved(RoomOf(db, input.tenant), input.tokenBudget)
  {
    hide RoomOf;
    LastOfExtended([], run.events[0]);
    LastOfExtended([run.events[0]], run.events[1]);
    assert [] + [run.events[0]] == [run.events[0]] && [run.events[0]] + [run.events[1]] == run.events;
  }

  function Total(requests: seq<Option<int>>): int {
    if requests == [] then 0
    else
      Total(requests[..|requests| - 1])
      + (if requests[|requests| - 1].Some? then requests[|requests| - 1].value else 0)
  }

  /** Explicit requests fit in turn exactly when there are slots for all of them, every one is
      positive, and together they fit in the tokens left. */
  lemma {:induction false} FitInTurnIff(room: Room, requests: seq<Option<int>>)
    requires forall i :: 0 <= i < |requests| ==> requests[i].Some?
    ensures LeftAfter(room, requests) ==
            Room(if room.slots.None? then None else Some(room.slots.value - |requests|),
                 if room.tokens.None? then None else Some(room.tokens.value - Total(requests)))
    ensures FitInTurn(room, requests) ==> Total(requests) >= |requests|
    ensures requests != [] ==>
      (FitInTurn(room, requests) <==>
         && (room.slots.Some? ==> |requests| <= room.slots.value)
         && (forall i :: 0 <= i < |requests| ==> requests[i].value >= 1)
         && (room.tokens.Some? ==> Total(requests) <= room.tokens.value))
  {
    if requests != [] {
      var n := |requests| - 1;
      FitInTurnIff(room, requests[..n]);
      assert requests == requests[..n] + [requests[n]];
    }
  }
}
