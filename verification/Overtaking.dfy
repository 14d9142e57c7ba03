/** Received order of session events over whole executions. A worker reads its clock, finds a
    session whose oldest waiting event is ready by that clock (the candidate query), and only
    later dispatches, by the same reading. In between anything may happen. Order is kept
    exactly when the reading lies before the database's time at the query. */
module Overtaking {
  import opened Prelude
  import opened RunStates
  import opened Tables
  import opened Kernel
  import opened Admissions
  import opened Sessions
  import opened Invariants
  import opened Transactions
  import opened SessionTransactions
  import opened InboundEvents
  import opened Runtime
  import opened SessionDispatch

  // ------------------------------------------------------------- two waiting events

  /** Rows i and j wait for the same session, i received first. */
  predicate BothWait(inbound: seq<Inbound>, i: nat, j: nat)
  {
    && i < j < |inbound|
    && AwaitsDispatch(inbound[i], inbound[i].session) && AwaitsDispatch(inbound[j], inbound[i].session)
  }

  /** If a waiting event is due later than an older one, it was never put off: its time has
      come, and nothing received after it is due earlier. */
  ghost predicate TimesOk(inbound: seq<Inbound>, now: nat)
  {
    forall i: nat, j: nat :: BothWait(inbound, i, j) ==> PairOk(inbound, now, i, j)
  }

  ghost predicate PairOk(inbound: seq<Inbound>, now: nat, i: nat, j: nat)
    requires BothWait(inbound, i, j)
  {
    inbound[i].dispatchAfter < inbound[j].dispatchAfter ==>
      && inbound[j].dispatchAfter <= now
      && forall l: nat :: BothWait(inbound, j, l) ==> inbound[j].dispatchAfter <= inbound[l].dispatchAfter
  }

  /** Among the session's waiting events, those due at `at` come before those that are not. */
  ghost predicate DueFirst(inbound: seq<Inbound>, s: SessionId, at: nat)
  {
    forall i: nat, j: nat :: BothWait(inbound, i, j) && inbound[i].session == s && inbound[j].dispatchAfter <= at ==>
      inbound[i].dispatchAfter <= at
  }

  // ---------------------------------------------------------------------- one step

  /** A step that puts no event off: rows settle or stay as they are, new ones are due now. */
  ghost predicate TimesKept(db: Db, db': Db)
  {
    && |db.inbound| <= |db'.inbound| && db.now <= db'.now
    && (forall i :: 0 <= i < |db.inbound| ==> db'.inbound[i] == db.inbound[i].(status := db'.inbound[i].status))
    && (forall i :: 0 <= i < |db.inbound| && db'.inbound[i].status == Pending ==> db.inbound[i].status == Pending)
    && (forall i :: |db.inbound| <= i < |db'.inbound| ==> db'.inbound[i].dispatchAfter == db.now)
    && (forall i :: |db.inbound| <= i < |db'.inbound| ==> !db'.inbound[i].status.Dispatched?)
  }

  lemma ReceiveTimes(db: Db, e: InboundInput)
    requires Sessions.ReceiveEvent(db, e).Ok?
    ensures TimesKept(db, Sessions.ReceiveEvent(db, e).value.db)
  {
    hide Moved, Recorded;
  }

  lemma CancelTimes(db: Db, s: SessionId)
    requires CancelSession(db, s).Ok? && Inv(db)
    ensures TimesKept(db, CancelSession(db, s).value)
  {
    hide CancelEach, Inv;
    CancelSessionKeeps(db, s);
    if !IsClosed(db.sessions[s].state) {
      CancelledShape(db, s);
    }
  }

  lemma DispatchTimes(db: Db, s: SessionId, at: nat)
    requires Inv(db) && DispatchNext(db, s, at).Ok?
    ensures TimesKept(db, DispatchNext(db, s, at).value)
  {
    hide Inv;
    hide CreateRun;
    CreateRunShape(db, DispatchInput(db, s));
  }

  lemma StepTimes(db: Db, step: Step)
    requires Inv(db) && Permitted(db, step) && Apply(db, step).Ok? && !step.Postpone?
    ensures TimesKept(db, Apply(db, step).value)
  {
    if !TouchesInbound(step) {
      StepQuiet(db, step);
      StepKeeps(db, step);
      hide Inv, Apply, Permitted;
    } else {
      hide TimesKept, CancelSession, Sessions.ReceiveEvent, DispatchNext;
      match step
      case OpenSession(t) => OpenTimes(db, t);
      case CloseSession(s) => CancelTimes(db, s);
      case Receive(e) => ReceiveTimes(db, e);
      case Dispatch(s, at) => DispatchTimes(db, s, at);
    }
  }

  lemma OpenTimes(db: Db, t: TenantId)
    requires CreateSession(db, t).Ok?
    ensures TimesKept(db, CreateSession(db, t).value)
  {
  }

  lemma TimesStay(db: Db, db': Db)
    requires TimesOk(db.inbound, db.now) && TimesKept(db, db')
    ensures TimesOk(db'.inbound, db'.now)
  {
    forall i: nat, j: nat | BothWait(db'.inbound, i, j)
      ensures PairOk(db'.inbound, db'.now, i, j)
    {
      if j < |db.inbound| {
        assert BothWait(db.inbound, i, j) && PairOk(db.inbound, db.now, i, j);
        forall l: nat | BothWait(db'.inbound, j, l) && db.inbound[i].dispatchAfter < db.inbound[j].dispatchAfter
          ensures db'.inbound[j].dispatchAfter <= db'.inbound[l].dispatchAfter
        {
          if l < |db.inbound| { assert BothWait(db.inbound, j, l); }
        }
      }
    }
  }

  lemma DueFirstStays(db: Db, db': Db, s: SessionId, at: nat)
    requires DueFirst(db.inbound, s, at) && at < db.now && TimesKept(db, db')
    ensures DueFirst(db'.inbound, s, at)
  {
    forall i: nat, j: nat | BothWait(db'.inbound, i, j) && db'.inbound[i].session == s && db'.inbound[j].dispatchAfter <= at
      ensures db'.inbound[i].dispatchAfter <= at
    {
      assert BothWait(db.inbound, i, j);
    }
  }

  lemma PostponedTimes(db: Db, s: SessionId, until: nat)
    requires TimesOk(db.inbound, db.now)
    ensures TimesOk(PostponeQueue(db, s, until).inbound, db.now)
  {
    var inbound' := PostponeQueue(db, s, until).inbound;
    forall i: nat, j: nat | BothWait(inbound', i, j)
      ensures PairOk(inbound', db.now, i, j)
    {
      assert BothWait(db.inbound, i, j) && PairOk(db.inbound, db.now, i, j);
      forall l: nat | BothWait(inbound', j, l) && inbound'[i].dispatchAfter < inbound'[j].dispatchAfter
        ensures inbound'[j].dispatchAfter <= inbound'[l].dispatchAfter
      {
        assert BothWait(db.inbound, j, l);
      }
    }
  }

  lemma PostponedDueFirst(db: Db, t: SessionId, until: nat, s: SessionId, at: nat)
    requires DueFirst(db.inbound, s, at)
    ensures DueFirst(PostponeQueue(db, t, until).inbound, s, at)
  {
    var inbound' := PostponeQueue(db, t, until).inbound;
    forall i: nat, j: nat | BothWait(inbound', i, j) && inbound'[i].session == s && inbound'[j].dispatchAfter <= at
      ensures inbound'[i].dispatchAfter <= at
    {
      assert BothWait(db.inbound, i, j);
    }
  }

  // --------------------------------------------------------------------- executions

  /** The candidate query: the session is idle and its oldest waiting event is due. */
  ghost predicate Candidate(db: Db, s: SessionId, at: nat)
  {
    && s < |db.sessions| && db.sessions[s].state == Idle
    && (exists i :: 0 <= i < |db.inbound| && AwaitsDispatch(db.inbound[i], s))
    && OldestReady(db.inbound, s, at)
  }

  /** Step m, if it dispatches, was nominated by a query at some point c up to then, with a clock
      reading that leads the database's time at the query by at most `lead`. */
  ghost predicate Nominated(states: seq<Db>, steps: seq<Step>, m: nat, lead: int)
    requires |states| == |steps| + 1 && m < |steps|
  {
    steps[m].Dispatch? ==> exists c: nat :: c <= m && NominatedAt(states[c], steps[m].session, steps[m].at, lead)
  }

  ghost predicate NominatedAt(db: Db, s: SessionId, at: nat, lead: int) { Candidate(db, s, at) && at <= db.now + lead }

  lemma {:induction false} TimesAt(states: seq<Db>, steps: seq<Step>, n: nat)
    requires Execution(states, steps) && n < |states|
    ensures TimesOk(states[n].inbound, states[n].now)
    decreases n
  {
    hide Inv, InboundOk, Apply, Permitted, TimesOk;
    if n == 0 {
      NothingWaits(states[0]);
    } else {
      TimesAt(states, steps, n - 1);
      Reachable(states, steps, n - 1);
      assert Taken(states, steps, n - 1);
      TimesStep(states[n - 1], steps[n - 1]);
    }
  }

  lemma NothingWaits(db: Db)
    requires Initial(db)
    ensures TimesOk(db.inbound, db.now) && InOrder(db.inbound)
  {
  }

  lemma TimesStep(db: Db, step: Step)
    requires Inv(db) && Permitted(db, step) && Apply(db, step).Ok? && TimesOk(db.inbound, db.now)
    ensures TimesOk(Apply(db, step).value.inbound, Apply(db, step).value.now)
  {
    hide Inv, Permitted, TimesOk, TimesKept;
    if step.Postpone? {
      PostponedTimes(db, step.session, step.until);
    } else {
      StepTimes(db, step);
      TimesStay(db, Apply(db, step).value);
    }
  }

  lemma DueFirstStep(db: Db, step: Step, s: SessionId, at: nat)
    requires Inv(db) && Permitted(db, step) && Apply(db, step).Ok? && DueFirst(db.inbound, s, at) && at < db.now
    ensures DueFirst(Apply(db, step).value.inbound, s, at) && at < Apply(db, step).value.now
  {
    hide Inv, Permitted, DueFirst;
    if step.Postpone? {
      PostponedDueFirst(db, step.session, step.until, s, at);
    } else {
      StepTimes(db, step);
      DueFirstStays(db, Apply(db, step).value, s, at);
    }
  }

  /** At the query, and ever after, what is due by its clock reading comes first. */
  lemma CandidateIsDueFirst(db: Db, s: SessionId, at: nat)
    requires TimesOk(db.inbound, db.now) && Candidate(db, s, at)
    ensures DueFirst(db.inbound, s, at)
  {
    var inbound := db.inbound;
    var k :| 0 <= k < |inbound| && AwaitsDispatch(inbound[k], s);
    var o := OldestOf(inbound, s, k);
    forall i: nat, j: nat | BothWait(inbound, i, j) && inbound[i].session == s && inbound[j].dispatchAfter <= at
      ensures inbound[i].dispatchAfter <= at
    {
      assert o <= i;
      if o < i {
        assert BothWait(inbound, o, i) && PairOk(inbound, db.now, o, i);
      }
    }
  }

  lemma OldestOf(inbound: seq<Inbound>, s: SessionId, k: nat) returns (o: nat)
    requires k < |inbound| && AwaitsDispatch(inbound[k], s)
    ensures o <= k && AwaitsDispatch(inbound[o], s)
    ensures forall i :: 0 <= i < o ==> !AwaitsDispatch(inbound[i], s)
  {
    o := 0;
    while !AwaitsDispatch(inbound[o], s)
      invariant o <= k
      invariant forall i :: 0 <= i < o ==> !AwaitsDispatch(inbound[i], s)
      decreases k - o
    {
      o := o + 1;
    }
  }

  lemma {:induction false} DueFirstLater(states: seq<Db>, steps: seq<Step>, c: nat, n: nat, s: SessionId, at: nat)
    requires Execution(states, steps) && c <= n < |states|
    requires Candidate(states[c], s, at) && at < states[c].now
    ensures DueFirst(states[n].inbound, s, at) && at < states[n].now
    decreases n
  {
    hide Inv, InboundOk, Apply, Permitted, TimesOk, DueFirst, Candidate;
    if c == n {
      TimesAt(states, steps, c);
      CandidateIsDueFirst(states[c], s, at);
    } else {
      DueFirstLater(states, steps, c, n - 1, s, at);
      Reachable(states, steps, n - 1);
      assert Taken(states, steps, n - 1);
      DueFirstStep(states[n - 1], steps[n - 1], s, at);
    }
  }

  lemma DueBefore(inbound: seq<Inbound>, s: SessionId, at: nat, k: nat)
    requires DueFirst(inbound, s, at) && k < |inbound| && Dispatchable(inbound[k], s, at)
    ensures forall i :: 0 <= i < k && AwaitsDispatch(inbound[i], s) ==> inbound[i].dispatchAfter <= at
  {
    forall i | 0 <= i < k && AwaitsDispatch(inbound[i], s)
      ensures inbound[i].dispatchAfter <= at
    {
      assert BothWait(inbound, i, k);
    }
  }

  /** So the next due event is the oldest one waiting. */
  lemma DueFirstIsOldestReady(db: Db, s: SessionId, at: nat)
    requires DueFirst(db.inbound, s, at) && NextDispatch(db.inbound, s, at) < |db.inbound|
    ensures OldestReady(db.inbound, s, at)
  {
    DueBefore(db.inbound, s, at, NextDispatch(db.inbound, s, at));
  }

  lemma KeptInOrder(db: Db, db': Db)
    requires InOrder(db.inbound) && TimesKept(db, db') && ReceiptsKept(db, db')
    requires forall i :: 0 <= i < |db.inbound| && db'.inbound[i].status.Dispatched? ==>
               db.inbound[i].status == db'.inbound[i].status
    ensures InOrder(db'.inbound)
  {
  }

  /** No step but a dispatch dispatches. */
  lemma StepInOrder(db: Db, step: Step)
    requires Inv(db) && InboundOk(db) && Permitted(db, step) && Apply(db, step).Ok? && InOrder(db.inbound) && !step.Dispatch?
    ensures InOrder(Apply(db, step).value.inbound)
  {
    if step.Postpone? {
      hide Inv, InboundOk, InOrder;
      PostponedInOrder(db.inbound, Apply(db, step).value.inbound, step.session, step.until);
    } else {
      StepTimes(db, step);
      StepInbound(db, step);
      NoneDispatched(db, step);
      hide Inv, InboundOk, Apply, Permitted, InOrder, TimesKept, ReceiptsKept;
      KeptInOrder(db, Apply(db, step).value);
    }
  }

  lemma NoneDispatched(db: Db, step: Step)
    requires Inv(db) && Permitted(db, step) && Apply(db, step).Ok? && !step.Dispatch? && !step.Postpone?
    ensures var db' := Apply(db, step).value;
            && |db.inbound| <= |db'.inbound|
            && forall i :: 0 <= i < |db.inbound| && db'.inbound[i].status.Dispatched? ==>
                 db.inbound[i].status == db'.inbound[i].status
  {
    if !TouchesInbound(step) {
      StepQuiet(db, step);
      hide Inv, Apply, Permitted;
    } else if step.CloseSession? {
      if !IsClosed(db.sessions[step.session].state) {
        CancelledShape(db, step.session);
      }
      hide Inv, CancelEach;
    } else {
      hide Inv, Moved, Recorded;
    }
  }

  lemma DispatchInOrderStep(states: seq<Db>, steps: seq<Step>, m: nat, lead: int)
    requires Execution(states, steps) && m < |steps| && steps[m].Dispatch? && Nominated(states, steps, m, lead)
    requires lead < 0 && InOrder(states[m].inbound)
    ensures InOrder(states[m + 1].inbound)
  {
    hide Inv, InboundOk, InOrder, DueFirst, Candidate, OldestReady;
    var s, at := steps[m].session, steps[m].at;
    var c: nat :| c <= m && NominatedAt(states[c], s, at, lead);
    Reachable(states, steps, m);
    assert Taken(states, steps, m);
    hide Execution, CreateRun;
    DueFirstLater(states, steps, c, m, s, at);
    DueFirstIsOldestReady(states[m], s, at);
    OrderKeptIffOldestReady(states[m], s, at);
  }

  /** With clock readings that lie before the database's time at the query, no event is ever
      overtaken, whatever is received, put off or dispatched between query and dispatch. */
  lemma {:induction false} EventsStayInOrder(states: seq<Db>, steps: seq<Step>, n: nat, lead: int)
    requires Execution(states, steps) && n < |states| && lead < 0
    requires forall m: nat :: m < n ==> Nominated(states, steps, m, lead)
    ensures InOrder(states[n].inbound)
    decreases n
  {
    hide Inv, InboundOk, Apply, Permitted, InOrder, Nominated;
    if n == 0 {
      NothingWaits(states[0]);
    } else {
      EventsStayInOrder(states, steps, n - 1, lead);
      if steps[n - 1].Dispatch? {
        DispatchInOrderStep(states, steps, n - 1, lead);
      } else {
        Reachable(states, steps, n - 1);
        assert Taken(states, steps, n - 1);
        StepInOrder(states[n - 1], steps[n - 1]);
      }
    }
  }

  // ------------------------------------------- readings that are not behind the clock

  ghost predicate OrderHolds(lead: int)
  {
    forall states: seq<Db>, steps: seq<Step> | Execution(states, steps) && AllNominated(states, steps, lead) ::
      InOrder(states[|steps|].inbound)
  }

  ghost predicate AllNominated(states: seq<Db>, steps: seq<Step>, lead: int)
    requires |states| == |steps| + 1
  {
    forall m: nat :: m < |steps| ==> Nominated(states, steps, m, lead)
  }

  /** Received order holds over all executions exactly when clock readings lie before the time
      of the query. */
  lemma OrderHoldsIffBehindClock(lead: int)
    ensures OrderHolds(lead) <==> lead < 0
  {
    if lead < 0 {
      forall states: seq<Db>, steps: seq<Step> | Execution(states, steps) && AllNominated(states, steps, lead)
        ensures InOrder(states[|steps|].inbound)
      {
        EventsStayInOrder(states, steps, |steps|, lead);
      }
    } else {
      var states, steps := Overtaken(lead);
      hide Execution, AllNominated, InOrder;
      assert Execution(states, steps) && AllNominated(states, steps, lead) && !InOrder(states[|steps|].inbound);
    }
  }

  /** An execution to db in which nothing has been dispatched yet. */
  ghost predicate Passing(states: seq<Db>, steps: seq<Step>, db: Db)
  {
    && Execution(states, steps) && states[|steps|] == db
    && (forall m :: 0 <= m < |steps| ==> !steps[m].Dispatch?)
  }

  lemma Extend(states: seq<Db>, steps: seq<Step>, db: Db, step: Step) returns (states': seq<Db>, steps': seq<Step>, db': Db)
    requires Passing(states, steps, db) && Permitted(db, step) && Apply(db, step).Ok? && !step.Dispatch?
    ensures Passing(states', steps', db') && Apply(db, step) == Ok(db')
    ensures |steps| < |steps'| == |states'| - 1 && states <= states'
  {
    hide Apply, Permitted;
    db' := Apply(db, step).value;
    states', steps' := states + [db'], steps + [step];
    LongerExecution(states, steps, step, db');
  }

  lemma LongerExecution(states: seq<Db>, steps: seq<Step>, step: Step, db': Db)
    requires Execution(states, steps) && Permitted(states[|steps|], step) && Apply(states[|steps|], step) == Ok(db')
    ensures Execution(states + [db'], steps + [step])
  {
    hide Apply, Permitted, Initial;
    var ss, ts := states + [db'], steps + [step];
    forall i | 0 <= i < |ts|
      ensures Taken(ss, ts, i)
    {
      if i < |steps| {
        assert Taken(states, steps, i);
      }
    }
  }

  function OneSlot(): Db {
    Db(Config(3, 0), [Tenant(true, Some(1), None)], [], [], [], [], [], 0)
  }

  function Delivery(id: string): InboundInput {
    InboundInput(0, Source(0, "kertas", "a", id), "digest", FutureRun, false)
  }

  function Waiting(id: string, number: nat, after: nat): Inbound {
    Inbound(0, Source(0, "kertas", "a", id), "digest", number, FutureRun, Pending, after)
  }

  const Plain: RunInput := RunInput(0, None, None, None, 0, None, true)
  const ForSession: RunInput := RunInput(0, Some(0), None, None, 0, None, true)

  lemma SumOfOne(v: int)
    ensures Sum([v]) == v
  {
    SumAppend([], v);
    assert [] + [v] == [v];
  }

  /** The one run in the tables holds the tenant's only slot, or did before it ended. */
  ghost predicate OneRun(db: Db, active: bool)
  {
    && db.tenants == OneSlot().tenants && db.now == 0 && |db.runs| == 1
    && db.runs[0].tenant == 0 && db.runs[0].admission.active == active && (active ==> db.runs[0].status == Queued)
    && db.runs[0].call.None? && db.runs[0].current.None? && db.runs[0].session.None?
  }

  /** A queued run holds the only slot next to an idle session. */
  lemma SlotTaken() returns (states: seq<Db>, steps: seq<Step>, db: Db)
    ensures Passing(states, steps, db) && OneRun(db, true)
    ensures db.sessions == [Session(0, Idle, None, 0)] && db.inbound == []
  {
    states, steps, db := [OneSlot()], [], OneSlot();
    assert Passing(states, steps, db);
    hide Passing, Recorded;
    states, steps, db := Extend(states, steps, db, OpenSession(0));
    assert ReconcileTerminal(db, 0) == db;
    assert ActiveCount(db, 0) == 0;
    states, steps, db := Extend(states, steps, db, Submit(Plain));
  }

  /** The first event arrives and its session becomes a candidate. */
  lemma FirstReceived() returns (states: seq<Db>, steps: seq<Step>, db: Db)
    ensures Passing(states, steps, db) && OneRun(db, true)
    ensures db.sessions == [Session(0, Idle, None, 1)] && db.inbound == [Waiting("1", 1, 0)]
    ensures Candidate(db, 0, 0)
  {
    hide Passing, TransitionRun;
    states, steps, db := SlotTaken();
    states, steps, db := Extend(states, steps, db, Receive(Delivery("1")));
    assert AwaitsDispatch(db.inbound[0], 0);
  }

  lemma AdmissionRefused(db: Db)
    requires OneRun(db, true) && db.sessions == [Session(0, Idle, None, 1)] && db.inbound == [Waiting("1", 1, 0)]
    ensures DispatchNext(db, 0, 0) == Err(AdmissionRejected(ConcurrencyExhausted))
  {
    hide TransitionRun;
    assert ReconcileTerminal(db, 0) == db;
    assert OccupiedByRun(db.runs, 0) == [1];
    SumOfOne(1);
    assert CreateRun(db, ForSession) == Err(AdmissionRejected(ConcurrencyExhausted));
    assert Dispatchable(db.inbound[0], 0, 0);
  }

  /** Another worker, refused admission, puts the event off. */
  lemma FirstPostponed() returns (states: seq<Db>, steps: seq<Step>, db: Db, c: nat)
    ensures Passing(states, steps, db) && OneRun(db, true)
    ensures db.sessions == [Session(0, Idle, None, 1)] && db.inbound == [Waiting("1", 1, 5000)]
    ensures Noticed(states, steps, c)
  {
    states, steps, db := FirstReceived();
    c := |steps|;
    assert states[c] == db;
    AdmissionRefused(db);
    hide Passing, Candidate, DispatchNext;
    states, steps, db := Extend(states, steps, db, Postpone(0, 5000));
  }

  /** The query of state c nominates the session with reading 0. */
  ghost predicate Noticed(states: seq<Db>, steps: seq<Step>, c: nat)
  {
    c < |steps| && |states| == |steps| + 1 && NominatedAt(states[c], 0, 0, 0)
  }

  /** A second event arrives. */
  lemma SecondReceived() returns (states: seq<Db>, steps: seq<Step>, db: Db, c: nat)
    ensures Passing(states, steps, db) && OneRun(db, true)
    ensures db.sessions == [Session(0, Idle, None, 2)]
    ensures db.inbound == [Waiting("1", 1, 5000), Waiting("2", 2, 0)]
    ensures Noticed(states, steps, c)
  {
    hide Passing, TransitionRun, NominatedAt;
    states, steps, db, c := FirstPostponed();
    assert db.inbound[0].source != Delivery("2").source;
    states, steps, db := Extend(states, steps, db, Receive(Delivery("2")));
  }

  /** The run is cancelled and gives its slot back. */
  lemma SlotFreed() returns (states: seq<Db>, steps: seq<Step>, db: Db, c: nat)
    ensures Passing(states, steps, db) && OneRun(db, false)
    ensures db.sessions == [Session(0, Idle, None, 2)]
    ensures db.inbound == [Waiting("1", 1, 5000), Waiting("2", 2, 0)]
    ensures Noticed(states, steps, c)
  {
    hide Passing, NominatedAt, CancelRun, OneRun;
    states, steps, db, c := SecondReceived();
    CancelFrees(db);
    states, steps, db := Extend(states, steps, db, Cancel(0));
  }

  lemma CancelFrees(db: Db)
    requires OneRun(db, true)
    ensures CancelRun(db, 0).Ok? && OneRun(CancelRun(db, 0).value, false)
    ensures CancelRun(db, 0).value.sessions == db.sessions && CancelRun(db, 0).value.inbound == db.inbound
  {
  }

  lemma SlotAvailable(db: Db)
    requires OneRun(db, false) && db.sessions == [Session(0, Idle, None, 2)]
    ensures CreateRun(db, ForSession).Ok? && CreateRun(db, ForSession).value.inbound == db.inbound
  {
    hide Recorded;
    assert ReconcileTerminal(db, 0) == db;
    assert OccupiedByRun(db.runs, 0) == [0];
    SumOfOne(0);
  }

  lemma SecondDispatched(db: Db)
    requires OneRun(db, false) && db.sessions == [Session(0, Idle, None, 2)]
    requires db.inbound == [Waiting("1", 1, 5000), Waiting("2", 2, 0)]
    ensures DispatchNext(db, 0, 0).Ok?
    ensures !InOrder(DispatchNext(db, 0, 0).value.inbound)
  {
    hide CreateRun;
    SlotAvailable(db);
    FirstReady(db.inbound, 0, 0, 1);
    var inbound' := DispatchNext(db, 0, 0).value.inbound;
    assert inbound'[0].status == Pending && inbound'[1].status.Dispatched?;
  }

  /** The first worker goes on with what its query found: the second event starts first. */
  lemma Overtaken(lead: int) returns (states: seq<Db>, steps: seq<Step>)
    requires lead >= 0
    ensures Execution(states, steps) && AllNominated(states, steps, lead)
    ensures !InOrder(states[|steps|].inbound)
  {
    hide Apply, Permitted, DispatchNext, InOrder, Candidate;
    hide Execution;
    var before, taken, db, c := SlotFreed();
    assert Noticed(before, taken, c);
    SecondDispatched(db);
    var db' := DispatchNext(db, 0, 0).value;
    DispatchApplies(db, 0, 0);
    LongerExecution(before, taken, Dispatch(0, 0), db');
    states, steps := before + [db'], taken + [Dispatch(0, 0)];
    forall m: nat | m < |steps|
      ensures Nominated(states, steps, m, lead)
    {
      if m == |taken| {
        assert states[c] == before[c];
        assert NominatedAt(states[c], 0, 0, lead);
      }
    }
  }

  lemma DispatchApplies(db: Db, s: SessionId, at: nat)
    ensures Apply(db, Dispatch(s, at)) == DispatchNext(db, s, at)
    ensures Permitted(db, Dispatch(s, at))
  {
    hide DispatchNext;
  }
}
