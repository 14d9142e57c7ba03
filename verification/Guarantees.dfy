/** What the kernel promises for every execution: any interleaving of the transactions of
    workers, the scheduler, API callers and session dispatchers, with the clock moving
    between them. `n` and `m` are positions in an execution. */
module Guarantees {
  import opened Prelude
  import opened RunStates
  import opened Tables
  import opened Kernel
  import opened Admissions
  import opened Children
  import opened Sessions
  import opened RowInvariants
  import opened Evolution
  import opened Fencing
  import opened Ledger
  import opened CapacityAccounting
  import opened Lineage
  import opened SessionInvariants
  import opened Invariants
  import opened Transactions
  import opened Delegation
  import opened SessionTransactions
  import opened InboundEvents
  import opened Runtime

  lemma RowAt(states: seq<Db>, steps: seq<Step>, n: nat, r: RunId)
    requires Execution(states, steps) && n < |states| && r < |states[n].runs|
    ensures Inv(states[n]) && RowOk(states[n].runs[r], states[n].now)
  {
    Reachable(states, steps, n);
  }

  // ------------------------------------------------------------------------- ledger

  /** A run's events are numbered 1..last_event_seq without a gap, each is published exactly
      once and in order, and folding the transition events from CREATED along legal edges
      gives the stored status. */
  lemma LedgerIsTheTruth(states: seq<Db>, steps: seq<Step>, n: nat, r: RunId)
    requires Execution(states, steps) && n < |states| && r < |states[n].runs|
    ensures var run := states[n].runs[r];
            && |run.events| == run.lastEventSeq
            && (forall k :: 0 <= k < |run.events| ==> run.events[k].seqNo == k + 1)
            && Published(states[n].outbox, r) == UpTo(run.lastEventSeq)
            && Replay(run.events) == Some(run.status)
  {
    RowAt(states, steps, n, r);
  }

  /** After a transition into a terminal status no further transition is recorded. */
  lemma NothingAfterTheEnd(states: seq<Db>, steps: seq<Step>, n: nat, r: RunId, i: nat, j: nat)
    requires Execution(states, steps) && n < |states| && r < |states[n].runs|
    requires i < j < |states[n].runs[r].events|
    requires states[n].runs[r].events[i].edge.Some? && IsTerminal(states[n].runs[r].events[i].edge.value.to)
    ensures states[n].runs[r].events[j].edge.None?
  {
    RowAt(states, steps, n, r);
    NoTransitionAfterTerminal(states[n].runs[r].events, i, j);
  }

  /** History is append-only and a terminal status is forever. */
  lemma HistoryIsAppendOnly(states: seq<Db>, steps: seq<Step>, m: nat, n: nat, r: RunId)
    requires Execution(states, steps) && m <= n < |states| && r < |states[m].runs|
    ensures r < |states[n].runs| && states[m].runs[r].events <= states[n].runs[r].events
    ensures IsTerminal(states[m].runs[r].status) ==> states[n].runs[r].status == states[m].runs[r].status
  {
    History(states, steps, m, n);
    assert RowEvolves(states[m].runs[r], states[n].runs[r], |states[m].attempts|);
  }

  // ------------------------------------------------------------------------- fencing

  /** Unclaimed runs have no current attempt; an executing run's current attempt carries the
      highest number of all its attempts. */
  lemma OwnerIsHighest(states: seq<Db>, steps: seq<Step>, n: nat, r: RunId)
    requires Execution(states, steps) && n < |states| && r < |states[n].runs|
    ensures var db := states[n];
            && (db.runs[r].status == Queued ==> db.runs[r].current.None?)
            && (IsExecuting(db.runs[r].status) ==>
                  db.runs[r].current.Some? && db.runs[r].current.value < |db.attempts|
                  && db.attempts[db.runs[r].current.value].run == r
                  && forall a :: 0 <= a < |db.attempts| && db.attempts[a].run == r ==>
                       db.attempts[a].no <= db.attempts[db.runs[r].current.value].no)
  {
    RowAt(states, steps, n, r);
    var db := states[n];
    assert OwnerOk(db.attempts, r, db.runs[r]);
    if IsExecuting(db.runs[r].status) {
      var c := db.runs[r].current.value;
      forall a | 0 <= a < |db.attempts| && db.attempts[a].run == r
        ensures db.attempts[a].no <= db.attempts[c].no
      {
        assert a < c || a == c;
      }
    }
  }

  /** An attempt that is not current never becomes current again. */
  lemma OwnershipIsNeverRegained(states: seq<Db>, steps: seq<Step>, m: nat, n: nat, r: RunId, a: AttemptId)
    requires Execution(states, steps) && m <= n < |states| && r < |states[m].runs|
    requires a < |states[m].attempts| && states[m].runs[r].current != Some(a)
    ensures r < |states[n].runs| && states[n].runs[r].current != Some(a)
  {
    History(states, steps, m, n);
    assert RowEvolves(states[m].runs[r], states[n].runs[r], |states[m].attempts|);
  }

  /** Numbers identify attempts and an attempt that left ACTIVE never returns. */
  lemma AttemptsAreFinal(states: seq<Db>, steps: seq<Step>, m: nat, n: nat, a: AttemptId)
    requires Execution(states, steps) && m <= n < |states| && a < |states[m].attempts|
    ensures a < |states[n].attempts|
    ensures states[n].attempts[a].run == states[m].attempts[a].run && states[n].attempts[a].no == states[m].attempts[a].no
    ensures states[m].attempts[a].state != ActiveAttempt ==> states[n].attempts[a].state == states[m].attempts[a].state
  {
    History(states, steps, m, n);
    assert AttemptEvolves(states[m].attempts[a], states[n].attempts[a]);
  }

  /** Crashes and errors put a run back in the queue at most maxAttempts - 1 times. */
  lemma FailureRequeuesAreBounded(states: seq<Db>, steps: seq<Step>, n: nat, r: RunId)
    requires Execution(states, steps) && n < |states| && r < |states[n].runs|
    ensures RequeueCount(states[n].runs[r].events) <= Max(states[n].cfg.maxAttempts - 1, 0)
  {
    RowAt(states, steps, n, r);
    RequeuesBounded(states[n], r);
  }

  // ------------------------------------------------------------------------ capacity

  /** Tokens used today plus the unspent part of all active reservations fit the daily budget,
      and active admissions fit the concurrency limit. */
  lemma TenantWithinQuota(states: seq<Db>, steps: seq<Step>, n: nat, t: TenantId)
    requires Execution(states, steps) && n < |states| && t < |states[n].tenants|
    ensures states[n].tenants[t].dailyBudget.Some? ==>
              UsedToday(states[n], t) + RemainingReserved(states[n], t) <= states[n].tenants[t].dailyBudget.value
    ensures states[n].tenants[t].maxConcurrent.Some? ==>
              ActiveCount(states[n], t) <= states[n].tenants[t].maxConcurrent.value
  {
    Reachable(states, steps, n);
    assert TenantOk(states[n], t);
  }

  /** Active admissions are exactly the live runs, so reconciling terminal ones changes nothing. */
  lemma AdmissionsAreLiveRuns(states: seq<Db>, steps: seq<Step>, n: nat, t: TenantId)
    requires Execution(states, steps) && n < |states|
    ensures forall r :: 0 <= r < |states[n].runs| ==>
              (states[n].runs[r].admission.active <==> !IsTerminal(states[n].runs[r].status))
    ensures ReconcileTerminal(states[n], t) == states[n]
  {
    Reachable(states, steps, n);
    ReconcileIsNoOp(states[n], t);
    forall r | 0 <= r < |states[n].runs|
      ensures states[n].runs[r].admission.active <==> !IsTerminal(states[n].runs[r].status)
    {
      assert RowOk(states[n].runs[r], states[n].now);
    }
  }

  /** The token counter is the metered usage of the ledger and stays within the budget, and so
      does everything spent along a replacement lineage. */
  lemma SpendingWithinBudget(states: seq<Db>, steps: seq<Step>, n: nat, r: RunId)
    requires Execution(states, steps) && n < |states| && r < |states[n].runs|
    ensures var db := states[n];
            && db.runs[r].tokensUsed == TotalUsage(db.runs[r].events)
            && (db.runs[r].tokenBudget.Some? ==> db.runs[r].tokensUsed <= db.runs[r].tokenBudget.value)
            && (db.runs[RootOf(db.runs, r)].tokenBudget.Some? ==>
                  ChainSpent(db.runs, r) <= db.runs[RootOf(db.runs, r)].tokenBudget.value)
  {
    RowAt(states, steps, n, r);
    if states[n].runs[RootOf(states[n].runs, r)].tokenBudget.Some? {
      ChainWithinBudget(states[n], r);
    }
  }

  // ------------------------------------------------------------------------- lineage

  /** Lineages are chains of at most maxChildReplacements + 1 runs, numbered by generation;
      of two runs in one lineage the older failed and was replaced. */
  lemma LineagesAreShortChains(states: seq<Db>, steps: seq<Step>, n: nat, q: RunId, r: RunId)
    requires Execution(states, steps) && n < |states| && q < r < |states[n].runs|
    requires RootOf(states[n].runs, q) == RootOf(states[n].runs, r)
    ensures states[n].runs[r].generation == Distance(states[n].runs, r) <= states[n].cfg.maxChildReplacements
    ensures states[n].runs[q].generation < states[n].runs[r].generation
    ensures states[n].runs[q].status == Failed && Superseded(states[n], q)
  {
    Reachable(states, steps, n);
    GenerationIsDistance(states[n], r);
    OlderIsSuperseded(states[n], q, r);
  }

  /** Exactly one child is selected for every subtask a parent spawned. */
  lemma OneSelectedChild(states: seq<Db>, steps: seq<Step>, n: nat, parent: RunId, c: RunId)
    requires Execution(states, steps) && n < |states|
    requires IsChild(states[n], parent, c) && states[n].runs[c].predecessor.None?
    ensures exists s :: StandsFor(states[n], parent, s, c)
    ensures forall s, t :: StandsFor(states[n], parent, s, c) && StandsFor(states[n], parent, t, c) ==> s == t
  {
    Reachable(states, steps, n);
    SelectedOncePerSubtask(states[n], parent, c);
  }

  // ------------------------------------------------------------------------ sessions

  /** A session that is not cancelled is IDLE exactly when it has no current run; otherwise its
      state is the projection of that run, the only live top-level run it has. */
  lemma SessionMirrorsItsRun(states: seq<Db>, steps: seq<Step>, n: nat, s: SessionId)
    requires Execution(states, steps) && n < |states| && s < |states[n].sessions|
    requires states[n].sessions[s].state != SessionCancelled
    ensures var db := states[n];
            && (db.sessions[s].state == Idle <==> db.sessions[s].current.None?)
            && (db.sessions[s].current.Some? ==>
                  var r := db.sessions[s].current.value;
                  && r < |db.runs| && db.runs[r].session == Some(s) && db.runs[r].parent.None?
                  && !IsTerminal(db.runs[r].status)
                  && db.sessions[s].state == Projection(db.runs[r].status))
            && forall q :: 0 <= q < |db.runs| && db.runs[q].parent.None? && LiveIn(db, s, q) ==>
                 db.sessions[s].current == Some(q)
  {
    Reachable(states, steps, n);
    assert MirrorsRun(states[n], s);
    forall q | 0 <= q < |states[n].runs| && states[n].runs[q].parent.None? && LiveIn(states[n], s, q)
      ensures states[n].sessions[s].current == Some(q)
    {
      assert LivesInSession(states[n], q);
    }
  }

  /** Runs that a step creates are live right after it. */
  ghost predicate BornLive(db: Db, db': Db)
  {
    && |db.runs| <= |db'.runs|
    && forall r :: |db.runs| <= r < |db'.runs| ==> !IsTerminal(db'.runs[r].status)
  }

  lemma {:induction false} SpawnedLive(db: Db, parent: RunId, a: AttemptId, tenant: TenantId, budgets: seq<Option<int>>)
    requires Inv(db) && parent < |db.runs|
    requires SpawnAll(db, parent, a, tenant, budgets).Ok?
    ensures BornLive(db, SpawnAll(db, parent, a, tenant, budgets).value)
    decreases |budgets|
  {
    hide Inv, Evolves;
    if budgets != [] {
      var n := |budgets| - 1;
      var before := SpawnAll(db, parent, a, tenant, budgets[..n]).value;
      SpawnedLive(db, parent, a, tenant, budgets[..n]);
      SpawnAllKeeps(db, parent, a, tenant, budgets[..n]);
      CreateRunShape(before, ChildInput(tenant, parent, budgets[n]));
      var created := CreateRun(before, ChildInput(tenant, parent, budgets[n])).value;
      assert forall r :: 0 <= r < |before.runs| ==> created.runs[r] == created.runs[..|before.runs|][r];
    }
  }

  lemma {:induction false} ReplacedLive(db: Db, parent: RunId, cs: seq<RunId>)
    requires Inv(db) && parent < |db.runs|
    requires forall c :: c in cs ==> Replaceable(db, parent, c)
    requires forall i, j :: 0 <= i < j < |cs| ==> cs[i] < cs[j]
    requires ReplaceAll(db, parent, cs).Ok?
    ensures BornLive(db, ReplaceAll(db, parent, cs).value)
    decreases |cs|
  {
    hide Inv, Evolves, Replaceable;
    if cs != [] {
      var n := |cs| - 1;
      var before := ReplaceAll(db, parent, cs[..n]).value;
      ReplacedLive(db, parent, cs[..n]);
      ReplaceAllKeeps(db, parent, cs[..n]);
      var input := ReplacementInput(before, parent, cs[n]);
      CreateRunShape(before, input);
      var created := CreateRun(before, input).value;
      assert forall r :: 0 <= r < |before.runs| ==> created.runs[r] == created.runs[..|before.runs|][r];
    }
  }

  lemma DispatchBornLive(db: Db, s: SessionId, at: nat)
    requires Inv(db) && DispatchNext(db, s, at).Ok?
    ensures BornLive(db, DispatchNext(db, s, at).value)
  {
    hide Inv;
    hide CreateRun;
    CreateRunShape(db, DispatchInput(db, s));
  }

  lemma CancelBornLive(db: Db, s: SessionId)
    requires Inv(db) && CancelSession(db, s).Ok?
    ensures BornLive(db, CancelSession(db, s).value)
  {
    hide Inv;
    if !IsClosed(db.sessions[s].state) {
      FenceEndsAll(db, s);
    }
  }

  lemma CreateBornLive(db: Db, input: RunInput)
    requires Inv(db) && CreateRun(db, input).Ok?
    ensures BornLive(db, CreateRun(db, input).value)
  {
    hide Inv, CreateRun;
    CreateRunShape(db, input);
  }

  /** No other step creates a run. */
  lemma NothingBorn(db: Db, step: Step)
    requires Apply(db, step).Ok?
    requires !step.Submit? && !step.Spawn? && !step.Wake? && !step.CloseSession? && !step.Dispatch?
    ensures BornLive(db, Apply(db, step).value)
  {
    hide MaxAttemptNo, Moved, Recorded, LimitModelInvocation;
  }

  lemma StepBornLive(db: Db, step: Step)
    requires Inv(db) && Permitted(db, step) && Apply(db, step).Ok?
    ensures BornLive(db, Apply(db, step).value)
  {
    hide Inv, BornLive;
    match step
    case Submit(input) => CreateBornLive(db, input);
    case Spawn(p, a, budgets) => SpawnEndsLive(db, p, a, budgets);
    case Wake(p) => WakeBornLive(db, p);
    case CloseSession(s) => CancelBornLive(db, s);
    case Dispatch(s, at) => DispatchBornLive(db, s, at);
    case _ => NothingBorn(db, step);
  }

  lemma SpawnEndsLive(db: Db, p: RunId, a: AttemptId, budgets: seq<Option<int>>)
    requires Inv(db) && SpawnChildren(db, p, a, budgets).Ok?
    ensures BornLive(db, SpawnChildren(db, p, a, budgets).value)
  {
    hide Inv, Recorded;
    hide SpawnAll;
    SpawnedLive(db, p, a, db.runs[p].tenant, budgets);
  }

  lemma WakeBornLive(db: Db, p: RunId)
    requires Inv(db) && WakeParent(db, p).Ok?
    ensures BornLive(db, WakeParent(db, p).value)
  {
    hide Inv, Recorded, Moved;
    hide ReplaceAll;
    var failed := ReplaceableBelow(db, p, |db.runs|);
    if failed != [] && ReplaceAll(db, p, failed).Ok? {
      ReplacedLive(db, p, failed);
    }
  }

  lemma BornLiveAt(states: seq<Db>, steps: seq<Step>, n: nat)
    requires Execution(states, steps) && 0 < n < |states|
    ensures BornLive(states[n - 1], states[n])
  {
    hide Inv, InboundOk, Apply, Permitted, BornLive;
    Reachable(states, steps, n - 1);
    var db, step := states[n - 1], steps[n - 1];
    assert Taken(states, steps, n - 1);
    StepBornLive(db, step);
  }

  lemma CancelledHasNoLiveRun(states: seq<Db>, steps: seq<Step>, n: nat, s: SessionId, r: RunId)
    requires Execution(states, steps) && n < |states|
    requires s < |states[n].sessions| && states[n].sessions[s].state == SessionCancelled
    requires r < |states[n].runs| && states[n].runs[r].session == Some(s)
    ensures IsTerminal(states[n].runs[r].status)
  {
    Reachable(states, steps, n);
    assert LivesInSession(states[n], r);
  }

  lemma CancelledStays(states: seq<Db>, steps: seq<Step>, m: nat, n: nat, s: SessionId)
    requires Execution(states, steps) && m <= n < |states|
    requires s < |states[m].sessions| && states[m].sessions[s].state == SessionCancelled
    ensures s < |states[n].sessions| && states[n].sessions[s].state == SessionCancelled
  {
    History(states, steps, m, n);
  }

  /** A run that is over right after a step existed before it. */
  lemma OverMeansOlder(states: seq<Db>, steps: seq<Step>, n: nat, r: RunId)
    requires Execution(states, steps) && 0 < n < |states|
    requires r < |states[n].runs| && IsTerminal(states[n].runs[r].status)
    ensures r < |states[n - 1].runs| && states[n - 1].runs[r].session == states[n].runs[r].session
  {
    BornLiveAt(states, steps, n);
    History(states, steps, n - 1, n);
    assert r < |states[n - 1].runs|;
    assert RowEvolves(states[n - 1].runs[r], states[n].runs[r], |states[n - 1].attempts|);
  }

  /** Cancellation is absorbing: the session stays cancelled, all of its runs are over, and no
      run is ever admitted to it again. */
  lemma {:induction false} CancellationIsFinal(states: seq<Db>, steps: seq<Step>, m: nat, n: nat, s: SessionId, r: RunId)
    requires Execution(states, steps) && m <= n < |states|
    requires s < |states[m].sessions| && states[m].sessions[s].state == SessionCancelled
    ensures s < |states[n].sessions| && states[n].sessions[s].state == SessionCancelled
    ensures r < |states[n].runs| && states[n].runs[r].session == Some(s) ==>
              r < |states[m].runs| && IsTerminal(states[n].runs[r].status)
    decreases n
  {
    hide Execution;
    CancelledStays(states, steps, m, n, s);
    if r < |states[n].runs| && states[n].runs[r].session == Some(s) {
      CancelledHasNoLiveRun(states, steps, n, s, r);
      if m < n {
        OverMeansOlder(states, steps, n, r);
        CancellationIsFinal(states, steps, m, n - 1, s, r);
      }
    }
  }

  // ------------------------------------------------------------------ inbound events

  /** A session's events are numbered in the order received without a gap, and no two rows
      carry the same source event. */
  lemma EventsAreNumberedOnce(states: seq<Db>, steps: seq<Step>, n: nat, s: SessionId)
    requires Execution(states, steps) && n < |states| && s < |states[n].sessions|
    ensures ReceivedBy(states[n].inbound, s) == UpTo(states[n].sessions[s].receivedSeq)
    ensures forall i, j :: 0 <= i < j < |states[n].inbound| ==>
              states[n].inbound[i].source != states[n].inbound[j].source
  {
    Reachable(states, steps, n);
  }

  /** A source event accepted once is answered from its first row ever after. */
  lemma ReplaysReturnTheFirstRow(
    states: seq<Db>, steps: seq<Step>, m: nat, n: nat, k: InboundId, input: InboundInput)
    requires Execution(states, steps) && m <= n < |states| && k < |states[m].inbound|
    requires input.source == states[m].inbound[k].source
    requires input.session < |states[n].sessions| && states[n].sessions[input.session].tenant == input.source.tenant
    ensures ReceiveEvent(states[n], input) ==
            (if input.digest == states[m].inbound[k].digest then Ok(Received(states[n], k, true)) else Err(EventConflict))
  {
    History(states, steps, m, n);
    Reachable(states, steps, n);
    AcceptedOnce(states[m], k, states[n], input);
  }

  /** A dispatched event belongs to one top-level run of its session, shares it with no other
      event, and never becomes STALE or changes its run. */
  lemma DispatchedOnce(states: seq<Db>, steps: seq<Step>, m: nat, n: nat, k: InboundId)
    requires Execution(states, steps) && m <= n < |states| && k < |states[m].inbound|
    requires states[m].inbound[k].status.Dispatched?
    ensures k < |states[n].inbound| && states[n].inbound[k].status == states[m].inbound[k].status
    ensures var r := states[m].inbound[k].status.run;
            && r < |states[n].runs| && states[n].runs[r].session == Some(states[m].inbound[k].session)
            && states[n].runs[r].parent.None?
            && forall j :: 0 <= j < |states[n].inbound| && j != k ==> states[n].inbound[j].status != Dispatched(r)
  {
    History(states, steps, m, n);
    Reachable(states, steps, n);
    assert EventRowOk(states[n], states[n].inbound[k]);
    forall j | 0 <= j < |states[n].inbound| && j != k
      ensures states[n].inbound[j].status != states[m].inbound[k].status
    {
      assert j < k || k < j;
    }
  }
}
