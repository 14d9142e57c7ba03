/** The kernel's global invariant, and what each building block of a transaction keeps. */
module Invariants {
  import opened Prelude
  import opened RunStates
  import opened Tables
  import opened Kernel
  import opened Admissions
  import opened RowInvariants
  import opened Evolution
  import opened Fencing
  import opened Ledger
  import opened CapacityAccounting
  import opened Lineage
  import opened SessionInvariants

  ghost predicate RowsOk(db: Db)
  {
    forall r :: 0 <= r < |db.runs| ==> RowOk(db.runs[r], db.now)
  }

  ghost predicate Inv(db: Db)
  {
    && RowsOk(db)
    && FencingOk(db)
    && OutboxOk(db)
    && CapacityOk(db)
    && LineageOk(db)
    && SessionsOk(db)
  }

  /** A transaction that keeps the invariant and only evolves the tables. */
  ghost predicate Keeps(db: Db, db': Db)
  {
    Inv(db') && Evolves(db, db')
  }

  lemma KeepsTransitive(a: Db, b: Db, c: Db)
    requires Keeps(a, b) && Keeps(b, c)
    ensures Keeps(a, c)
  {
    EvolvesTransitive(a, b, c);
  }

  lemma KeepsSame(db: Db)
    requires Inv(db)
    ensures Keeps(db, db)
  {
  }

  // ------------------------------------------------------------- transitions

  /** Side conditions every caller of TransitionRun meets. */
  ghost predicate MoveOk(db: Db, r: RunId, to: RunStatus, kind: EventKind, attempt: Option<AttemptId>, patch: CurrentPatch)
    requires r < |db.runs|
  {
    var current := Patched(db.runs[r].current, patch);
    && UsageTokens(kind) == 0
    && (IsUnclaimed(to) ==> current.None?)
    && (IsExecuting(to) ==> current.Some?)
    && (patch.SetCurrent? ==> IsLatest(db.attempts, r, patch.attempt))
    && (IsRequeue(kind) ==>
          RequeueTied(db.cfg, db.attempts, r, Event(0, kind, None, attempt, 0))
          && Uncharged(db.runs[r].events, attempt.value))
  }

  lemma MovedRowKeeps(db: Db, db': Db, r: RunId, to: RunStatus, kind: EventKind,
                      attempt: Option<AttemptId>, patch: CurrentPatch)
    requires Inv(db) && r < |db.runs| && MoveOk(db, r, to, kind, attempt, patch)
    requires IsTransitionAllowed(db.runs[r].status, to)
    requires IsTerminal(to) ==> db.runs[r].call.None?
    requires db' == db.(runs := db.runs[r := Moved(db.runs[r], to, kind, attempt, patch, db.now)],
                        outbox := db'.outbox, sessions := db'.sessions)
    ensures RowsOk(db') && FencingOk(db') && CapacityOk(db') && LineageOk(db')
    ensures SameIdentity(db.runs[r], db'.runs[r]) && !IsTerminal(db.runs[r].status)
  {
    var run := db.runs[r];
    assert RowOk(run, db.now);
    RowMoved(run, to, kind, attempt, patch, db.now);
    MovedFencing(db, db', r, to, kind, attempt, patch);
    MovedLoad(run, db'.runs[r], db.now);
    CapacityRow(db, db', r);
    LineageRow(db, db', r);
  }

  lemma MovedLoad(run: Run, moved: Run, now: nat)
    requires SameIdentity(run, moved) && moved.tokensUsed == run.tokensUsed
    requires moved.admission.active ==> run.admission.active
    requires exists e: Event :: UsageTokens(e.kind) == 0 && moved.events == run.events + [e]
    ensures forall t :: Occupies(moved, t) <= Occupies(run, t)
    ensures forall t, day :: Load(moved, t, day) <= Load(run, t, day)
  {
    var e: Event :| UsageTokens(e.kind) == 0 && moved.events == run.events + [e];
    LastOfExtended(run.events, e);
  }

  lemma MovedFencing(db: Db, db': Db, r: RunId, to: RunStatus, kind: EventKind,
                     attempt: Option<AttemptId>, patch: CurrentPatch)
    requires FencingOk(db) && r < |db.runs| && MoveOk(db, r, to, kind, attempt, patch)
    requires db'.cfg == db.cfg && db'.attempts == db.attempts
    requires db'.runs == db.runs[r := Moved(db.runs[r], to, kind, attempt, patch, db.now)]
    ensures FencingOk(db')
  {
    var run := db.runs[r];
    var e := Event(run.lastEventSeq + 1, kind, Some(Edge(run.status, to)), attempt, db.now);
    assert OwnerOk(db.attempts, r, run);
    assert RowRequeuesOk(db.cfg, db.attempts, r, run.events);
    LedgerGrows(db.cfg, db.attempts, r, run.events, e);
    FencingRow(db, db', r);
  }

  lemma TransitionInv(db: Db, r: RunId, expectFrom: set<RunStatus>, to: RunStatus, kind: EventKind,
                      attempt: Option<AttemptId>, patch: CurrentPatch)
    requires Inv(db) && r < |db.runs| && MoveOk(db, r, to, kind, attempt, patch)
    requires TransitionRun(db, r, expectFrom, to, kind, attempt, patch).Ok?
    ensures Inv(TransitionRun(db, r, expectFrom, to, kind, attempt, patch).value)
  {
    var db' := TransitionRun(db, r, expectFrom, to, kind, attempt, patch).value;
    MovedRowKeeps(db, db', r, to, kind, attempt, patch);
    OutboxLogged(db, db', r);
    SessionsMoved(db, db', r, to);
  }

  lemma TransitionEvolves(db: Db, r: RunId, expectFrom: set<RunStatus>, to: RunStatus, kind: EventKind,
                          attempt: Option<AttemptId>, patch: CurrentPatch)
    requires Inv(db) && r < |db.runs| && !patch.SetCurrent?
    requires TransitionRun(db, r, expectFrom, to, kind, attempt, patch).Ok?
    ensures Evolves(db, TransitionRun(db, r, expectFrom, to, kind, attempt, patch).value)
  {
    var db' := TransitionRun(db, r, expectFrom, to, kind, attempt, patch).value;
    assert RowEvolves(db.runs[r], db'.runs[r], |db.attempts|);
  }

  lemma TransitionKeeps(db: Db, r: RunId, expectFrom: set<RunStatus>, to: RunStatus, kind: EventKind,
                        attempt: Option<AttemptId>, patch: CurrentPatch)
    requires Inv(db) && r < |db.runs| && MoveOk(db, r, to, kind, attempt, patch) && !patch.SetCurrent?
    requires TransitionRun(db, r, expectFrom, to, kind, attempt, patch).Ok?
    ensures Keeps(db, TransitionRun(db, r, expectFrom, to, kind, attempt, patch).value)
  {
    TransitionInv(db, r, expectFrom, to, kind, attempt, patch);
    TransitionEvolves(db, r, expectFrom, to, kind, attempt, patch);
  }

  /** An executing run has a current attempt, so moving it within execution keeps one. */
  lemma OwnerPresent(db: Db, r: RunId)
    requires Inv(db) && r < |db.runs|
    ensures IsExecuting(db.runs[r].status) ==> db.runs[r].current.Some?
    ensures IsUnclaimed(db.runs[r].status) ==> db.runs[r].current.None?
  {
    assert OwnerOk(db.attempts, r, db.runs[r]);
    assert RowOk(db.runs[r], db.now);
  }

  // ------------------------------------------------------------ other blocks

  lemma AppendKeeps(db: Db, r: RunId, kind: EventKind, attempt: Option<AttemptId>)
    requires Inv(db) && r < |db.runs| && UsageTokens(kind) == 0 && !IsRequeue(kind)
    ensures Keeps(db, AppendEvent(db, r, kind, attempt).value)
  {
    var db' := AppendEvent(db, r, kind, attempt).value;
    var run := db.runs[r];
    var e := Event(run.lastEventSeq + 1, kind, None, attempt, db.now);
    assert RowOk(run, db.now);
    RowRecorded(run, kind, attempt, db.now);
    assert OwnerOk(db.attempts, r, run);
    assert RowRequeuesOk(db.cfg, db.attempts, r, run.events);
    LedgerGrows(db.cfg, db.attempts, r, run.events, e);
    FencingRow(db, db', r);
    OutboxLogged(db, db', r);
    assert db'.runs[r].events == run.events + [e];
    MovedLoad(run, db'.runs[r], db.now);
    CapacityRow(db, db', r);
    LineageRow(db, db', r);
    SessionsRow(db, db', r);
    hide FencingOk, OutboxOk, CapacityOk, LineageOk, SessionsOk;
    assert RowEvolves(run, db'.runs[r], |db.attempts|);
  }

  /** Setting or clearing the provider call of a run. */
  lemma CallKeeps(db: Db, r: RunId, call: Option<ModelCall>)
    requires Inv(db) && r < |db.runs|
    requires CallFits(db.runs[r].(call := call))
    ensures Keeps(db, db.(runs := db.runs[r := db.runs[r].(call := call)]))
  {
    var db' := db.(runs := db.runs[r := db.runs[r].(call := call)]);
    assert RowOk(db.runs[r], db.now);
    assert OwnerOk(db.attempts, r, db.runs[r]);
    assert RowRequeuesOk(db.cfg, db.attempts, r, db.runs[r].events);
    FencingRow(db, db', r);
    assert OutboxOk(db');
    CapacityRow(db, db', r);
    LineageRow(db, db', r);
    SessionsRow(db, db', r);
    hide FencingOk, OutboxOk, CapacityOk, LineageOk, SessionsOk;
    assert RowEvolves(db.runs[r], db'.runs[r], |db.attempts|);
  }

  lemma AttemptKeeps(db: Db, a: AttemptId, row: Attempt)
    requires Inv(db) && a < |db.attempts|
    requires AttemptEvolves(db.attempts[a], row)
    ensures Keeps(db, db.(attempts := db.attempts[a := row]))
  {
    var db' := db.(attempts := db.attempts[a := row]);
    FencingAttempt(db, a, row);
    assert CapacityOk(db') by {
      forall t | 0 <= t < |db.tenants|
        ensures TenantOk(db', t)
      {
        assert TenantOk(db, t);
      }
    }
    SessionsSame(db, db');
  }

  lemma SessionsSame(db: Db, db': Db)
    requires SessionsOk(db) && db'.runs == db.runs && db'.sessions == db.sessions
    ensures SessionsOk(db')
  {
    forall s | 0 <= s < |db'.sessions|
      ensures MirrorsRun(db', s)
    {
      assert MirrorsRun(db, s);
    }
    forall q | 0 <= q < |db'.runs|
      ensures LivesInSession(db', q) && ParentOk(db', q)
    {
      assert LivesInSession(db, q) && ParentOk(db, q);
    }
  }

  lemma TickKeeps(db: Db, later: nat)
    requires Inv(db) && db.now <= later
    ensures Keeps(db, db.(now := later))
  {
    var db' := db.(now := later);
    forall r | 0 <= r < |db.runs|
      ensures RowOk(db'.runs[r], later)
    {
      assert RowOk(db.runs[r], db.now);
    }
    CapacityTick(db, later);
    SessionsSame(db, db');
  }

  /** Only the inbound table changed. */
  lemma InboundKeeps(db: Db, inbound: seq<Inbound>)
    requires Inv(db)
    ensures Keeps(db, db.(inbound := inbound))
  {
    var db' := db.(inbound := inbound);
    assert CapacityOk(db') by {
      forall t | 0 <= t < |db.tenants|
        ensures TenantOk(db', t)
      {
        assert TenantOk(db, t);
      }
    }
    SessionsSame(db, db');
  }
}
