/** Attempt ownership as a fencing token, and the bound on failure-driven requeues. */
module Fencing {
  import opened Prelude
  import opened RunStates
  import opened Tables
  import opened Kernel

  /** Attempts belong to runs, and later attempts of a run carry higher numbers. */
  ghost predicate AttemptsOk(db: Db)
  {
    && (forall a :: 0 <= a < |db.attempts| ==> db.attempts[a].run < |db.runs| && 1 <= db.attempts[a].no)
    && (forall a, b :: 0 <= a < b < |db.attempts| && db.attempts[a].run == db.attempts[b].run ==>
          db.attempts[a].no < db.attempts[b].no)
  }

  ghost predicate IsLatest(attempts: seq<Attempt>, r: RunId, a: AttemptId)
  {
    && a < |attempts|
    && attempts[a].run == r
    && forall b :: 0 <= b < |attempts| && attempts[b].run == r ==> b <= a
  }

  /** A run's current attempt is its latest; an executing run has one. */
  ghost predicate OwnerOk(attempts: seq<Attempt>, r: RunId, run: Run)
  {
    && (run.current.Some? ==> IsLatest(attempts, r, run.current.value))
    && (IsExecuting(run.status) ==> run.current.Some?)
  }

  ghost predicate OwnershipOk(db: Db)
  {
    forall r :: 0 <= r < |db.runs| ==> OwnerOk(db.attempts, r, db.runs[r])
  }

  predicate IsRequeue(kind: EventKind) { kind.AttemptOrphaned? || kind.RetryScheduled? }

  /** A failure-driven requeue names an attempt of the run that is over and below the limit. */
  ghost predicate RequeueTied(cfg: Config, attempts: seq<Attempt>, r: RunId, e: Event)
  {
    IsRequeue(e.kind) ==>
      && e.attempt.Some?
      && e.attempt.value < |attempts|
      && attempts[e.attempt.value].run == r
      && attempts[e.attempt.value].state != ActiveAttempt
      && e.kind.attemptNo == attempts[e.attempt.value].no
      && e.kind.attemptNo < cfg.maxAttempts
  }

  ghost predicate RequeuesDistinct(events: seq<Event>)
  {
    forall i, j :: 0 <= i < j < |events| && IsRequeue(events[i].kind) && IsRequeue(events[j].kind) ==>
      events[i].attempt != events[j].attempt
  }

  ghost predicate RowRequeuesOk(cfg: Config, attempts: seq<Attempt>, r: RunId, events: seq<Event>)
  {
    && (forall i :: 0 <= i < |events| ==> RequeueTied(cfg, attempts, r, events[i]))
    && RequeuesDistinct(events)
  }

  ghost predicate RequeuesOk(db: Db)
  {
    forall r :: 0 <= r < |db.runs| ==> RowRequeuesOk(db.cfg, db.attempts, r, db.runs[r].events)
  }

  ghost predicate FencingOk(db: Db)
  {
    AttemptsOk(db) && OwnershipOk(db) && RequeuesOk(db)
  }

  /** No earlier requeue of the run was charged to this attempt. */
  ghost predicate Uncharged(events: seq<Event>, a: AttemptId)
  {
    forall i :: 0 <= i < |events| && IsRequeue(events[i].kind) ==> events[i].attempt != Some(a)
  }

  lemma {:induction false} MaxAttemptNoBounds(attempts: seq<Attempt>, r: RunId)
    ensures forall a :: 0 <= a < |attempts| && attempts[a].run == r ==> attempts[a].no <= MaxAttemptNo(attempts, r)
  {
    if attempts != [] {
      MaxAttemptNoBounds(attempts[..|attempts| - 1], r);
      forall a | 0 <= a < |attempts| && attempts[a].run == r
        ensures attempts[a].no <= MaxAttemptNo(attempts, r)
      {
        if a < |attempts| - 1 {
          assert attempts[..|attempts| - 1][a] == attempts[a];
        }
      }
    }
  }

  /** Replacing one run row keeps fencing when its owner is sound and its ledger grew soundly. */
  lemma FencingRow(db: Db, db': Db, r: RunId)
    requires FencingOk(db) && r < |db.runs|
    requires db'.cfg == db.cfg && db'.attempts == db.attempts
    requires |db'.runs| == |db.runs| && db'.runs == db.runs[r := db'.runs[r]]
    requires OwnerOk(db.attempts, r, db'.runs[r])
    requires RowRequeuesOk(db.cfg, db.attempts, r, db'.runs[r].events)
    ensures FencingOk(db')
  {
  }

  lemma LedgerGrows(cfg: Config, attempts: seq<Attempt>, r: RunId, events: seq<Event>, e: Event)
    requires RowRequeuesOk(cfg, attempts, r, events)
    requires RequeueTied(cfg, attempts, r, e)
    requires IsRequeue(e.kind) ==> Uncharged(events, e.attempt.value)
    ensures RowRequeuesOk(cfg, attempts, r, events + [e])
  {
  }

  /** Moving an attempt out of ACTIVE, or renewing its lease, keeps fencing. */
  lemma FencingAttempt(db: Db, a: AttemptId, row: Attempt)
    requires FencingOk(db) && a < |db.attempts|
    requires row.run == db.attempts[a].run && row.no == db.attempts[a].no
    requires db.attempts[a].state != ActiveAttempt ==> row.state != ActiveAttempt
    ensures FencingOk(db.(attempts := db.attempts[a := row]))
  {
    var db' := db.(attempts := db.attempts[a := row]);
    forall r | 0 <= r < |db.runs|
      ensures OwnerOk(db'.attempts, r, db'.runs[r])
      ensures RowRequeuesOk(db'.cfg, db'.attempts, r, db'.runs[r].events)
    {
      assert OwnerOk(db.attempts, r, db.runs[r]);
      assert RowRequeuesOk(db.cfg, db.attempts, r, db.runs[r].events);
      forall i | 0 <= i < |db.runs[r].events|
        ensures RequeueTied(db.cfg, db'.attempts, r, db.runs[r].events[i])
      {
        assert RequeueTied(db.cfg, db.attempts, r, db.runs[r].events[i]);
      }
    }
  }

  /** Claiming a run with no current attempt adds its new latest attempt. */
  lemma FencingNewAttempt(db: Db, row: Attempt)
    requires FencingOk(db)
    requires row.run < |db.runs| && db.runs[row.run].current.None?
    requires row.no == MaxAttemptNo(db.attempts, row.run) + 1
    ensures FencingOk(db.(attempts := db.attempts + [row]))
    ensures IsLatest(db.attempts + [row], row.run, |db.attempts|)
  {
    var db' := db.(attempts := db.attempts + [row]);
    MaxAttemptNoBounds(db.attempts, row.run);
    forall r | 0 <= r < |db.runs|
      ensures OwnerOk(db'.attempts, r, db'.runs[r])
      ensures RowRequeuesOk(db'.cfg, db'.attempts, r, db'.runs[r].events)
    {
      assert OwnerOk(db.attempts, r, db.runs[r]);
      assert RowRequeuesOk(db.cfg, db.attempts, r, db.runs[r].events);
      forall i | 0 <= i < |db.runs[r].events|
        ensures RequeueTied(db.cfg, db'.attempts, r, db.runs[r].events[i])
      {
        assert RequeueTied(db.cfg, db.attempts, r, db.runs[r].events[i]);
      }
    }
  }

  lemma FencingNewRun(db: Db, db': Db)
    requires FencingOk(db)
    requires db'.cfg == db.cfg && db'.attempts == db.attempts
    requires |db'.runs| == |db.runs| + 1 && db'.runs[..|db.runs|] == db.runs
    requires var run := db'.runs[|db.runs|]; run.events == [] && run.current.None? && !IsExecuting(run.status)
    ensures FencingOk(db')
  {
    forall r | 0 <= r < |db'.runs|
      ensures OwnerOk(db'.attempts, r, db'.runs[r])
      ensures RowRequeuesOk(db'.cfg, db'.attempts, r, db'.runs[r].events)
    {
      if r < |db.runs| {
        assert db'.runs[r] == db'.runs[..|db.runs|][r] == db.runs[r];
      }
    }
  }

  // ------------------------------------------------------- the requeue bound

  function RequeueCount(events: seq<Event>): nat
  {
    if events == [] then 0
    else RequeueCount(events[..|events| - 1]) + (if IsRequeue(events[|events| - 1].kind) then 1 else 0)
  }

  /** The attempt numbers charged with a requeue. */
  ghost function ChargedNumbers(events: seq<Event>): set<nat>
  {
    set i | 0 <= i < |events| && IsRequeue(events[i].kind) :: events[i].kind.attemptNo
  }

  lemma {:induction false} RequeuesCounted(db: Db, r: RunId, n: nat)
    requires FencingOk(db) && r < |db.runs| && n <= |db.runs[r].events|
    ensures RequeueCount(db.runs[r].events[..n]) == |ChargedNumbers(db.runs[r].events[..n])|
  {
    var events := db.runs[r].events;
    if n > 0 {
      RequeuesCounted(db, r, n - 1);
      var before, e := events[..n - 1], events[n - 1];
      assert events[..n][..n - 1] == before;
      if IsRequeue(e.kind) {
        NumberIsNew(db, r, n - 1);
        assert ChargedNumbers(events[..n]) == ChargedNumbers(before) + {e.kind.attemptNo};
      } else {
        assert ChargedNumbers(events[..n]) == ChargedNumbers(before);
      }
    }
  }

  lemma NumberIsNew(db: Db, r: RunId, n: nat)
    requires FencingOk(db) && r < |db.runs| && n < |db.runs[r].events|
    requires IsRequeue(db.runs[r].events[n].kind)
    ensures db.runs[r].events[n].kind.attemptNo !in ChargedNumbers(db.runs[r].events[..n])
  {
    var events := db.runs[r].events;
    assert RowRequeuesOk(db.cfg, db.attempts, r, events);
    assert RequeueTied(db.cfg, db.attempts, r, events[n]);
    forall i | 0 <= i < n && IsRequeue(events[i].kind)
      ensures events[i].kind.attemptNo != events[n].kind.attemptNo
    {
      assert RequeueTied(db.cfg, db.attempts, r, events[i]);
      var a, b := events[i].attempt.value, events[n].attempt.value;
      assert a != b;
      assert a < b || b < a;
    }
  }

  lemma {:induction false} BelowLimit(s: set<nat>, limit: nat)
    requires forall k :: k in s ==> 1 <= k < limit
    ensures |s| <= Max(limit - 1, 0)
    decreases limit
  {
    if limit <= 1 {
      assert s == {};
    } else if limit - 1 in s {
      BelowLimit(s - {limit - 1}, limit - 1);
    } else {
      BelowLimit(s, limit - 1);
    }
  }

  /** A run suffers at most maxAttempts - 1 failure-driven requeues. */
  lemma RequeuesBounded(db: Db, r: RunId)
    requires FencingOk(db) && r < |db.runs|
    ensures RequeueCount(db.runs[r].events) <= Max(db.cfg.maxAttempts - 1, 0)
  {
    var events := db.runs[r].events;
    assert events[..|events|] == events;
    RequeuesCounted(db, r, |events|);
    assert RowRequeuesOk(db.cfg, db.attempts, r, events);
    forall k | k in ChargedNumbers(events)
      ensures 1 <= k < db.cfg.maxAttempts
    {
      var i :| 0 <= i < |events| && IsRequeue(events[i].kind) && events[i].kind.attemptNo == k;
      assert RequeueTied(db.cfg, db.attempts, r, events[i]);
    }
    BelowLimit(ChargedNumbers(events), db.cfg.maxAttempts);
  }
}
