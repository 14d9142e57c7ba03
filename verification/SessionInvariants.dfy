/** A managed session mirrors its one live top-level run, and a cancelled session keeps
    no live run. */
module SessionInvariants {
  import opened Prelude
  import opened RunStates
  import opened Tables
  import opened Kernel
  import opened Admissions
  import opened RowInvariants

  /** IDLE without a current run, otherwise the projection of the current run's status. */
  ghost predicate MirrorsRun(db: Db, s: SessionId)
    requires s < |db.sessions|
  {
    var row := db.sessions[s];
    && row.state != Archived
    && (row.state != SessionCancelled ==>
          match row.current
          case None => row.state == Idle
          case Some(r) =>
            && r < |db.runs|
            && db.runs[r].session == Some(s)
            && db.runs[r].parent.None?
            && !IsTerminal(db.runs[r].status)
            && row.state == Projection(db.runs[r].status))
  }

  /** A live run's session is open, and the session's current run is its only live top-level one. */
  ghost predicate LivesInSession(db: Db, r: RunId)
    requires r < |db.runs|
  {
    var run := db.runs[r];
    run.session.Some? ==>
      && run.session.value < |db.sessions|
      && db.sessions[run.session.value].tenant == run.tenant
      && (!IsTerminal(run.status) ==> db.sessions[run.session.value].state != SessionCancelled)
      && (!IsTerminal(run.status) && run.parent.None? ==> db.sessions[run.session.value].current == Some(r))
  }

  ghost predicate ParentOk(db: Db, r: RunId)
    requires r < |db.runs|
  {
    db.runs[r].parent.Some? ==>
      var p := db.runs[r].parent.value;
      p < r && db.runs[p].tenant == db.runs[r].tenant && db.runs[p].session == db.runs[r].session
  }

  ghost predicate SessionsOk(db: Db)
  {
    && (forall s :: 0 <= s < |db.sessions| ==> MirrorsRun(db, s))
    && (forall r :: 0 <= r < |db.runs| ==> LivesInSession(db, r))
    && (forall r :: 0 <= r < |db.runs| ==> ParentOk(db, r))
  }

  /** Rewriting a row without moving it leaves every session sound. */
  lemma SessionsRow(db: Db, db': Db, r: RunId)
    requires SessionsOk(db) && r < |db.runs|
    requires db'.sessions == db.sessions
    requires |db'.runs| == |db.runs| && db'.runs == db.runs[r := db'.runs[r]]
    requires SameIdentity(db.runs[r], db'.runs[r]) && db'.runs[r].status == db.runs[r].status
    ensures SessionsOk(db')
  {
    forall s | 0 <= s < |db'.sessions|
      ensures MirrorsRun(db', s)
    {
      assert MirrorsRun(db, s);
    }
    forall q | 0 <= q < |db'.runs|
      ensures LivesInSession(db', q) && ParentOk(db', q)
    {
      assert LivesInSession(db, q) && ParentOk(db, q);
    }
  }

  /** A transition moves the run and its session together. */
  lemma SessionsMoved(db: Db, db': Db, r: RunId, to: RunStatus)
    requires SessionsOk(db) && r < |db.runs|
    requires IsTransitionAllowed(db.runs[r].status, to)
    requires |db'.runs| == |db.runs| && db'.runs == db.runs[r := db'.runs[r]]
    requires SameIdentity(db.runs[r], db'.runs[r]) && db'.runs[r].status == to
    requires db'.sessions == ProjectedSessions(db.sessions, r, db.runs[r], to)
    ensures SessionsOk(db')
  {
    assert LivesInSession(db, r);
    forall s | 0 <= s < |db'.sessions|
      ensures MirrorsRun(db', s)
    {
      assert MirrorsRun(db, s);
    }
    forall q | 0 <= q < |db'.runs|
      ensures LivesInSession(db', q) && ParentOk(db', q)
    {
      assert LivesInSession(db, q) && ParentOk(db, q);
    }
  }

  /** Admission into an open session, idle when the run is top-level, keeps sessions sound. */
  lemma SessionsInserted(db: Db, input: RunInput, session: Option<SessionId>, capacity: Capacity)
    requires SessionsOk(db)
    requires SessionFor(db, input) == Ok(session) && SessionAccepts(db, input, session)
    ensures SessionsOk(InsertRun(db, input, session, capacity))
  {
    var db' := InsertRun(db, input, session, capacity);
    var n := |db.runs|;
    assert forall q :: 0 <= q < n ==> db'.runs[q] == db.runs[q];
    forall s | 0 <= s < |db'.sessions|
      ensures MirrorsRun(db', s)
    {
      assert MirrorsRun(db, s);
    }
    forall q | 0 <= q < |db'.runs|
      ensures LivesInSession(db', q) && ParentOk(db', q)
    {
      if q < n {
        assert LivesInSession(db, q) && ParentOk(db, q);
        if session.Some? && db.runs[q].session == session {
          assert MirrorsRun(db, session.value);
        }
      }
    }
  }

  /** Closing a session whose runs are all over keeps sessions sound. */
  lemma SessionsClosed(db: Db, s: SessionId, current: Option<RunId>)
    requires SessionsOk(db) && s < |db.sessions|
    requires forall r :: 0 <= r < |db.runs| && db.runs[r].session == Some(s) ==> IsTerminal(db.runs[r].status)
    ensures SessionsOk(db.(sessions := db.sessions[s := db.sessions[s].(state := SessionCancelled, current := current)]))
  {
    var db' := db.(sessions := db.sessions[s := db.sessions[s].(state := SessionCancelled, current := current)]);
    forall t | 0 <= t < |db'.sessions|
      ensures MirrorsRun(db', t)
    {
      assert MirrorsRun(db, t);
    }
    forall q | 0 <= q < |db'.runs|
      ensures LivesInSession(db', q) && ParentOk(db', q)
    {
      assert LivesInSession(db, q) && ParentOk(db, q);
    }
  }

  /** A session counter or a new idle session does not disturb the others. */
  lemma SessionsCounted(db: Db, s: SessionId, n: nat)
    requires SessionsOk(db) && s < |db.sessions|
    ensures SessionsOk(db.(sessions := db.sessions[s := db.sessions[s].(receivedSeq := n)]))
  {
    var db' := db.(sessions := db.sessions[s := db.sessions[s].(receivedSeq := n)]);
    forall t | 0 <= t < |db'.sessions|
      ensures MirrorsRun(db', t)
    {
      assert MirrorsRun(db, t);
    }
    forall q | 0 <= q < |db'.runs|
      ensures LivesInSession(db', q) && ParentOk(db', q)
    {
      assert LivesInSession(db, q) && ParentOk(db, q);
    }
  }

  lemma SessionsCreated(db: Db, tenant: TenantId)
    requires SessionsOk(db)
    ensures SessionsOk(db.(sessions := db.sessions + [Session(tenant, Idle, None, 0)]))
  {
    var db' := db.(sessions := db.sessions + [Session(tenant, Idle, None, 0)]);
    forall t | 0 <= t < |db'.sessions|
      ensures MirrorsRun(db', t)
    {
      if t < |db.sessions| {
        assert MirrorsRun(db, t);
      }
    }
    forall q | 0 <= q < |db'.runs|
      ensures LivesInSession(db', q) && ParentOk(db', q)
    {
      assert LivesInSession(db, q) && ParentOk(db, q);
    }
  }
}
