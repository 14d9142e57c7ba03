/** How the tables may change over any number of transactions. Evolves is reflexive and
    transitive, so facts it carries hold between any two states of an execution. */
module Evolution {
  import opened Prelude
  import opened RunStates
  import opened Tables
  import opened RowInvariants

  /** `attempts` is the number of attempts that existed in the old state. */
  ghost predicate RowEvolves(older: Run, newer: Run, attempts: nat)
  {
    && SameIdentity(older, newer)
    && older.events <= newer.events
    && older.tokensUsed <= newer.tokensUsed
    && (IsTerminal(older.status) ==>
          newer.status == older.status && newer.tokensUsed == older.tokensUsed && newer.current == older.current)
    && (newer.current.Some? && newer.current.value < attempts ==> newer.current == older.current)
  }

  ghost predicate AttemptEvolves(older: Attempt, newer: Attempt)
  {
    && older.run == newer.run
    && older.no == newer.no
    && (older.state != ActiveAttempt ==> newer.state == older.state)
  }

  ghost predicate Evolves(older: Db, newer: Db)
  {
    && older.cfg == newer.cfg
    && older.tenants == newer.tenants
    && older.now <= newer.now
    && |older.runs| <= |newer.runs|
    && |older.attempts| <= |newer.attempts|
    && |older.sessions| <= |newer.sessions|
    && (forall r :: 0 <= r < |older.runs| ==> RowEvolves(older.runs[r], newer.runs[r], |older.attempts|))
    && (forall a :: 0 <= a < |older.attempts| ==> AttemptEvolves(older.attempts[a], newer.attempts[a]))
    && (forall s :: 0 <= s < |older.sessions| ==>
          (older.sessions[s].state == SessionCancelled ==> newer.sessions[s].state == SessionCancelled))
  }

  lemma EvolvesTransitive(a: Db, b: Db, c: Db)
    requires Evolves(a, b) && Evolves(b, c)
    ensures Evolves(a, c)
  {
    forall r | 0 <= r < |a.runs|
      ensures RowEvolves(a.runs[r], c.runs[r], |a.attempts|)
    {
      assert RowEvolves(a.runs[r], b.runs[r], |a.attempts|);
      assert RowEvolves(b.runs[r], c.runs[r], |b.attempts|);
    }
    forall k | 0 <= k < |a.attempts|
      ensures AttemptEvolves(a.attempts[k], c.attempts[k])
    {
      assert AttemptEvolves(a.attempts[k], b.attempts[k]);
      assert AttemptEvolves(b.attempts[k], c.attempts[k]);
    }
  }
}
