/** Conservation of tenant capacity: tokens used today plus the unspent part of every
    active reservation stay within the daily budget, and active admissions within the
    concurrency limit. */
module CapacityAccounting {
  import opened Prelude
  import opened Tables
  import opened Kernel
  import opened Admissions
  import opened RowInvariants

  ghost predicate TenantOk(db: Db, t: TenantId)
    requires t < |db.tenants|
  {
    && (db.tenants[t].maxConcurrent.Some? ==> ActiveCount(db, t) <= db.tenants[t].maxConcurrent.value)
    && (db.tenants[t].dailyBudget.Some? ==>
          UsedToday(db, t) + RemainingReserved(db, t) <= db.tenants[t].dailyBudget.value)
  }

  /** Runs of a capped tenant are themselves capped. */
  ghost predicate BudgetsFinite(db: Db)
  {
    forall r :: 0 <= r < |db.runs| ==>
      && db.runs[r].tenant < |db.tenants|
      && (db.tenants[db.runs[r].tenant].dailyBudget.Some? ==> db.runs[r].tokenBudget.Some?)
  }

  ghost predicate CapacityOk(db: Db)
  {
    BudgetsFinite(db) && forall t :: 0 <= t < |db.tenants| ==> TenantOk(db, t)
  }

  /** What a run holds of its tenant's daily budget. */
  function Load(run: Run, t: TenantId, day: nat): int { UsedOn(run, t, day) + Unspent(run, t) }

  lemma SumChanged(f: seq<int>, g: seq<int>, i: nat)
    requires |f| == |g| && i < |f|
    requires forall j :: 0 <= j < |f| && j != i ==> f[j] == g[j]
    ensures Sum(g) == Sum(f) - f[i] + g[i]
  {
    assert g == f[i := g[i]];
    SumUpdate(f, i, g[i]);
  }

  lemma SumGrown(f: seq<int>, g: seq<int>)
    requires |g| == |f| + 1 && g[..|f|] == f
    ensures Sum(g) == Sum(f) + g[|f|]
  {
    SumAppend(f, g[|f|]);
    assert g == f + [g[|f|]];
  }

  /** Changing one row changes the tenant's totals by that row's contribution. */
  lemma TotalsChanged(db: Db, db': Db, r: RunId, t: TenantId)
    requires r < |db.runs| == |db'.runs| && db'.now == db.now
    requires forall q :: 0 <= q < |db.runs| && q != r ==> db'.runs[q] == db.runs[q]
    ensures ActiveCount(db', t) == ActiveCount(db, t) - Occupies(db.runs[r], t) + Occupies(db'.runs[r], t)
    ensures UsedToday(db', t) + RemainingReserved(db', t)
            == UsedToday(db, t) + RemainingReserved(db, t)
               - Load(db.runs[r], t, Day(db.now)) + Load(db'.runs[r], t, Day(db.now))
  {
    SumChanged(OccupiedByRun(db.runs, t), OccupiedByRun(db'.runs, t), r);
    SumChanged(UnspentByRun(db.runs, t), UnspentByRun(db'.runs, t), r);
    SumChanged(UsedByRun(db.runs, t, Day(db.now)), UsedByRun(db'.runs, t, Day(db.now)), r);
  }

  lemma TotalsGrown(db: Db, db': Db, t: TenantId)
    requires |db'.runs| == |db.runs| + 1 && db'.runs[..|db.runs|] == db.runs && db'.now == db.now
    ensures var run := db'.runs[|db.runs|];
            && ActiveCount(db', t) == ActiveCount(db, t) + Occupies(run, t)
            && UsedToday(db', t) + RemainingReserved(db', t)
               == UsedToday(db, t) + RemainingReserved(db, t) + Load(run, t, Day(db.now))
  {
    var n := |db.runs|;
    assert forall i :: 0 <= i < n ==> db'.runs[i] == db'.runs[..n][i] == db.runs[i];
    assert OccupiedByRun(db'.runs, t)[..n] == OccupiedByRun(db.runs, t);
    assert UnspentByRun(db'.runs, t)[..n] == UnspentByRun(db.runs, t);
    assert UsedByRun(db'.runs, t, Day(db.now))[..n] == UsedByRun(db.runs, t, Day(db.now));
    SumGrown(OccupiedByRun(db.runs, t), OccupiedByRun(db'.runs, t));
    SumGrown(UnspentByRun(db.runs, t), UnspentByRun(db'.runs, t));
    SumGrown(UsedByRun(db.runs, t, Day(db.now)), UsedByRun(db'.runs, t, Day(db.now)));
  }

  /** A row update that does not raise the run's contribution keeps every tenant within quota. */
  lemma CapacityRow(db: Db, db': Db, r: RunId)
    requires CapacityOk(db) && r < |db.runs|
    requires db'.tenants == db.tenants && db'.now == db.now
    requires |db'.runs| == |db.runs| && db'.runs == db.runs[r := db'.runs[r]]
    requires SameIdentity(db.runs[r], db'.runs[r])
    requires forall t :: Occupies(db'.runs[r], t) <= Occupies(db.runs[r], t)
    requires forall t: nat :: t < |db.tenants| && db.tenants[t].dailyBudget.Some? ==>
               Load(db'.runs[r], t, Day(db.now)) <= Load(db.runs[r], t, Day(db.now))
    ensures CapacityOk(db')
  {
    forall t | 0 <= t < |db.tenants|
      ensures TenantOk(db', t)
    {
      assert TenantOk(db, t);
      TotalsChanged(db, db', r, t);
    }
  }

  /** Metered usage moves tokens from the reservation to the day's total, never adding load. */
  lemma MeteringConserves(run: Run, metered: Run, t: TenantId, day: nat, u: nat)
    requires SameIdentity(run, metered) && metered.admission == run.admission
    requires DayUsage(metered.events, day) == DayUsage(run.events, day) + u
    requires metered.tokensUsed == run.tokensUsed + u
    requires run.admission.active && metered.tokensUsed <= run.admission.reserved
    ensures Load(metered, t, day) == Load(run, t, day)
    ensures Occupies(metered, t) == Occupies(run, t)
  {
  }

  /** Admitting what DecideCapacity granted stays within both quotas. */
  lemma AdmissionFits(db: Db, db': Db, t: TenantId, requested: Option<int>, capacity: Capacity)
    requires CapacityOk(db) && t < |db.tenants|
    requires PrepareRunAdmission(db, t, requested) == Ok(capacity)
    requires db'.tenants == db.tenants && db'.now == db.now
    requires |db'.runs| == |db.runs| + 1 && db'.runs[..|db.runs|] == db.runs
    requires var run := db'.runs[|db.runs|];
             && run.tenant == t && run.tokenBudget == capacity.budget
             && run.admission == Admission(true, capacity.reserved) && run.tokensUsed == 0 && run.events == []
    ensures CapacityOk(db')
  {
    var n := |db.runs|;
    assert forall i :: 0 <= i < n ==> db'.runs[i] == db'.runs[..n][i] == db.runs[i];
    forall u | 0 <= u < |db.tenants|
      ensures TenantOk(db', u)
    {
      assert TenantOk(db, u);
      TotalsGrown(db, db', u);
    }
  }

  /** As the clock moves, the day's usage can only be what it was or start again from zero. */
  lemma {:induction false} DayUsageLater(events: seq<Event>, day: nat, later: nat)
    requires day <= later && forall i :: 0 <= i < |events| ==> Day(events[i].at) <= day
    ensures DayUsage(events, later) <= DayUsage(events, day)
  {
    if events != [] {
      DayUsageLater(events[..|events| - 1], day, later);
    }
  }

  lemma CapacityTick(db: Db, later: nat)
    requires CapacityOk(db) && db.now <= later
    requires forall r :: 0 <= r < |db.runs| ==> RowOk(db.runs[r], db.now)
    ensures CapacityOk(db.(now := later))
  {
    var db' := db.(now := later);
    forall t | 0 <= t < |db.tenants|
      ensures TenantOk(db', t)
    {
      assert TenantOk(db, t);
      var f, g := UsedByRun(db.runs, t, Day(later)), UsedByRun(db.runs, t, Day(db.now));
      forall i | 0 <= i < |f|
        ensures f[i] <= g[i]
      {
        assert RowOk(db.runs[i], db.now);
        DayUsageLater(db.runs[i].events, Day(db.now), Day(later));
      }
      SumMonotone(f, g);
    }
  }
}
