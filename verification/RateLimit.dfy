/** The two token buckets of src/api/rateLimit.ts, over exact reals instead of doubles.
    Times are milliseconds. */
module RateLimit {
  import opened Prelude

  datatype Limits = Limits(capacity: real, perSecond: real)

  ghost predicate Sensible(limits: Limits) { limits.capacity >= 0.0 && limits.perSecond > 0.0 }

  datatype Bucket = Bucket(tokens: real, last: int)

  datatype Verdict = Verdict(ok: bool, retryAfterSec: int)

  datatype Checked = Checked(bucket: Bucket, verdict: Verdict)

  function MaxReal(a: real, b: real): real { if a >= b then a else b }

  function MinReal(a: real, b: real): real { if a <= b then a else b }

  function Ceiling(x: real): int { -((-x).Floor) }

  /** Tokens that flow in over a span of time. */
  function Inflow(limits: Limits, ms: int): real { limits.perSecond * (ms as real) / 1000.0 }

  /** The balance just before a request is judged. */
  function Refilled(limits: Limits, bucket: Option<Bucket>, now: int): real {
    if bucket.None? then limits.capacity
    else MinReal(limits.capacity, bucket.value.tokens + Inflow(limits, now - bucket.value.last))
  }

  /** In-process bucket: a request costs a token only when it is admitted. */
  function InProcess(limits: Limits, bucket: Option<Bucket>, now: int): Checked
    requires limits.perSecond > 0.0
  {
    var tokens := Refilled(limits, bucket, now);
    if tokens < 1.0
    then Checked(Bucket(tokens, now),
                 Verdict(false, Max(1, Ceiling((1.0 - tokens) / limits.perSecond))))
    else Checked(Bucket(tokens - 1.0, now), Verdict(true, 0))
  }

  /** The Postgres bucket does not look at its balance when it gives advice. */
  function Advice(limits: Limits): int
    requires limits.perSecond > 0.0
  {
    Max(1, Ceiling(1.0 / limits.perSecond))
  }

  /** Postgres bucket: every request costs a token, down to a floor of -1. */
  function Shared(limits: Limits, bucket: Option<Bucket>, now: int): Checked
    requires limits.perSecond > 0.0
  {
    var tokens := if bucket.None? then limits.capacity - 1.0
                  else MaxReal(-1.0, Refilled(limits, bucket, now) - 1.0);
    Checked(Bucket(tokens, now),
            if tokens < 0.0 then Verdict(false, Advice(limits)) else Verdict(true, 0))
  }

  // ----------------------------------------------------------------- the limiters

  /** Per-tenant buckets in memory. */
  class InstanceLimiter {
    const limits: Limits
    var buckets: map<string, Bucket>

    constructor (limits: Limits)
      ensures this.limits == limits && buckets == map[]
    {
      this.limits := limits;
      buckets := map[];
    }

    method Check(tenant: string, now: int) returns (verdict: Verdict)
      requires limits.perSecond > 0.0
      modifies this
      ensures var before := if tenant in old(buckets) then Some(old(buckets)[tenant]) else None;
              buckets == old(buckets)[tenant := InProcess(limits, before, now).bucket]
              && verdict == InProcess(limits, before, now).verdict
    {
      var b := if tenant in buckets then buckets[tenant] else Bucket(limits.capacity, now);
      var elapsed := now - b.last;
      b := Bucket(MinReal(limits.capacity, b.tokens + Inflow(limits, elapsed)), now);
      if b.tokens < 1.0 {
        buckets := buckets[tenant := b];
        return Verdict(false, Max(1, Ceiling((1.0 - b.tokens) / limits.perSecond)));
      }
      buckets := buckets[tenant := b.(tokens := b.tokens - 1.0)];
      return Verdict(true, 0);
    }
  }

  /** The rate_buckets table; the upsert is one atomic statement. */
  class SharedLimiter {
    const limits: Limits
    var rows: map<string, Bucket>

    constructor (limits: Limits)
      ensures this.limits == limits && rows == map[]
    {
      this.limits := limits;
      rows := map[];
    }

    method Check(tenant: string, now: int) returns (verdict: Verdict)
      requires limits.perSecond > 0.0
      modifies this
      ensures var before := if tenant in old(rows) then Some(old(rows)[tenant]) else None;
              rows == old(rows)[tenant := Shared(limits, before, now).bucket]
              && verdict == Shared(limits, before, now).verdict
    {
      if tenant !in rows {
        rows := rows[tenant := Bucket(limits.capacity - 1.0, now)];
      } else {
        var row := rows[tenant];
        var refilled := MinReal(limits.capacity, row.tokens + Inflow(limits, now - row.last));
        rows := rows[tenant := Bucket(MaxReal(-1.0, refilled - 1.0), now)];
      }
      if rows[tenant].tokens < 0.0 {
        return Verdict(false, Max(1, Ceiling(1.0 / limits.perSecond)));
      }
      return Verdict(true, 0);
    }
  }

  // ------------------------------------------------------------------- histories

  datatype Kind = InMemory | InPostgres

  function Check(kind: Kind, limits: Limits, bucket: Option<Bucket>, now: int): Checked
    requires limits.perSecond > 0.0
  {
    if kind.InMemory? then InProcess(limits, bucket, now) else Shared(limits, bucket, now)
  }

  /** One tenant's bucket after requests at the given times. */
  function After(kind: Kind, limits: Limits, times: seq<int>): Option<Bucket>
    requires limits.perSecond > 0.0
  {
    if times == [] then None
    else
      var n := |times| - 1;
      Some(Check(kind, limits, After(kind, limits, times[..n]), times[n]).bucket)
  }

  predicate Admits(kind: Kind, limits: Limits, times: seq<int>, k: nat)
    requires limits.perSecond > 0.0 && k < |times|
  {
    Check(kind, limits, After(kind, limits, times[..k]), times[k]).verdict.ok
  }

  /** Requests i..j-1 that were admitted. */
  function AdmittedIn(kind: Kind, limits: Limits, times: seq<int>, i: nat, j: nat): nat
    requires limits.perSecond > 0.0 && i <= j <= |times|
    decreases j
  {
    if i == j then 0
    else AdmittedIn(kind, limits, times, i, j - 1) + (if Admits(kind, limits, times, j - 1) then 1 else 0)
  }

  ghost predicate NonDecreasing(times: seq<int>)
  {
    forall i, j :: 0 <= i <= j < |times| ==> times[i] <= times[j]
  }

  /** Balance that could still admit requests. */
  function Credit(bucket: Bucket): real { MaxReal(bucket.tokens, 0.0) }

  lemma InflowAdds(limits: Limits, a: int, b: int, c: int)
    requires Sensible(limits)
    ensures Inflow(limits, c - a) == Inflow(limits, b - a) + Inflow(limits, c - b)
    ensures a <= b ==> Inflow(limits, b - a) >= 0.0
  {
    assert (c - a) as real == (b - a) as real + (c - b) as real;
  }

  lemma AfterStep(kind: Kind, limits: Limits, times: seq<int>, k: nat)
    requires limits.perSecond > 0.0 && k < |times|
    ensures After(kind, limits, times[..k + 1])
         == Some(Check(kind, limits, After(kind, limits, times[..k]), times[k]).bucket)
  {
    assert times[..k + 1][..k] == times[..k];
  }

  /** A single request moves at most one token from credit to admissions. */
  lemma CheckSpends(kind: Kind, limits: Limits, bucket: Option<Bucket>, now: int)
    requires Sensible(limits)
    requires bucket.Some? ==> bucket.value.last <= now
    ensures var checked := Check(kind, limits, bucket, now);
            && checked.bucket.last == now
            && Credit(checked.bucket) + (if checked.verdict.ok then 1.0 else 0.0) <= limits.capacity
            && (bucket.Some? ==>
                  Credit(checked.bucket) + (if checked.verdict.ok then 1.0 else 0.0)
                  <= Credit(bucket.value) + Inflow(limits, now - bucket.value.last))
  {
    if bucket.Some? {
      InflowAdds(limits, bucket.value.last, now, now);
    }
  }

  lemma {:induction false} CreditBound(kind: Kind, limits: Limits, times: seq<int>, i: nat, j: nat)
    requires Sensible(limits) && NonDecreasing(times) && i < j <= |times|
    ensures After(kind, limits, times[..j]).Some?
    ensures After(kind, limits, times[..j]).value.last == times[j - 1]
    ensures AdmittedIn(kind, limits, times, i, j) as real + Credit(After(kind, limits, times[..j]).value)
            <= limits.capacity + Inflow(limits, times[j - 1] - times[i])
    decreases j
  {
    var before := After(kind, limits, times[..j - 1]);
    AfterStep(kind, limits, times, j - 1);
    if j - 1 > 0 {
      LastTime(kind, limits, times, j - 1);
    }
    CheckSpends(kind, limits, before, times[j - 1]);
    if i < j - 1 {
      CreditBound(kind, limits, times, i, j - 1);
      InflowAdds(limits, times[i], times[j - 2], times[j - 1]);
    }
  }

  lemma LastTime(kind: Kind, limits: Limits, times: seq<int>, k: nat)
    requires limits.perSecond > 0.0 && 0 < k <= |times|
    ensures After(kind, limits, times[..k]).Some? && After(kind, limits, times[..k]).value.last == times[k - 1]
  {
    AfterStep(kind, limits, times, k - 1);
  }

  /** Either bucket admits at most burst + rate * T requests in any interval of length T. */
  lemma BurstPlusRate(kind: Kind, limits: Limits, times: seq<int>, i: nat, j: nat)
    requires Sensible(limits) && NonDecreasing(times) && i < j <= |times|
    ensures AdmittedIn(kind, limits, times, i, j) as real
            <= limits.capacity + Inflow(limits, times[j - 1] - times[i])
  {
    hide Inflow, AdmittedIn, After;
    CreditBound(kind, limits, times, i, j);
  }

  // ------------------------------------------------------------------- refinement

  /** The Postgres balance never exceeds the in-process one on the same history. */
  lemma {:induction false} SharedBelow(limits: Limits, times: seq<int>, k: nat)
    requires Sensible(limits) && NonDecreasing(times) && k <= |times|
    ensures After(InMemory, limits, times[..k]).Some? <==> After(InPostgres, limits, times[..k]).Some?
    ensures k > 0 ==>
      var m, p := After(InMemory, limits, times[..k]), After(InPostgres, limits, times[..k]);
      m.Some? && p.Some? && p.value.tokens <= m.value.tokens && p.value.last == m.value.last == times[k - 1]
      && m.value.tokens >= 0.0
    decreases k
  {
    if k > 0 {
      SharedBelow(limits, times, k - 1);
      AfterStep(InMemory, limits, times, k - 1);
      AfterStep(InPostgres, limits, times, k - 1);
      if k > 1 {
        InflowAdds(limits, times[k - 2], times[k - 1], times[k - 1]);
      }
    }
  }

  /** The Postgres bucket admits only requests that the in-process bucket admits. */
  lemma SharedRefinesInProcess(limits: Limits, times: seq<int>, k: nat)
    requires Sensible(limits) && NonDecreasing(times) && k < |times|
    requires Admits(InPostgres, limits, times, k)
    ensures Admits(InMemory, limits, times, k)
  {
    SharedBelow(limits, times, k);
  }

  // ------------------------------------------------------------------ retry advice

  lemma CeilingCovers(x: real)
    ensures Ceiling(x) as real >= x
  {
  }

  /** A refused request that is repeated after waiting as told, with no traffic in between, is
      admitted by the in-process bucket, unless the capacity is below one and nothing ever is. */
  lemma RetryAdviceSuffices(limits: Limits, bucket: Option<Bucket>, now: int, later: int)
    requires Sensible(limits) && !InProcess(limits, bucket, now).verdict.ok
    requires later >= now + 1000 * InProcess(limits, bucket, now).verdict.retryAfterSec
    ensures InProcess(limits, Some(InProcess(limits, bucket, now).bucket), later).verdict.ok <==> limits.capacity >= 1.0
  {
    var checked := InProcess(limits, bucket, now);
    var tokens, wait := checked.bucket.tokens, checked.verdict.retryAfterSec;
    if limits.capacity >= 1.0 {
      CeilingCovers((1.0 - tokens) / limits.perSecond);
      assert wait as real >= (1.0 - tokens) / limits.perSecond;
      assert wait as real * limits.perSecond >= 1.0 - tokens by {
        ScaleUp(wait as real, 1.0 - tokens, limits.perSecond);
      }
      InflowAdds(limits, now, now + 1000 * wait, later);
      assert Inflow(limits, 1000 * wait) == wait as real * limits.perSecond;
    }
  }

  lemma ScaleUp(a: real, b: real, r: real)
    requires r > 0.0 && a >= b / r
    ensures a * r >= b
  {
    assert b / r * r == b;
  }

  /** A refusal leaves the Postgres bucket in debt, and the repeated request is admitted exactly
      when the debt is paid off and a whole token is there on top of it. */
  lemma SharedRetryIff(limits: Limits, bucket: Option<Bucket>, now: int, later: int)
    requires Sensible(limits) && !Shared(limits, bucket, now).verdict.ok
    ensures var refused := Shared(limits, bucket, now);
            && refused.verdict.retryAfterSec == Advice(limits) && -1.0 <= refused.bucket.tokens < 0.0
            && (Shared(limits, Some(refused.bucket), later).verdict.ok <==>
                  limits.capacity >= 1.0 && refused.bucket.tokens + Inflow(limits, later - now) >= 1.0)
  {
  }

  /** Whatever came before, a refused request is admitted when it is repeated `ms` later, with
      no traffic in between. */
  ghost predicate WaitSuffices(limits: Limits, ms: nat)
    requires Sensible(limits)
  {
    forall times: seq<int>, k: nat | RefusedThenRepeated(limits, times, k, ms) ::
      Admits(InPostgres, limits, times, k + 1)
  }

  ghost predicate RefusedThenRepeated(limits: Limits, times: seq<int>, k: nat, ms: nat)
    requires Sensible(limits)
  {
    && k + 1 < |times| && NonDecreasing(times) && times[k + 1] == times[k] + ms
    && !Admits(InPostgres, limits, times, k)
  }

  /** A wait suffices for the Postgres bucket exactly when two tokens flow in meanwhile. */
  lemma TwoTokensSuffice(limits: Limits, ms: nat)
    requires Sensible(limits)
    ensures WaitSuffices(limits, ms) <==> limits.capacity >= 1.0 && Inflow(limits, ms) >= 2.0
  {
    if limits.capacity >= 1.0 && Inflow(limits, ms) >= 2.0 {
      forall times: seq<int>, k: nat | RefusedThenRepeated(limits, times, k, ms)
        ensures Admits(InPostgres, limits, times, k + 1)
      {
        AfterStep(InPostgres, limits, times, k);
        SharedRetryIff(limits, After(InPostgres, limits, times[..k]), times[k], times[k + 1]);
      }
    } else {
      var times, k := SharedAdviceFallsShort(limits, ms);
      assert RefusedThenRepeated(limits, times, k, ms) && !Admits(InPostgres, limits, times, k + 1);
    }
  }

  /** A burst that runs the Postgres balance down to its floor, and a wait that is too short. */
  lemma SharedAdviceFallsShort(limits: Limits, ms: nat) returns (times: seq<int>, k: nat)
    requires Sensible(limits) && (limits.capacity < 1.0 || Inflow(limits, ms) < 2.0)
    ensures RefusedThenRepeated(limits, times, k, ms) && !Admits(InPostgres, limits, times, k + 1)
  {
    k := Ceiling(limits.capacity);
    CeilingCovers(limits.capacity);
    var burst := Burst(k + 1);
    times := burst + [ms];
    BurstDrains(limits, k);
    BurstDrains(limits, k + 1);
    assert times[..k] == Burst(k) && times[..k + 1] == burst;
    AfterStep(InPostgres, limits, times, k);
    SharedRetryIff(limits, After(InPostgres, limits, times[..k]), 0, ms);
  }

  /** So many requests at time 0. */
  function Burst(n: nat): seq<int> { seq(n, _ => 0) }

  lemma {:induction false} BurstDrains(limits: Limits, n: nat)
    requires Sensible(limits)
    ensures n > 0 ==> After(InPostgres, limits, Burst(n)) == Some(Bucket(MaxReal(-1.0, limits.capacity - n as real), 0))
  {
    if n > 0 {
      BurstDrains(limits, n - 1);
      assert Burst(n)[..n - 1] == Burst(n - 1);
      assert Inflow(limits, 0) == 0.0;
    }
  }

  lemma CeilingIsLeast(x: real)
    ensures Ceiling(x) as real < x + 1.0
  {
  }

  /** Two tokens flow in during the advised wait exactly at two or more tokens a second. */
  lemma AdvisedInflow(limits: Limits)
    requires Sensible(limits)
    ensures Inflow(limits, 1000 * Advice(limits)) >= 2.0 <==> limits.perSecond >= 2.0
  {
    var r, wait := limits.perSecond, Advice(limits);
    assert Inflow(limits, 1000 * wait) == r * wait as real;
    if r >= 1.0 {
      assert 1.0 / r <= 1.0;
      assert wait == 1;
    } else {
      CeilingIsLeast(1.0 / r);
      assert 1.0 / r > 1.0;
      assert r * wait as real < r * (1.0 / r + 1.0);
    }
  }

  /** Following the Postgres bucket's advice always leads to admission exactly when the capacity
      is at least one token and the rate at least two tokens a second. */
  lemma SharedAdviceSufficesIff(limits: Limits)
    requires Sensible(limits)
    ensures WaitSuffices(limits, 1000 * Advice(limits)) <==> limits.capacity >= 1.0 && limits.perSecond >= 2.0
  {
    TwoTokensSuffice(limits, 1000 * Advice(limits));
    AdvisedInflow(limits);
  }

  // ------------------------------------------------------------- what must be admitted

  lemma BurstStep(kind: Kind, limits: Limits, n: nat)
    requires Sensible(limits)
    ensures Burst(n + 1)[..n] == Burst(n)
    ensures AdmittedIn(kind, limits, Burst(n + 1), 0, n) == AdmittedIn(kind, limits, Burst(n), 0, n)
  {
    SamePrefix(kind, limits, Burst(n + 1), Burst(n), n);
  }

  lemma {:induction false} SamePrefix(kind: Kind, limits: Limits, times: seq<int>, prefix: seq<int>, n: nat)
    requires Sensible(limits) && n <= |prefix| <= |times| && times[..|prefix|] == prefix
    ensures AdmittedIn(kind, limits, times, 0, n) == AdmittedIn(kind, limits, prefix, 0, n)
    decreases n
  {
    if n > 0 {
      SamePrefix(kind, limits, times, prefix, n - 1);
      assert times[..n - 1] == prefix[..n - 1];
      assert times[n - 1] == prefix[n - 1];
    }
  }

  /** The in-process balance of a burst: one token for each admission. */
  lemma {:induction false} BurstBalance(limits: Limits, n: nat)
    requires Sensible(limits)
    ensures n > 0 ==>
      After(InMemory, limits, Burst(n)) == Some(Bucket(limits.capacity - Min(n, limits.capacity.Floor) as real, 0))
  {
    hide InProcess;
    if n > 0 {
      BurstBalance(limits, n - 1);
      assert Burst(n)[..n - 1] == Burst(n - 1);
      SpendOne(limits, if n == 1 then None else After(InMemory, limits, Burst(n - 1)), n - 1);
    }
  }

  lemma SpendOne(limits: Limits, bucket: Option<Bucket>, n: nat)
    requires Sensible(limits)
    requires bucket == (if n == 0 then None else Some(Bucket(limits.capacity - Min(n, limits.capacity.Floor) as real, 0)))
    ensures var checked := InProcess(limits, bucket, 0);
            && checked.bucket == Bucket(limits.capacity - Min(n + 1, limits.capacity.Floor) as real, 0)
            && (checked.verdict.ok <==> n < limits.capacity.Floor)
  {
    assert Inflow(limits, 0) == 0.0;
  }

  /** Of n requests at once either bucket admits exactly as many as the burst allows. */
  lemma {:induction false} BurstAdmits(kind: Kind, limits: Limits, n: nat)
    requires Sensible(limits)
    ensures AdmittedIn(kind, limits, Burst(n), 0, n) == Min(n, limits.capacity.Floor)
  {
    if n > 0 {
      BurstAdmits(kind, limits, n - 1);
      BurstStep(kind, limits, n - 1);
      BurstBalance(limits, n - 1);
      BurstDrains(limits, n - 1);
      assert Burst(0) == [];
      assert Inflow(limits, 0) == 0.0;
    }
  }

  /** Requests that keep to the rate are all admitted: the next one after an admission, once a
      token has flowed in. */
  lemma SteadyAdmits(kind: Kind, limits: Limits, bucket: Option<Bucket>, now: int, later: int)
    requires Sensible(limits) && limits.capacity >= 1.0
    requires Check(kind, limits, bucket, now).verdict.ok && Inflow(limits, later - now) >= 1.0
    ensures Check(kind, limits, Some(Check(kind, limits, bucket, now).bucket), later).verdict.ok
    ensures Check(kind, limits, None, now).verdict.ok
  {
  }
}
