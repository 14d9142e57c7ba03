/** Delegated children and their replacement: src/scheduler/children.ts. */
module Children {
  import opened Prelude
  import opened RunStates
  import opened Tables
  import opened Kernel
  import opened Admissions

  const MAX_DELEGATED_CHILDREN: nat := 8

  function ChildInput(tenant: TenantId, parent: RunId, budget: Option<int>): RunInput {
    RunInput(tenant, None, Some(parent), None, 0, budget, true)
  }

  /** Create the children in order, logging each on the parent. */
  function SpawnAll(
    db: Db, parent: RunId, a: AttemptId, tenant: TenantId, budgets: seq<Option<int>>): Tx
    decreases |budgets|
  {
    if budgets == [] then Ok(db)
    else
      var n := |budgets| - 1;
      var before :- SpawnAll(db, parent, a, tenant, budgets[..n]);
      var created :- CreateRun(before, ChildInput(tenant, parent, budgets[n]));
      AppendEvent(created, parent, ChildRunSpawned, Some(a))
  }

  /** Spawn delegated runs and suspend the parent, all or nothing. */
  function SpawnChildren(db: Db, parent: RunId, a: AttemptId, budgets: seq<Option<int>>): Tx
  {
    if |budgets| < 1 || |budgets| > MAX_DELEGATED_CHILDREN then Err(LineageRejected)
    else if parent >= |db.runs| then Err(RunNotFound)
    else
      var spawned :- SpawnAll(db, parent, a, db.runs[parent].tenant, budgets);
      TransitionRun(spawned, parent, {Running}, WaitingChildren, ChildRunSpawned, Some(a), ClearCurrent)
  }

  predicate IsChild(db: Db, parent: RunId, c: RunId)
  {
    c < |db.runs| && db.runs[c].parent == Some(parent)
  }

  predicate Superseded(db: Db, c: RunId)
  {
    exists r :: 0 <= r < |db.runs| && db.runs[r].predecessor == Some(c)
  }

  predicate AllChildrenTerminal(db: Db, parent: RunId)
  {
    forall c :: 0 <= c < |db.runs| && IsChild(db, parent, c) ==> IsTerminal(db.runs[c].status)
  }

  /** A failed current-generation child that may still be swapped for a fresh run. */
  predicate Replaceable(db: Db, parent: RunId, c: RunId)
  {
    && IsChild(db, parent, c)
    && !Superseded(db, c)
    && db.runs[c].status == Failed
    && db.runs[c].generation < db.cfg.maxChildReplacements
    && (db.runs[c].tokenBudget.Some? ==> db.runs[c].tokenBudget.value > db.runs[c].tokensUsed)
  }

  /** Replaceable children among the first n runs, in creation order. */
  function ReplaceableBelow(db: Db, parent: RunId, n: nat): (cs: seq<RunId>)
    requires n <= |db.runs|
    ensures forall c: nat :: c in cs <==> c < n && Replaceable(db, parent, c)
    ensures forall i :: 0 <= i < |cs| ==> cs[i] < n
    ensures forall i, j :: 0 <= i < j < |cs| ==> cs[i] < cs[j]
  {
    if n == 0 then []
    else
      var below := ReplaceableBelow(db, parent, n - 1);
      assert forall i :: 0 <= i < |below| ==> below[i] in below;
      below + (if Replaceable(db, parent, n - 1) then [n - 1] else [])
  }

  function ReplacementInput(db: Db, parent: RunId, c: RunId): RunInput
    requires c < |db.runs|
  {
    var k := db.runs[c];
    RunInput(k.tenant, None, Some(parent), Some(c), k.generation + 1,
             if k.tokenBudget.None? then None else Some(k.tokenBudget.value - k.tokensUsed), true)
  }

  function ReplaceAll(db: Db, parent: RunId, cs: seq<RunId>): Tx
    decreases |cs|
  {
    if cs == [] then Ok(db)
    else
      var n := |cs| - 1;
      var before :- ReplaceAll(db, parent, cs[..n]);
      var c := cs[n];
      if parent >= |before.runs| || c >= |before.runs| || before.runs[c].tenant != before.runs[parent].tenant
      then Err(LineageRejected)
      else
        var created :- CreateRun(before, ReplacementInput(before, parent, c));
        AppendEvent(created, parent, ChildRunReplaced, None)
  }

  predicate DeferralRecorded(db: Db, parent: RunId, reason: AdmissionReason)
    requires parent < |db.runs|
  {
    exists i :: 0 <= i < |db.runs[parent].events|
                && db.runs[parent].events[i].kind == ChildReplacementDeferred(reason)
  }

  /** Resolve one waiting parent: replace its failed children, or wake it. A rejected
      admission rolls back to the savepoint and is recorded once per reason. */
  function WakeParent(db: Db, parent: RunId): Tx
  {
    if parent >= |db.runs| || db.runs[parent].tenant >= |db.tenants| then Err(RunNotFound)
    else if db.runs[parent].status != WaitingChildren || !AllChildrenTerminal(db, parent) then Err(NotReady)
    else
      var failed := ReplaceableBelow(db, parent, |db.runs|);
      if failed != [] then
        var replaced := ReplaceAll(db, parent, failed);
        if replaced.Ok? || !replaced.error.AdmissionRejected? then replaced
        else if DeferralRecorded(db, parent, replaced.error.reason) then Ok(db)
        else AppendEvent(db, parent, ChildReplacementDeferred(replaced.error.reason), None)
      else
        TransitionRun(db, parent, {WaitingChildren}, Queued, ChildrenResolved, None, ClearCurrent)
  }
}
