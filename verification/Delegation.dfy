/** Spawning, replacing and waking keep the kernel invariant. */
module Delegation {
  import opened Prelude
  import opened RunStates
  import opened Tables
  import opened Kernel
  import opened Admissions
  import opened Children
  import opened Evolution
  import opened Lineage
  import opened SessionInvariants
  import opened Invariants
  import opened Transactions

  lemma {:induction false} SpawnAllKeeps(
    db: Db, parent: RunId, a: AttemptId, tenant: TenantId, budgets: seq<Option<int>>)
    requires Inv(db) && parent < |db.runs|
    requires SpawnAll(db, parent, a, tenant, budgets).Ok?
    ensures Keeps(db, SpawnAll(db, parent, a, tenant, budgets).value)
    decreases |budgets|
  {
    hide Inv, Evolves;
    if budgets == [] {
      KeepsSame(db);
    } else {
      var n := |budgets| - 1;
      var before := SpawnAll(db, parent, a, tenant, budgets[..n]).value;
      SpawnAllKeeps(db, parent, a, tenant, budgets[..n]);
      assert parent < |before.runs|;
      var input := ChildInput(tenant, parent, budgets[n]);
      var created := CreateRun(before, input).value;
      CreateRunKeeps(before, input);
      CreateRunShape(before, input);
      KeepsTransitive(db, before, created);
      AppendKeeps(created, parent, ChildRunSpawned, Some(a));
      KeepsTransitive(db, created, SpawnAll(db, parent, a, tenant, budgets).value);
    }
  }

  lemma SpawnChildrenKeeps(db: Db, parent: RunId, a: AttemptId, budgets: seq<Option<int>>)
    requires Inv(db) && SpawnChildren(db, parent, a, budgets).Ok?
    ensures Keeps(db, SpawnChildren(db, parent, a, budgets).value)
  {
    hide Inv, Evolves;
    var spawned := SpawnAll(db, parent, a, db.runs[parent].tenant, budgets).value;
    SpawnAllKeeps(db, parent, a, db.runs[parent].tenant, budgets);
    assert parent < |spawned.runs|;
    TransitionKeeps(spawned, parent, {Running}, WaitingChildren, ChildRunSpawned, Some(a), ClearCurrent);
    KeepsTransitive(db, spawned, SpawnChildren(db, parent, a, budgets).value);
  }

  /** Runs created since `db` replace only children from the list. */
  ghost predicate NewReplace(db: Db, db': Db, cs: seq<RunId>)
  {
    && |db.runs| <= |db'.runs|
    && (forall q :: 0 <= q < |db.runs| ==> db'.runs[q].predecessor == db.runs[q].predecessor)
    && forall q :: |db.runs| <= q < |db'.runs| ==>
         db'.runs[q].predecessor.Some? && db'.runs[q].predecessor.value in cs
  }

  /** A replaceable child that no earlier step of this transaction replaced still qualifies. */
  lemma StillReplaceable(db: Db, before: Db, parent: RunId, cs: seq<RunId>, c: RunId)
    requires Replaceable(db, parent, c) && Evolves(db, before) && NewReplace(db, before, cs) && c !in cs
    ensures c < |before.runs| && LineageInputOk(before, ReplacementInput(before, parent, c))
  {
    assert RowEvolves(db.runs[c], before.runs[c], |db.attempts|);
    forall q | 0 <= q < |before.runs|
      ensures before.runs[q].predecessor != Some(c)
    {
      if q < |db.runs| {
        assert before.runs[q].predecessor == db.runs[q].predecessor;
      }
    }
  }

  lemma {:induction false} ReplaceAllKeeps(db: Db, parent: RunId, cs: seq<RunId>)
    requires Inv(db) && parent < |db.runs|
    requires forall c :: c in cs ==> Replaceable(db, parent, c)
    requires forall i, j :: 0 <= i < j < |cs| ==> cs[i] < cs[j]
    requires ReplaceAll(db, parent, cs).Ok?
    ensures Keeps(db, ReplaceAll(db, parent, cs).value)
    ensures NewReplace(db, ReplaceAll(db, parent, cs).value, cs)
    decreases |cs|
  {
    hide Inv, Evolves, Replaceable, CreateRun, LineageInputOk;
    if cs == [] {
      KeepsSame(db);
    } else {
      var n := |cs| - 1;
      var before := ReplaceAll(db, parent, cs[..n]).value;
      ReplaceAllKeeps(db, parent, cs[..n]);
      assert cs[n] !in cs[..n];
      StillReplaceable(db, before, parent, cs[..n], cs[n]);
      ReplaceOneKeeps(before, parent, cs[n]);
      var created := CreateRun(before, ReplacementInput(before, parent, cs[n])).value;
      KeepsTransitive(db, before, ReplaceAll(db, parent, cs).value);
      NewReplaceStep(db, before, created, ReplaceAll(db, parent, cs).value, cs);
    }
  }

  /** One replacement: the fresh run is created and logged on the parent. */
  lemma ReplaceOneKeeps(db: Db, parent: RunId, c: RunId)
    requires Inv(db) && parent < |db.runs| && c < |db.runs|
    requires LineageInputOk(db, ReplacementInput(db, parent, c))
    requires CreateRun(db, ReplacementInput(db, parent, c)).Ok?
    ensures var created := CreateRun(db, ReplacementInput(db, parent, c)).value;
            && |created.runs| == |db.runs| + 1 && created.runs[..|db.runs|] == db.runs
            && created.runs[|db.runs|].predecessor == Some(c)
            && Keeps(db, AppendEvent(created, parent, ChildRunReplaced, None).value)
  {
    hide Inv, Evolves;
    var input := ReplacementInput(db, parent, c);
    var created := CreateRun(db, input).value;
    CreateRunKeeps(db, input);
    CreateRunShape(db, input);
    AppendKeeps(created, parent, ChildRunReplaced, None);
    KeepsTransitive(db, created, AppendEvent(created, parent, ChildRunReplaced, None).value);
  }

  lemma NewReplaceStep(db: Db, before: Db, created: Db, logged: Db, cs: seq<RunId>)
    requires cs != [] && NewReplace(db, before, cs[..|cs| - 1])
    requires |created.runs| == |before.runs| + 1 && created.runs[..|before.runs|] == before.runs
    requires created.runs[|before.runs|].predecessor == Some(cs[|cs| - 1])
    requires |logged.runs| == |created.runs|
    requires forall q :: 0 <= q < |logged.runs| ==> logged.runs[q].predecessor == created.runs[q].predecessor
    ensures NewReplace(db, logged, cs)
  {
    forall q | 0 <= q < |before.runs|
      ensures logged.runs[q].predecessor == before.runs[q].predecessor
    {
      assert created.runs[q] == created.runs[..|before.runs|][q];
    }
  }

  lemma WakeParentKeeps(db: Db, parent: RunId)
    requires Inv(db) && WakeParent(db, parent).Ok?
    ensures Keeps(db, WakeParent(db, parent).value)
  {
    hide Inv, Evolves;
    var failed := ReplaceableBelow(db, parent, |db.runs|);
    if failed != [] {
      var replaced := ReplaceAll(db, parent, failed);
      if replaced.Ok? {
        ReplaceAllKeeps(db, parent, failed);
      } else if replaced.error.AdmissionRejected? && DeferralRecorded(db, parent, replaced.error.reason) {
        KeepsSame(db);
      } else {
        AppendKeeps(db, parent, ChildReplacementDeferred(replaced.error.reason), None);
      }
    } else {
      TransitionKeeps(db, parent, {WaitingChildren}, Queued, ChildrenResolved, None, ClearCurrent);
    }
  }

  // ------------------------------------------------------------------------ outcomes

  /** The runs that were there are as before, up to the parent's growing ledger. */
  ghost predicate OthersKept(db: Db, db': Db, parent: RunId, added: nat)
    requires parent < |db.runs|
  {
    && |db'.runs| == |db.runs| + added
    && (forall q :: 0 <= q < |db.runs| && q != parent ==> db'.runs[q] == db.runs[q])
    && db'.runs[parent] == db.runs[parent].(events := db'.runs[parent].events, lastEventSeq := db'.runs[parent].lastEventSeq)
  }

  /** Row k is the queued child that was asked for. */
  ghost predicate ChildAsAsked(run: Run, parent: RunId, tenant: TenantId, session: Option<SessionId>, budget: Option<int>)
  {
    && run.status == Queued && run.parent == Some(parent) && run.tenant == tenant && run.session == session
    && run.predecessor.None? && run.generation == 0
    && (budget.Some? ==> 0 < budget.value && run.tokenBudget == Some(budget.value))
  }

  /** A queued run that stands in for a failed child, one generation on, with what it left unspent. */
  ghost predicate StandsInFor(run: Run, failed: Run, c: RunId, parent: RunId)
  {
    && run.status == Queued && run.parent == Some(parent) && run.tenant == failed.tenant
    && run.predecessor == Some(c) && run.generation == failed.generation + 1
    && (failed.tokenBudget.Some? ==> run.tokenBudget == Some(failed.tokenBudget.value - failed.tokensUsed))
  }

  /** The new rows stand in for the listed children, one for one and in order. */
  ghost predicate AllStandIn(db: Db, db': Db, parent: RunId, cs: seq<RunId>)
  {
    && |db'.runs| == |db.runs| + |cs|
    && forall k :: 0 <= k < |cs| ==> StandIn(db, db', parent, cs, k)
  }

  ghost predicate StandIn(db: Db, db': Db, parent: RunId, cs: seq<RunId>, k: nat)
    requires k < |cs| && |db'.runs| == |db.runs| + |cs|
  {
    && cs[k] < |db.runs| && cs[k] != parent
    && StandsInFor(db'.runs[|db.runs| + k], db.runs[cs[k]], cs[k], parent)
  }

  lemma CreatedBeside(db: Db, input: RunInput, parent: RunId, kind: EventKind, attempt: Option<AttemptId>)
    requires Inv(db) && parent < |db.runs| && CreateRun(db, input).Ok?
    ensures AppendEvent(CreateRun(db, input).value, parent, kind, attempt).Ok?
    ensures var db' := AppendEvent(CreateRun(db, input).value, parent, kind, attempt).value;
            OthersKept(db, db', parent, 1) && db'.runs[|db.runs|] == CreateRun(db, input).value.runs[|db.runs|]
  {
    hide Inv, CreateRun;
    CreateRunShape(db, input);
    var created := CreateRun(db, input).value;
    assert forall q :: 0 <= q < |db.runs| ==> created.runs[q] == created.runs[..|db.runs|][q];
  }

  lemma {:induction false} SpawnAllOutcome(
    db: Db, parent: RunId, a: AttemptId, tenant: TenantId, budgets: seq<Option<int>>)
    requires Inv(db) && parent < |db.runs| && tenant == db.runs[parent].tenant
    requires SpawnAll(db, parent, a, tenant, budgets).Ok?
    ensures var db' := SpawnAll(db, parent, a, tenant, budgets).value;
            && OthersKept(db, db', parent, |budgets|)
            && forall k :: 0 <= k < |budgets| ==>
                 ChildAsAsked(db'.runs[|db.runs| + k], parent, tenant, db.runs[parent].session, budgets[k])
    decreases |budgets|
  {
    hide Inv, Evolves, CreateRun, AppendEvent;
    if budgets != [] {
      var n := |budgets| - 1;
      var before := SpawnAll(db, parent, a, tenant, budgets[..n]).value;
      var input := ChildInput(tenant, parent, budgets[n]);
      SpawnAllOutcome(db, parent, a, tenant, budgets[..n]);
      SpawnAllKeeps(db, parent, a, tenant, budgets[..n]);
      CreateRunShape(before, input);
      CreatedBeside(before, input, parent, ChildRunSpawned, Some(a));
    }
  }

  /** Spawning creates exactly the children asked for, in order, suspends the parent and
      touches no other run. */
  lemma SpawnOutcome(db: Db, parent: RunId, a: AttemptId, budgets: seq<Option<int>>)
    requires Inv(db) && SpawnChildren(db, parent, a, budgets).Ok?
    ensures var db' := SpawnChildren(db, parent, a, budgets).value;
            && |db'.runs| == |db.runs| + |budgets|
            && (forall k :: 0 <= k < |budgets| ==>
                  ChildAsAsked(db'.runs[|db.runs| + k], parent, db.runs[parent].tenant, db.runs[parent].session, budgets[k]))
            && (forall q :: 0 <= q < |db.runs| && q != parent ==> db'.runs[q] == db.runs[q])
            && db.runs[parent].status == Running
            && db'.runs[parent].status == WaitingChildren && db'.runs[parent].current.None?
  {
    hide Inv, SpawnAll, ChildAsAsked, Recorded;
    SpawnAllOutcome(db, parent, a, db.runs[parent].tenant, budgets);
  }

  /** One replacement adds the stand-in and nothing else but the parent's event. */
  lemma ReplaceOneOutcome(db: Db, parent: RunId, c: RunId)
    requires Inv(db) && parent < |db.runs| && c < |db.runs|
    requires CreateRun(db, ReplacementInput(db, parent, c)).Ok?
    ensures var db' := AppendEvent(CreateRun(db, ReplacementInput(db, parent, c)).value, parent, ChildRunReplaced, None).value;
            OthersKept(db, db', parent, 1) && StandsInFor(db'.runs[|db.runs|], db.runs[c], c, parent)
  {
    hide Inv, CreateRun, AppendEvent;
    var input := ReplacementInput(db, parent, c);
    CreateRunShape(db, input);
    CreatedBeside(db, input, parent, ChildRunReplaced, None);
  }

  lemma LastStandsIn(db: Db, before: Db, db': Db, parent: RunId, cs: seq<RunId>)
    requires parent < |db.runs| && cs != []
    requires OthersKept(db, before, parent, |cs| - 1) && AllStandIn(db, before, parent, cs[..|cs| - 1])
    requires cs[|cs| - 1] < |db.runs| && cs[|cs| - 1] != parent
    requires OthersKept(before, db', parent, 1)
    requires StandsInFor(db'.runs[|before.runs|], before.runs[cs[|cs| - 1]], cs[|cs| - 1], parent)
    ensures OthersKept(db, db', parent, |cs|) && AllStandIn(db, db', parent, cs)
  {
    hide StandsInFor;
    forall k | 0 <= k < |cs|
      ensures StandIn(db, db', parent, cs, k)
    {
      if k < |cs| - 1 {
        assert StandIn(db, before, parent, cs[..|cs| - 1], k);
      }
    }
  }

  lemma {:induction false} ReplaceAllOutcome(db: Db, parent: RunId, cs: seq<RunId>)
    requires Inv(db) && parent < |db.runs|
    requires forall c :: c in cs ==> Replaceable(db, parent, c)
    requires forall i, j :: 0 <= i < j < |cs| ==> cs[i] < cs[j]
    requires ReplaceAll(db, parent, cs).Ok?
    ensures var db' := ReplaceAll(db, parent, cs).value;
            OthersKept(db, db', parent, |cs|) && AllStandIn(db, db', parent, cs)
    decreases |cs|
  {
    hide Inv, Evolves, CreateRun, AppendEvent, Superseded, StandsInFor, StandIn, ReplacementInput;
    if cs != [] {
      var n := |cs| - 1;
      var before := ReplaceAll(db, parent, cs[..n]).value;
      ReplaceAllOutcome(db, parent, cs[..n]);
      ReplaceAllKeeps(db, parent, cs[..n]);
      assert cs[n] in cs;
      NotOwnParent(db, parent, cs[n]);
      ReplaceOneOutcome(before, parent, cs[n]);
      LastStandsIn(db, before, ReplaceAll(db, parent, cs).value, parent, cs);
    }
  }

  lemma NotOwnParent(db: Db, parent: RunId, c: RunId)
    requires Inv(db) && IsChild(db, parent, c)
    ensures c != parent
  {
    assert ParentOk(db, c);
  }

  /** Waking resolves the parent in one of three ways: it resumes, exactly when no child can be
      replaced; or every replaceable child gets its stand-in and the parent waits on; or, when
      capacity is short, nothing but the parent's ledger changes. */
  lemma WakeOutcome(db: Db, parent: RunId)
    requires Inv(db) && WakeParent(db, parent).Ok?
    ensures var db' := WakeParent(db, parent).value;
            var failed := ReplaceableBelow(db, parent, |db.runs|);
            && AllChildrenTerminal(db, parent) && db.runs[parent].status == WaitingChildren
            && parent < |db'.runs|
            && (db'.runs[parent].status == Queued <==> failed == [])
            && (failed != [] ==> db'.runs[parent].status == WaitingChildren)
            && (failed != [] ==>
                  || (OthersKept(db, db', parent, |failed|) && AllStandIn(db, db', parent, failed))
                  || OthersKept(db, db', parent, 0))
  {
    hide Inv, ReplaceAll, Replaceable, StandIn, AllChildrenTerminal, DeferralRecorded;
    var failed := ReplaceableBelow(db, parent, |db.runs|);
    if failed != [] && ReplaceAll(db, parent, failed).Ok? {
      ReplaceAllOutcome(db, parent, failed);
    }
  }
}
