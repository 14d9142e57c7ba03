/** The loops of src/scheduler/children.ts, src/store/sessions.ts and src/store/sessionEvents.ts
    on the database, proved against the functions of the same name. */
module Scheduling {
  import opened Prelude
  import opened RunStates
  import opened Tables
  import opened Kernel
  import opened Admissions
  import opened Children
  import opened Sessions
  import opened Store

  // ------------------------------------------------------------------------ children

  /** A failure while spawning a prefix is the failure of the whole list. */
  lemma {:induction false} SpawnFails(
    db: Db, parent: RunId, a: AttemptId, tenant: TenantId, budgets: seq<Option<int>>, k: nat)
    requires k <= |budgets| && SpawnAll(db, parent, a, tenant, budgets[..k]).Err?
    ensures SpawnAll(db, parent, a, tenant, budgets) == SpawnAll(db, parent, a, tenant, budgets[..k])
    decreases |budgets|
  {
    hide CreateRun, AppendEvent;
    if k < |budgets| {
      var n := |budgets| - 1;
      assert budgets[..n][..k] == budgets[..k];
      SpawnFails(db, parent, a, tenant, budgets[..n], k);
    } else {
      assert budgets[..k] == budgets;
    }
  }

  lemma SpawnStep(db: Db, parent: RunId, a: AttemptId, tenant: TenantId, budgets: seq<Option<int>>, i: nat, before: Db)
    requires i < |budgets| && SpawnAll(db, parent, a, tenant, budgets[..i]) == Ok(before)
    ensures SpawnAll(db, parent, a, tenant, budgets[..i + 1]) ==
            (match CreateRun(before, ChildInput(tenant, parent, budgets[i]))
             case Err(e) => Err(e)
             case Ok(created) => AppendEvent(created, parent, ChildRunSpawned, Some(a)))
  {
    assert budgets[..i + 1][..i] == budgets[..i];
  }

  method SpawnChildren(d: Database, parent: RunId, a: AttemptId, budgets: seq<Option<int>>)
    returns (failure: Option<KernelError>)
    modifies d
    ensures Did(Children.SpawnChildren(old(d.Snapshot()), parent, a, budgets), old(d.Snapshot()), d.Snapshot(), failure)
  {
    if |budgets| < 1 || |budgets| > MAX_DELEGATED_CHILDREN {
      return Some(LineageRejected);
    }
    if parent >= |d.runs| {
      return Some(RunNotFound);
    }
    var saved := d.Snapshot();
    var tenant := d.runs[parent].tenant;
    for i := 0 to |budgets|
      invariant SpawnAll(saved, parent, a, tenant, budgets[..i]) == Ok(d.Snapshot())
    {
      SpawnStep(saved, parent, a, tenant, budgets, i, d.Snapshot());
      failure := d.CreateRun(ChildInput(tenant, parent, budgets[i]));
      if failure.None? {
        failure := d.AppendEvent(parent, ChildRunSpawned, Some(a));
      }
      if failure.Some? {
        SpawnFails(saved, parent, a, tenant, budgets, i + 1);
        d.Restore(saved);
        return;
      }
    }
    assert budgets[..|budgets|] == budgets;
    failure := d.TransitionRun(parent, {Running}, WaitingChildren, ChildRunSpawned, Some(a), ClearCurrent);
    if failure.Some? {
      d.Restore(saved);
    }
  }

  lemma {:induction false} ReplaceFails(db: Db, parent: RunId, cs: seq<RunId>, k: nat)
    requires k <= |cs| && ReplaceAll(db, parent, cs[..k]).Err?
    ensures ReplaceAll(db, parent, cs) == ReplaceAll(db, parent, cs[..k])
    decreases |cs|
  {
    hide CreateRun, AppendEvent;
    if k < |cs| {
      var n := |cs| - 1;
      assert cs[..n][..k] == cs[..k];
      ReplaceFails(db, parent, cs[..n], k);
    } else {
      assert cs[..k] == cs;
    }
  }

  /** Is some later child of the parent recorded as the replacement of c? */
  method IsSuperseded(d: Database, c: RunId) returns (yes: bool)
    ensures yes == Superseded(d.Snapshot(), c)
  {
    for r := 0 to |d.runs|
      invariant forall q :: 0 <= q < r ==> d.runs[q].predecessor != Some(c)
    {
      if d.runs[r].predecessor == Some(c) {
        return true;
      }
    }
    return false;
  }

  lemma ReplaceableNext(db: Db, parent: RunId, c: RunId)
    requires c < |db.runs|
    ensures ReplaceableBelow(db, parent, c + 1) ==
            ReplaceableBelow(db, parent, c) + (if Replaceable(db, parent, c) then [c] else [])
    ensures Replaceable(db, parent, c) <==>
              && db.runs[c].parent == Some(parent) && !Superseded(db, c) && db.runs[c].status == Failed
              && db.runs[c].generation < db.cfg.maxChildReplacements
              && (db.runs[c].tokenBudget.Some? ==> db.runs[c].tokenBudget.value > db.runs[c].tokensUsed)
  {
  }

  /** One pass over the parent's children: have all of them ended, and which can be replaced? */
  method ReadResolution(d: Database, parent: RunId) returns (ended: bool, failed: seq<RunId>)
    ensures ended == AllChildrenTerminal(d.Snapshot(), parent)
    ensures failed == ReplaceableBelow(d.Snapshot(), parent, |d.runs|)
  {
    assert ReplaceableBelow(d.Snapshot(), parent, 0) == [];
    hide ReplaceableBelow, Replaceable;
    ended, failed := true, [];
    for c := 0 to |d.runs|
      invariant ended == forall q :: 0 <= q < c && IsChild(d.Snapshot(), parent, q) ==> IsTerminal(d.runs[q].status)
      invariant failed == ReplaceableBelow(d.Snapshot(), parent, c)
    {
      ReplaceableNext(d.Snapshot(), parent, c);
      if d.runs[c].parent == Some(parent) {
        if !IsTerminal(d.runs[c].status) {
          ended := false;
        }
        var superseded := IsSuperseded(d, c);
        if !superseded && d.runs[c].status == Failed && d.runs[c].generation < d.cfg.maxChildReplacements
           && (d.runs[c].tokenBudget.Some? ==> d.runs[c].tokenBudget.value > d.runs[c].tokensUsed) {
          failed := failed + [c];
        }
      }
    }
  }

  lemma ReplaceNone(db: Db, parent: RunId)
    ensures ReplaceAll(db, parent, []) == Ok(db)
  {
  }

  lemma ReplaceStep(db: Db, parent: RunId, cs: seq<RunId>, i: nat, before: Db)
    requires i < |cs| && ReplaceAll(db, parent, cs[..i]) == Ok(before)
    ensures ReplaceAll(db, parent, cs[..i + 1]) ==
            (if parent >= |before.runs| || cs[i] >= |before.runs| || before.runs[cs[i]].tenant != before.runs[parent].tenant
             then Err(LineageRejected)
             else match CreateRun(before, ReplacementInput(before, parent, cs[i]))
                  case Err(e) => Err(e)
                  case Ok(created) => AppendEvent(created, parent, ChildRunReplaced, None))
  {
    hide CreateRun, AppendEvent;
    assert cs[..i + 1][..i] == cs[..i];
  }

  /** Replace the failed children in order; on failure the caller's savepoint is restored. */
  method ReplaceChildren(d: Database, parent: RunId, cs: seq<RunId>) returns (failure: Option<KernelError>)
    modifies d
    ensures Did(ReplaceAll(old(d.Snapshot()), parent, cs), old(d.Snapshot()), d.Snapshot(), failure)
  {
    hide ReplaceAll, Admissions.CreateRun, Kernel.AppendEvent;
    var saved := d.Snapshot();
    ReplaceNone(saved, parent);
    for i := 0 to |cs|
      invariant ReplaceAll(saved, parent, cs[..i]) == Ok(d.Snapshot())
    {
      var c := cs[i];
      ReplaceStep(saved, parent, cs, i, d.Snapshot());
      if parent >= |d.runs| || c >= |d.runs| || d.runs[c].tenant != d.runs[parent].tenant {
        failure := Some(LineageRejected);
      } else {
        failure := d.CreateRun(ReplacementInput(d.Snapshot(), parent, c));
        if failure.None? {
          failure := d.AppendEvent(parent, ChildRunReplaced, None);
        }
      }
      if failure.Some? {
        ReplaceFails(saved, parent, cs, i + 1);
        d.Restore(saved);
        return;
      }
    }
    assert cs[..|cs|] == cs;
    return None;
  }

  method DeferralSeen(events: seq<Event>, reason: AdmissionReason) returns (seen: bool)
    ensures seen == exists i :: 0 <= i < |events| && events[i].kind == ChildReplacementDeferred(reason)
  {
    for i := 0 to |events|
      invariant forall j :: 0 <= j < i ==> events[j].kind != ChildReplacementDeferred(reason)
    {
      if events[i].kind == ChildReplacementDeferred(reason) {
        return true;
      }
    }
    return false;
  }

  /** Resolve one waiting parent. */
  method WakeParent(d: Database, parent: RunId) returns (failure: Option<KernelError>)
    modifies d
    ensures Did(Children.WakeParent(old(d.Snapshot()), parent), old(d.Snapshot()), d.Snapshot(), failure)
  {
    if parent >= |d.runs| || d.runs[parent].tenant >= |d.tenants| {
      return Some(RunNotFound);
    }
    var ended, failed := ReadResolution(d, parent);
    if d.runs[parent].status != WaitingChildren || !ended {
      return Some(NotReady);
    }
    if failed == [] {
      failure := d.TransitionRun(parent, {WaitingChildren}, Queued, ChildrenResolved, None, ClearCurrent);
      return;
    }
    failure := ReplaceChildren(d, parent, failed);
    if failure.Some? && failure.value.AdmissionRejected? {
      var seen := DeferralSeen(d.runs[parent].events, failure.value.reason);
      if seen {
        failure := None;
      } else {
        failure := d.AppendEvent(parent, ChildReplacementDeferred(failure.value.reason), None);
      }
    }
  }

  // ------------------------------------------------------------------------ sessions

  method CancelRun(d: Database, r: RunId) returns (failure: Option<KernelError>)
    modifies d
    ensures Did(Kernel.CancelRun(old(d.Snapshot()), r), old(d.Snapshot()), d.Snapshot(), failure)
  {
    if r >= |d.runs| {
      return Some(RunNotFound);
    }
    if IsTerminal(d.runs[r].status) {
      return Some(UnexpectedStatus(d.runs[r].status));
    }
    var current := d.runs[r].current;
    failure := d.TransitionRun(r, {d.runs[r].status}, Cancelled, RunCancelled, None, KeepCurrent);
    if failure.None? && current.Some? {
      var _ := d.ExitAttempt(current.value);
    }
  }

  lemma {:induction false} CancelFails(db: Db, rs: seq<RunId>, k: nat)
    requires k <= |rs| && CancelEach(db, rs[..k]).Err?
    ensures CancelEach(db, rs) == CancelEach(db, rs[..k])
    decreases |rs|
  {
    hide Kernel.CancelRun;
    if k < |rs| {
      var n := |rs| - 1;
      assert rs[..n][..k] == rs[..k];
      CancelFails(db, rs[..n], k);
    } else {
      assert rs[..k] == rs;
    }
  }

  lemma LiveRunsStart(db: Db, s: SessionId)
    ensures LiveRuns(db, s, false, 0) == [] && LiveRuns(db, s, true, 0) == []
  {
  }

  lemma LiveRunsStep(db: Db, s: SessionId, r: RunId)
    requires r < |db.runs|
    ensures forall top ::
      LiveRuns(db, s, top, r + 1)
      == LiveRuns(db, s, top, r) + (if LiveIn(db, s, r) && db.runs[r].parent.None? == top then [r] else [])
  {
  }

  /** The session's live runs, delegated ones first. */
  method ReadLiveRuns(d: Database, s: SessionId) returns (rs: seq<RunId>)
    ensures rs == LiveRuns(d.Snapshot(), s, false, |d.runs|) + LiveRuns(d.Snapshot(), s, true, |d.runs|)
  {
    var delegated: seq<RunId>, topLevel: seq<RunId> := [], [];
    hide LiveRuns;
    ghost var db := d.Snapshot();
    LiveRunsStart(db, s);
    for r := 0 to |d.runs|
      invariant delegated == LiveRuns(db, s, false, r)
      invariant topLevel == LiveRuns(db, s, true, r)
    {
      LiveRunsStep(db, s, r);
      if d.runs[r].session == Some(s) && !IsTerminal(d.runs[r].status) {
        if d.runs[r].parent.None? {
          topLevel := topLevel + [r];
        } else {
          delegated := delegated + [r];
        }
      }
    }
    return delegated + topLevel;
  }

  method FenceSessionRuns(d: Database, s: SessionId) returns (failure: Option<KernelError>)
    modifies d
    ensures Did(Sessions.FenceSessionRuns(old(d.Snapshot()), s), old(d.Snapshot()), d.Snapshot(), failure)
  {
    hide Kernel.CancelRun, LiveRuns;
    var saved := d.Snapshot();
    var rs := ReadLiveRuns(d, s);
    for i := 0 to |rs|
      invariant CancelEach(saved, rs[..i]) == Ok(d.Snapshot())
    {
      assert rs[..i + 1][..i] == rs[..i];
      failure := CancelRun(d, rs[i]);
      if failure.Some? {
        CancelFails(saved, rs, i + 1);
        d.Restore(saved);
        return;
      }
    }
    assert rs[..|rs|] == rs;
    return None;
  }

  method CancelManagedSession(d: Database, s: SessionId) returns (failure: Option<KernelError>)
    modifies d
    ensures Did(CancelSession(old(d.Snapshot()), s), old(d.Snapshot()), d.Snapshot(), failure)
  {
    if s >= |d.sessions| {
      return Some(SessionRejected);
    }
    if IsClosed(d.sessions[s].state) {
      return None;
    }
    var saved := d.Snapshot();
    var current := d.sessions[s].current;
    failure := FenceSessionRuns(d, s);
    if failure.Some? {
      return;
    }
    if s >= |d.sessions| {
      d.Restore(saved);
      return Some(SessionRejected);
    }
    StalePending(d, s);
    d.sessions := d.sessions[s := d.sessions[s].(state := SessionCancelled, current := current)];
  }

  method StalePending(d: Database, s: SessionId)
    modifies d`inbound
    ensures d.inbound == seq(|old(d.inbound)|, i requires 0 <= i < |old(d.inbound)| => Staled(old(d.inbound)[i], s))
  {
    ghost var before := d.inbound;
    for i := 0 to |d.inbound|
      invariant |d.inbound| == |before|
      invariant forall j :: 0 <= j < i ==> d.inbound[j] == Staled(before[j], s)
      invariant forall j :: i <= j < |before| ==> d.inbound[j] == before[j]
    {
      if d.inbound[i].session == s && d.inbound[i].status == Pending {
        d.inbound := d.inbound[i := d.inbound[i].(status := Stale)];
      }
    }
  }
}
