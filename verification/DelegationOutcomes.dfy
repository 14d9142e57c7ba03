/** When delegated children are spawned and failed ones replaced, exactly: by the room their
    tenant has for all of them in turn. */
module DelegationOutcomes {
  import opened Prelude
  import opened RunStates
  import opened Tables
  import opened Kernel
  import opened Admissions
  import opened Children
  import opened RowInvariants
  import opened Evolution
  import opened Fencing
  import opened CapacityAccounting
  import opened SessionInvariants
  import opened Invariants
  import opened Transactions
  import opened Delegation
  import opened AdmissionLaw
  import opened KernelOutcomes

  // ------------------------------------------------------------------- one more run

  lemma LogKeepsRoom(db: Db, r: RunId, kind: EventKind, attempt: Option<AttemptId>, t: TenantId)
    requires RowsOk(db) && r < |db.runs| && t < |db.tenants| && UsageTokens(kind) == 0
    requires RowsOk(AppendEvent(db, r, kind, attempt).value)
    ensures RoomOf(AppendEvent(db, r, kind, attempt).value, t) == RoomOf(db, t)
  {
    hide RowsOk, ActiveCount, LiveOf, UsedToday, RemainingReserved, Load, Occupies;
    var db' := AppendEvent(db, r, kind, attempt).value;
    ActiveIsLive(db, t);
    ActiveIsLive(db', t);
    LogKeepsLoad(db, r, kind, attempt, t);
    TotalsChanged(db, db', r, t);
  }

  lemma LogKeepsLoad(db: Db, r: RunId, kind: EventKind, attempt: Option<AttemptId>, t: TenantId)
    requires r < |db.runs| && UsageTokens(kind) == 0
    ensures var run' := AppendEvent(db, r, kind, attempt).value.runs[r];
            && Occupies(run', t) == Occupies(db.runs[r], t)
            && Load(run', t, Day(db.now)) == Load(db.runs[r], t, Day(db.now))
  {
    var run' := AppendEvent(db, r, kind, attempt).value.runs[r];
    LastOfExtended(db.runs[r].events, run'.events[|db.runs[r].events|]);
  }

  /** Delegated to a live parent, a run is created exactly when its tenant has room. */
  lemma DelegatedIff(db: Db, input: RunInput, parent: RunId)
    requires Inv(db) && parent < |db.runs| && !IsTerminal(db.runs[parent].status)
    requires input.parent == Some(parent) && input.session.None? && input.agentVersionOwned
    requires input.tenant == db.runs[parent].tenant
    ensures CreateRun(db, input).Ok? <==> Admissible(db, input.tenant, input.tokenBudget)
    ensures CreateRun(db, input).Err? ==> CreateRun(db, input) == Err(AdmissionRejected(Refusal(db, input.tenant)))
    ensures CreateRun(db, input).Ok? ==> CreatedIn(db, CreateRun(db, input).value, input)
  {
    hide CreateRun, Admissible;
    assert LivesInSession(db, parent);
    hide Inv;
    CreationIff(db, input);
  }

  /** A delegated creation and the event that announces it on the parent. */
  lemma AnnouncedRoom(db: Db, input: RunInput, parent: RunId, kind: EventKind, attempt: Option<AttemptId>)
    requires Inv(db) && parent < |db.runs| && LineageInputOk(db, input) && UsageTokens(kind) == 0 && !IsRequeue(kind)
    requires CreateRun(db, input).Ok?
    ensures var db' := AppendEvent(CreateRun(db, input).value, parent, kind, attempt).value;
            && Inv(db') && db'.tenants == db.tenants && input.tenant < |db.tenants|
            && RoomOf(db', input.tenant) == Left(RoomOf(db, input.tenant), input.tokenBudget)
            && Announced(db, db', parent, kind, attempt, 1)
  {
    hide Inv, RowsOk, RoomOf, CreateRun, Evolves, CreatedRow, Admissible;
    var created := CreateRun(db, input).value;
    CreationIff(db, input);
    CreateRunKeeps(db, input);
    AppendKeeps(created, parent, kind, attempt);
    Parts(db);
    Parts(created);
    var db' := AppendEvent(created, parent, kind, attempt).value;
    Parts(db');
    AdmissibleTenant(db, input);
    CreationTakesRoom(db, input, created);
    LogKeepsRoom(created, parent, kind, attempt, input.tenant);
    SoundRow(db, parent);
  }

  lemma AdmissibleTenant(db: Db, input: RunInput)
    requires Admissible(db, input.tenant, input.tokenBudget)
    ensures input.tenant < |db.tenants|
  {
  }

  /** The parent's ledger has `added` more events of one kind and its row is else unchanged. */
  ghost predicate Announced(db: Db, db': Db, parent: RunId, kind: EventKind, attempt: Option<AttemptId>, added: nat)
  {
    && parent < |db.runs| <= |db'.runs|
    && var o, n := db.runs[parent], db'.runs[parent];
       && n == o.(lastEventSeq := n.lastEventSeq, events := n.events)
       && n.lastEventSeq == |n.events| == |o.events| + added
       && o.events <= n.events
       && forall i :: |o.events| <= i < |n.events| ==> n.events[i] == Event(i + 1, kind, None, attempt, db.now)
  }

  lemma AnnouncedMore(a: Db, b: Db, c: Db, parent: RunId, kind: EventKind, attempt: Option<AttemptId>, n: nat)
    requires Announced(a, b, parent, kind, attempt, n) && Announced(b, c, parent, kind, attempt, 1) && b.now == a.now
    ensures Announced(a, c, parent, kind, attempt, n + 1)
  {
  }

  /** Why requests in turn are refused: the first that does not fit decides. */
  ghost predicate RefusedInTurn(db: Db, t: TenantId, requests: seq<Option<int>>, reason: AdmissionReason)
  {
    if t >= |db.tenants| || !db.tenants[t].active then reason == TenantUnavailable
    else
      exists k :: 0 <= k < |requests|
        && FitInTurn(RoomOf(db, t), requests[..k]) && !Fits(LeftAfter(RoomOf(db, t), requests[..k]), requests[k])
        && reason == ReasonFor(LeftAfter(RoomOf(db, t), requests[..k]))
  }

  function ReasonFor(room: Room): AdmissionReason {
    if room.slots.Some? && room.slots.value <= 0 then ConcurrencyExhausted else TokenCapacityExhausted
  }

  // ---------------------------------------------------------------------- spawning

  ghost predicate SpawnState(db: Db, db': Db, parent: RunId, budgets: seq<Option<int>>, a: AttemptId)
    requires parent < |db.runs|
  {
    var t := db.runs[parent].tenant;
    && Inv(db') && t < |db.tenants| && db'.tenants == db.tenants && db'.now == db.now
    && RoomOf(db', t) == LeftAfter(RoomOf(db, t), budgets)
    && Announced(db, db', parent, ChildRunSpawned, Some(a), |budgets|)
  }

  lemma {:induction false} SpawnAllIff(db: Db, parent: RunId, a: AttemptId, budgets: seq<Option<int>>)
    requires Inv(db) && parent < |db.runs| && !IsTerminal(db.runs[parent].status)
    ensures var t := db.runs[parent].tenant;
            var spawned := SpawnAll(db, parent, a, t, budgets);
            && t < |db.tenants|
            && (spawned.Ok? <==> budgets == [] || (db.tenants[t].active && FitInTurn(RoomOf(db, t), budgets)))
            && (spawned.Ok? ==> SpawnState(db, spawned.value, parent, budgets, a))
            && (spawned.Err? ==> exists reason ::
                  spawned == Err(AdmissionRejected(reason)) && RefusedInTurn(db, t, budgets, reason))
    decreases |budgets|
  {
    hide Inv, RoomOf, CreateRun, Evolves, Announced, Fits, Left, AppendEvent, Admissible, Refusal, RefusedInTurn;
    var t := db.runs[parent].tenant;
    TenantExists(db, parent);
    if budgets == [] {
      NoneAnnounced(db, parent, ChildRunSpawned, Some(a));
    } else {
      var n := |budgets| - 1;
      SpawnAllIff(db, parent, a, budgets[..n]);
      var earlier := SpawnAll(db, parent, a, t, budgets[..n]);
      if earlier.Ok? {
        SpawnOneIff(db, earlier.value, parent, a, budgets);
      } else {
        RefusedEarlier(db, t, budgets);
      }
    }
  }

  lemma TenantExists(db: Db, r: RunId)
    requires Inv(db) && r < |db.runs|
    ensures db.runs[r].tenant < |db.tenants|
  {
    assert BudgetsFinite(db);
  }

  lemma NoneAnnounced(db: Db, parent: RunId, kind: EventKind, attempt: Option<AttemptId>)
    requires Inv(db) && parent < |db.runs|
    ensures Announced(db, db, parent, kind, attempt, 0)
  {
    hide Inv;
    SoundRow(db, parent);
  }

  lemma RefusedEarlier(db: Db, t: TenantId, requests: seq<Option<int>>)
    requires requests != []
    ensures forall reason :: RefusedInTurn(db, t, requests[..|requests| - 1], reason) ==> RefusedInTurn(db, t, requests, reason)
  {
    hide FitInTurn, Fits, LeftAfter, RoomOf;
    var n := |requests| - 1;
    forall reason | RefusedInTurn(db, t, requests[..n], reason)
      ensures RefusedInTurn(db, t, requests, reason)
    {
      if t < |db.tenants| && db.tenants[t].active {
        var k :| 0 <= k < n
          && FitInTurn(RoomOf(db, t), requests[..n][..k]) && !Fits(LeftAfter(RoomOf(db, t), requests[..n][..k]), requests[..n][k])
          && reason == ReasonFor(LeftAfter(RoomOf(db, t), requests[..n][..k]));
        assert requests[..n][..k] == requests[..k];
      }
    }
  }

  lemma RefusedLast(db: Db, before: Db, t: TenantId, requests: seq<Option<int>>)
    requires requests != [] && t < |db.tenants| && before.tenants == db.tenants
    requires |requests| > 1 ==> db.tenants[t].active && FitInTurn(RoomOf(db, t), requests[..|requests| - 1])
    requires RoomOf(before, t) == LeftAfter(RoomOf(db, t), requests[..|requests| - 1])
    requires !Admissible(before, t, requests[|requests| - 1])
    ensures RefusedInTurn(db, t, requests, Refusal(before, t))
  {
    hide RoomOf;
    var k := |requests| - 1;
    assert k == 0 ==> requests[..k] == [];
    assert FitInTurn(RoomOf(db, t), requests[..k]);
  }

  lemma SpawnOneIff(db: Db, before: Db, parent: RunId, a: AttemptId, budgets: seq<Option<int>>)
    requires Inv(db) && parent < |db.runs| && !IsTerminal(db.runs[parent].status) && budgets != []
    requires SpawnState(db, before, parent, budgets[..|budgets| - 1], a)
    requires |budgets| > 1 ==>
               var t := db.runs[parent].tenant;
               db.tenants[t].active && FitInTurn(RoomOf(db, t), budgets[..|budgets| - 1])
    ensures var t := db.runs[parent].tenant;
            var created := CreateRun(before, ChildInput(t, parent, budgets[|budgets| - 1]));
            && (created.Ok? <==> db.tenants[t].active && FitInTurn(RoomOf(db, t), budgets))
            && (created.Ok? ==>
                  && AppendEvent(created.value, parent, ChildRunSpawned, Some(a)).Ok?
                  && SpawnState(db, AppendEvent(created.value, parent, ChildRunSpawned, Some(a)).value, parent, budgets, a))
            && (created.Err? ==> exists reason ::
                  created == Err(AdmissionRejected(reason)) && RefusedInTurn(db, t, budgets, reason))
  {
    hide Inv, RoomOf, CreateRun, Evolves, Fits, Left, Refusal, RefusedInTurn;
    var t, n := db.runs[parent].tenant, |budgets| - 1;
    var input := ChildInput(t, parent, budgets[n]);
    DelegatedIff(before, input, parent);
    if CreateRun(before, input).Ok? {
      AnnouncedRoom(before, input, parent, ChildRunSpawned, Some(a));
      AnnouncedMore(db, before, AppendEvent(CreateRun(before, input).value, parent, ChildRunSpawned, Some(a)).value,
                    parent, ChildRunSpawned, Some(a), n);
      CreateRunShape(before, input);
    } else {
      RefusedLast(db, before, t, budgets);
    }
  }

  /** Children are spawned exactly for a running parent, one to eight of them, when the tenant is
      active and has room for all in turn; the parent announces each and then waits for them
      without an owner. */
  lemma SpawnIff(db: Db, parent: RunId, a: AttemptId, budgets: seq<Option<int>>)
    requires Inv(db)
    ensures SpawnChildren(db, parent, a, budgets).Ok? <==>
              && 1 <= |budgets| <= 8 && parent < |db.runs| && db.runs[parent].status == Running
              && db.runs[parent].tenant < |db.tenants| && db.tenants[db.runs[parent].tenant].active
              && FitInTurn(RoomOf(db, db.runs[parent].tenant), budgets)
    ensures SpawnChildren(db, parent, a, budgets).Ok? ==>
              && SpawnAll(db, parent, a, db.runs[parent].tenant, budgets).Ok?
              && var spawned := SpawnAll(db, parent, a, db.runs[parent].tenant, budgets).value;
                 && Announced(db, spawned, parent, ChildRunSpawned, Some(a), |budgets|)
                 && Transitioned(spawned, SpawnChildren(db, parent, a, budgets).value, parent, WaitingChildren, None,
                                 ChildRunSpawned, Some(a), db.attempts)
  {
    hide Inv, SpawnAll, RoomOf, Transitioned, TransitionRun, FitInTurn;
    if parent < |db.runs| && 1 <= |budgets| <= 8 {
      var t := db.runs[parent].tenant;
      TenantExists(db, parent);
      var spawned := SpawnAll(db, parent, a, t, budgets);
      if spawned.Ok? {
        SpawnAllOutcome(db, parent, a, t, budgets);
        SpawnAllKeeps(db, parent, a, t, budgets);
        SpawnAllAttempts(db, parent, a, t, budgets);
        TransitionExact(spawned.value, parent, {Running}, WaitingChildren, ChildRunSpawned, Some(a), ClearCurrent);
      }
      if db.runs[parent].status == Running {
        SpawnAllIff(db, parent, a, budgets);
      }
    }
  }

  lemma {:induction false} SpawnAllAttempts(db: Db, parent: RunId, a: AttemptId, t: TenantId, budgets: seq<Option<int>>)
    requires Inv(db) && parent < |db.runs| && SpawnAll(db, parent, a, t, budgets).Ok?
    ensures SpawnAll(db, parent, a, t, budgets).value.attempts == db.attempts
    decreases |budgets|
  {
    hide Inv, CreateRun, Evolves;
    if budgets != [] {
      var n := |budgets| - 1;
      SpawnAllAttempts(db, parent, a, t, budgets[..n]);
      SpawnAllKeeps(db, parent, a, t, budgets[..n]);
      CreateRunShape(SpawnAll(db, parent, a, t, budgets[..n]).value, ChildInput(t, parent, budgets[n]));
    }
  }

  // ------------------------------------------------------------------- replacement

  /** What each failed child left of its budget. */
  function Needs(db: Db, cs: seq<RunId>): (needs: seq<Option<int>>)
    requires forall i :: 0 <= i < |cs| ==> cs[i] < |db.runs|
    ensures |needs| == |cs|
  {
    seq(|cs|, i requires 0 <= i < |cs| => Unspent(db.runs[cs[i]]))
  }

  function Unspent(run: Run): Option<int> {
    if run.tokenBudget.None? then None else Some(run.tokenBudget.value - run.tokensUsed)
  }

  /** Distinct replaceable children of one parent, in creation order. */
  ghost predicate Listed(db: Db, parent: RunId, cs: seq<RunId>)
  {
    && parent < |db.runs| && !IsTerminal(db.runs[parent].status)
    && (forall c :: c in cs ==> Replaceable(db, parent, c))
    && (forall i :: 0 <= i < |cs| ==> cs[i] < |db.runs|)
    && forall i, j :: 0 <= i < j < |cs| ==> cs[i] < cs[j]
  }

  lemma ListedPrefix(db: Db, parent: RunId, cs: seq<RunId>)
    requires Listed(db, parent, cs) && cs != []
    ensures Listed(db, parent, cs[..|cs| - 1]) && cs[|cs| - 1] !in cs[..|cs| - 1]
    ensures Replaceable(db, parent, cs[|cs| - 1])
    ensures Needs(db, cs)[..|cs| - 1] == Needs(db, cs[..|cs| - 1])
  {
    hide Replaceable;
    assert cs[|cs| - 1] in cs;
  }

  ghost predicate ReplaceState(db: Db, db': Db, parent: RunId, cs: seq<RunId>)
    requires Listed(db, parent, cs)
  {
    var t := db.runs[parent].tenant;
    && Inv(db') && t < |db.tenants| && db'.tenants == db.tenants && db'.now == db.now
    && RoomOf(db', t) == LeftAfter(RoomOf(db, t), Needs(db, cs))
    && Announced(db, db', parent, ChildRunReplaced, None, |cs|)
  }

  lemma {:induction false} ReplaceAllIff(db: Db, parent: RunId, cs: seq<RunId>)
    requires Inv(db) && Listed(db, parent, cs)
    ensures var t := db.runs[parent].tenant;
            var replaced := ReplaceAll(db, parent, cs);
            && t < |db.tenants|
            && (replaced.Ok? <==> cs == [] || (db.tenants[t].active && FitInTurn(RoomOf(db, t), Needs(db, cs))))
            && (replaced.Ok? ==> ReplaceState(db, replaced.value, parent, cs))
            && (replaced.Err? ==> exists reason ::
                  replaced == Err(AdmissionRejected(reason)) && RefusedInTurn(db, t, Needs(db, cs), reason))
    decreases |cs|
  {
    hide Inv, RoomOf, CreateRun, Evolves, Announced, Fits, Left, AppendEvent, Admissible, Refusal, RefusedInTurn, Replaceable,
         ReplacementInput, Unspent, LeftAfter, LineageInputOk;
    var t := db.runs[parent].tenant;
    TenantExists(db, parent);
    if cs == [] {
      NoneAnnounced(db, parent, ChildRunReplaced, None);
      NothingLeft(RoomOf(db, t), Needs(db, cs));
    } else {
      var n := |cs| - 1;
      ListedPrefix(db, parent, cs);
      ReplaceAllIff(db, parent, cs[..n]);
      var earlier := ReplaceAll(db, parent, cs[..n]);
      if earlier.Ok? {
        NextInLine(db, earlier.value, parent, cs);
        ReplaceOneIff(db, earlier.value, parent, cs);
      } else {
        RefusedEarlier(db, t, Needs(db, cs));
      }
    }
  }

  lemma NothingLeft(room: Room, requests: seq<Option<int>>)
    requires requests == []
    ensures LeftAfter(room, requests) == room
  {
  }

  /** Child c is as it was, its parent still waits, and a stand-in with this need may be created. */
  ghost predicate InLine(db: Db, before: Db, parent: RunId, c: RunId, need: Option<int>)
  {
    && parent < |db.runs| && parent < |before.runs| && c < |before.runs|
    && before.runs[c].tenant == before.runs[parent].tenant == db.runs[parent].tenant
    && !IsTerminal(before.runs[parent].status)
    && LineageInputOk(before, ReplacementInput(before, parent, c))
    && ReplacementInput(before, parent, c).tokenBudget == need
  }

  lemma NextInLine(db: Db, before: Db, parent: RunId, cs: seq<RunId>)
    requires Inv(db) && Listed(db, parent, cs) && cs != [] && ReplaceAll(db, parent, cs[..|cs| - 1]) == Ok(before)
    ensures InLine(db, before, parent, cs[|cs| - 1], Needs(db, cs)[|cs| - 1])
  {
    hide Inv, Evolves, LineageInputOk, AllStandIn, NewReplace, CreateRun, ReplaceAll;
    var n := |cs| - 1;
    ListedPrefix(db, parent, cs);
    NotOwnParent(db, parent, cs[n]);
    ReplaceAllOutcome(db, parent, cs[..n]);
    ReplaceAllKeeps(db, parent, cs[..n]);
    StillReplaceable(db, before, parent, cs[..n], cs[n]);
    ChildTenant(db, parent, cs[n]);
  }

  lemma ChildTenant(db: Db, parent: RunId, c: RunId)
    requires Inv(db) && IsChild(db, parent, c)
    ensures parent < |db.runs| && db.runs[c].tenant == db.runs[parent].tenant
  {
    assert ParentOk(db, c);
  }

  lemma ReplaceOneIff(db: Db, before: Db, parent: RunId, cs: seq<RunId>)
    requires Inv(db) && Listed(db, parent, cs) && cs != [] && Listed(db, parent, cs[..|cs| - 1])
    requires ReplaceState(db, before, parent, cs[..|cs| - 1])
    requires InLine(db, before, parent, cs[|cs| - 1], Needs(db, cs)[|cs| - 1])
    requires |cs| > 1 ==>
               var t := db.runs[parent].tenant;
               db.tenants[t].active && FitInTurn(RoomOf(db, t), Needs(db, cs[..|cs| - 1]))
    ensures var t := db.runs[parent].tenant;
            var created := CreateRun(before, ReplacementInput(before, parent, cs[|cs| - 1]));
            && (created.Ok? <==> db.tenants[t].active && FitInTurn(RoomOf(db, t), Needs(db, cs)))
            && (created.Ok? ==>
                  && AppendEvent(created.value, parent, ChildRunReplaced, None).Ok?
                  && ReplaceState(db, AppendEvent(created.value, parent, ChildRunReplaced, None).value, parent, cs))
            && (created.Err? ==> exists reason ::
                  created == Err(AdmissionRejected(reason)) && RefusedInTurn(db, t, Needs(db, cs), reason))
  {
    hide Inv, RoomOf, CreateRun, Evolves, Fits, Left, Refusal, RefusedInTurn, Replaceable, LineageInputOk, Needs;
    var t, n := db.runs[parent].tenant, |cs| - 1;
    ListedPrefix(db, parent, cs);
    var input := ReplacementInput(before, parent, cs[n]);
    DelegatedIff(before, input, parent);
    if CreateRun(before, input).Ok? {
      AnnouncedRoom(before, input, parent, ChildRunReplaced, None);
      AnnouncedMore(db, before, AppendEvent(CreateRun(before, input).value, parent, ChildRunReplaced, None).value,
                    parent, ChildRunReplaced, None, n);
      CreateRunShape(before, input);
    } else {
      RefusedLast(db, before, t, Needs(db, cs));
    }
  }

  /** A failed child that nothing has replaced yet, below the replacement limit and with tokens
      left. */
  ghost predicate MayBeReplaced(db: Db, parent: RunId, c: RunId)
  {
    && c < |db.runs| && db.runs[c].parent == Some(parent) && db.runs[c].status == Failed
    && (forall r :: 0 <= r < |db.runs| ==> db.runs[r].predecessor != Some(c))
    && db.runs[c].generation + 1 <= db.cfg.maxChildReplacements
    && (Unspent(db.runs[c]).Some? ==> Unspent(db.runs[c]).value >= 1)
  }

  /** The children to replace, in creation order. */
  lemma WhoIsReplaced(db: Db, parent: RunId)
    ensures forall c: RunId :: c in ReplaceableBelow(db, parent, |db.runs|) <==> MayBeReplaced(db, parent, c)
    ensures forall i, j :: 0 <= i < j < |ReplaceableBelow(db, parent, |db.runs|)| ==>
              ReplaceableBelow(db, parent, |db.runs|)[i] < ReplaceableBelow(db, parent, |db.runs|)[j]
  {
  }

  /** With children to replace: all get their stand-ins when the tenant is active and has room for
      them in turn; otherwise the replacement is deferred. */
  ghost predicate ReplacedOrDeferred(db: Db, db': Db, parent: RunId, cs: seq<RunId>)
    requires Listed(db, parent, cs)
  {
    var t := db.runs[parent].tenant;
    && t < |db.tenants|
    && if db.tenants[t].active && FitInTurn(RoomOf(db, t), Needs(db, cs)) then
         && OthersKept(db, db', parent, |cs|) && AllStandIn(db, db', parent, cs)
         && Announced(db, db', parent, ChildRunReplaced, None, |cs|)
       else
         exists reason :: RefusedInTurn(db, t, Needs(db, cs), reason) && Deferred(db, db', parent, reason)
  }

  lemma ReplaceIff(db: Db, parent: RunId, cs: seq<RunId>)
    requires Inv(db) && Listed(db, parent, cs) && cs != []
    ensures ReplaceAll(db, parent, cs).Ok? ==> ReplacedOrDeferred(db, ReplaceAll(db, parent, cs).value, parent, cs)
    ensures ReplaceAll(db, parent, cs).Err? ==>
              && ReplaceAll(db, parent, cs).error.AdmissionRejected?
              && var reason := ReplaceAll(db, parent, cs).error.reason;
                 var noted := AppendEvent(db, parent, ChildReplacementDeferred(reason), None);
                 && noted.Ok?
                 && ReplacedOrDeferred(db, if DeferralRecorded(db, parent, reason) then db else noted.value, parent, cs)
  {
    hide Inv, RoomOf, ReplaceAll, FitInTurn, Announced, AllStandIn, OthersKept, Replaceable, RefusedInTurn, Needs, AppendEvent,
         Deferred, DeferralRecorded;
    ReplaceAllIff(db, parent, cs);
    if ReplaceAll(db, parent, cs).Ok? {
      ReplaceAllOutcome(db, parent, cs);
    } else {
      DeferralIs(db, parent, ReplaceAll(db, parent, cs).error.reason);
    }
  }

  /** A waiting parent whose children have all ended is always resolved: it queues when no child
      can be replaced; every replaceable child gets its stand-in when the tenant is active and
      has room for all in turn; only otherwise is the replacement deferred, which is noted on the
      parent once for each reason. */
  lemma WakeIff(db: Db, parent: RunId)
    requires Inv(db)
    ensures WakeParent(db, parent).Ok? <==>
              && parent < |db.runs| && db.runs[parent].status == WaitingChildren
              && forall c :: 0 <= c < |db.runs| && db.runs[c].parent == Some(parent) ==> IsTerminal(db.runs[c].status)
    ensures WakeParent(db, parent).Ok? ==>
              var db', cs := WakeParent(db, parent).value, ReplaceableBelow(db, parent, |db.runs|);
              && Listed(db, parent, cs)
              && (cs == [] ==> Transitioned(db, db', parent, Queued, None, ChildrenResolved, None, db.attempts))
              && (cs != [] ==> ReplacedOrDeferred(db, db', parent, cs))
  {
    hide Inv, ReplaceAll, Transitioned, TransitionRun, ReplacedOrDeferred, Replaceable, AppendEvent, DeferralRecorded;
    if parent < |db.runs| {
      var cs := ReplaceableBelow(db, parent, |db.runs|);
      TenantExists(db, parent);
      TransitionExact(db, parent, {WaitingChildren}, Queued, ChildrenResolved, None, ClearCurrent);
      if db.runs[parent].status == WaitingChildren && cs != [] {
        ReplaceIff(db, parent, cs);
      }
    }
  }

  /** The reason is noted on the parent unless it has been before; nothing else changes. */
  ghost predicate Deferred(db: Db, db': Db, parent: RunId, reason: AdmissionReason)
  {
    && parent < |db.runs|
    && if exists i :: 0 <= i < |db.runs[parent].events| && db.runs[parent].events[i].kind == ChildReplacementDeferred(reason)
       then db' == db
       else Noted(db, db', parent, ChildReplacementDeferred(reason), None, db.runs[parent].call, db.runs[parent].tokensUsed)
  }

  lemma DeferralIs(db: Db, parent: RunId, reason: AdmissionReason)
    requires Inv(db) && parent < |db.runs|
    ensures AppendEvent(db, parent, ChildReplacementDeferred(reason), None).Ok?
    ensures Deferred(db, if DeferralRecorded(db, parent, reason) then db
                         else AppendEvent(db, parent, ChildReplacementDeferred(reason), None).value, parent, reason)
  {
    hide Inv;
    SoundRow(db, parent);
  }
}
