/** What one run row satisfies on its own: a gapless ledger whose transition events
    replay to the stored status, metered usage equal to the token counter, and a
    provider call in flight that still fits the budget. */
module RowInvariants {
  import opened Prelude
  import opened RunStates
  import opened Tables
  import opened Kernel
  import opened Admissions

  /** Fold the transition events from CREATED; None when an edge is illegal or does not connect. */
  function Replay(events: seq<Event>): Option<RunStatus>
  {
    if events == [] then Some(Created)
    else
      var before := Replay(events[..|events| - 1]);
      var edge := events[|events| - 1].edge;
      if before.None? || edge.None? then before
      else if edge.value.from == before.value && IsTransitionAllowed(before.value, edge.value.to)
      then Some(edge.value.to)
      else None
  }

  function TotalUsage(events: seq<Event>): nat
  {
    if events == [] then 0
    else TotalUsage(events[..|events| - 1]) + UsageTokens(events[|events| - 1].kind)
  }

  ghost predicate Gapless(run: Run)
  {
    run.lastEventSeq == |run.events|
    && forall i :: 0 <= i < |run.events| ==> run.events[i].seqNo == i + 1
  }

  ghost predicate WithinBudget(run: Run)
  {
    run.tokenBudget.Some? ==>
      && run.tokensUsed <= run.tokenBudget.value
      && run.admission.reserved == run.tokenBudget.value
  }

  ghost predicate CallFits(run: Run)
  {
    run.call.Some? ==>
      && !IsTerminal(run.status)
      && (run.tokenBudget.Some? ==>
            run.tokensUsed + run.call.value.inputCeiling + run.call.value.maxTokens <= run.tokenBudget.value)
  }

  ghost predicate RowOk(run: Run, now: nat)
  {
    && Gapless(run)
    && Replay(run.events) == Some(run.status)
    && run.tokensUsed == TotalUsage(run.events)
    && WithinBudget(run)
    && (run.admission.active <==> !IsTerminal(run.status))
    && (IsUnclaimed(run.status) ==> run.current.None?)
    && CallFits(run)
    && (forall i :: 0 <= i < |run.events| ==> run.events[i].at <= now)
  }

  /** The columns no transaction ever changes. */
  ghost predicate SameIdentity(old': Run, new': Run)
  {
    && old'.tenant == new'.tenant
    && old'.session == new'.session
    && old'.parent == new'.parent
    && old'.predecessor == new'.predecessor
    && old'.generation == new'.generation
    && old'.tokenBudget == new'.tokenBudget
    && old'.admission.reserved == new'.admission.reserved
  }

  lemma LastOfExtended(events: seq<Event>, e: Event)
    ensures Replay(events + [e]) ==
            (var before := Replay(events);
             if before.None? || e.edge.None? then before
             else if e.edge.value.from == before.value && IsTransitionAllowed(before.value, e.edge.value.to)
             then Some(e.edge.value.to) else None)
    ensures TotalUsage(events + [e]) == TotalUsage(events) + UsageTokens(e.kind)
    ensures forall day :: DayUsage(events + [e], day) ==
              DayUsage(events, day) + (if Day(e.at) == day then UsageTokens(e.kind) else 0)
  {
    assert (events + [e])[..|events|] == events;
  }

  lemma RowRecorded(run: Run, kind: EventKind, attempt: Option<AttemptId>, now: nat)
    requires RowOk(run, now) && UsageTokens(kind) == 0
    ensures RowOk(Recorded(run, kind, None, attempt, now), now)
  {
    LastOfExtended(run.events, Event(run.lastEventSeq + 1, kind, None, attempt, now));
  }

  lemma RowMoved(
    run: Run, to: RunStatus, kind: EventKind, attempt: Option<AttemptId>, patch: CurrentPatch, now: nat)
    requires RowOk(run, now) && UsageTokens(kind) == 0
    requires IsTransitionAllowed(run.status, to)
    requires IsTerminal(to) ==> run.call.None?
    requires IsUnclaimed(to) ==> Patched(run.current, patch).None?
    ensures RowOk(Moved(run, to, kind, attempt, patch, now), now)
    ensures SameIdentity(run, Moved(run, to, kind, attempt, patch, now))
    ensures !IsTerminal(run.status)
  {
    LastOfExtended(run.events, Event(run.lastEventSeq + 1, kind, Some(Edge(run.status, to)), attempt, now));
  }

  /** Recording metered usage keeps the row sound when the provider stayed within its ceilings. */
  lemma RowMetered(run: Run, inputTokens: nat, outputTokens: nat, attempt: Option<AttemptId>, now: nat)
    requires RowOk(run, now) && run.call.Some?
    requires inputTokens <= run.call.value.inputCeiling && outputTokens <= run.call.value.maxTokens
    ensures var logged := Recorded(run, ModelInvocationCompleted(inputTokens, outputTokens), None, attempt, now);
            RowOk(logged.(tokensUsed := run.tokensUsed + inputTokens + outputTokens, call := None), now)
  {
    LastOfExtended(run.events, Event(run.lastEventSeq + 1,
      ModelInvocationCompleted(inputTokens, outputTokens), None, attempt, now));
  }

  lemma {:induction false} ReplayPrefix(events: seq<Event>, k: nat)
    requires Replay(events).Some? && k <= |events|
    ensures Replay(events[..k]).Some?
  {
    if k < |events| {
      var n := |events| - 1;
      ReplayPrefix(events[..n], k);
      assert events[..n][..k] == events[..k];
    } else {
      assert events[..k] == events;
    }
  }

  /** Nothing moves a run after a terminal transition. */
  lemma {:induction false} NoTransitionAfterTerminal(events: seq<Event>, i: nat, j: nat)
    requires Replay(events).Some? && i < j < |events|
    requires events[i].edge.Some? && IsTerminal(events[i].edge.value.to)
    ensures events[j].edge.None?
  {
    TerminalSticks(events, i, j);
    ReplayPrefix(events, j + 1);
    assert events[..j + 1][..j] == events[..j];
  }

  lemma {:induction false} TerminalSticks(events: seq<Event>, i: nat, k: nat)
    requires Replay(events).Some? && i < k <= |events|
    requires events[i].edge.Some? && IsTerminal(events[i].edge.value.to)
    ensures Replay(events[..k]) == Some(events[i].edge.value.to)
    decreases k
  {
    ReplayPrefix(events, k);
    assert events[..k][..k - 1] == events[..k - 1];
    if i + 1 < k {
      TerminalSticks(events, i, k - 1);
    }
  }
}
