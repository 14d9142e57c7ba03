/** Approvals, grants and commit order of governed actions: invariants on top of the
    protocol invariant. */
module Authority {
  import opened Prelude
  import opened Tables
  import opened Evolution
  import opened Lineage
  import opened GovernedAction
  import opened ProtocolInvariant
  import opened ProtocolEvents

  // -------------------------------------------------------------------- the tables

  /** Approval a is the newest one asked for under the key, by any run of the lineage. */
  predicate IsLastFor(approvals: seq<Approval>, key: Key, a: ApprovalId)
  {
    && a < |approvals| && approvals[a].key == key
    && forall b :: a < b < |approvals| ==> approvals[b].key != key
  }

  /** Under one key, later approvals belong to later runs, and within a run a new approval is
      asked for only once all earlier ones have expired. */
  ghost predicate ApprovalsOk(s: Sys)
  {
    && (forall a :: 0 <= a < |s.approvals| ==>
          s.approvals[a].run < |s.db.runs| && s.approvals[a].key.root == RootOf(s.db.runs, s.approvals[a].run))
    && (forall a, b :: 0 <= a < b < |s.approvals| && s.approvals[a].key == s.approvals[b].key ==>
          && s.approvals[a].run <= s.approvals[b].run
          && (s.approvals[a].run == s.approvals[b].run ==> s.approvals[a].status.Expired?))
  }

  /** A receipt is bound to the newest approval under its key. */
  ghost predicate BindingsOk(s: Sys)
  {
    forall id :: 0 <= id < |s.receipts| && s.receipts[id].approval.Some? ==>
      IsLastFor(s.approvals, s.receipts[id].key, s.receipts[id].approval.value)
  }

  /** Receipts created under a grant. */
  function CallsUnder(receipts: seq<Receipt>, g: GrantId): nat
  {
    if receipts == [] then 0
    else
      var n := |receipts| - 1;
      CallsUnder(receipts[..n], g) + (if receipts[n].grant == Some(g) then 1 else 0)
  }

  ghost predicate GrantsOk(s: Sys)
  {
    && (forall g :: 0 <= g < |s.grants| ==>
          && s.grants[g].callsUsed == CallsUnder(s.receipts, g)
          && (s.grants[g].maxCalls.Some? ==> s.grants[g].callsUsed <= s.grants[g].maxCalls.value))
    && (forall id :: 0 <= id < |s.receipts| && s.receipts[id].grant.Some? ==>
          s.receipts[id].grant.value < |s.grants|)
  }

  /** The run's ledger has an event of this kind by this attempt. */
  ghost predicate Logged(run: Run, kind: EventKind, attempt: AttemptId)
  {
    exists k :: 0 <= k < |run.events| && run.events[k].kind == kind && run.events[k].attempt == Some(attempt)
  }

  ghost predicate Mentioned(run: Run, kind: EventKind)
  {
    exists k :: 0 <= k < |run.events| && run.events[k].kind == kind
  }

  /** Every receipt and every commit is in the ledger of its run. */
  ghost predicate TrailOk(s: Sys)
  {
    && (forall c :: 0 <= c < |s.commits| ==>
          s.commits[c].run < |s.db.runs|
          && Logged(s.db.runs[s.commits[c].run], ToolInvocationCommitted, s.commits[c].attempt))
    && (forall id :: 0 <= id < |s.receipts| ==>
          s.receipts[id].run < |s.db.runs| && Mentioned(s.db.runs[s.receipts[id].run], ToolInvocationStarted))
  }

  /** Receipts of a run are committed by attempts with non-decreasing numbers. */
  ghost predicate CommitsOk(s: Sys)
  {
    && TrailOk(s)
    && (forall c :: 0 <= c < |s.commits| ==>
          s.commits[c].attempt < |s.db.attempts| && s.db.attempts[s.commits[c].attempt].run == s.commits[c].run)
    && (forall c, d :: 0 <= c < d < |s.commits| && s.commits[c].run == s.commits[d].run ==>
          s.db.attempts[s.commits[c].attempt].no <= s.db.attempts[s.commits[d].attempt].no)
  }

  // ---------------------------------------------------------------------- the calls

  /** From the approval check to the send. */
  predicate Authorized(pc: Pc) {
    pc.ResolvingCredential? || pc.RecheckingApproval? || pc.InsertingReceipt? || Armed(pc)
  }

  /** The call's approval is of its own run and key and was granted. */
  predicate Cleared(s: Sys, actor: Actor)
  {
    && actor.approval.Some? && actor.approval.value < |s.approvals|
    && var row := s.approvals[actor.approval.value];
       row.run == actor.run && row.key == actor.key && (row.status.Approved? || row.status.Expired?)
  }

  /** No approval of the call's run and key is open, granted or denied. */
  ghost predicate AllExpired(s: Sys, actor: Actor)
  {
    forall a :: 0 <= a < |s.approvals| && s.approvals[a].run == actor.run && s.approvals[a].key == actor.key ==>
      s.approvals[a].status.Expired?
  }

  ghost predicate NewestRun(s: Sys, actor: Actor)
  {
    forall a :: 0 <= a < |s.approvals| && s.approvals[a].key == actor.key ==> s.approvals[a].run <= actor.run
  }

  /** What holding the lock guarantees about the approvals under the key. */
  ghost predicate HolderAuthority(s: Sys, actor: Actor)
  {
    && (Working(actor.pc) || actor.pc.FindingReceipt? ==> NewestRun(s, actor))
    && (Working(actor.pc) && actor.approval.Some? ==> IsLastFor(s.approvals, actor.key, actor.approval.value))
    && (actor.pc.RequestingApproval? ==> AllExpired(s, actor))
    && ((actor.pc.FinalOwner? || actor.pc.Dispatching?) && NeedsApproval(s, actor) ==>
          Cleared(s, actor) && s.approvals[actor.approval.value].status.Approved?)
  }

  ghost predicate AuthorityOk(s: Sys, actor: Actor)
  {
    && (actor.grant.Some? ==> actor.grant.value < |s.grants|)
    && (BeforeLookup(actor.pc) ==> actor.approval.None?)
    && (Authorized(actor.pc) && NeedsApproval(s, actor) ==> actor.approval.Some?)
    && (actor.pc.FinalOwner? || actor.pc.Dispatching? || actor.wire != Unsent ==>
          NeedsApproval(s, actor) ==> Cleared(s, actor))
    && (InFence(actor.pc) && actor.session ==> HolderAuthority(s, actor))
  }

  ghost predicate AuthInv(s: Sys)
  {
    && ApprovalsOk(s)
    && BindingsOk(s)
    && GrantsOk(s)
    && CommitsOk(s)
    && forall i :: 0 <= i < |s.actors| ==> AuthorityOk(s, s.actors[i])
  }

  // --------------------------------------------------------------------- assembling

  /** Approvals after a step under `key`: decisions are made once, only rows of `key` expire
      or are added. */
  ghost predicate ApprovalsTouched(s: Sys, s': Sys, key: Key)
  {
    && |s.approvals| <= |s'.approvals|
    && (forall a :: 0 <= a < |s.approvals| ==>
          var o, n := s.approvals[a], s'.approvals[a];
          && n.run == o.run && n.key == o.key
          && (n.status == o.status || o.status.Undecided? || (o.status.Approved? && n.status.Expired? && o.key == key)))
    && (forall a :: |s.approvals| <= a < |s'.approvals| ==> s'.approvals[a].key == key)
  }

  ghost predicate GrantsTouched(s: Sys, s': Sys)
  {
    && |s.grants| <= |s'.grants|
    && forall g :: 0 <= g < |s.grants| ==> s'.grants[g].requiresApproval == s.grants[g].requiresApproval
  }

  lemma OtherAuthority(s: Sys, s': Sys, key: Key, actor: Actor)
    requires AuthorityOk(s, actor) && ApprovalsTouched(s, s', key) && GrantsTouched(s, s')
    requires actor.key == key && InFence(actor.pc) && actor.session ==> s'.approvals == s.approvals
    ensures AuthorityOk(s', actor)
  {
  }

  ghost predicate SameBindings(s: Sys, s': Sys)
  {
    && |s'.receipts| == |s.receipts|
    && forall id :: 0 <= id < |s.receipts| ==>
         && s'.receipts[id].run == s.receipts[id].run
         && s'.receipts[id].key == s.receipts[id].key
         && s'.receipts[id].approval == s.receipts[id].approval
         && s'.receipts[id].grant == s.receipts[id].grant
  }

  lemma {:induction false} SameCalls(r: seq<Receipt>, r': seq<Receipt>, g: GrantId)
    requires |r| == |r'| && forall id :: 0 <= id < |r| ==> r'[id].grant == r[id].grant
    ensures CallsUnder(r', g) == CallsUnder(r, g)
  {
    if r != [] {
      SameCalls(r[..|r| - 1], r'[..|r| - 1], g);
    }
  }

  lemma TrailKept(s: Sys, s': Sys)
    requires TrailOk(s) && Evolves(s.db, s'.db) && s'.commits == s.commits && |s'.receipts| == |s.receipts|
    requires forall id :: 0 <= id < |s.receipts| ==> s'.receipts[id].run == s.receipts[id].run
    ensures TrailOk(s')
  {
    forall c | 0 <= c < |s'.commits|
      ensures Logged(s'.db.runs[s'.commits[c].run], ToolInvocationCommitted, s'.commits[c].attempt)
    {
      var r := s.commits[c].run;
      assert RowEvolves(s.db.runs[r], s'.db.runs[r], |s.db.attempts|);
      var k :| 0 <= k < |s.db.runs[r].events| && s.db.runs[r].events[k].kind == ToolInvocationCommitted
               && s.db.runs[r].events[k].attempt == Some(s.commits[c].attempt);
      assert s'.db.runs[r].events[k] == s.db.runs[r].events[k];
    }
    forall id | 0 <= id < |s'.receipts|
      ensures Mentioned(s'.db.runs[s'.receipts[id].run], ToolInvocationStarted)
    {
      var r := s.receipts[id].run;
      assert RowEvolves(s.db.runs[r], s'.db.runs[r], |s.db.attempts|);
      var k :| 0 <= k < |s.db.runs[r].events| && s.db.runs[r].events[k].kind == ToolInvocationStarted;
      assert s'.db.runs[r].events[k] == s.db.runs[r].events[k];
    }
  }

  /** Approvals that only lose validity, receipts that only change status. */
  lemma TablesKept(s: Sys, s': Sys, key: Key)
    requires ApprovalsOk(s) && BindingsOk(s) && GrantsOk(s) && CommitsOk(s) && Evolves(s.db, s'.db)
    requires ApprovalsTouched(s, s', key) && |s'.approvals| == |s.approvals|
    requires SameBindings(s, s') && s'.grants == s.grants && s'.commits == s.commits
    ensures ApprovalsOk(s') && BindingsOk(s') && GrantsOk(s') && CommitsOk(s')
  {
    hide TrailOk;
    forall a | 0 <= a < |s.approvals|
      ensures RootOf(s'.db.runs, s.approvals[a].run) == RootOf(s.db.runs, s.approvals[a].run)
    {
      RootStable(s.db, s'.db, s.approvals[a].run);
    }
    forall g | 0 <= g < |s.grants|
      ensures CallsUnder(s'.receipts, g) == CallsUnder(s.receipts, g)
    {
      SameCalls(s.receipts, s'.receipts, g);
    }
    TrailKept(s, s');
    forall c | 0 <= c < |s.commits|
      ensures AttemptEvolves(s.db.attempts[s.commits[c].attempt], s'.db.attempts[s.commits[c].attempt])
    {
    }
  }

  /** The other calls are the same up to the fate of a request they sent. */
  ghost predicate OthersSame(s: Sys, s': Sys, i: ActorId)
  {
    && i < |s.actors| && |s'.actors| == |s.actors|
    && forall j :: 0 <= j < |s.actors| && j != i ==>
         && s'.actors[j] == s.actors[j].(wire := s'.actors[j].wire, barred := s'.actors[j].barred)
         && (s'.actors[j].wire == Unsent <==> s.actors[j].wire == Unsent)
  }

  lemma AssembleAuthority(s: Sys, s': Sys, i: ActorId)
    requires AuthInv(s) && OthersSame(s, s', i)
    requires ApprovalsTouched(s, s', s.actors[i].key) && GrantsTouched(s, s')
    requires Exclusive(s, i) || s'.approvals == s.approvals
    requires ApprovalsOk(s') && BindingsOk(s') && GrantsOk(s') && CommitsOk(s')
    requires AuthorityOk(s', s'.actors[i])
    ensures AuthInv(s')
  {
    forall j | 0 <= j < |s'.actors|
      ensures AuthorityOk(s', s'.actors[j])
    {
      if j != i {
        assert s.actors[j].key == s.actors[i].key ==> SameKey(s, i, j);
        OtherAuthority(s, s', s.actors[i].key, s.actors[j]);
      }
    }
  }

  /** A step of call i that leaves approvals, grants, bindings and commits alone. */
  lemma PlainStep(s: Sys, s': Sys, i: ActorId)
    requires AuthInv(s) && OthersSame(s, s', i) && Evolves(s.db, s'.db)
    requires s'.approvals == s.approvals && s'.grants == s.grants && s'.commits == s.commits && SameBindings(s, s')
    requires AuthorityOk(s', s'.actors[i])
    ensures AuthInv(s')
  {
    hide AuthorityOk, ApprovalsOk, BindingsOk, GrantsOk, CommitsOk, Evolves;
    TablesKept(s, s', s.actors[i].key);
    AssembleAuthority(s, s', i);
  }

  /** A step of call i that locks approvals, letting them expire. */
  lemma LockingStep(s: Sys, s': Sys, i: ActorId)
    requires AuthInv(s) && OthersSame(s, s', i) && Evolves(s.db, s'.db) && Exclusive(s, i)
    requires ApprovalsTouched(s, s', s.actors[i].key) && |s'.approvals| == |s.approvals|
    requires s'.grants == s.grants && s'.commits == s.commits && SameBindings(s, s')
    requires AuthorityOk(s', s'.actors[i])
    ensures AuthInv(s')
  {
    hide AuthorityOk, ApprovalsOk, BindingsOk, GrantsOk, CommitsOk, Evolves;
    TablesKept(s, s', s.actors[i].key);
    AssembleAuthority(s, s', i);
  }
}
