/** What governed actions promise, for every execution: any number of calls under any number
    of attempts and replaced children, interleaved with crashes, lost sessions, lease expiry,
    approvals, grants and the kernel's own transactions. */
module ExactlyOnce {
  import opened Prelude
  import opened Tables
  import opened Lineage
  import opened Invariants
  import opened Runtime
  import opened GovernedAction
  import opened ProtocolInvariant
  import opened ProtocolSteps
  import opened ProtocolEvents
  import opened ProtocolSafety
  import opened Authority
  import opened AuthoritySteps
  import opened Finality

  // -------------------------------------------------------------------- executions

  ghost predicate Start(s: Sys)
  {
    && Initial(s.db)
    && s.receipts == [] && s.approvals == [] && s.grants == [] && s.holders == map[]
    && s.actors == [] && s.effects == [] && s.commits == []
  }

  /** Move n leads from state n to the next. */
  ghost predicate Made(states: seq<Sys>, moves: seq<Label>, n: nat)
    requires |states| == |moves| + 1 && n < |moves|
  {
    Next(states[n], moves[n]) == Some(states[n + 1])
  }

  /** A run of the whole system: states[0] is empty and every next state is one step away. */
  ghost predicate Trace(states: seq<Sys>, moves: seq<Label>)
  {
    && |states| == |moves| + 1
    && Start(states[0])
    && forall n :: 0 <= n < |moves| ==> Made(states, moves, n)
  }

  lemma StartInv(s: Sys)
    requires Start(s)
    ensures SysInv(s) && AuthInv(s)
  {
    InitialInv(s.db);
  }

  lemma {:induction false} TraceInv(states: seq<Sys>, moves: seq<Label>, n: nat)
    requires Trace(states, moves) && n < |states|
    ensures SysInv(states[n]) && AuthInv(states[n])
    decreases n
  {
    hide SysInv, AuthInv, Next;
    if n == 0 {
      StartInv(states[0]);
    } else {
      TraceInv(states, moves, n - 1);
      assert Made(states, moves, n - 1);
      NextKeeps(states[n - 1], moves[n - 1]);
      NextAuthority(states[n - 1], moves[n - 1]);
    }
  }

  lemma {:induction false} TraceSettles(states: seq<Sys>, moves: seq<Label>, m: nat, n: nat)
    requires Trace(states, moves) && m <= n < |states|
    ensures Settles(states[m], states[n])
    decreases n
  {
    hide Settles, Next;
    if m == n {
      SettlesRefl(states[m]);
    } else {
      TraceSettles(states, moves, m, n - 1);
      assert Made(states, moves, n - 1);
      NextSettles(states[n - 1], moves[n - 1]);
      SettlesTransitive(states[m], states[n - 1], states[n]);
    }
  }

  // ------------------------------------------------------------------------ effects

  /** Requests under a manually recovered key come from the one call that created the receipt. */
  lemma ManualSender(s: Sys, i: ActorId, j: ActorId)
    requires SysInv(s) && SameKey(s, i, j) && s.actors[i].key.action.recovery.Manual?
    requires s.actors[i].wire != Unsent && s.actors[j].wire != Unsent
    ensures i == j
  {
    hide SysInv, Inv, RootOf;
    TableFacts(s);
    ActorFacts(s, i);
    ActorFacts(s, j);
    var a, b := s.actors[i].receipt.value, s.actors[j].receipt.value;
    assert a == b || a < b || b < a;
  }

  lemma OneEffect(s: Sys, e: EffectId, f: EffectId)
    requires SysInv(s) && e < |s.effects| && f < |s.effects|
    requires s.effects[e].key == s.effects[f].key && Guarded(s, s.effects[e].key)
    ensures e == f
  {
    if e != f {
      TableFacts(s);
      var i, j := s.effects[e].sender, s.effects[f].sender;
      assert s.actors[i].wire == Served(e) && s.actors[j].wire == Served(f);
      assert SameKey(s, i, j) && Potent(s.actors[i]) && Potent(s.actors[j]);
      assert Rivals(s, i, j);
      assert e < f || f < e;
      if s.effects[e].key.action.recovery.Manual? {
        ManualSender(s, i, j);
      }
    }
  }

  /** One idempotency key causes at most one remote effect: with a receiver that deduplicates
      under the retry policy, with terminal certificates under the reconcile policy, and with
      no assumption at all under the manual policy. Lock sessions may be lost anywhere. */
  lemma AtMostOneEffect(states: seq<Sys>, moves: seq<Label>, n: nat, e: EffectId, f: EffectId)
    requires Trace(states, moves) && n < |states|
    requires e < |states[n].effects| && f < |states[n].effects|
    requires states[n].effects[e].key == states[n].effects[f].key
    requires Guarded(states[n], states[n].effects[e].key)
    ensures e == f
  {
    TraceInv(states, moves, n);
    OneEffect(states[n], e, f);
  }

  /** Under the manual policy at most one call ever hands a request to the transport. */
  lemma ManualDispatchesOnce(states: seq<Sys>, moves: seq<Label>, n: nat, i: ActorId, j: ActorId)
    requires Trace(states, moves) && n < |states| && SameKey(states[n], i, j)
    requires states[n].actors[i].key.action.recovery.Manual?
    requires states[n].actors[i].wire != Unsent && states[n].actors[j].wire != Unsent
    ensures i == j
  {
    TraceInv(states, moves, n);
    ManualSender(states[n], i, j);
  }

  /** A call sends at most once: when it is about to, it has not. */
  lemma SendsOnce(states: seq<Sys>, moves: seq<Label>, n: nat, i: ActorId)
    requires Trace(states, moves) && n < |states| && i < |states[n].actors|
    requires states[n].actors[i].pc.Dispatching?
    ensures states[n].actors[i].wire == Unsent
    ensures states[n].actors[i].receipt.Some?
  {
    TraceInv(states, moves, n);
    ActorFacts(states[n], i);
  }

  /** The advisory lock is a mutual exclusion: under one key a single live call is inside the fence. */
  lemma OneLiveCall(states: seq<Sys>, moves: seq<Label>, n: nat, i: ActorId, j: ActorId)
    requires Trace(states, moves) && n < |states| && SameKey(states[n], i, j)
    requires InFence(states[n].actors[i].pc) && InFence(states[n].actors[j].pc)
    requires states[n].actors[i].session && states[n].actors[j].session
    ensures i == j
  {
    TraceInv(states, moves, n);
    ActorFacts(states[n], i);
    ActorFacts(states[n], j);
  }

  // ----------------------------------------------------------------------- receipts

  /** At most one receipt per key, and so per action of a replacement lineage. */
  lemma OneReceiptPerKey(states: seq<Sys>, moves: seq<Label>, n: nat, a: ReceiptId, b: ReceiptId)
    requires Trace(states, moves) && n < |states|
    requires a < |states[n].receipts| && b < |states[n].receipts|
    requires states[n].receipts[a].key == states[n].receipts[b].key
    ensures a == b
  {
    TraceInv(states, moves, n);
    TableFacts(states[n]);
    assert a < b || b < a || a == b;
  }

  /** COMMITTED has a remote effect of the same key behind it, in every later state too. */
  lemma CommittedIsBacked(states: seq<Sys>, moves: seq<Label>, m: nat, n: nat, id: ReceiptId)
    requires Trace(states, moves) && m <= n < |states|
    requires id < |states[m].receipts| && states[m].receipts[id].status.Committed?
    ensures id < |states[n].receipts| && states[n].receipts[id].status == states[m].receipts[id].status
    ensures EffectFor(states[n], states[m].receipts[id].key, states[m].receipts[id].status.result)
  {
    TraceInv(states, moves, m);
    TableFacts(states[m]);
    TraceSettles(states, moves, m, n);
  }

  /** A receipt that left PENDING never changes again. */
  lemma ClosedReceiptIsFinal(states: seq<Sys>, moves: seq<Label>, m: nat, n: nat, id: ReceiptId)
    requires Trace(states, moves) && m <= n < |states|
    requires id < |states[m].receipts| && states[m].receipts[id].status != PendingReceipt
    ensures id < |states[n].receipts| && states[n].receipts[id].status == states[m].receipts[id].status
    ensures states[n].receipts[id].key == states[m].receipts[id].key
  {
    TraceSettles(states, moves, m, n);
  }

  /** Once a receipt is COMMITTED, every call that completes under its key reports its result. */
  lemma CommittedFixesTheAnswer(
    states: seq<Sys>, moves: seq<Label>, m: nat, n: nat, id: ReceiptId, i: ActorId)
    requires Trace(states, moves) && m < |states| && n < |states|
    requires id < |states[m].receipts| && states[m].receipts[id].status.Committed?
    requires i < |states[n].actors| && states[n].actors[i].key == states[m].receipts[id].key
    requires states[n].actors[i].pc.Finished? && states[n].actors[i].pc.result.CompletedWith?
    ensures states[n].actors[i].pc.result.result == states[m].receipts[id].status.result
  {
    hide Trace, SysInv, AuthInv;
    var last := if m <= n then n else m;
    TraceInv(states, moves, n);
    ActorFacts(states[n], i);
    var mine := states[n].actors[i].receipt.value;
    TraceSettles(states, moves, m, last);
    TraceSettles(states, moves, n, last);
    OneReceiptPerKey(states, moves, last, id, mine);
  }

  /** FAILED means that nothing was or will be executed under the key. */
  lemma FailedHasNoEffect(states: seq<Sys>, moves: seq<Label>, m: nat, n: nat, id: ReceiptId, e: EffectId)
    requires Trace(states, moves) && m < |states| && n < |states|
    requires id < |states[m].receipts| && states[m].receipts[id].status == FailedReceipt
    requires Guarded(states[m], states[m].receipts[id].key)
    requires e < |states[n].effects|
    ensures states[n].effects[e].key != states[m].receipts[id].key
  {
    var last := if m <= n then n else m;
    TraceInv(states, moves, last);
    TraceSettles(states, moves, m, last);
    TraceSettles(states, moves, n, last);
    TableFacts(states[last]);
    var s := states[last];
    assert s.effects[e] == states[n].effects[e];
    var sender := s.effects[e].sender;
    assert s.actors[sender].key == s.effects[e].key && Threat(s.actors[sender]);
    assert FailedFor(s, id, sender) <==> s.receipts[id].key == s.effects[e].key;
  }

  // ---------------------------------------------------------------------- authority

  /** A grant's counter is the number of receipts created under it and never exceeds its limit;
      recovering a receipt does not count again. */
  lemma GrantUsesAreExact(states: seq<Sys>, moves: seq<Label>, n: nat, g: GrantId)
    requires Trace(states, moves) && n < |states| && g < |states[n].grants|
    ensures states[n].grants[g].callsUsed == CallsUnder(states[n].receipts, g)
    ensures states[n].grants[g].maxCalls.Some? ==> states[n].grants[g].callsUsed <= states[n].grants[g].maxCalls.value
  {
    TraceInv(states, moves, n);
  }

  /** Receipts of one run are committed by attempts whose numbers never decrease. */
  lemma CommitsFollowTheFence(states: seq<Sys>, moves: seq<Label>, n: nat, c: nat, d: nat)
    requires Trace(states, moves) && n < |states| && c < d < |states[n].commits|
    requires states[n].commits[c].run == states[n].commits[d].run
    ensures states[n].commits[c].attempt < |states[n].db.attempts|
    ensures states[n].commits[d].attempt < |states[n].db.attempts|
    ensures states[n].db.attempts[states[n].commits[c].attempt].no <= states[n].db.attempts[states[n].commits[d].attempt].no
  {
    TraceInv(states, moves, n);
  }

  /** Every receipt and every commit has left its event in the ledger of its run. */
  lemma ActionsAreLogged(states: seq<Sys>, moves: seq<Label>, n: nat, id: ReceiptId, c: nat)
    requires Trace(states, moves) && n < |states|
    ensures id < |states[n].receipts| ==>
      states[n].receipts[id].run < |states[n].db.runs|
      && Mentioned(states[n].db.runs[states[n].receipts[id].run], ToolInvocationStarted)
    ensures c < |states[n].commits| ==>
      states[n].commits[c].run < |states[n].db.runs|
      && Logged(states[n].db.runs[states[n].commits[c].run], ToolInvocationCommitted, states[n].commits[c].attempt)
  {
    TraceInv(states, moves, n);
  }

  /** The call at the point of no return, under a grant that asks for approval. */
  ghost predicate AboutToSendUnderApproval(s: Sys, i: ActorId)
  {
    && i < |s.actors|
    && s.actors[i].pc.Dispatching? && s.actors[i].session
    && NeedsApproval(s, s.actors[i])
  }

  /** Such a call has an APPROVED approval of its own run and key, the newest asked for: so a
      replacement never acts on its predecessor's approval. */
  lemma DispatchIsApproved(states: seq<Sys>, moves: seq<Label>, n: nat, i: ActorId)
    requires Trace(states, moves) && n < |states| && AboutToSendUnderApproval(states[n], i)
    ensures states[n].actors[i].approval.Some? && states[n].actors[i].approval.value < |states[n].approvals|
    ensures var row := states[n].approvals[states[n].actors[i].approval.value];
            row.status.Approved? && row.run == states[n].actors[i].run && row.key == states[n].actors[i].key
    ensures IsLastFor(states[n].approvals, states[n].actors[i].key, states[n].actors[i].approval.value)
  {
    TraceInv(states, moves, n);
    ActorFacts(states[n], i);
    ActorAuthority(states[n], i);
  }

  /** Whatever was sent under an approval-requiring grant had been approved for that run and key. */
  lemma SentWasApproved(states: seq<Sys>, moves: seq<Label>, n: nat, i: ActorId)
    requires Trace(states, moves) && n < |states| && i < |states[n].actors|
    requires states[n].actors[i].wire != Unsent && NeedsApproval(states[n], states[n].actors[i])
    ensures Cleared(states[n], states[n].actors[i])
  {
    TraceInv(states, moves, n);
    ActorAuthority(states[n], i);
  }

  /** After a denial no call of the run whose lock session is alive reaches a send under that key
      and such a grant. */
  lemma DenialStopsLiveCalls(states: seq<Sys>, moves: seq<Label>, m: nat, n: nat, a: ApprovalId, i: ActorId)
    requires Trace(states, moves) && m <= n < |states|
    requires a < |states[m].approvals| && states[m].approvals[a].status.Denied?
    requires i < |states[n].actors|
    requires states[n].actors[i].run == states[m].approvals[a].run && states[n].actors[i].key == states[m].approvals[a].key
    ensures !AboutToSendUnderApproval(states[n], i)
  {
    if AboutToSendUnderApproval(states[n], i) {
      DispatchIsApproved(states, moves, n, i);
      TraceSettles(states, moves, m, n);
      TraceInv(states, moves, n);
    }
  }
}
