/** Why a provider's not_found has to be terminal before an action is sent again: with one that
    covers only requests already sent, an execution exists in which one key takes effect twice. */
module WeakCertificate {
  import opened Prelude
  import opened RunStates
  import opened Tables
  import opened Kernel
  import opened Admissions
  import opened Runtime
  import opened GovernedAction
  import opened ExactlyOnce

  ghost predicate Reached(s: Sys)
  {
    exists states, moves :: Trace(states, moves) && |states| == |moves| + 1 && states[|moves|] == s
  }

  lemma LongerTrace(states: seq<Sys>, moves: seq<Label>, move: Label, s': Sys)
    requires Trace(states, moves) && Next(states[|moves|], move) == Some(s')
    ensures Trace(states + [s'], moves + [move])
  {
    hide Next, ExactlyOnce.Start;
    var ss, ms := states + [s'], moves + [move];
    forall n | 0 <= n < |ms|
      ensures Made(ss, ms, n)
    {
      if n < |moves| {
        assert Made(states, moves, n);
      }
    }
  }

  lemma Step(s: Sys, move: Label) returns (s': Sys)
    requires Reached(s) && Next(s, move).Some?
    ensures Reached(s') && Next(s, move) == Some(s')
  {
    hide Next, Trace;
    var states, moves :| Trace(states, moves) && |states| == |moves| + 1 && states[|moves|] == s;
    s' := Next(s, move).value;
    LongerTrace(states, moves, move, s');
    assert (states + [s'])[|moves + [move]|] == s';
  }

  /** A step of call i. */
  lemma Act(s: Sys, i: ActorId, choice: Choice) returns (s': Sys)
    requires Reached(s) && i < |s.actors| && GovernedAction.Advance(s, i, choice, None).Some?
    ensures Reached(s') && GovernedAction.Advance(s, i, choice, None) == Some(s')
  {
    hide Reached, GovernedAction.Advance;
    s' := Step(s, ActorStep(i, choice, None));
  }

  lemma Answer(s: Sys, i: ActorId) returns (s': Sys)
    requires Reached(s) && i < |s.actors| && Deliver(s, i).Some?
    ensures Reached(s') && Deliver(s, i) == Some(s')
  {
    hide Reached, Deliver;
    s' := Step(s, DeliverStep(i));
  }

  lemma Sever(s: Sys, i: ActorId) returns (s': Sys)
    requires Reached(s) && i < |s.actors| && LoseSession(s, i).Some?
    ensures Reached(s') && LoseSession(s, i) == Some(s')
  {
    hide Reached, LoseSession;
    s' := Step(s, LoseSessionStep(i));
  }

  lemma Begun(s: Sys, action: Action, args: string) returns (s': Sys)
    requires Reached(s) && Launch(s, 0, 0, action, args).Some?
    ensures Reached(s') && Launch(s, 0, 0, action, args) == Some(s')
  {
    hide Reached, Launch;
    s' := Step(s, LaunchStep(0, 0, action, args));
  }

  // ------------------------------------------------------------------ a running owner

  const Refund: Action := Action("refund", Reconcile)
  const RefundKey: Key := Key(0, Refund, "{}")

  function EmptyDb(): Db {
    Db(Config(3, 1), [Tenant(true, None, None)], [], [], [], [], [], 0)
  }

  function EmptySys(): Sys { Sys(false, EmptyDb(), [], [], [], map[], [], [], []) }

  /** Attempt 0 owns run 0, which replaced nothing. */
  ghost predicate Owned(db: Db)
  {
    && IsOwner(db, 0, 0)
    && |db.runs| > 0 && db.runs[0].predecessor.None?
    && |db.attempts| > 0 && db.attempts[0].run == 0
  }

  /** A reached state with weak certificates in which attempt 0 owns run 0. */
  ghost predicate Scene(
    s: Sys, actors: seq<Actor>, holders: map<Key, ActorId>, receipts: seq<Receipt>, effects: seq<Effect>)
  {
    && Reached(s) && Owned(s.db) && !s.terminal
    && s.actors == actors && s.holders == holders && s.receipts == receipts && s.effects == effects
  }

  lemma Queue() returns (s: Sys)
    ensures Reached(s) && s == EmptySys().(db := s.db)
    ensures |s.db.runs| == 1 && s.db.runs[0].status == Queued && s.db.runs[0].predecessor.None?
    ensures s.db.attempts == [] && s.db.sessions == [] && s.db.runs[0].call.None? && s.db.runs[0].session.None?
    ensures s.db.now == 0
  {
    var s0 := EmptySys();
    var moves: seq<Label> := [];
    assert Trace([s0], moves) && [s0][|moves|] == s0;
    var input := RunInput(0, None, None, None, 0, None, true);
    var reconciled := ReconcileTerminal(s0.db, 0);
    assert reconciled == s0.db;
    assert PrepareRunAdmission(s0.db, 0, None).Ok? by { hide Sum; }
    hide Recorded;
    s := Step(s0, KernelStep(Submit(input)));
  }

  lemma Begin() returns (s: Sys)
    ensures Scene(s, [], map[], [], [])
  {
    var s0 := Queue();
    var s1 := Step(s0, KernelStep(ClaimRun(0, 10)));
    hide Recorded;
    s := Step(s1, KernelStep(Runtime.Start(0)));
  }

  function Call(pc: Pc, session: bool, receipt: Option<ReceiptId>, inserted: bool, absent: bool, wire: Wire): Actor {
    Actor(0, 0, RefundKey, pc, session, receipt, inserted, absent, false, None, None, wire)
  }

  function Row(): Receipt { Receipt(0, RefundKey, None, PendingReceipt, 0, None) }

  // ------------------------------------------------------------------------ two calls

  lemma AuditedOwned(s: Sys, i: ActorId, kind: EventKind)
    requires i < |s.actors| && s.actors[i].run == 0 && Owned(s.db)
    ensures Owned(Audited(s, i, kind).db)
    ensures Audited(s, i, kind) == s.(db := Audited(s, i, kind).db)
  {
  }

  /** The first call inserts the receipt. */
  lemma FirstCall() returns (s: Sys)
    ensures Scene(s, [Call(InsertingReceipt, true, None, false, false, Unsent)], map[RefundKey := 0], [], [])
  {
    hide Reached, IsOwner;
    var s0 := Begin();
    s := Begun(s0, Refund, "{}");
    s := Act(s, 0, Go);
    s := Act(s, 0, Go);
    s := Act(s, 0, NotFound);
    s := Act(s, 0, Ungranted);
    s := Act(s, 0, Go);
  }

  lemma FirstInserts() returns (s: Sys)
    ensures Scene(s, [Call(RecheckingOwner, true, Some(0), true, false, Unsent)], map[RefundKey := 0], [Row()], [])
  {
    var s0 := FirstCall();
    AuditedOwned(s0.(receipts := [Row()]), 0, ToolInvocationStarted);
    hide Reached, Owned, Audited;
    s := Act(s0, 0, Go);
  }

  /** It passes its last check, loses its session and does not notice. */
  lemma FirstIsSevered() returns (s: Sys)
    ensures Scene(s, [Call(Dispatching, false, Some(0), true, false, Unsent)], map[], [Row()], [])
  {
    hide Reached, IsOwner;
    var s0 := FirstInserts();
    s := Act(s0, 0, Go);
    s := Act(s, 0, Go);
    s := Act(s, 0, Go);
    s := Sever(s, 0);
    assert s.holders == map[];
  }

  /** A second call takes the lock and finds the pending receipt. */
  lemma SecondFinds() returns (s: Sys)
    ensures Scene(s, [Call(Dispatching, false, Some(0), true, false, Unsent),
                      Call(Reconciling, true, Some(0), false, false, Unsent)], map[RefundKey := 1], [Row()], [])
  {
    hide Reached, IsOwner;
    var s0 := FirstIsSevered();
    s := Begun(s0, Refund, "{}");
    s := Act(s, 1, Go);
    s := Act(s, 1, Go);
    assert BestReceipt(s, 0, RefundKey, 0);
    s := Act(s, 1, Found(0));
  }

  /** The provider truthfully reports that nothing has happened; the second call goes ahead. */
  lemma SecondGoesAhead() returns (s: Sys)
    ensures Scene(s, [Call(Dispatching, false, Some(0), true, false, Unsent),
                      Call(RecheckingOwner, true, Some(0), false, true, Unsent)], map[RefundKey := 1], [Row()], [])
  {
    hide Reached, IsOwner;
    var s0 := SecondFinds();
    s := Act(s0, 1, CertifiedAbsent);
    assert s.actors == [Call(Dispatching, false, Some(0), true, false, Unsent),
                        Call(SelectingGrant, true, Some(0), false, true, Unsent)];
    s := Act(s, 1, Ungranted);
    s := Act(s, 1, Go);
  }

  lemma SecondSends() returns (s: Sys)
    ensures Scene(s, [Call(Dispatching, false, Some(0), true, false, Unsent),
                      Call(AwaitingReply, true, Some(0), false, true, Served(0))], map[RefundKey := 1], [Row()],
                  [Effect(RefundKey, 1)])
  {
    hide Reached, IsOwner;
    var s0 := SecondGoesAhead();
    s := Act(s0, 1, Go);
    s := Act(s, 1, Go);
    s := Act(s, 1, Go);
    s := Act(s, 1, Go);
    s := Answer(s, 1);
  }

  predicate TakesEffectTwice(s: Sys, e: EffectId, f: EffectId)
  {
    && e < f < |s.effects|
    && s.effects[e].key == s.effects[f].key
    && s.effects[e].key.action.recovery.Reconcile?
  }

  /** The first call then sends what it had prepared: two effects under one key. */
  lemma BothTakeEffect() returns (s: Sys)
    ensures Reached(s) && !s.terminal && TakesEffectTwice(s, 0, 1)
  {
    hide Reached, IsOwner;
    var s0 := SecondSends();
    s := Act(s0, 0, Go);
    s := Answer(s, 0);
  }

  /** No execution with terminal (or with weak) certificates executes a reconciled key twice. */
  ghost predicate ReconcileIsSafe(terminal: bool)
  {
    forall s, e, f :: Reached(s) && s.terminal == terminal ==> !TakesEffectTwice(s, e, f)
  }

  /** The guarantee for the reconcile policy holds exactly when certificates are terminal. */
  lemma ReconcileSafeIffTerminal(terminal: bool)
    ensures ReconcileIsSafe(terminal) <==> terminal
  {
    if terminal {
      forall s, e, f | Reached(s) && s.terminal
        ensures !TakesEffectTwice(s, e, f)
      {
        var states, moves :| Trace(states, moves) && |states| == |moves| + 1 && states[|moves|] == s;
        if TakesEffectTwice(s, e, f) {
          AtMostOneEffect(states, moves, |moves|, e, f);
        }
      }
    } else {
      var s := BothTakeEffect();
    }
  }

  // ------------------------------------------------------- FAILED and the certificate

  /** The second call certifies absence as well, but is refused and closes the receipt as FAILED. */
  lemma SecondWillDeny() returns (s: Sys)
    ensures Scene(s, [Call(Dispatching, false, Some(0), true, false, Unsent),
                      Call(Denying, true, Some(0), false, true, Unsent)], map[RefundKey := 1], [Row()], [])
  {
    hide Reached, IsOwner;
    var s0 := SecondFinds();
    s := Act(s0, 1, CertifiedAbsent);
    assert s.actors == [Call(Dispatching, false, Some(0), true, false, Unsent),
                        Call(SelectingGrant, true, Some(0), false, true, Unsent)];
    s := Act(s, 1, Refused);
  }

  lemma SecondIsRefused() returns (s: Sys)
    ensures Reached(s) && !s.terminal && s.effects == []
    ensures |s.actors| == 2 && s.actors[0] == Call(Dispatching, false, Some(0), true, false, Unsent)
    ensures s.receipts == [Row().(status := FailedReceipt)]
  {
    hide Reached;
    var s0 := SecondWillDeny();
    s := Act(s0, 1, Go);
  }

  /** A FAILED receipt whose key has taken effect all the same. */
  predicate FailedButDone(s: Sys, id: ReceiptId, e: EffectId)
  {
    && id < |s.receipts| && e < |s.effects|
    && s.receipts[id].status == FailedReceipt && s.receipts[id].key == s.effects[e].key
  }

  lemma FailedTakesEffect() returns (s: Sys)
    ensures Reached(s) && !s.terminal && FailedButDone(s, 0, 0)
  {
    hide Reached;
    var s0 := SecondIsRefused();
    s := Act(s0, 0, Go);
    s := Answer(s, 0);
  }

  ghost predicate FailedIsTruthful(terminal: bool)
  {
    forall s, id, e :: Reached(s) && s.terminal == terminal ==> !FailedButDone(s, id, e)
  }

  /** And so does the meaning of FAILED when all three policies are in play. */
  lemma FailedTruthfulIffTerminal(terminal: bool)
    ensures FailedIsTruthful(terminal) <==> terminal
  {
    if terminal {
      forall s, id, e | Reached(s) && s.terminal
        ensures !FailedButDone(s, id, e)
      {
        var states, moves :| Trace(states, moves) && |states| == |moves| + 1 && states[|moves|] == s;
        if FailedButDone(s, id, e) {
          FailedHasNoEffect(states, moves, |moves|, |moves|, id, e);
        }
      }
    } else {
      var s := FailedTakesEffect();
    }
  }
}
