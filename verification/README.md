# A verified model of the durable execution kernel

This project models the protocols that a durable execution kernel runs over shared Postgres
tables, and proves what they guarantee for every interleaving of workers, API callers,
crashes and clock ticks.

* **Tables and transactions.** `Tables.Db` holds the tables; a table is an append-only sequence
  of rows and a row's id is its position. `Kernel`, `Admissions`, `Children` and `Sessions` give
  every transaction as a function on whole tables, an error standing for a roll back. `Store`,
  `Scheduling` and `SessionDispatch` are the same transactions in the form the source gives
  them: a database object whose methods update rows in place, loop over candidates, and restore
  a savepoint on failure. Each method is proved equal to its function, and the properties are
  proved about the functions.
* **Executions of the kernel.** `Runtime.Step` is one transaction or a clock tick and
  `Runtime.Execution` any sequence of them from empty tables. `Invariants.Inv` is what every
  transaction keeps; `Guarantees` states what follows for every execution.
* **What must happen.** Beside what transactions keep, `AdmissionLaw`, `KernelOutcomes`,
  `DelegationOutcomes` and `SessionOutcomes` say on rows alone when each of them succeeds, if and
  only if, and every row it then changes; for sound tables the conditions are simpler than the
  code's, because session rows follow their runs and active admissions are live runs.
* **Governed external actions.** `GovernedAction` is the exactly-once protocol as a state machine:
  each call has a program counter, every transaction, message and failure is one step, and calls
  interleave freely with the kernel's transactions. `ProtocolInvariant` is the inductive
  invariant, `ProtocolSteps`, `ProtocolEvents`, `ProtocolEffects` and `ProtocolSafety` prove it
  step by step, `Authority` and `AuthoritySteps` add approvals, grants and commit order, and
  `ExactlyOnce` states the theorems over every `Trace`, in which calls crash and lose their lock
  session anywhere, noticed or not. `ApprovalHistory` follows every send back to its last check.
  `CallOutcomes` says on rows what each step of a call must do, and `ApprovedCall` proves that an
  authorized call gets through from every sound state and that such a call, approval and all, is
  reached. `WeakCertificate` shows by complete traces why a provider's `not_found` has to be terminal.
* **Received order.** `Overtaking` proves when session events keep their received order over whole
  executions, with the workers' candidate queries, clock readings and postponements interleaved.
* **Algorithms on their own.** `CanonicalJson` with the reader `JsonReader`, `DependencyAudit`, `Supervisor`, `RateLimit`,
  `Credentials`, `PermitQueue` and `Receiver`.

Assumptions, all stated in the model where they are used:

* A transaction is one atomic step. A step of the model that is not enabled is a query that
  waits or a transaction that rolls back.
* A receiver under the retry policy deduplicates on the idempotency key.
* `terminal`: a provider's `not_found` is what `src/providers/types.ts:57-62` asks for. It is given
  only while nothing under the key has taken effect, and from then on no call that existed under
  the key takes effect, whether its request was sent before or is sent later; the call that got
  the certificate may go on. Only the reconcile policy needs this, and `WeakCertificate` shows that
  a certificate about requests already sent would not be enough.
* A connector fixes the recovery policy of an action, and action and arguments determine the
  resource. The digest of an idempotency key is injective, so a key is its components.
* Providers stay within the input ceiling and the output limit of a call; tenant quotas are
  fixed; clocks do not run backwards.

Where the code and its documentation differ the model follows the code. Two properties do not
hold of the code on all inputs; each has its exact condition:

* Session events keep their received order, whatever other workers postpone or dispatch between a
  worker's candidate query and its dispatch, if and only if the clock reading of the query lies
  before the database's time (`Overtaking.OrderHoldsIffBehindClock`). With a reading at or ahead of
  that time an event received after the query is as ready as the one the query found; once
  another worker has postponed the older one, the newer one is dispatched first.
* The Postgres rate limiter's `retryAfterSec` leads to admission after every refusal if and only if
  the burst is at least one and the rate at least two a second
  (`RateLimit.SharedAdviceSufficesIff`): a refused request leaves the balance up to a token in
  debt, and the advice counts only one token. Per refusal the condition is on the balance
  (`RateLimit.SharedRetryIff`).

## Model

| member | source | states |
|---|---|---|
| ExactlyOnce.AtMostOneEffect | src/harness/governedAction.ts:299-343 | over every execution, one idempotency key causes at most one remote effect: under retry with a deduplicating receiver, under reconcile with terminal certificates, under manual with no assumption; lock sessions may be lost anywhere |
| ExactlyOnce.ManualDispatchesOnce | src/harness/governedAction.ts:391-402 | under the manual policy at most one call ever hands a request to the transport |
| ExactlyOnce.SendsOnce | src/harness/governedAction.ts:717-735 | a call about to send has not sent before and holds a receipt |
| ExactlyOnce.OneLiveCall | src/harness/governedAction.ts:313-323 | the advisory lock excludes: of the calls inside the fence under one key only one has its lock session |
| ExactlyOnce.OneReceiptPerKey | src/store/receipts.ts:96-154 | a key, and so a replacement lineage and action, has at most one receipt |
| ExactlyOnce.CommittedIsBacked | src/store/receipts.ts:156-177 | COMMITTED has a remote effect of its own key behind it, now and ever after |
| ExactlyOnce.ClosedReceiptIsFinal | src/store/receipts.ts:156-204 | a receipt that left PENDING never changes status again |
| ExactlyOnce.CommittedFixesTheAnswer | src/harness/governedAction.ts:369-376 | once committed, every call that completes under the key reports that result |
| ExactlyOnce.FailedHasNoEffect | src/harness/governedAction.ts:235-257 | FAILED means that no effect exists or will exist under the key, lock sessions lost or not; for reconcile on terminal certificates |
| ExactlyOnce.GrantUsesAreExact | src/store/grants.ts:64-95 | a grant's calls_used is the number of receipts created under it and never exceeds max_calls |
| ExactlyOnce.CommitsFollowTheFence | src/harness/governedAction.ts:736-742 | successive receipt commits of a run carry non-decreasing attempt numbers |
| ExactlyOnce.ActionsAreLogged | src/harness/governedAction.ts:646-668 | every receipt and every commit has its event in the ledger of its run, by the committing attempt |
| ExactlyOnce.DispatchIsApproved | src/harness/governedAction.ts:692-716 | a call about to send under an approval-requiring grant has an APPROVED approval of its own run and key, the newest asked for |
| ExactlyOnce.SentWasApproved | src/harness/governedAction.ts:506-564 | whatever was sent under such a grant had been approved for that run and key |
| ExactlyOnce.DenialStopsLiveCalls | src/store/approvals.ts:57-116 | after a denial no call of the run with its lock session reaches a send under that key and such a grant |
| ApprovalHistory.SendWasChecked | src/harness/governedAction.ts:692-735 | every send under an approval-requiring grant was preceded by a last check of the same call that found its own approval granted, with or without its lock session since |
| ApprovalHistory.DenialIsFinal | src/store/approvals.ts:57-116 | whatever a run sends under a key and such a grant after a denial had passed its last check, granted, before the denial |
| ApprovalHistory.GrantedIsNewest | src/harness/governedAction.ts:692-716 | when a last check is granted, no approval of that run and key is denied |
| ApprovalHistory.AdvanceOrderly | src/harness/governedAction.ts:361-774 | a call gets past its last check only by passing it, keeps its authority from then on, and leaves every other call's alone |
| ApprovedCall.AuthorizedCallCommits | src/harness/governedAction.ts:361-774 | from every sound state in which a call holds the lock, owns the run, finds no receipt and its grant and approval are in order, its own steps and one delivery lead to its receipt committed to an effect of its key |
| ApprovedCall.ApprovedCallReached | src/harness/governedAction.ts:524-564 | an execution in which a call under an approval-requiring grant asks, is approved, is called again by the next attempt, sends and commits |
| CallOutcomes.CheckOutcome | src/harness/governedAction.ts:506-564 | the first look at an approval: granted, its own and in time lets the call go on with it; denied, open, expired and foreign each lead exactly where the source sends them |
| CallOutcomes.AskOutcome | src/harness/governedAction.ts:506-523 | with no approval of its run and key the call asks for one |
| CallOutcomes.RecheckOutcome | src/harness/governedAction.ts:602-627 | the second look, after the credential: the exact outcome for granted, expired and anything else |
| CallOutcomes.FinalOutcome | src/harness/governedAction.ts:692-715 | the last look before the send: the exact outcome for granted, expired and anything else |
| CallOutcomes.RequestOutcome | src/harness/governedAction.ts:259-291 | the owner suspends its run on a fresh open approval and rebinds a recovered receipt; anyone else fails |
| CallOutcomes.LockOutcome | src/harness/governedAction.ts:313-342 | the lock is taken exactly when nobody holds the key, and given back at the end |
| CallOutcomes.OwnershipOutcome | src/harness/governedAction.ts:345-359 | each ownership check passes exactly for the current active attempt of the running run inside its lease |
| CallOutcomes.NotFoundOutcome | src/harness/governedAction.ts:369-402 | the lookup finds nothing exactly when no receipt at all carries the key |
| CallOutcomes.FoundOutcome | src/harness/governedAction.ts:369-402 | otherwise exactly the one receipt of the key, and its status and the recovery policy decide what follows |
| CallOutcomes.ReconcileOutcome | src/harness/governedAction.ts:403-454 | a found effect is closed with, a certificate is given exactly when there is none and covers the other calls of the key, anything else is uncertain |
| CallOutcomes.SelectOutcome | src/harness/governedAction.ts:456-504 | a grant is usable exactly while it permits the action and has calls left or the receipt is already paid for; the exact outcome of a refusal |
| CallOutcomes.CredentialOutcome | src/harness/governedAction.ts:566-600 | a credential lets the call go on, a failure is noted and thrown |
| CallOutcomes.InsertOutcome | src/harness/governedAction.ts:629-668 | the receipt is inserted exactly when the grant still permits it and can pay, and is then pending and bound to the approval |
| CallOutcomes.RevalidateOutcome | src/harness/governedAction.ts:670-691 | the grant is looked at again before the send: the exact outcome of each case |
| CallOutcomes.SendOutcome | src/harness/governedAction.ts:717-735 | the request is handed over; the reply is what was served, a failure is marked or noted by policy |
| CallOutcomes.CommitOutcome | src/harness/governedAction.ts:736-771 | the current owner commits its receipt to the effect; anyone else fails, noting or marking what a dispatch left open |
| CallOutcomes.CloseOutcome | src/harness/governedAction.ts:179-257 | the current owner leaves the receipt FAILED or NEEDS_RECONCILIATION |
| CallOutcomes.DeliverOutcome | bench/externalSystem.ts:64-86 | a request no certificate bars is served, a repeated key under retry from its first effect, else by a new one |
| CallOutcomes.DecideOutcome | src/store/approvals.ts:102-116 | an open approval is decided once and wakes the run that waits for it |
| CallOutcomes.LaunchOutcome | src/store/receipts.ts:80-95 | a call starts empty-handed with a key rooted at the first run of its lineage |
| ExactlyOnce.TraceInv | src/harness/governedAction.ts:361-774 | every reachable state satisfies the protocol and the authority invariants |
| ExactlyOnce.TraceSettles | src/store/receipts.ts:156-204 | between any two states, closed receipts, decided approvals, effects and identities persist |
| WeakCertificate.ReconcileSafeIffTerminal | src/providers/types.ts:57-62 | the reconcile policy is exactly-once over all executions if and only if not_found also covers calls that have yet to send |
| WeakCertificate.FailedTruthfulIffTerminal | src/providers/types.ts:57-62 | FAILED excludes effects for all policies if and only if it does |
| WeakCertificate.BothTakeEffect | src/providers/types.ts:57-62 | with a certificate about sent requests only, a reachable state in which one reconciled key has taken effect twice |
| WeakCertificate.FailedTakesEffect | src/providers/types.ts:57-62 | with such a certificate, a reachable state in which a FAILED key has taken effect |
| ProtocolSafety.NextKeeps | src/harness/governedAction.ts:361-774 | every step of every call, of the receiver, of humans and of the kernel keeps the protocol invariant |
| ProtocolSafety.AdvanceKeeps | src/harness/governedAction.ts:361-774 | every step of a call keeps it, whatever its session and control state |
| ProtocolEvents.HolderExclusive | src/harness/governedAction.ts:313-317 | a call inside the fence with its session shares its key with no other such call |
| ProtocolEvents.OwnerIsNewest | src/harness/governedAction.ts:345-359 | no receipt under the key sits on a run newer than the owner's |
| ProtocolEvents.LookupSeesAll | src/store/receipts.ts:96-120 | the recursive lineage query sees every receipt under the key |
| ProtocolEvents.NotFoundMeansNone | src/store/receipts.ts:96-120 | an empty lookup means that no receipt in the whole table carries the key |
| ProtocolEvents.FoundKeeps | src/harness/governedAction.ts:369-402 | branching on the receipt found keeps the invariant |
| ProtocolEvents.LetGoKeeps | src/harness/governedAction.ts:324-342 | releasing, crashing and losing the session keep it |
| ProtocolEffects.SendIsAlone | src/harness/governedAction.ts:717-720 | a reconciled call that reaches its send and that no later certificate covers is the only one under its key that can still cause an effect |
| ProtocolEffects.NoRivalWhileDenying | src/harness/governedAction.ts:235-257 | a call that closes its receipt as FAILED has no rival that sent or could still send |
| ProtocolEffects.FirstReceiptUnknown | src/harness/governedAction.ts:629-668 | before the first receipt is inserted no call under the key knows one |
| ProtocolEffects.InsertReceiptKeeps | src/harness/governedAction.ts:629-668 | consuming the grant and inserting the PENDING receipt keeps the invariant without an ownership check |
| ProtocolEffects.AnswerIsBacked | src/harness/governedAction.ts:417-441 | what a call is about to record as committed is an effect of its own key |
| ProtocolEffects.CommitKeeps | src/harness/governedAction.ts:736-771 | committing, or failing to because ownership is lost, keeps the invariant |
| ProtocolEffects.CloseKeeps | src/harness/governedAction.ts:179-257 | closing as FAILED or NEEDS_RECONCILIATION keeps the invariant |
| ProtocolEffects.AbsenceKeeps | src/harness/governedAction.ts:451-454 | going on after a not_found, terminal or weak, keeps the invariant |
| ProtocolEffects.DeliverKeeps | bench/externalSystem.ts:64-86 | serving a request, fresh or repeated, keeps the invariant |
| ProtocolSteps.HolderSeesNoFailed | src/harness/governedAction.ts:377-383 | while a live call works on a key, every receipt under it is PENDING |
| ProtocolSteps.RequestApprovalKeeps | src/harness/governedAction.ts:259-291 | suspending on a fresh approval and rebinding the receipt keeps the invariant |
| ProtocolInvariant.OlderInLineage | src/store/receipts.ts:80-120 | an older run with the same root is an ancestor by replacement |
| ProtocolInvariant.RootStable | src/store/receipts.ts:80-95 | a run's lineage root, and so its idempotency keys, never change |
| AuthoritySteps.NextAuthority | src/harness/governedAction.ts:361-774 | every step keeps the invariants on approvals, bindings, grant counters and commit order |
| AuthoritySteps.OwnerHasNewestApproval | src/harness/governedAction.ts:506-515 | no approval under the owner's key belongs to a newer run |
| AuthoritySteps.CandidateIsLast | src/harness/governedAction.ts:506-524 | the approval a call checks is the newest under its key, or all of its run and key have expired |
| AuthoritySteps.ExpiredMeansAll | src/harness/governedAction.ts:525-560 | when the newest approval is spent, no approval of the run and key is open, granted or denied |
| AuthoritySteps.ApprovedPasses | src/harness/governedAction.ts:692-716 | the last check passes only with the call's own, newest, granted approval |
| AuthoritySteps.InsertGrants | src/store/grants.ts:64-95 | the counter moves together with the receipt it paid for and stays within the limit |
| AuthoritySteps.OwnerIsLatest | src/harness/governedAction.ts:736-742 | a committing owner's attempt number is at least that of every earlier commit of the run |
| AuthoritySteps.DecidedAuthority | src/store/approvals.ts:102-116 | deciding an open approval keeps the authority invariants |
| Finality.NextSettles | src/store/receipts.ts:156-204 | no step reopens a receipt, revives a denied or expired approval, or removes an effect |
| GovernedAction.LastApproval | src/harness/governedAction.ts:508-514 | the newest approval of a run for a key, or none exists |
| GovernedAction.FirstEffect | bench/externalSystem.ts:64-86 | some effect of the key, or none exists |
| Receiver.ExternalSystem.Serve | bench/externalSystem.ts:64-86 | a repeated key is answered with its one recorded action, a new key is recorded once, receptions are counted |
| Receiver.ExternalSystem.Find | bench/externalSystem.ts:43-49 | looks up the action recorded first under a key |
| PermitQueue.Gate.Acquire | src/harness/governedAction.ts:119-123 | admits exactly while fewer than the limit hold permits, otherwise queues |
| PermitQueue.Gate.Release | src/harness/governedAction.ts:124-136 | hands the permit to the oldest waiter without freeing it in between; releasing twice is harmless |
| PermitQueue.StepKeepsSound | src/harness/governedAction.ts:119-136 | never more permits out than the limit, and nobody waits while one is free |
| PermitQueue.BoundedWaiting | src/harness/governedAction.ts:119-136 | the waiter in place k holds a permit once k + 1 have been given back, whoever else arrives |
| PermitQueue.FenceLimit | src/harness/governedAction.ts:107-116 | at least one permit, and one connection left free when the pool has two |
| Guarantees.LedgerIsTheTruth | src/core/transition.ts:65-240 | events are numbered 1..last_event_seq, each published once in order, and replay along legal edges to the stored status |
| Guarantees.NothingAfterTheEnd | src/core/stateMachine.ts:8-52 | no transition event follows a terminal one |
| Guarantees.HistoryIsAppendOnly | src/core/transition.ts:114-196 | histories only grow and a terminal status is forever |
| Guarantees.OwnerIsHighest | src/scheduler/claim.ts:34-56 | QUEUED runs have no current attempt; an executing run's current attempt has the highest number |
| Guarantees.OwnershipIsNeverRegained | src/scheduler/reaper.ts:54-96 | an attempt that is not current never becomes current again |
| Guarantees.AttemptsAreFinal | src/store/attempts.ts:63-74 | attempts keep run and number and never return to ACTIVE |
| Guarantees.FailureRequeuesAreBounded | src/harness/worker.ts:152-195 | a run suffers at most maxAttempts - 1 failure-driven requeues |
| Guarantees.TenantWithinQuota | src/store/admissions.ts:68-143 | tokens used today plus unspent active reservations fit the daily budget; active admissions fit the concurrency limit |
| Guarantees.AdmissionsAreLiveRuns | src/store/admissions.ts:74-81 | active admissions are exactly the live runs, so reconciling terminal ones changes nothing |
| Guarantees.SpendingWithinBudget | src/store/modelUsage.ts:35-77 | tokens_used is the metered usage of the ledger and within budget, and so is a whole replacement chain |
| Guarantees.LineagesAreShortChains | src/scheduler/children.ts:175-244 | lineages are chains of bounded length numbered by generation; the older of two runs failed and was replaced |
| Guarantees.OneSelectedChild | src/store/childLineage.ts:120-175 | exactly one selected child per originally spawned subtask |
| Guarantees.SessionMirrorsItsRun | src/core/transition.ts:84-112 | a session is IDLE exactly without a current run, otherwise the projection of it, its only live top-level run |
| Guarantees.CancellationIsFinal | src/store/sessions.ts:219-238 | a cancelled session stays cancelled, its runs are over, and no run is ever admitted to it again |
| Guarantees.EventsAreNumberedOnce | src/store/sessionEvents.ts:147-213 | received numbers are gapless per session and no source event has two rows |
| Guarantees.ReplaysReturnTheFirstRow | src/store/sessionEvents.ts:147-157 | a delivered source event is answered from its first row ever after, or conflicts |
| Guarantees.DispatchedOnce | src/store/sessionEvents.ts:288-329 | a dispatched event keeps its run, shares it with no other event and never becomes STALE |
| Overtaking.OrderHoldsIffBehindClock | src/store/sessionEvents.ts:262-347 | over all executions in which every dispatch follows some earlier candidate query with the same clock reading, received order holds if and only if readings lie before the database's time at the query |
| Overtaking.EventsStayInOrder | src/store/sessionEvents.ts:262-347 | with such readings order holds at every point of an execution, whatever is received, postponed or dispatched between query and dispatch |
| Overtaking.CandidateIsDueFirst | src/store/sessionEvents.ts:268-284 | when a session is found, its waiting events that are due come before those that are not |
| Overtaking.DueFirstLater | src/store/sessionEvents.ts:268-341 | and so they do ever after |
| Overtaking.Overtaken | src/store/sessionEvents.ts:268-341 | an execution with a reading at the database's time in which a later event is started while an earlier one waits |
| InboundEvents.OrderKeptIffOldestReady | src/store/sessionEvents.ts:297-329 | one dispatch keeps received order if and only if the oldest waiting event is ready |
| InboundEvents.AcceptedOnce | src/store/sessionEvents.ts:147-157 | replays return the first row or conflict, never a second acceptance |
| InboundEvents.ReceiveInbound | src/store/sessionEvents.ts:117-237 | receiving keeps numbering gapless and sources unique |
| InboundEvents.ReceivedShape | src/store/sessionEvents.ts:185-237 | accepting appends one row with the session's next number and counts on no other session |
| InboundEvents.DispatchedRow | src/store/sessionEvents.ts:288-329 | dispatching settles one event on a new top-level run of its session |
| InboundEvents.CancelInbound | src/store/sessions.ts:225-230 | cancelling leaves no pending event of the session |
| InboundEvents.CancelledShape | src/store/sessions.ts:219-238 | cancelling marks exactly the session's pending events STALE and closes no other session |
| SessionOutcomes.ReceiveIff | src/store/sessionEvents.ts:117-237 | a new source event is accepted if and only if its session is open and, for the current run, that run waits for it; every column of its row, and the run it wakes or none |
| SessionOutcomes.ReplayIff | src/store/sessionEvents.ts:147-157 | a known source event is answered from its first row, or conflicts |
| SessionOutcomes.DispatchIff | src/store/sessionEvents.ts:287-329 | the first due event starts a run exactly when the session is idle and its tenant may be admitted one more run; otherwise the reason of the refusal |
| SessionOutcomes.PostponeOutcome | src/store/sessionEvents.ts:330-341 | exactly the waiting events that were due earlier are put off |
| SessionOutcomes.CancelSessionIff | src/store/sessions.ts:219-288 | a session is cancelled exactly while none of its live runs has a call in flight; each is cancelled and fenced, delegated ones first, and the waiting events go stale |
| Runtime.StepKeeps | src/core/transition.ts:114-240 | every kernel transaction and clock tick keeps the kernel invariant and only evolves the tables |
| Runtime.Reachable | src/core/transition.ts:114-240 | every reachable state satisfies the kernel and inbound-event invariants |
| Runtime.History | src/core/transition.ts:114-240 | between any two points of an execution the tables only evolve |
| Transactions.ClaimKeeps | src/scheduler/claim.ts:22-58 | claiming keeps the kernel invariant |
| Transactions.ReapKeeps | src/scheduler/reaper.ts:49-98 | reaping on status alone keeps it |
| Transactions.SettleKeeps | src/harness/worker.ts:135-198 | settling an attempt, including a retry, keeps it |
| Transactions.CancelRunKeeps | src/store/sessions.ts:267-281 | cancelling a run and fencing its attempt keeps it |
| Transactions.ResumeKeeps | src/store/sessionEvents.ts:216-235 | waking a waiting run keeps it |
| Transactions.CreateRunKeeps | src/store/runs.ts:71-216 | admission and creation keep it |
| Transactions.CreateRunShape | src/store/runs.ts:71-216 | one queued run with the given lineage, tenant and budget is appended; no other run, attempt or event changes |
| Transactions.ReconcileIsNoOp | src/store/admissions.ts:74-81 | releasing terminal runs' reservations changes nothing in a reachable state |
| AdmissionLaw.AdmissionIff | src/store/admissions.ts:68-143 | a run is admitted if and only if the tenant is active, has a slot, and the request, or one token, fits what is left of the day; exactly the request or what is left is granted, and the reason tells what failed |
| AdmissionLaw.ActiveIsLive | src/store/admissions.ts:83-96 | the active admissions counted are the tenant's live runs |
| AdmissionLaw.CreationIff | src/store/runs.ts:71-216 | a run is created if and only if it is admissible, has an idle session of its tenant or an open parent to live with, and its agent version is owned; every row of the result |
| AdmissionLaw.CreationTakesRoom | src/store/runs.ts:160-190 | a creation takes one slot and exactly its grant out of the room of its tenant |
| AdmissionLaw.FitInTurnIff | src/store/admissions.ts:92-143 | explicit requests fit one after the other exactly when there are slots for all, each is positive and their sum fits |
| KernelOutcomes.SettleOutcome | src/harness/worker.ts:135-198 | settling an active attempt between calls: a settled epoch ends it, an error requeues below the limit and fails at it, an exhausted budget fails; when each succeeds |
| KernelOutcomes.SettleLeavesAlone | src/harness/worker.ts:142-158 | a lost lease, a call in flight or an attempt that is over leaves every table alone |
| KernelOutcomes.ClaimOutcome | src/scheduler/claim.ts:17-58 | exactly a QUEUED run can be claimed, by an attempt with the next number and a fresh lease |
| KernelOutcomes.ReapOutcome | src/scheduler/reaper.ts:53-98 | exactly an active attempt past its lease with no call in flight is reaped; its executing run is requeued or failed |
| KernelOutcomes.CancelOutcome | src/store/sessions.ts:267-281 | every live run can be cancelled between provider calls and its active owner is fenced |
| KernelOutcomes.ResumeOutcome | src/store/sessionEvents.ts:216-235 | exactly a run that waits is woken, queued without an owner |
| KernelOutcomes.EpochOutcome | src/core/stateMachine.ts:8-52 | each move of an epoch succeeds exactly from its one status, a terminal one only between calls |
| KernelOutcomes.StartOutcome | src/core/transition.ts:114-196 | exactly a STARTING run is set running |
| KernelOutcomes.TransitionExact | src/core/transition.ts:65-196 | when a transition succeeds, and every row it changes: run, ledger, outbox and the session that shows the run |
| KernelOutcomes.ProjectionMeans | src/core/transition.ts:65-112 | which run statuses a session shows as idle, active, waiting and requiring action |
| KernelOutcomes.HeartbeatOutcome | src/store/attempts.ts:35-48 | a heartbeat renews the lease exactly while the attempt is active |
| KernelOutcomes.BeginOutcome | src/store/modelUsage.ts:5-33 | a call begins exactly for the active owner of a running run with no call in flight, and is bounded by the least of request, remaining budget and the largest safe integer |
| KernelOutcomes.CompleteOutcome | src/store/modelUsage.ts:35-77 | a call in flight can be completed, metering exactly its tokens, or abandoned |
| Transactions.BeginKeeps | src/store/modelUsage.ts:5-33 | taking the invocation lock with a bounded call keeps it |
| Transactions.CompleteKeeps | src/store/modelUsage.ts:35-77 | recording usage, also by a stale attempt, keeps it |
| Delegation.SpawnChildrenKeeps | src/scheduler/children.ts:40-94 | spawning children keeps it |
| Delegation.SpawnOutcome | src/scheduler/children.ts:40-94 | exactly the children asked for, in order and in the parent's tenant and session; the parent waits without an owner; no other run changes |
| Delegation.WakeParentKeeps | src/scheduler/children.ts:148-290 | replacing failed children, deferring or waking the parent keeps it |
| Delegation.WakeOutcome | src/scheduler/children.ts:183-288 | the parent resumes exactly when no child can be replaced; otherwise every replaceable child gets one stand-in with its unspent budget, or only the ledger changes |
| DelegationOutcomes.SpawnIff | src/scheduler/children.ts:40-94 | children are spawned exactly for a running parent, one to eight of them, when the tenant is active and has room for all in turn; each is announced and the parent then waits |
| DelegationOutcomes.WakeIff | src/scheduler/children.ts:148-290 | a parent whose children all ended is always resolved: queued, or every replaceable child replaced exactly when the tenant is active and has room for all in turn, otherwise deferred with the reason of the first that does not fit, noted once |
| DelegationOutcomes.WhoIsReplaced | src/scheduler/children.ts:183-190 | the children replaced are the failed, not yet replaced ones below the limit with tokens left, in creation order |
| DelegationOutcomes.ReplaceAllIff | src/scheduler/children.ts:192-247 | replacement in turn succeeds exactly when each need fits what the ones before left, and takes exactly those needs |
| SessionTransactions.FenceEndsAll | src/store/sessions.ts:255-288 | fencing leaves every run of the session terminal |
| SessionTransactions.CancelSessionKeeps | src/store/sessions.ts:219-238 | cancelling a session keeps the kernel invariant |
| CapacityAccounting.MeteringConserves | src/store/modelUsage.ts:35-77 | metering moves tokens from the reservation to the day's total without adding load |
| CapacityAccounting.AdmissionFits | src/store/admissions.ts:92-143 | admitting what the decision granted keeps every tenant within both quotas |
| CapacityAccounting.CapacityTick | src/store/admissions.ts:109-131 | day rollover can only lower a tenant's load |
| Kernel.LimitModelInvocation | src/harness/limits.ts:36-67 | a bounded call exists exactly while input fits, and then used, input and output fit the budget |
| Kernel.NormalizeRequestedMax | src/harness/limits.ts:69-73 | a normalized request never exceeds the positive finite one |
| RunStates.TerminalMeansNoEdge | src/core/stateMachine.ts:8-52 | terminal statuses are exactly those without an outgoing edge; all others can fail or be cancelled |
| RowInvariants.NoTransitionAfterTerminal | src/core/stateMachine.ts:46-52 | in a ledger that replays, nothing moves the run after a terminal transition |
| Ledger.ExportHistory | src/export/runBundle.ts:76-81 | reports the first gap, and none exactly for a history numbered 1..n |
| Fencing.RequeuesBounded | src/scheduler/reaper.ts:54-96 | requeues are tied one to one to finished attempts below the limit |
| Lineage.RootIsOriginal | src/store/receipts.ts:80-95 | the root replaces nothing and shares the parent |
| Lineage.GenerationIsDistance | src/scheduler/children.ts:185-215 | generation is the distance from the root and bounded |
| Lineage.BudgetConserved | src/scheduler/children.ts:203-221 | an inherited budget plus what was spent before is the first child's budget |
| Lineage.OlderIsSuperseded | src/scheduler/children.ts:183-190 | of two runs in one lineage the older has been replaced |
| Lineage.SelectedOncePerSubtask | src/store/childLineage.ts:120-175 | one and only one unsuperseded child stands for each subtask |
| Lineage.WalkToRoot | src/store/childLineage.ts:122-133 | terminates on any rows; on sound lineages finds the root and neither error fires |
| Lineage.ReadChildren | src/store/childLineage.ts:120-121 | exactly the parent's children and the ids that some child replaces |
| Lineage.ProjectChildren | src/store/childLineage.ts:135-176 | every child with its root, selected exactly when not superseded |
| Children.ReplaceableBelow | src/scheduler/children.ts:175-190 | exactly the replaceable children, in creation order |
| Sessions.LiveRuns | src/store/sessions.ts:259-266 | exactly the session's live runs of one kind, in creation order |
| Store.Database.TransitionRun | src/core/transition.ts:114-196 | the row updates amount to the specified transition, or leave no trace |
| Store.Database.AppendEvent | src/core/transition.ts:202-240 | one more ledger and outbox row, nothing else |
| Store.Database.ProjectToSession | src/core/transition.ts:84-112 | updates the session row as the projection says |
| Store.Database.ClaimRun | src/scheduler/claim.ts:17-58 | a new attempt numbered one above the highest becomes current, or nothing happens |
| Store.Database.Heartbeat | src/store/attempts.ts:35-48 | renews the lease exactly while the attempt is ACTIVE |
| Store.Database.ExitAttempt | src/store/attempts.ts:63-74 | ends the attempt exactly while it is ACTIVE |
| Store.Database.SettleAttempt | src/harness/worker.ts:135-198 | settles as specified or leaves no trace |
| Store.Database.NextExpired | src/scheduler/reaper.ts:26-49 | the reapable attempt with the oldest lease, or none is reapable |
| Store.Database.ReapAttempt | src/scheduler/reaper.ts:53-98 | one reaper transaction as specified |
| Store.Database.ReapExpiredLeases | src/scheduler/reaper.ts:18-104 | terminates, the result is the listed reaps in order, and no expired attempt is left |
| Store.ReapSucceeds | src/scheduler/reaper.ts:53-98 | reaping a reapable attempt never fails and leaves fewer active attempts |
| Store.Database.TenantTotals | src/store/admissions.ts:83-131 | one pass computes active admissions, today's usage and unspent reservations |
| Store.Database.PrepareRunAdmission | src/store/admissions.ts:68-143 | reconciles, then decides as specified on the reconciled tables |
| Store.Database.CreateRun | src/store/runs.ts:71-216 | creates as specified or leaves no trace |
| Store.Database.BeginModelInvocation | src/store/modelUsage.ts:5-33 | grants only what the run then holds as its call in flight |
| Store.Database.CompleteModelInvocation | src/store/modelUsage.ts:35-77 | records usage as specified |
| Scheduling.SpawnChildren | src/scheduler/children.ts:40-94 | all children and the suspension, or nothing |
| Scheduling.ReadResolution | src/scheduler/children.ts:159-190 | whether all children ended and exactly which can be replaced |
| Scheduling.ReplaceChildren | src/scheduler/children.ts:192-247 | all replacements in order, or the savepoint |
| Scheduling.WakeParent | src/scheduler/children.ts:148-290 | resolves one parent as specified, recording a deferral reason once |
| Scheduling.FenceSessionRuns | src/store/sessions.ts:255-288 | cancels all live runs, delegated ones first, or nothing |
| Scheduling.CancelManagedSession | src/store/sessions.ts:219-238 | fences, marks pending events STALE and closes the session, or nothing |
| SessionDispatch.ReceiveEvent | src/store/sessionEvents.ts:117-237 | accepts, replays or rejects as specified |
| SessionDispatch.DispatchOne | src/store/sessionEvents.ts:287-329 | starts the session's next event as specified, or rolls back |
| SessionDispatch.Postpone | src/store/sessionEvents.ts:330-341 | the separate update after a refused admission puts off exactly the session's waiting events that were due earlier |
| SessionDispatch.DispatchPending | src/store/sessionEvents.ts:262-347 | an undisturbed pass keeps the kernel invariants and received order, within the candidate limit |
| CanonicalJson.CanonicalIffEquivalent | src/store/receipts.ts:37-45 | two JSON values print alike if and only if they are equal up to object key order |
| CanonicalJson.ReadValue | src/store/receipts.ts:37-45 | a printed value can be read back in only one way, whatever delimiter follows |
| JsonReader.CanonicalIsJson | src/store/receipts.ts:37-45 | canonical text is one JSON text: a reader of RFC 8259, sections 3 to 7, reads the value back up to key order |
| JsonReader.CanonicalReads | src/store/receipts.ts:37-45 | and it does so whatever delimiter follows |
| CanonicalJson.KeyTextInjective | src/store/receipts.ts:52-61 | the hashed text is injective in run, action, arguments up to key order, and approval |
| CanonicalJson.CanonicalHasNoNewline | src/store/receipts.ts:37-45 | canonical text is a single line |
| CanonicalJson.SortedUnique | src/store/receipts.ts:41-43 | sorting by key leaves no trace of insertion order |
| CanonicalJson.UndefinedItemCollides | src/store/receipts.ts:37-40 | of the lists of JSON values and undefined exactly the one holding a single undefined prints like the empty list |
| DependencyAudit.ReachableHighAdvisories | src/dependencyAudit.ts:230-258 | a search adds nodes closed under references, all reachable, with their maximal rank and all their advisories retained |
| DependencyAudit.SearchIsMaximum | src/dependencyAudit.ts:230-261 | from a root the result is the maximal rank of reachable high advisories through any cycles, or -1 |
| DependencyAudit.CollectFindings | src/dependencyAudit.ts:217-277 | findings cover every high advisory, account for every high record, and come from the report |
| DependencyAudit.ValidateAuditReport | src/dependencyAudit.ts:126-215 | no errors exactly for a well-formed, consistent report with matching counts |
| DependencyAudit.CheckExceptions | src/dependencyAudit.ts:307-322 | no errors exactly for distinct, unexpired exceptions that each match a finding |
| DependencyAudit.EvaluateDependencyAudit | src/dependencyAudit.ts:279-341 | passes exactly when the report is valid and the exceptions match the findings one to one |
| DependencyAudit.PassingCoversAdvisories | src/dependencyAudit.ts:279-341 | a passing audit has an unexpired exception of sufficient severity for every high advisory |
| DependencyAudit.PassingCoversRecords | src/dependencyAudit.ts:260-272 | and for every high record, by a reachable advisory or the package itself |
| Supervisor.CountTrailing | src/harness/supervisor.ts:98-104 | the length of the longest constant suffix |
| Supervisor.TrailingRepeats | src/harness/supervisor.ts:98-104 | all of the suffix is equal and the entry before it differs |
| Supervisor.WindowsAreRecent | src/harness/supervisor.ts:92-95 | the windows are the most recent part of the whole history |
| Supervisor.BoundedWindowSuffices | src/harness/supervisor.ts:110-143 | with a long enough window, loop and stagnation are reported exactly as over the unbounded history |
| Supervisor.EscalationsBounded | src/harness/supervisor.ts:165-194 | a run is escalated at most maxEscalations times |
| Supervisor.RepetitionTerminates | src/harness/supervisor.ts:110-194 | repeating one action is terminated within loopThreshold + maxEscalations + 1 steps from any state |
| Supervisor.EvaluateOutcome | src/harness/supervisor.ts:110-194 | stuck exactly when a loop, stagnation or lost context shows in the inputs, then exactly one rung up the ladder; otherwise winding down exactly when steps or tokens run low |
| RateLimit.InstanceLimiter.Check | src/api/rateLimit.ts:32-55 | updates only the tenant's bucket, as the in-process bucket says |
| RateLimit.SharedLimiter.Check | src/api/rateLimit.ts:64-90 | updates only the tenant's row, as the Postgres bucket says |
| RateLimit.BurstPlusRate | src/api/rateLimit.ts:32-90 | either bucket admits at most burst + rate * T requests in any interval of length T |
| RateLimit.BurstAdmits | src/api/rateLimit.ts:32-90 | of n requests at once either bucket admits exactly as many as the burst allows |
| RateLimit.SteadyAdmits | src/api/rateLimit.ts:32-90 | a request one token after an admitted one is always admitted |
| RateLimit.SharedRefinesInProcess | src/api/rateLimit.ts:64-90 | the Postgres bucket admits only what the in-process bucket admits on the same history |
| RateLimit.RetryAdviceSuffices | src/api/rateLimit.ts:43-47 | waiting retryAfterSec suffices for the in-process bucket exactly when the capacity is at least one |
| RateLimit.SharedRetryIff | src/api/rateLimit.ts:64-90 | after a refusal by the Postgres bucket the request is admitted later exactly when the capacity is at least one and the debt plus the inflow is at least one token |
| RateLimit.SharedAdviceSufficesIff | src/api/rateLimit.ts:84-86 | waiting retryAfterSec after any refusal of any history leads to admission if and only if the capacity is at least one and the rate at least two tokens a second |
| RateLimit.TwoTokensSuffice | src/api/rateLimit.ts:64-90 | a fixed wait suffices after every refusal if and only if the capacity is at least one and two tokens flow in meanwhile |
| RateLimit.SharedAdviceFallsShort | src/api/rateLimit.ts:64-90 | otherwise a burst of requests is a history after which the repeated request is refused again |
| Credentials.ChargeKeepsExact | src/store/credentials.ts:429-454 | charging a new call keeps every counter exact and within its limit |
| Credentials.RebindKeepsExact | src/store/credentials.ts:398-414 | a second receipt for the same call counts nothing |
| Credentials.Vault.ServeAgain | src/store/credentials.ts:371-417 | a call seen before is served from the first permitted candidate used for it, exactly when the purpose is the same and the secret opens, without touching a counter |
| Credentials.Vault.ChargeNew | src/store/credentials.ts:419-458 | a new call is counted once on the first permitted candidate with room, exactly when its secret opens |
| Credentials.Vault.Consume | src/store/credentials.ts:221-460 | answers exactly from the first candidate used before, else the first with room; keeps counters exact, and never counts a call twice |

## Left out

- Isolation levels, SKIP LOCKED races and deadlocks: transactions are atomic.
- A database error inside a live session: the model has it only as a crash of the call or a lost session.
- Network and cloud adapters, signing, encryption, sandboxes, Kafka, HTTP routes, configuration parsing, logging.
- Prompts, transcripts, tool text, checkpoints and artifacts.
- Scheduled start times, the claim order by `updated_at`, and the 32-candidate limits of `wakeReadyParents`: any queued run or ready parent may be taken, so the properties hold for every order.
- Capability patterns: a grant lists the actions it allows; `patternMatches` and the inheritance of remaining calls by a replacement's grants are not modelled.
- Command receipts of session creation and cancellation; signal payload matching is an input of the event.
- Credential candidate filtering, sealed secrets and the approval lookup inside `consumeCredential` are answers from outside; in the governed action, resolving a credential either succeeds or fails, and `Credentials` accounts for its counters.
- Forked runs; fork admissions count like direct ones.
- Calendar dates, the sorted order of findings, error texts and the audit's JSON parsing: fields that do not parse are absent. Finding keys are pairs, not joined text.
- Characters outside Unicode scalar values in canonical JSON; a number is its printed text.
- Floating point: the rate limiter and the supervisor's fractions are exact reals.
- The call's control flow runs as a state machine and not as one imperative method, because every step between two database or network operations can be interleaved with other calls.
- ExactlyOnce.DispatchIsApproved: speaks of calls that still have their lock session; for all calls ApprovalHistory.SendWasChecked gives the granted last check, and the approval may have expired since.
- Credentials.Vault.Consume: which grants are candidates, whether they are approved and whether the secret opens are answers from outside.
- Guarantees.TenantWithinQuota: quotas are fixed for the length of an execution.
- SessionDispatch.DispatchPending: the pass is undisturbed by other workers and takes sessions in table order instead of by `created_at`; Overtaking states received order for every interleaving and every order of candidates.
- Store.Database.ReapExpiredLeases: one reaper runs undisturbed; other interleavings are executions of single reaps.
