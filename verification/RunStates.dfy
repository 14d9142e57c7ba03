/** The run state graph of src/core/stateMachine.ts and the session projection of
    src/core/transition.ts. */
module RunStates {

  datatype RunStatus =
    | Created | Resolving | Queued | Starting | Running
    | WaitingApproval | WaitingSignal | WaitingChildren | Sleeping | Suspended
    | RetryPending | Verifying | Completed | Failed | Cancelled

  /** The edge table: which status a run may move to next. */
  predicate IsTransitionAllowed(from: RunStatus, to: RunStatus) {
    match from
    case Created => to.Resolving? || to.Failed? || to.Cancelled?
    case Resolving => to.Queued? || to.Failed? || to.Cancelled?
    case Queued => to.Starting? || to.Failed? || to.Cancelled?
    case Starting => to.Running? || to.Queued? || to.RetryPending? || to.Failed? || to.Cancelled?
    case Running => to.WaitingApproval? || to.WaitingSignal? || to.WaitingChildren? || to.RetryPending?
                    || to.Verifying? || to.Queued? || to.Failed? || to.Cancelled?
    case WaitingApproval => to.Queued? || to.Failed? || to.Cancelled?
    case WaitingSignal => to.Queued? || to.Failed? || to.Cancelled?
    case WaitingChildren => to.Queued? || to.Failed? || to.Cancelled?
    case Sleeping => to.Queued? || to.Failed? || to.Cancelled?
    case Suspended => to.Queued? || to.Failed? || to.Cancelled?
    case RetryPending => to.Queued? || to.Failed? || to.Cancelled?
    case Verifying => to.Completed? || to.Running? || to.Queued? || to.Failed? || to.Cancelled?
    case Completed => false
    case Failed => false
    case Cancelled => false
  }

  predicate IsTerminal(s: RunStatus) { s.Completed? || s.Failed? || s.Cancelled? }

  /** Terminal statuses are exactly those without an outgoing edge; every other one can be cancelled. */
  lemma TerminalMeansNoEdge(s: RunStatus)
    ensures IsTerminal(s) <==> forall to :: !IsTransitionAllowed(s, to)
    ensures !IsTerminal(s) ==> IsTransitionAllowed(s, Failed) && IsTransitionAllowed(s, Cancelled)
  {
    if !IsTerminal(s) {
      assert IsTransitionAllowed(s, Cancelled);
    }
  }

  /** Not yet handed to any attempt. */
  predicate IsUnclaimed(s: RunStatus) { s.Created? || s.Resolving? || s.Queued? }

  /** A worker is executing the run in these statuses. */
  predicate IsExecuting(s: RunStatus) {
    s.Starting? || s.Running? || s.Verifying?
  }

  datatype SessionState =
    | Idle | Active | Waiting | RequiresAction | SessionCancelled | Archived

  /** The session state a top-level run in status s stands for. */
  function Projection(s: RunStatus): SessionState {
    if s.WaitingApproval? then RequiresAction
    else if s.WaitingSignal? || s.WaitingChildren? || s.Sleeping? || s.Suspended? then Waiting
    else if IsTerminal(s) then Idle
    else Active
  }

  predicate IsClosed(s: SessionState) { s == SessionCancelled || s == Archived }
}
