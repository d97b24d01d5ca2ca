/** The document life cycle: which status may follow which. */
module WorkflowStates {
  import opened Options

  datatype WorkflowState =
    | Received
    | Queued
    | Processing
    | Extracted
    | NeedsReview
    | Approved
    | Submitted
    | Rejected
    | Failed

  function AllowedTransitions(current: WorkflowState): set<WorkflowState> {
    match current
    case Received => {Queued, Failed}
    case Queued => {Processing, Failed}
    case Processing => {Extracted, NeedsReview, Failed}
    case Extracted => {Approved, NeedsReview, Failed}
    case Approved => {Submitted, Failed}
    case NeedsReview => {Approved, Rejected}
    case Submitted => {}
    case Rejected => {}
    case Failed => {}
  }

  predicate CanMove(current: WorkflowState, target: WorkflowState) {
    target in AllowedTransitions(current)
  }

  predicate IsTerminal(state: WorkflowState) {
    state in {Submitted, Rejected, Failed}
  }

  predicate IsWorkerNoop(state: WorkflowState) {
    IsTerminal(state) || state == NeedsReview
  }

  /** What the audit log notes besides status changes. */
  datatype AuditAction =
    | DocumentReceived
    | ExtractionCompleted
    | OutputInvalid
    | ValidationCompleted
    | ErpSubmitted
    | RetryScheduled
    | RetriesExhausted
    | ReviewApproved
    | ReviewEditApproved
    | ReviewRejected
    | TransitionRefused

  /** An audit row is either a state transition or a note about something else. */
  datatype AuditEvent =
    | StateTransition(source: WorkflowState, target: WorkflowState, actor: string)
    | Note(action: AuditAction, actor: string)

  /** Folds the transition events, in insertion order, from `Received`. `None` when an event does not
      start where the previous one ended or takes an edge the life cycle does not have. */
  function Replay(audit: seq<AuditEvent>): Option<WorkflowState> {
    if audit == [] then Some(Received)
    else
      var last := audit[|audit| - 1];
      match Replay(audit[..|audit| - 1])
      case None => None
      case Some(state) =>
        if last.Note? then Some(state)
        else if last.source == state && CanMove(state, last.target) then Some(last.target)
        else None
  }

  function TransitionCount(audit: seq<AuditEvent>): nat {
    if audit == [] then 0
    else TransitionCount(audit[..|audit| - 1]) + (if audit[|audit| - 1].Note? then 0 else 1)
  }

  /** How far a status is from `Received`: every edge of the life cycle climbs. */
  function Progress(state: WorkflowState): nat {
    match state
    case Received => 0
    case Queued => 1
    case Processing => 2
    case Extracted => 3
    case NeedsReview => 4
    case Approved => 5
    case Submitted => 6
    case Rejected => 6
    case Failed => 6
  }

  /** An audit log that replays has no more transitions than its final status is steps away from
      `Received`: at most six, whatever wrote them. */
  lemma {:induction false} ReplayIsShort(audit: seq<AuditEvent>)
    requires Replay(audit).Some?
    ensures TransitionCount(audit) <= Progress(Replay(audit).value) <= 6
  {
    if audit != [] {
      ReplayIsShort(audit[..|audit| - 1]);
    }
  }

  lemma ReplayAppend(audit: seq<AuditEvent>, event: AuditEvent)
    ensures Replay(audit + [event]) ==
      match Replay(audit)
      case None => None
      case Some(state) =>
        if event.Note? then Some(state)
        else if event.source == state && CanMove(state, event.target) then Some(event.target)
        else None
  {
    assert (audit + [event])[..|audit|] == audit;
  }

  /** The life cycle by target: where each status can be reached from. */
  lemma ReachedFrom(source: WorkflowState, target: WorkflowState)
    ensures CanMove(source, target) <==>
            match target
            case Received => false
            case Queued => source == Received
            case Processing => source == Queued
            case Extracted => source == Processing
            case NeedsReview => source == Processing || source == Extracted
            case Approved => source == Extracted || source == NeedsReview
            case Submitted => source == Approved
            case Rejected => source == NeedsReview
            case Failed => !IsTerminal(source) && source != NeedsReview
  {
  }

  /** The terminal states are those without a successor, and every transition makes progress. */
  lemma TerminalMeansNoSuccessor(state: WorkflowState, target: WorkflowState)
    ensures IsTerminal(state) <==> AllowedTransitions(state) == {}
    ensures CanMove(state, target) ==> Progress(state) < Progress(target)
  {
    if !IsTerminal(state) {
      assert state == NeedsReview ==> Rejected in AllowedTransitions(state);
      assert state != NeedsReview ==> Failed in AllowedTransitions(state) || Submitted in AllowedTransitions(state);
    }
  }
}
