/** What a reviewer is told: each answer read off the row before the command, and the answers to repeated
    commands over whole runs. */
module ReviewAnswers {
  import opened Options
  import opened WorkflowStates
  import opened BusinessRules
  import opened Identifiers
  import opened Records
  import opened Attempts
  import opened Reviews
  import opened CommittedRows
  import opened Pipeline
  import opened Invariants
  import opened Deliveries
  import opened ForwardSimulation
  import opened ReviewHistory

  /** A look-up that the edited invoice needs goes wrong. */
  predicate LookUpsFail(approval: Approval) {
    && approval.edited.Some?
    && var invoice := approval.edited.value;
    || (invoice.supplierId.Some? && invoice.supplierId.value != "" && approval.supplierFault.Some?)
    || (invoice.purchaseOrderId.Some? && invoice.purchaseOrderId.value != "" && approval.orderFault.Some?)
  }

  /** There is something to approve: an edited invoice that passes every rule, or an extraction. */
  ghost predicate MayApprove(config: Config, system: System, doc: Document, approval: Approval) {
    if approval.edited.Some? then Passes(approval.edited.value, config.settings, system.erp, system.db.submissions)
    else doc.extractions != []
  }

  /** When an approve is answered this, read off the document's status, the edit and the look-ups. */
  ghost predicate AnsweredWhen(config: Config, system: System, doc: Document, approval: Approval, answer: ReviewResult) {
    match answer
    case Replayed => doc.status in {Approved, Submitted}
    case Conflict(status) => status == doc.status && status in {Queued, Rejected, Failed}
    case LookupError => doc.status == NeedsReview && LookUpsFail(approval)
    case Invalid(issues) =>
      && doc.status == NeedsReview && !LookUpsFail(approval) && !MayApprove(config, system, doc, approval)
      && (approval.edited.None? ==> issues == [ValidationIssue(MissingExtraction, None)])
      && (approval.edited.Some? ==>
            var context := Context(config.settings, approval.edited.value, system.erp, system.db.submissions);
            forall issue :: issue in issues <==> Breaks(approval.edited.value, context, issue))
    case Changed => doc.status == NeedsReview && !LookUpsFail(approval) && MayApprove(config, system, doc, approval)
  }

  /** The answer to an approve of any reachable document. */
  lemma ApproveAnswers(config: Config, system: System, step: Step)
    requires Inv(config, system) && step.ApproveCommand? && step.id in system.db.documents
    ensures AnsweredWhen(config, system, system.db.documents[step.id], step.approval, AnswerOf(config, system, step))
  {
    hide Inv, AnsweredWhen, AnswerOf;
    CommandFindsStatus(config, system, step);
    if step.approval.edited.Some? {
      EditAnswers(config, system, step);
    } else {
      PlainApproveAnswers(config, system, step);
    }
  }

  lemma PlainApproveAnswers(config: Config, system: System, step: Step)
    requires step.ApproveCommand? && step.id in system.db.documents && step.approval.edited.None?
    requires system.db.documents[step.id].status !in {Received, Processing, Extracted}
    ensures AnsweredWhen(config, system, system.db.documents[step.id], step.approval, AnswerOf(config, system, step))
  {
    hide Issues, Passes, Context, Breaks, ApprovedRow;
  }

  lemma EditAnswers(config: Config, system: System, step: Step)
    requires step.ApproveCommand? && step.id in system.db.documents && step.approval.edited.Some?
    requires system.db.documents[step.id].status !in {Received, Processing, Extracted}
    ensures AnsweredWhen(config, system, system.db.documents[step.id], step.approval, AnswerOf(config, system, step))
  {
    hide Issues, Passes, Context, Breaks, InRuleOrder, ApprovedRow;
    var invoice := step.approval.edited.value;
    PassingIsAcceptable(invoice, config.settings, system.erp, system.db.submissions);
    IssuesNameTheirRules(invoice, Context(config.settings, invoice, system.erp, system.db.submissions));
  }

  lemma CommandFindsStatus(config: Config, system: System, step: Step)
    requires Inv(config, system) && IsCommand(step) && step.id in system.db.documents
    ensures system.db.documents[step.id].status !in {Received, Processing, Extracted}
  {
    assert WellFormed(system.db.documents[step.id], config.settings.maxRetries, system.db.clock);
  }

  /** The answer to a reject of any reachable document. */
  lemma RejectAnswers(config: Config, system: System, step: Step)
    requires Inv(config, system) && step.RejectCommand? && step.id in system.db.documents
    ensures
      var doc := system.db.documents[step.id];
      match AnswerOf(config, system, step)
      case Replayed => doc.status == Rejected
      case Conflict(status) => status == doc.status && status in {Queued, Approved, Submitted, Failed}
      case Changed => doc.status == NeedsReview
      case _ => false
  {
    CommandFindsStatus(config, system, step);
    hide Inv;
  }

  /** A command that is not answered with a change changes no row, no message and no other table. */
  lemma OnlyChangesChange(config: Config, system: System, step: Step)
    requires IsCommand(step)
    requires step.id in system.db.documents ==> AnswerOf(config, system, step) != Changed
    ensures Apply(config, system, step) == Tick(system)
  {
    hide Approve, Reject;
  }

  // ---- Repeated commands ----

  /** Where a document is, from the command that changed it on: an approved one is submitted or fails later, a
      rejected one stays. */
  ghost predicate Answered(status: WorkflowState, approved: bool) {
    if approved then status in {Approved, Submitted, Failed} else status == Rejected
  }

  lemma ChangedIsAnswered(config: Config, system: System, step: Step)
    requires Inv(config, system) && IsCommand(step)
    requires step.id in system.db.documents && AnswerOf(config, system, step) == Changed
    ensures step.id in Apply(config, system, step).db.documents
    ensures Answered(Apply(config, system, step).db.documents[step.id].status, step.ApproveCommand?)
  {
    hide Inv, AfterApprove;
    if step.ApproveCommand? {
      ApproveStep(config, system, step);
    }
  }

  lemma {:induction false} StaysAnswered(config: Config, steps: seq<Step>, from: nat, n: nat, id: Uuid, approved: bool)
    requires from <= n <= |steps|
    requires id in StateAt(config, steps, from).db.documents
    requires Answered(StateAt(config, steps, from).db.documents[id].status, approved)
    ensures id in StateAt(config, steps, n).db.documents
    ensures Answered(StateAt(config, steps, n).db.documents[id].status, approved)
    decreases n
  {
    hide StateAt, Inv, Apply;
    if from < n {
      StaysAnswered(config, steps, from, n - 1, id, approved);
      StateAtKeeps(config, steps, n - 1);
      StateAtNext(config, steps, n - 1);
      StepFollows(config, StateAt(config, steps, n - 1), steps[n - 1], id);
    }
  }

  /** Step `k` of the run is a review command of document `id` that is answered with a change. */
  ghost predicate ChangedAt(config: Config, steps: seq<Step>, k: nat, id: Uuid) {
    k < |steps| && ReportsChange(config, StateAt(config, steps, k), steps[k], id)
  }

  lemma AnsweredSince(config: Config, steps: seq<Step>, k: nat, n: nat, id: Uuid)
    requires ChangedAt(config, steps, k, id) && k < n <= |steps|
    ensures id in StateAt(config, steps, n).db.documents
    ensures Answered(StateAt(config, steps, n).db.documents[id].status, steps[k].ApproveCommand?)
  {
    hide StateAt, Inv, Apply, Answered, AnswerOf;
    StateAtKeeps(config, steps, k);
    ChangedIsAnswered(config, StateAt(config, steps, k), steps[k]);
    StateAtNext(config, steps, k);
    StaysAnswered(config, steps, k + 1, n, id, steps[k].ApproveCommand?);
  }

  /** In every run, a command of a document that an earlier command changed is a replay when it repeats that
      command and the document has not failed since, and a conflict otherwise; either way it changes nothing. */
  lemma LaterCommandsReplay(config: Config, steps: seq<Step>, k: nat, n: nat, id: Uuid)
    requires ChangedAt(config, steps, k, id) && k < n < |steps| && IsCommand(steps[n]) && steps[n].id == id
    ensures
      var before := StateAt(config, steps, n);
      && id in before.db.documents
      && AnswerOf(config, before, steps[n])
         == (var status := before.db.documents[id].status;
             if steps[k].ApproveCommand? && steps[n].ApproveCommand? && status != Failed then Replayed
             else if steps[k].RejectCommand? && steps[n].RejectCommand? then Replayed
             else Conflict(status))
      && StateAt(config, steps, n + 1) == Tick(before)
  {
    hide StateAt, Inv, Apply, AnswerOf, Passes, Breaks, Context;
    var before := StateAt(config, steps, n);
    AnsweredSince(config, steps, k, n, id);
    StateAtKeeps(config, steps, n);
    StateAtNext(config, steps, n);
    AnsweredCommand(config, before, steps[n], steps[k].ApproveCommand?);
  }

  lemma AnsweredCommand(config: Config, system: System, step: Step, approved: bool)
    requires Inv(config, system) && IsCommand(step)
    requires step.id in system.db.documents && Answered(system.db.documents[step.id].status, approved)
    ensures
      var status := system.db.documents[step.id].status;
      AnswerOf(config, system, step)
      == if step.ApproveCommand? then
           if approved && status != Failed then Replayed else Conflict(status)
         else if !approved then Replayed
         else Conflict(status)
    ensures Apply(config, system, step) == Tick(system)
  {
    hide Inv, Apply, Passes, Breaks, Context;
    if step.ApproveCommand? {
      ApproveAnswers(config, system, step);
    } else {
      RejectAnswers(config, system, step);
    }
    OnlyChangesChange(config, system, step);
  }

  /** A command answered with a change found the document in review; it moves the row, appends the reviewer's
      decision and, for an edit, the edited invoice, and changes nothing else but the audit log; an approval that
      the broker takes adds a message for a first try. */
  lemma ChangeLeavesReview(config: Config, steps: seq<Step>, k: nat, id: Uuid)
    requires ChangedAt(config, steps, k, id)
    ensures
      var before, after := StateAt(config, steps, k), StateAt(config, steps, k + 1);
      && before.db.documents[id].status == NeedsReview
      && id in after.db.documents
      && var row, row' := before.db.documents[id], after.db.documents[id];
      && row'.status == (if steps[k].ApproveCommand? then Approved else Rejected)
      && SameHeader(row, row')
      && after == before.(db := before.db.(documents := before.db.documents[id := row'], clock := before.db.clock + 1),
                          broker := before.broker
                            + if steps[k].ApproveCommand? && steps[k].enqueued then [Message(id, row.correlationId, 0)] else [])
      && (if steps[k].ApproveCommand? then
            && row'.decisions == row.decisions + [Row(Decision(HumanApprove, steps[k].approval.actor), before.db.clock)]
            && row'.extractions
               == row.extractions
                  + (if steps[k].approval.edited.None? then []
                     else [Row(Extraction("human_review", Parsed(steps[k].approval.edited.value)), before.db.clock)])
          else
            && row'.decisions == row.decisions + [Row(Decision(HumanReject, steps[k].actor), before.db.clock)]
            && row'.extractions == row.extractions)
  {
    hide StateAt, AfterApprove;
    StateAtNext(config, steps, k);
    if steps[k].ApproveCommand? {
      ApproveStep(config, StateAt(config, steps, k), steps[k]);
    }
  }
}
