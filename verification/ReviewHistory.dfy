/** Reviews over whole runs: what a document's decisions can be, how often a review command changes it, and
    who authorised each invoice the ERP was asked to create. */
module ReviewHistory {
  import opened WorkflowStates
  import opened BusinessRules
  import opened Identifiers
  import opened Records
  import opened Attempts
  import opened Reviews
  import opened CommittedRows
  import opened Pipeline
  import opened Invariants
  import opened Deliveries
  import opened ForwardSimulation

  function Kinds(doc: Document): seq<DecisionType> {
    seq(|doc.decisions|, i requires 0 <= i < |doc.decisions| => doc.decisions[i].value.kind)
  }

  /** The decision list of every committed document is one of seven, and fits its status; there are at most two
      extractions; and no document is approved or submitted without one. */
  lemma DecisionHistory(config: Config, steps: seq<Step>, id: Uuid)
    requires id in Exec(config, Init(config), steps).db.documents
    ensures
      var doc := Exec(config, Init(config), steps).db.documents[id];
      && Kinds(doc) in {[], [AutoApprove], [NeedsHumanReview], [HumanApprove], [HumanReject],
                        [NeedsHumanReview, HumanApprove], [NeedsHumanReview, HumanReject]}
      && (doc.status == Queued ==> Kinds(doc) == [])
      && (doc.status == NeedsReview ==> Kinds(doc) in {[], [NeedsHumanReview]})
      && (doc.status == Rejected <==> Kinds(doc) != [] && Kinds(doc)[|Kinds(doc)| - 1] == HumanReject)
      && (doc.status == Approved ==> Kinds(doc) != [] && Kinds(doc)[|Kinds(doc)| - 1] == HumanApprove)
      && (Kinds(doc) != [] && Kinds(doc)[|Kinds(doc)| - 1] == HumanApprove ==> doc.status in {Approved, Submitted, Failed})
      && (Kinds(doc) == [AutoApprove] ==> doc.status == Submitted)
      && |doc.extractions| <= 2
      && (doc.status in {Approved, Submitted} ==> doc.extractions != [])
  {
    ReachableKeeps(config, steps);
    var system := Exec(config, Init(config), steps);
    assert WellFormed(system.db.documents[id], config.settings.maxRetries, system.db.clock);
    hide Exec, Inv;
    KindsOf(system.db.documents[id]);
  }

  lemma KindsOf(doc: Document)
    requires RowsFitStatus(doc)
    ensures Kinds(doc) in {[], [AutoApprove], [NeedsHumanReview], [HumanApprove], [HumanReject],
                           [NeedsHumanReview, HumanApprove], [NeedsHumanReview, HumanReject]}
    ensures doc.status == Queued ==> Kinds(doc) == []
    ensures doc.status == NeedsReview ==> Kinds(doc) in {[], [NeedsHumanReview]}
    ensures doc.status == Rejected <==> Kinds(doc) != [] && Kinds(doc)[|Kinds(doc)| - 1] == HumanReject
    ensures doc.status == Approved ==> Kinds(doc) != [] && Kinds(doc)[|Kinds(doc)| - 1] == HumanApprove
    ensures Kinds(doc) != [] && Kinds(doc)[|Kinds(doc)| - 1] == HumanApprove ==> doc.status in {Approved, Submitted, Failed}
    ensures Kinds(doc) == [AutoApprove] ==> doc.status == Submitted
  {
    var kinds := Kinds(doc);
    if |doc.decisions| == 0 {
      assert kinds == [];
    } else if |doc.decisions| == 1 {
      assert kinds == [doc.decisions[0].value.kind];
    } else {
      assert kinds == [doc.decisions[0].value.kind, doc.decisions[1].value.kind];
    }
  }

  // ---- Review commands ----

  /** The document has a reviewer's decision. */
  ghost predicate Reviewed(system: System, id: Uuid) {
    id in system.db.documents && HasReview(system.db.documents[id])
  }

  predicate IsCommand(step: Step) {
    step.ApproveCommand? || step.RejectCommand?
  }

  /** What a review command of a known document is answered. */
  function AnswerOf(config: Config, system: System, step: Step): ReviewResult
    requires IsCommand(step) && step.id in system.db.documents
  {
    if step.ApproveCommand? then ApproveOutcome(config, system, step).result
    else Reject(system.db.documents[step.id], system.db.clock, step.actor).result
  }

  /** A review command for document `id` that reports a change. */
  ghost predicate ReportsChange(config: Config, system: System, step: Step, id: Uuid) {
    IsCommand(step) && step.id == id && id in system.db.documents && AnswerOf(config, system, step) == Changed
  }

  ghost function ChangesReported(config: Config, steps: seq<Step>, id: Uuid): nat {
    if steps == [] then 0
    else
      var front := steps[..|steps| - 1];
      ChangesReported(config, front, id)
      + if ReportsChange(config, Exec(config, Init(config), front), steps[|steps| - 1], id) then 1 else 0
  }

  ghost predicate HasReview(doc: Document) {
    exists i :: 0 <= i < |doc.decisions| && doc.decisions[i].value.kind in {HumanApprove, HumanReject}
  }

  lemma AttemptKeepsReview(work: Work, now: nat, settings: Settings, world: World, attempt: Attempt)
    requires AllParsed(work.doc) && RowsFitStatus(work.doc)
    requires Behaves(work, now, settings, world, attempt) && attempt.raised == NoRaise
    ensures HasReview(attempt.work.doc) <==> HasReview(work.doc)
  {
    hide Calls;
  }

  lemma DeliveryKeepsReview(config: Config, before: System, after: System, step: Step, attempt: Attempt, id: Uuid)
    requires step.Deliver? && Delivered(config, before, after, step, attempt)
    ensures Reviewed(after, id) <==> Reviewed(before, id)
  {
    var work := WorkFor(before, before.broker[step.index]);
    if attempt.raised == NoRaise {
      AttemptKeepsReview(work, before.db.clock, config.settings, step.world, attempt);
    }
    hide Calls, Completes, WellFormed;
  }

  lemma ReviewAdds(doc: Document, now: nat, row: Document, kind: DecisionType, actor: string)
    requires RowsFitStatus(doc) && doc.status == NeedsReview && kind in {HumanApprove, HumanReject}
    requires row.decisions == doc.decisions + [Row(Decision(kind, actor), now)]
    ensures !HasReview(doc) && HasReview(row)
  {
    assert row.decisions[|doc.decisions|].value.kind == kind;
    assert forall i :: 0 <= i < |doc.decisions| ==> doc.decisions[i].value.kind == NeedsHumanReview;
  }

  /** A changed row stands in for the old one; every other row is as it was. */
  ghost predicate RowChanged(before: System, after: System, id: Uuid, row: Document) {
    after.db.documents == before.db.documents[id := row]
  }

  lemma ApprovalReviews(config: Config, system: System, step: Step) returns (row: Document)
    requires DocumentsFit(config, system) && step.ApproveCommand? && ReportsChange(config, system, step, step.id)
    ensures !Reviewed(system, step.id) && HasReview(row) && RowChanged(system, AfterApprove(config, system, step), step.id, row)
  {
    var doc := system.db.documents[step.id];
    assert WellFormed(doc, config.settings.maxRetries, system.db.clock);
    hide DocumentsFit, ApproveOutcome, AfterApprove, HasReview, Traced, Clocked;
    ApproveStep(config, system, step);
    row := ApprovedRow(doc, system.db.clock, step.approval);
    ReviewAdds(doc, system.db.clock, row, HumanApprove, step.approval.actor);
  }

  lemma RejectionReviews(config: Config, system: System, step: Step) returns (row: Document)
    requires DocumentsFit(config, system) && step.RejectCommand? && ReportsChange(config, system, step, step.id)
    ensures !Reviewed(system, step.id) && HasReview(row) && RowChanged(system, AfterReject(system, step), step.id, row)
  {
    var doc := system.db.documents[step.id];
    assert WellFormed(doc, config.settings.maxRetries, system.db.clock);
    hide DocumentsFit, HasReview, Traced, Clocked;
    row := RejectedRow(doc, system.db.clock, step.actor);
    ReviewAdds(doc, system.db.clock, row, HumanReject, step.actor);
  }

  lemma RefusalChangesNoRow(config: Config, system: System, step: Step)
    requires step.ApproveCommand? || step.RejectCommand?
    requires !ReportsChange(config, system, step, step.id)
    ensures Apply(config, system, step).db.documents == system.db.documents
  {
    hide Approve, Reject;
  }

  lemma CommandReviews(config: Config, system: System, step: Step, id: Uuid)
    requires DocumentsFit(config, system) && (step.ApproveCommand? || step.RejectCommand?)
    ensures ReportsChange(config, system, step, id) ==> !Reviewed(system, id) && Reviewed(Apply(config, system, step), id)
    ensures !ReportsChange(config, system, step, id) ==> (Reviewed(Apply(config, system, step), id) <==> Reviewed(system, id))
  {
    hide DocumentsFit, AfterApprove, AfterReject, HasReview, ApproveOutcome, Reject;
    if !ReportsChange(config, system, step, step.id) {
      RefusalChangesNoRow(config, system, step);
    } else if step.ApproveCommand? {
      var row := ApprovalReviews(config, system, step);
    } else {
      var row := RejectionReviews(config, system, step);
    }
  }

  lemma ReviewedStep(config: Config, system: System, step: Step, id: Uuid)
    requires Inv(config, system)
    ensures ReportsChange(config, system, step, id) ==> !Reviewed(system, id) && Reviewed(Apply(config, system, step), id)
    ensures !ReportsChange(config, system, step, id) ==> (Reviewed(Apply(config, system, step), id) <==> Reviewed(system, id))
  {
    hide AfterDeliver, AttemptFor, Delivered, Reviewed, KeepsRows, ApproveOutcome, Reject;
    if step.ApproveCommand? || step.RejectCommand? {
      CommandReviews(config, system, step, id);
    } else if step.Deliver? && CanDeliver(system, step) {
      var attempt := DeliverySummary(config, system, step);
      DeliveryKeepsReview(config, system, AfterDeliver(config, system, step), step, attempt, id);
    } else {
      QuietStepKeepsRows(config, system, step);
      QuietKeepsReview(system, Apply(config, system, step), id);
    }
  }

  lemma QuietKeepsReview(before: System, after: System, id: Uuid)
    requires KeepsRows(before, after)
    ensures Reviewed(after, id) <==> Reviewed(before, id)
  {
  }

  /** Over any run at most one review command per document reports a change; a document has a reviewer's
      decision exactly when one did. */
  lemma {:induction false} OneReviewPerDocument(config: Config, steps: seq<Step>, id: Uuid)
    ensures ChangesReported(config, steps, id) == if Reviewed(Exec(config, Init(config), steps), id) then 1 else 0
  {
    if steps != [] {
      var front := steps[..|steps| - 1];
      OneReviewPerDocument(config, front, id);
      ReachableKeeps(config, front);
      ReviewedStep(config, Exec(config, Init(config), front), steps[|steps| - 1], id);
    }
  }

  // ---- Authorisation ----

  /** At step `k` of the run a reviewer approved document `id`, for `invoice`: the last extraction as it was,
      or an edited invoice that passed every rule at that moment. */
  ghost predicate ApprovedAt(config: Config, steps: seq<Step>, k: nat, id: Uuid, invoice: Invoice) {
    && k < |steps|
    && var before := StateAt(config, steps, k);
    && steps[k].ApproveCommand?
    && ReportsChange(config, before, steps[k], id)
    && (if steps[k].approval.edited.Some? then
          && invoice == steps[k].approval.edited.value
          && Passes(invoice, config.settings, before.erp, before.db.submissions)
        else
          && before.db.documents[id].extractions != [] && AllParsed(before.db.documents[id])
          && invoice == LastInvoice(before.db.documents[id]))
  }

  lemma ApprovalIsAuthorised(config: Config, steps: seq<Step>, n: nat, id: Uuid)
    requires n < |steps| && id in StateAt(config, steps, n).db.documents
    requires steps[n].ApproveCommand? && ReportsChange(config, StateAt(config, steps, n), steps[n], id)
    ensures
      var after := StateAt(config, steps, n + 1);
      && id in after.db.documents
      && after.db.documents[id].extractions != [] && AllParsed(after.db.documents[id])
      && ApprovedAt(config, steps, n, id, LastInvoice(after.db.documents[id]))
  {
    hide Inv, AfterApprove, Approve, Passes, Exec, StateAt, Apply, RowsFitStatus, Traced, Clocked;
    var before := StateAt(config, steps, n);
    ReachableRow(config, steps, n, id);
    StateAtNext(config, steps, n);
    AppliesApproval(config, before, steps[n]);
    ApproveStep(config, before, steps[n]);
    if steps[n].approval.edited.Some? {
      ApprovedEditPasses(config, before, steps[n]);
    }
  }

  lemma ApprovedEditPasses(config: Config, system: System, step: Step)
    requires step.ApproveCommand? && step.id in system.db.documents && step.approval.edited.Some?
    requires ApproveOutcome(config, system, step).result == Changed
    ensures Passes(step.approval.edited.value, config.settings, system.erp, system.db.submissions)
  {
    hide Passes, Issues, Context;
    PassingIsAcceptable(step.approval.edited.value, config.settings, system.erp, system.db.submissions);
  }

  lemma AppliesApproval(config: Config, system: System, step: Step)
    requires step.ApproveCommand?
    ensures Apply(config, system, step) == AfterApprove(config, system, step)
  {
    hide AfterApprove;
  }

  lemma ReachableRow(config: Config, steps: seq<Step>, n: nat, id: Uuid)
    requires n <= |steps| && id in StateAt(config, steps, n).db.documents
    ensures WellFormed(StateAt(config, steps, n).db.documents[id], config.settings.maxRetries, StateAt(config, steps, n).db.clock)
  {
    ReachableKeeps(config, steps[..n]);
    hide Exec, WellFormed;
  }

  lemma DeliveryKeepsExtractions(config: Config, before: System, after: System, step: Step, attempt: Attempt, id: Uuid)
    requires step.Deliver? && Delivered(config, before, after, step, attempt)
    requires id in before.db.documents && before.db.documents[id].status == Approved
    ensures id in after.db.documents && after.db.documents[id].extractions == before.db.documents[id].extractions
  {
    hide Calls, WellFormed;
  }

  lemma ApprovalKeepsExtractions(config: Config, system: System, step: Step, id: Uuid)
    requires step.ApproveCommand? && id in system.db.documents && system.db.documents[id].status == Approved
    ensures id in AfterApprove(config, system, step).db.documents
    ensures AfterApprove(config, system, step).db.documents[id].extractions == system.db.documents[id].extractions
  {
    hide ApproveOutcome;
    if step.id in system.db.documents && ApproveOutcome(config, system, step).result == Changed {
      ApproveStep(config, system, step);
    }
  }

  lemma RejectionKeepsExtractions(system: System, step: Step, id: Uuid)
    requires step.RejectCommand? && id in system.db.documents && system.db.documents[id].status == Approved
    ensures id in AfterReject(system, step).db.documents
    ensures AfterReject(system, step).db.documents[id].extractions == system.db.documents[id].extractions
  {
  }

  lemma CommandKeepsExtractions(config: Config, system: System, step: Step, id: Uuid)
    requires step.ApproveCommand? || step.RejectCommand?
    requires id in system.db.documents && system.db.documents[id].status == Approved
    ensures id in Apply(config, system, step).db.documents
    ensures Apply(config, system, step).db.documents[id].extractions == system.db.documents[id].extractions
  {
    hide AfterApprove, AfterReject;
    if step.ApproveCommand? {
      ApprovalKeepsExtractions(config, system, step, id);
    } else {
      RejectionKeepsExtractions(system, step, id);
    }
  }

  /** An approved document keeps its extractions through every step. */
  lemma ApprovedKeepsExtractions(config: Config, system: System, step: Step, id: Uuid)
    requires Inv(config, system) && id in system.db.documents && system.db.documents[id].status == Approved
    ensures id in Apply(config, system, step).db.documents
    ensures Apply(config, system, step).db.documents[id].extractions == system.db.documents[id].extractions
  {
    hide Inv, AfterDeliver, AfterApprove, AfterReject, AttemptFor, Delivered;
    if step.Deliver? && CanDeliver(system, step) {
      var attempt := DeliverySummary(config, system, step);
      DeliveryKeepsExtractions(config, system, AfterDeliver(config, system, step), step, attempt, id);
    } else if step.ApproveCommand? || step.RejectCommand? {
      CommandKeepsExtractions(config, system, step, id);
    } else {
      QuietStepKeepsRows(config, system, step);
    }
  }

  /** What `ApprovedWasReviewed` says of one point of a run. */
  ghost predicate WasReviewed(config: Config, steps: seq<Step>, n: nat, id: Uuid, doc: Document) {
    && doc.extractions != [] && AllParsed(doc)
    && exists k :: 0 <= k < n && ApprovedAt(config, steps, k, id, LastInvoice(doc))
  }

  lemma ApprovalReportsChange(config: Config, system: System, step: Step, id: Uuid)
    requires step.ApproveCommand? && id in system.db.documents && system.db.documents[id].status != Approved
    requires id in Apply(config, system, step).db.documents && Apply(config, system, step).db.documents[id].status == Approved
    ensures ReportsChange(config, system, step, id)
  {
    hide Approve;
  }

  lemma RejectionNeverApproves(config: Config, system: System, step: Step, id: Uuid)
    requires step.RejectCommand? && id in system.db.documents && system.db.documents[id].status != Approved
    ensures id in Apply(config, system, step).db.documents && Apply(config, system, step).db.documents[id].status != Approved
  {
  }

  lemma NewlyApproved(config: Config, steps: seq<Step>, n: nat, id: Uuid)
    requires n < |steps|
    requires id in StateAt(config, steps, n).db.documents && StateAt(config, steps, n).db.documents[id].status != Approved
    requires id in StateAt(config, steps, n + 1).db.documents && StateAt(config, steps, n + 1).db.documents[id].status == Approved
    ensures WasReviewed(config, steps, n + 1, id, StateAt(config, steps, n + 1).db.documents[id])
  {
    hide Exec, Apply, ApprovedAt, ReportsChange;
    var before := StateAt(config, steps, n);
    EveryRunFollows(config, steps, n, id);
    StateAtNext(config, steps, n);
    if steps[n].RejectCommand? {
      RejectionNeverApproves(config, before, steps[n], id);
    } else {
      ApprovalReportsChange(config, before, steps[n], id);
      ApprovalIsAuthorised(config, steps, n, id);
    }
  }

  /** Every document found approved was approved by a reviewer earlier in the run, for its last extraction. */
  lemma {:induction false} ApprovedWasReviewed(config: Config, steps: seq<Step>, n: nat, id: Uuid)
    requires n <= |steps| && id in StateAt(config, steps, n).db.documents
    requires StateAt(config, steps, n).db.documents[id].status == Approved
    ensures WasReviewed(config, steps, n, id, StateAt(config, steps, n).db.documents[id])
    decreases n
  {
    hide Inv, StateAt, Apply, ApprovedAt, Exec, WasReviewed;
    if n == 0 {
      NothingAtStart(config, steps);
    } else {
      var before, after := StateAt(config, steps, n - 1), StateAt(config, steps, n);
      EveryRunFollows(config, steps, n - 1, id);
      StateAtNext(config, steps, n - 1);
      if before.db.documents[id].status == Approved {
        ApprovedWasReviewed(config, steps, n - 1, id);
        StillReviewed(config, steps, n - 1, id);
      } else {
        NewlyApproved(config, steps, n - 1, id);
      }
    }
  }

  lemma NothingAtStart(config: Config, steps: seq<Step>)
    ensures StateAt(config, steps, 0).db.documents == map[]
  {
  }

  lemma StillReviewed(config: Config, steps: seq<Step>, n: nat, id: Uuid)
    requires n < |steps| && id in StateAt(config, steps, n).db.documents
    requires StateAt(config, steps, n).db.documents[id].status == Approved
    requires WasReviewed(config, steps, n, id, StateAt(config, steps, n).db.documents[id])
    ensures id in StateAt(config, steps, n + 1).db.documents
    ensures WasReviewed(config, steps, n + 1, id, StateAt(config, steps, n + 1).db.documents[id])
  {
    hide Inv, Exec, Apply, ApprovedAt;
    StateAtNext(config, steps, n);
    StateAtKeeps(config, steps, n);
    ApprovedKeepsExtractions(config, StateAt(config, steps, n), steps[n], id);
    var invoice := LastInvoice(StateAt(config, steps, n).db.documents[id]);
    var k :| 0 <= k < n && ApprovedAt(config, steps, k, id, invoice);
    assert invoice == LastInvoice(StateAt(config, steps, n + 1).db.documents[id]);
    assert 0 <= k < n + 1 && ApprovedAt(config, steps, k, id, invoice);
  }

  lemma CallIsAuthorised(work: Work, settings: Settings, world: World, attempt: Attempt)
    requires AllParsed(work.doc) && Calls(work, settings, world, attempt) && attempt.work.call.Some?
    ensures
      var call := attempt.work.call.value;
      && call.documentId == work.id
      && AsksFor(call.request, call.invoice)
      && (|| (&& work.doc.status == Queued && world.provider.Returned? && call.invoice == world.provider.invoice
              && Passes(call.invoice, settings, work.erp, work.submissions))
          || (work.doc.status == Approved && work.doc.extractions != [] && call.invoice == LastInvoice(work.doc)))
  {
    hide Passes, DecisionOn;
    AutoApprovalPasses(attempt.work.call.value.invoice, settings, work.erp, work.submissions);
  }

  /** Every call that asks the ERP to create an invoice, in any run, was authorised: by the rule engine on the
      provider's reading in that same attempt, or by a reviewer at an earlier step of the run, for exactly the
      invoice that is sent. */
  lemma EveryCallIsAuthorised(config: Config, steps: seq<Step>, n: nat)
    requires n < |steps| && steps[n].Deliver? && CanDeliver(StateAt(config, steps, n), steps[n])
    ensures
      var system := StateAt(config, steps, n);
      var message := system.broker[steps[n].index];
      && message.documentId in system.db.documents
      && var call := AttemptFor(config, system, message, steps[n].world).work.call;
      call.Some? ==>
        && call.value.documentId == message.documentId
        && AsksFor(call.value.request, call.value.invoice)
        && (|| (&& system.db.documents[message.documentId].status == Queued
                && steps[n].world.provider.Returned?
                && call.value.invoice == steps[n].world.provider.invoice
                && Passes(call.value.invoice, config.settings, system.erp, system.db.submissions))
            || (&& system.db.documents[message.documentId].status == Approved
                && exists k :: 0 <= k < n && ApprovedAt(config, steps, k, message.documentId, call.value.invoice)))
  {
    var system := StateAt(config, steps, n);
    var message := system.broker[steps[n].index];
    ReachableKeeps(config, steps[..n]);
    assert MessageFits(config, system, message);
    DeliveredBehaves(config, system, message, steps[n].world);
    hide Inv, AttemptFor, Exec, Completes, Calls, Passes, AllParsed, RowsFitStatus, Traced, Clocked;
    var attempt := AttemptFor(config, system, message, steps[n].world);
    if attempt.work.call.Some? {
      CallIsAuthorised(WorkFor(system, message), config.settings, steps[n].world, attempt);
      if system.db.documents[message.documentId].status == Approved {
        ApprovedWasReviewed(config, steps, n, message.documentId);
      }
    }
  }
}
