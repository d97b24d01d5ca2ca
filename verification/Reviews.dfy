/** The reviewer's commands: approve, edit and approve, reject. */
module Reviews {
  import opened Options
  import opened WorkflowStates
  import opened BusinessRules
  import opened Records
  import opened Erp
  import opened Attempts
  import opened ProcessDocument

  datatype ReviewResult =
    | Changed
    | Replayed
    | Conflict(status: WorkflowState)
    | Invalid(issues: seq<ValidationIssue>)
    | LookupError

  datatype ReviewOutcome = ReviewOutcome(doc: Document, result: ReviewResult)

  /** What a reviewer sends, and what the ERP look-ups of an edited invoice run into. */
  datatype Approval = Approval(
    actor: string,
    edited: Option<Invoice>,
    supplierFault: Option<Failure>,
    orderFault: Option<Failure>)

  const HUMAN_REVIEW := "human_review"

  predicate LookupFaulty(invoice: Invoice, approval: Approval) {
    || (IsGiven(invoice.supplierId) && approval.supplierFault.Some?)
    || (IsGiven(invoice.purchaseOrderId) && approval.orderFault.Some?)
  }

  /** Why an approval of a document in review is turned down, if it is. */
  function Objection(doc: Document, approval: Approval, settings: Settings, erp: ErpState,
                     submissions: seq<Submission>): Option<ReviewResult> {
    if doc.status in {Approved, Submitted} then Some(Replayed)
    else if doc.status != NeedsReview then Some(Conflict(doc.status))
    else if approval.edited.None? then
      if doc.extractions == [] then Some(Invalid([ValidationIssue(MissingExtraction, None)])) else None
    else
      var invoice := approval.edited.value;
      if LookupFaulty(invoice, approval) then Some(LookupError)
      else
        var issues := Issues(invoice, Context(settings, invoice, erp, submissions));
        if issues != [] then Some(Invalid(issues)) else None
  }

  /** The row after an approval that met no objection. */
  function ApprovedRow(doc: Document, now: nat, approval: Approval): Document {
    var extractions :=
      if approval.edited.None? then doc.extractions
      else doc.extractions + [Row(Extraction(HUMAN_REVIEW, Parsed(approval.edited.value)), now)];
    var action := if approval.edited.None? then ReviewApproved else ReviewEditApproved;
    var decisions := doc.decisions + [Row(Decision(HumanApprove, approval.actor), now)];
    Moved(Noted(doc.(extractions := extractions), action, approval.actor).(decisions := decisions),
          Approved, approval.actor)
  }

  function Approve(doc: Document, now: nat, approval: Approval, settings: Settings, erp: ErpState,
                   submissions: seq<Submission>): ReviewOutcome {
    match Objection(doc, approval, settings, erp, submissions)
    case Some(result) => ReviewOutcome(doc, result)
    case None => ReviewOutcome(ApprovedRow(doc, now, approval), Changed)
  }

  function RejectedRow(doc: Document, now: nat, actor: string): Document {
    var decisions := doc.decisions + [Row(Decision(HumanReject, actor), now)];
    Moved(Noted(doc.(decisions := decisions), ReviewRejected, actor), Rejected, actor)
  }

  function Reject(doc: Document, now: nat, actor: string): ReviewOutcome {
    if doc.status == Rejected then ReviewOutcome(doc, Replayed)
    else if doc.status != NeedsReview then ReviewOutcome(doc, Conflict(doc.status))
    else ReviewOutcome(RejectedRow(doc, now, actor), Changed)
  }

  // ---- The commands as the service writes them ----

  /** The review module's own copy of the status change. */
  method Transition(document: DocumentRecord, target: WorkflowState, actor: string) returns (raised: Raise)
    modifies document`status, document`audit
    ensures CanMove(old(document.status), target) ==>
              raised == NoRaise && document.AsRow() == Moved(old(document.AsRow()), target, actor)
    ensures !CanMove(old(document.status), target) ==>
              raised == IllegalTransition(old(document.status), target) && document.AsRow() == old(document.AsRow())
  {
    if target !in AllowedTransitions(document.status) {
      return IllegalTransition(document.status, target);
    }
    var current := document.status;
    document.status := target;
    document.audit := document.audit + [StateTransition(current, target, actor)];
    return NoRaise;
  }

  /** The approve command. A result other than `Changed` and `Replayed` is an exception, which rolls the
      session back; no method of this module leaves the document changed in that case. */
  method ApproveReview(session: Session, document: DocumentRecord, erp: ErpMock, approval: Approval, settings: Settings)
    returns (result: ReviewResult)
    modifies document
    ensures ReviewOutcome(document.AsRow(), result)
         == Approve(old(document.AsRow()), session.now, approval, settings, erp.State(), session.submissions)
  {
    if document.status in {Approved, Submitted} {
      return Replayed;
    }
    if document.status == Rejected {
      return Conflict(Rejected);
    }
    if document.status == Failed {
      return Conflict(Failed);
    }
    if document.status != NeedsReview {
      return Conflict(document.status);
    }
    if approval.edited.Some? {
      var invoice := approval.edited.value;
      if LookupFaulty(invoice, approval) {
        return LookupError;
      }
      var issues := ValidateInvoice(invoice, Context(settings, invoice, erp.State(), session.submissions));
      if issues != [] {
        return Invalid(issues);
      }
      document.extractions := document.extractions + [Row(Extraction(HUMAN_REVIEW, Parsed(invoice)), session.now)];
      document.Audit(ReviewEditApproved, approval.actor);
    } else {
      var extraction := FindLatest(document.extractions);
      if extraction.None? {
        return Invalid([ValidationIssue(MissingExtraction, None)]);
      }
      document.Audit(ReviewApproved, approval.actor);
    }
    document.decisions := document.decisions + [Row(Decision(HumanApprove, approval.actor), session.now)];
    var current := document.status;
    var raised := Transition(document, Approved, approval.actor);
    if raised != NoRaise {
      return Conflict(current);
    }
    return Changed;
  }

  method RejectReview(session: Session, document: DocumentRecord, actor: string) returns (result: ReviewResult)
    modifies document
    ensures ReviewOutcome(document.AsRow(), result) == Reject(old(document.AsRow()), session.now, actor)
  {
    if document.status == Rejected {
      return Replayed;
    }
    if document.status in {Submitted, Approved, Failed} {
      return Conflict(document.status);
    }
    if document.status != NeedsReview {
      return Conflict(document.status);
    }
    document.decisions := document.decisions + [Row(Decision(HumanReject, actor), session.now)];
    document.Audit(ReviewRejected, actor);
    var current := document.status;
    var raised := Transition(document, Rejected, actor);
    if raised != NoRaise {
      return Conflict(current);
    }
    return Changed;
  }
}
