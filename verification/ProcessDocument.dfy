/** The worker's workflow as the service writes it: a locked document whose fields are assigned step by step,
    a session that collects rows, and an ERP outside the transaction. Each method is proved equal to the
    corresponding function of `Attempts`. */
module ProcessDocument {
  import opened Options
  import opened WorkflowStates
  import opened BusinessRules
  import opened Identifiers
  import opened Records
  import opened Erp
  import opened Attempts

  /** A document loaded into a session, with its related rows. */
  class DocumentRecord {
    const id: Uuid
    const sourceMessageId: string
    const contentHash: string
    const uploadKey: string
    const correlationId: Uuid
    var status: WorkflowState
    var retryCount: nat
    var lastErrorClass: Option<string>
    var extractions: seq<Row<Extraction>>
    var decisions: seq<Row<Decision>>
    var audit: seq<AuditEvent>

    constructor (id: Uuid, row: Document)
      ensures this.id == id && AsRow() == row
    {
      this.id := id;
      sourceMessageId, contentHash, uploadKey := row.sourceMessageId, row.contentHash, row.uploadKey;
      correlationId, status, retryCount := row.correlationId, row.status, row.retryCount;
      lastErrorClass, extractions, decisions := row.lastErrorClass, row.extractions, row.decisions;
      audit := row.audit;
    }

    function AsRow(): Document
      reads this
    {
      Document(sourceMessageId, contentHash, uploadKey, correlationId, status, retryCount, lastErrorClass,
               extractions, decisions, audit)
    }

    /** A status change and its audit event, or the exception that refuses it. */
    method Transition(target: WorkflowState, actor: string) returns (raised: Raise)
      modifies this`status, this`audit
      ensures CanMove(old(status), target) ==> raised == NoRaise && AsRow() == Moved(old(AsRow()), target, actor)
      ensures !CanMove(old(status), target) ==>
                raised == IllegalTransition(old(status), target) && AsRow() == old(AsRow())
    {
      if target !in AllowedTransitions(status) {
        return IllegalTransition(status, target);
      }
      var current := status;
      status := target;
      audit := audit + [StateTransition(current, target, actor)];
      return NoRaise;
    }

    method Audit(action: AuditAction, actor: string)
      modifies this`audit
      ensures AsRow() == Noted(old(AsRow()), action, actor)
    {
      audit := audit + [Note(action, actor)];
    }
  }

  /** The working copy of the other table an attempt writes, and the transaction's timestamp. */
  class Session {
    const now: nat
    var submissions: seq<Submission>

    constructor (now: nat, submissions: seq<Submission>)
      ensures this.now == now && this.submissions == submissions
    {
      this.now, this.submissions := now, submissions;
    }
  }

  method SubmissionForDocument(submissions: seq<Submission>, documentId: Uuid) returns (row: Option<Submission>)
    ensures row == RowOf(submissions, documentId)
  {
    for i := 0 to |submissions|
      invariant RowOf(submissions, documentId) == RowOf(submissions[i..], documentId)
    {
      assert submissions[i..][1..] == submissions[i + 1..];
      if submissions[i].documentId == documentId {
        return Some(submissions[i]);
      }
    }
    return None;
  }

  function Snapshot(session: Session, document: DocumentRecord, erp: ErpMock, call: Option<ErpCall>): Work
    reads session, document, erp
  {
    Work(document.id, document.AsRow(), session.submissions, erp.State(), call)
  }

  /** The client's create call: the request may be lost before or after it reached the ERP. */
  method CallCreate(erp: ErpMock, request: InvoiceRequest, key: string, world: World) returns (reply: CreateReply)
    modifies erp
    ensures erp.State() == CreateOver(world.create, old(erp.State()), request, key, world.freshId)
    ensures reply == SeenBy(world.create, ReplyTo(old(erp.State()), request, key, world.freshId))
  {
    match world.create {
      case Faulty(reached, seen) =>
        if reached {
          var lost := erp.CreateInvoice(request, key, world.freshId);
        }
        reply := CreateFailed(seen);
      case Clean =>
        var response := erp.CreateInvoice(request, key, world.freshId);
        reply := SeenBy(Clean, response);
    }
  }

  /** From any status: a document with a submission row is never submitted again. From another status than
      approved, and without a row, it ends with an exception. */
  method SubmitApprovedInvoice(session: Session, document: DocumentRecord, erp: ErpMock, invoice: Invoice, world: World)
    returns (raised: Raise, call: Option<ErpCall>)
    modifies session, document, erp
    ensures old(document.status) == Approved || RowOf(old(session.submissions), document.id).Some? ==>
              Attempt(Snapshot(session, document, erp, call), raised)
              == Submit(old(Snapshot(session, document, erp, None)), invoice, world)
    ensures old(document.status) != Approved && RowOf(old(session.submissions), document.id).None? ==>
              && raised != NoRaise
              && (call.Some? ==>
                    && invoice.supplierId.Some?
                    && call.value == ErpCall(document.id, invoice, ErpKey(document.id, invoice.invoiceNumber), RequestFor(invoice)))
  {
    call := None;
    var existing := SubmissionForDocument(session.submissions, document.id);
    if existing.Some? {
      if document.status == Approved {
        raised := document.Transition(Submitted, SYSTEM);
        return;
      }
      return NoRaise, None;
    }
    if invoice.supplierId.None? {
      raised := document.Transition(Failed, SYSTEM);
      if raised == NoRaise {
        raised := WorkflowFailure;
      }
      return;
    }
    var key := ErpKey(document.id, invoice.invoiceNumber);
    var request := RequestFor(invoice);
    call := Some(ErpCall(document.id, invoice, key, request));
    var reply := CallCreate(erp, request, key, world);
    if reply.CreateFailed? {
      raised := RaiseFor(reply.failure);
      if raised == WorkflowFailure {
        raised := document.Transition(Failed, SYSTEM);
        if raised == NoRaise {
          raised := WorkflowFailure;
        }
      }
      return;
    }
    if !IsListed(session.submissions, invoice.supplierName, invoice.invoiceNumber) {
      session.submissions := session.submissions
        + [Submission(document.id, invoice.supplierName, invoice.invoiceNumber, reply.invoice.invoiceId)];
    }
    document.Audit(ErpSubmitted, SYSTEM);
    raised := document.Transition(Submitted, SYSTEM);
  }

  /** The ERP look-ups and the duplicate check in front of a decision. */
  method LookUpContext(session: Session, erp: ErpMock, invoice: Invoice, settings: Settings, world: World)
    returns (raised: Raise, context: RuleContext)
    ensures raised == LookupRaise(invoice, world)
    ensures raised == NoRaise ==> context == Context(settings, invoice, erp.State(), session.submissions)
    ensures raised == NoRaise ==>
              && (Acceptable(invoice, context) <==> Passes(invoice, settings, erp.State(), session.submissions))
              && context.supportedCurrencies == settings.supportedCurrencies
              && context.confidenceThreshold == settings.confidenceThreshold
              && context.approvalLimit == settings.approvalLimit
              && context.totalsTolerance == settings.totalsTolerance
              && (context.supplierExists <==>
                    invoice.supplierId.Some? && invoice.supplierId.value != "" && invoice.supplierId.value in erp.suppliers)
              && (context.purchaseOrderExists <==>
                    && invoice.purchaseOrderId.Some? && invoice.purchaseOrderId.value != ""
                    && invoice.purchaseOrderId.value in erp.purchaseOrders)
              && (context.isDuplicate <==>
                    exists row :: row in session.submissions
                      && row.supplierName == invoice.supplierName && row.invoiceNumber == invoice.invoiceNumber)
  {
    PassingIsAcceptable(invoice, settings, erp.State(), session.submissions);
    var supplierExists, orderExists := false, false;
    var duplicate := IsListed(session.submissions, invoice.supplierName, invoice.invoiceNumber);
    context := RuleContext(settings.supportedCurrencies, settings.confidenceThreshold, settings.approvalLimit,
                           settings.totalsTolerance, supplierExists, orderExists, duplicate);
    if IsGiven(invoice.supplierId) {
      var supplier := LookUp(erp.suppliers, invoice.supplierId.value, world.supplierFault);
      if supplier.LookupFailed? {
        return RaiseFor(supplier.failure), context;
      }
      supplierExists := supplier.present;
    }
    if IsGiven(invoice.purchaseOrderId) {
      var order := LookUp(erp.purchaseOrders, invoice.purchaseOrderId.value, world.orderFault);
      if order.LookupFailed? {
        return RaiseFor(order.failure), context;
      }
      orderExists := order.present;
    }
    context := context.(supplierExists := supplierExists, purchaseOrderExists := orderExists);
    return NoRaise, context;
  }

  /** From any status: an earlier decision for review leaves a document that is not extracted as it is, and an
      earlier approval has it submitted from the status it is in. */
  method DecideAndMaybeSubmit(session: Session, document: DocumentRecord, erp: ErpMock, invoice: Invoice,
                              settings: Settings, world: World)
    returns (raised: Raise, call: Option<ErpCall>)
    modifies session, document, erp
    ensures old(document.status) == Extracted ==>
              Attempt(Snapshot(session, document, erp, call), raised)
              == Decide(old(Snapshot(session, document, erp, None)), session.now, invoice, settings, world)
    ensures
      var latest := Latest(old(document.decisions));
      old(document.status) != Extracted && latest.Some? && latest.value.kind == NeedsHumanReview ==>
        Attempt(Snapshot(session, document, erp, call), raised) == Attempt(old(Snapshot(session, document, erp, None)), NoRaise)
    ensures
      var latest := Latest(old(document.decisions));
      old(document.status) == Approved && latest.Some? && latest.value.kind == AutoApprove ==>
        Attempt(Snapshot(session, document, erp, call), raised)
        == Submit(old(Snapshot(session, document, erp, None)), invoice, world)
  {
    call := None;
    var existing := FindLatest(document.decisions);
    if existing.Some? && existing.value.kind == NeedsHumanReview {
      if document.status == Extracted {
        raised := document.Transition(NeedsReview, SYSTEM);
        return;
      }
      return NoRaise, None;
    }
    if existing.Some? && existing.value.kind == AutoApprove {
      if document.status == Extracted {
        raised := document.Transition(Approved, SYSTEM);
        if raised != NoRaise {
          return;
        }
      }
      raised, call := SubmitApprovedInvoice(session, document, erp, invoice, world);
      return;
    }

    var context;
    raised, context := LookUpContext(session, erp, invoice, settings, world);
    if raised != NoRaise {
      return;
    }
    var decision := DecideWorkflow(invoice, context).decision;
    DecisionCharacterised(invoice, context);
    document.decisions := document.decisions + [Row(Decision(decision, SYSTEM), session.now)];
    document.Audit(ValidationCompleted, SYSTEM);
    if decision == NeedsHumanReview {
      raised := document.Transition(NeedsReview, SYSTEM);
      return;
    }
    raised := document.Transition(Approved, SYSTEM);
    if raised != NoRaise {
      return;
    }
    raised, call := SubmitApprovedInvoice(session, document, erp, invoice, world);
  }

  /** The branch for a document that has no extraction yet. */
  method ExtractAndDecide(session: Session, document: DocumentRecord, erp: ErpMock, settings: Settings, world: World)
    returns (raised: Raise, call: Option<ErpCall>)
    requires document.status == Processing
    modifies session, document, erp
    ensures Attempt(Snapshot(session, document, erp, call), raised)
         == Extract(old(Snapshot(session, document, erp, None)), session.now, settings, world)
  {
    call := None;
    if !world.pdfReadable {
      raised := document.Transition(Failed, SYSTEM);
      if raised == NoRaise {
        raised := WorkflowFailure;
      }
      return;
    }
    match world.provider {
      case InvalidOutput =>
        raised := document.Transition(NeedsReview, SYSTEM);
        if raised == NoRaise {
          document.Audit(OutputInvalid, SYSTEM);
        }
      case NonRecoverable(_) =>
        raised := document.Transition(Failed, SYSTEM);
        if raised == NoRaise {
          raised := WorkflowFailure;
        }
      case Recoverable(errorClass) =>
        raised := TransientError(errorClass);
      case ProviderBroke =>
        raised := Unexpected;
      case Returned(provider, invoice) =>
        document.extractions := document.extractions + [Row(Extraction(provider, Parsed(invoice)), session.now)];
        document.Audit(ExtractionCompleted, SYSTEM);
        raised := document.Transition(Extracted, SYSTEM);
        if raised == NoRaise {
          raised, call := DecideAndMaybeSubmit(session, document, erp, invoice, settings, world);
        }
    }
  }

  /** The workflow from `Processing` on. */
  method ContinueProcessing(session: Session, document: DocumentRecord, erp: ErpMock, settings: Settings, world: World)
    returns (raised: Raise, call: Option<ErpCall>)
    requires document.status == Processing
    modifies session, document, erp
    ensures Attempt(Snapshot(session, document, erp, call), raised)
         == ProcessClaimed(old(Snapshot(session, document, erp, None)), session.now, settings, world)
  {
    call := None;
    var submission := SubmissionForDocument(session.submissions, document.id);
    if submission.Some? {
      raised := document.Transition(Extracted, SYSTEM);
      if raised == NoRaise {
        raised := document.Transition(Approved, SYSTEM);
      }
      if raised == NoRaise {
        raised := document.Transition(Submitted, SYSTEM);
      }
      return;
    }
    var extraction := FindLatest(document.extractions);
    if extraction.None? {
      raised, call := ExtractAndDecide(session, document, erp, settings, world);
      return;
    }
    if extraction.value.payload.Malformed? {
      return Unexpected, None;
    }
    raised := document.Transition(Extracted, SYSTEM);
    if raised == NoRaise {
      raised, call := DecideAndMaybeSubmit(session, document, erp, extraction.value.payload.invoice, settings, world);
    }
  }

  /** The body of the service's `try`. */
  method RunBody(session: Session, document: DocumentRecord, erp: ErpMock, settings: Settings, world: World)
    returns (raised: Raise, call: Option<ErpCall>)
    modifies session, document, erp
    ensures Attempt(Snapshot(session, document, erp, call), raised)
         == Body(old(Snapshot(session, document, erp, None)), session.now, settings, world)
  {
    call := None;
    if IsWorkerNoop(document.status) {
      return NoRaise, None;
    }
    if document.status == Received {
      return WorkflowFailure, None;
    }
    if document.status == Queued {
      raised := document.Transition(Processing, SYSTEM);
      if raised != NoRaise {
        return;
      }
    }
    if document.status == Processing {
      raised, call := ContinueProcessing(session, document, erp, settings, world);
      return;
    }
    var extraction := FindLatest(document.extractions);
    if extraction.None? {
      return WorkflowFailure, None;
    }
    if extraction.value.payload.Malformed? {
      return Unexpected, None;
    }
    var invoice := extraction.value.payload.invoice;
    if document.status == Approved {
      raised, call := SubmitApprovedInvoice(session, document, erp, invoice, world);
    } else {
      raised, call := DecideAndMaybeSubmit(session, document, erp, invoice, settings, world);
    }
  }

  /** The exception handlers around the body. */
  method HandleRaise(session: Session, document: DocumentRecord, erp: ErpMock, call: Option<ErpCall>, caught: Raise,
                     ghost attempt: Attempt)
    returns (raised: Raise)
    requires attempt == Attempt(Snapshot(session, document, erp, call), caught)
    modifies document
    ensures !caught.IllegalTransition? ==> Attempt(Snapshot(session, document, erp, call), raised) == Handled(attempt)
  {
    raised := caught;
    match caught {
      case TransientError(_) =>
      case IllegalTransition(_, _) =>
        document.Audit(TransitionRefused, SYSTEM);
      case WorkflowFailure =>
      case Unexpected =>
        if !IsTerminal(document.status) {
          var swallowed := document.Transition(Failed, SYSTEM);
        }
        raised := WorkflowFailure;
      case NoRaise =>
    }
  }

  /** One attempt with its exception handlers. Whatever rows the document starts with, no transition it
      attempts is illegal, except one inside the handler that swallows it. */
  method Run(session: Session, document: DocumentRecord, erp: ErpMock, settings: Settings, world: World)
    returns (raised: Raise, call: Option<ErpCall>)
    modifies session, document, erp
    ensures Attempt(Snapshot(session, document, erp, call), raised)
         == Process(old(Snapshot(session, document, erp, None)), session.now, settings, world)
    ensures !raised.IllegalTransition? && raised != Unexpected
  {
    ghost var attempt := Body(Snapshot(session, document, erp, None), session.now, settings, world);
    BodyRaises(Snapshot(session, document, erp, None), session.now, settings, world);
    var caught;
    caught, call := RunBody(session, document, erp, settings, world);
    raised := HandleRaise(session, document, erp, call, caught, attempt);
    assert Attempt(Snapshot(session, document, erp, call), raised) == Handled(attempt);
  }
}
