/** One processing attempt of the worker, as a function of the row it locks and of what the outside world
    answers. This is the specification the imperative workflow in `ProcessDocument` is proved against; it
    takes no account of illegal transitions, because none is ever attempted. */
module Attempts {
  import opened Options
  import opened WorkflowStates
  import opened BusinessRules
  import opened Identifiers
  import opened Records
  import opened Erp

  datatype Settings = Settings(
    supportedCurrencies: seq<string>,
    confidenceThreshold: real,
    approvalLimit: real,
    totalsTolerance: real,
    maxRetries: nat)

  datatype ProviderOutcome =
    | Returned(provider: string, invoice: Invoice)
    | InvalidOutput
    | NonRecoverable(errorClass: string)
    | Recoverable(errorClass: string)
    | ProviderBroke

  /** Everything the outside world decides during one attempt. */
  datatype World = World(
    pdfReadable: bool,
    provider: ProviderOutcome,
    supplierFault: Option<Failure>,
    orderFault: Option<Failure>,
    create: Channel,
    freshId: string)

  /** A call of the ERP's create endpoint, whether or not it got through. */
  datatype ErpCall = ErpCall(documentId: Uuid, invoice: Invoice, key: string, request: InvoiceRequest)

  datatype Raise =
    | NoRaise
    | TransientError(errorClass: string)
    | WorkflowFailure
    | IllegalTransition(source: WorkflowState, target: WorkflowState)
    | Unexpected

  /** The session's view during an attempt, together with the ERP, which no rollback reaches. */
  datatype Work = Work(
    id: Uuid,
    doc: Document,
    submissions: seq<Submission>,
    erp: ErpState,
    call: Option<ErpCall>)

  datatype Attempt = Attempt(work: Work, raised: Raise)

  const SYSTEM := "system"

  function MovedTo(work: Work, target: WorkflowState): Work {
    work.(doc := Moved(work.doc, target, SYSTEM))
  }

  function Context(settings: Settings, invoice: Invoice, erp: ErpState, submissions: seq<Submission>): RuleContext {
    RuleContext(
      settings.supportedCurrencies,
      settings.confidenceThreshold,
      settings.approvalLimit,
      settings.totalsTolerance,
      IsGiven(invoice.supplierId) && invoice.supplierId.value in erp.suppliers,
      IsGiven(invoice.purchaseOrderId) && invoice.purchaseOrderId.value in erp.purchaseOrders,
      IsListed(submissions, invoice.supplierName, invoice.invoiceNumber))
  }

  /** All the rules of automatic approval, against the settings, the ERP's records and the submissions table. */
  ghost predicate Passes(invoice: Invoice, settings: Settings, erp: ErpState, submissions: seq<Submission>) {
    && 0.0 <= invoice.totalAmount <= settings.approvalLimit
    && (forall item :: item in invoice.lineItems ==> item.quantity >= 0.0 && item.unitPrice >= 0.0 && item.lineTotal >= 0.0)
    && (invoice.lineItems == []
        || -settings.totalsTolerance <= SumOfLines(invoice.lineItems) - invoice.totalAmount <= settings.totalsTolerance)
    && invoice.overallConfidence >= settings.confidenceThreshold
    && invoice.currency in settings.supportedCurrencies
    && invoice.supplierId.Some? && invoice.supplierId.value != "" && invoice.supplierId.value in erp.suppliers
    && (invoice.purchaseOrderId.Some? && invoice.purchaseOrderId.value != "" ==>
          invoice.purchaseOrderId.value in erp.purchaseOrders)
    && (forall row :: row in submissions ==>
          row.supplierName != invoice.supplierName || row.invoiceNumber != invoice.invoiceNumber)
  }

  /** The rules an invoice breaks are those that keep it from passing. */
  lemma PassingIsAcceptable(invoice: Invoice, settings: Settings, erp: ErpState, submissions: seq<Submission>)
    ensures Passes(invoice, settings, erp, submissions) <==> Acceptable(invoice, Context(settings, invoice, erp, submissions))
    ensures Passes(invoice, settings, erp, submissions) <==> Issues(invoice, Context(settings, invoice, erp, submissions)) == []
  {
    hide Issues, SumOfLines;
    IssuesCharacterised(invoice, Context(settings, invoice, erp, submissions));
  }

  /** The request asks for what the invoice says, in every field. */
  predicate AsksFor(request: InvoiceRequest, invoice: Invoice) {
    && invoice.supplierId == Some(request.supplierId)
    && request.purchaseOrderId == invoice.purchaseOrderId
    && request.invoiceNumber == invoice.invoiceNumber
    && request.invoiceDate == invoice.invoiceDate
    && request.currency == invoice.currency
    && request.totalAmount == invoice.totalAmount
    && request.lineItems == invoice.lineItems
  }

  function RequestFor(invoice: Invoice): InvoiceRequest
    requires invoice.supplierId.Some?
  {
    InvoiceRequest(invoice.supplierId.value, invoice.purchaseOrderId, invoice.invoiceNumber, invoice.invoiceDate,
                   invoice.currency, invoice.totalAmount, invoice.lineItems)
  }

  function RaiseFor(failure: Failure): Raise {
    match failure
    case ClientError(status) => if IsTransientStatus(status) then TransientError("erp_transient") else WorkflowFailure
    case OtherError => Unexpected
  }

  /** The work after the ERP has been asked to create the invoice. */
  function Asked(work: Work, invoice: Invoice, world: World): Work
    requires invoice.supplierId.Some?
  {
    var key := ErpKey(work.id, invoice.invoiceNumber);
    work.(erp := CreateOver(world.create, work.erp, RequestFor(invoice), key, world.freshId),
          call := Some(ErpCall(work.id, invoice, key, RequestFor(invoice))))
  }

  function Answer(work: Work, invoice: Invoice, world: World): CreateReply
    requires invoice.supplierId.Some?
  {
    SeenBy(world.create, ReplyTo(work.erp, RequestFor(invoice), ErpKey(work.id, invoice.invoiceNumber), world.freshId))
  }

  /** The submissions table after an accepted submission: the row is added unless the pair is listed already. */
  function Listing(submissions: seq<Submission>, id: Uuid, invoice: Invoice, erpInvoiceId: string): seq<Submission> {
    if IsListed(submissions, invoice.supplierName, invoice.invoiceNumber) then submissions
    else submissions + [Submission(id, invoice.supplierName, invoice.invoiceNumber, erpInvoiceId)]
  }

  function Recorded(work: Work, invoice: Invoice, created: ErpInvoice): Work {
    var listed := work.(submissions := Listing(work.submissions, work.id, invoice, created.invoiceId));
    MovedTo(listed.(doc := Noted(work.doc, ErpSubmitted, SYSTEM)), Submitted)
  }

  /** Submission of an approved invoice. */
  function Submit(work: Work, invoice: Invoice, world: World): Attempt {
    if RowOf(work.submissions, work.id).Some? then
      Attempt(if work.doc.status == Approved then MovedTo(work, Submitted) else work, NoRaise)
    else if invoice.supplierId.None? then
      Attempt(MovedTo(work, Failed), WorkflowFailure)
    else
      var asked := Asked(work, invoice, world);
      match Answer(work, invoice, world)
      case Accepted(created) => Attempt(Recorded(asked, invoice, created), NoRaise)
      case CreateFailed(failure) =>
        var raised := RaiseFor(failure);
        Attempt(if raised == WorkflowFailure then MovedTo(asked, Failed) else asked, raised)
  }

  /** The exception, if any, of the two ERP look-ups that precede a decision; the supplier's comes first. */
  function LookupRaise(invoice: Invoice, world: World): Raise {
    if IsGiven(invoice.supplierId) && world.supplierFault.Some? then RaiseFor(world.supplierFault.value)
    else if IsGiven(invoice.purchaseOrderId) && world.orderFault.Some? then RaiseFor(world.orderFault.value)
    else NoRaise
  }

  function Decided(work: Work, now: nat, kind: DecisionType): Work {
    var row := Row(Decision(kind, SYSTEM), now);
    work.(doc := Noted(work.doc, ValidationCompleted, SYSTEM).(decisions := work.doc.decisions + [row]))
  }

  /** The decision on an extracted invoice, and its submission when it is approved. */
  function Decide(work: Work, now: nat, invoice: Invoice, settings: Settings, world: World): Attempt {
    var existing := Latest(work.doc.decisions);
    if existing.Some? && existing.value.kind == NeedsHumanReview then
      Attempt(MovedTo(work, NeedsReview), NoRaise)
    else if existing.Some? && existing.value.kind == AutoApprove then
      Submit(MovedTo(work, Approved), invoice, world)
    else
      var raised := LookupRaise(invoice, world);
      if raised != NoRaise then Attempt(work, raised)
      else
        var decision := DecideWorkflow(invoice, Context(settings, invoice, work.erp, work.submissions)).decision;
        var decided := Decided(work, now, decision);
        if decision == NeedsHumanReview then Attempt(MovedTo(decided, NeedsReview), NoRaise)
        else Submit(MovedTo(decided, Approved), invoice, world)
  }

  function Stored(work: Work, now: nat, provider: string, invoice: Invoice): Work {
    var row := Row(Extraction(provider, Parsed(invoice)), now);
    work.(doc := Noted(work.doc, ExtractionCompleted, SYSTEM).(extractions := work.doc.extractions + [row]))
  }

  /** Extraction from the document's text, for a document that has no extraction yet. */
  function Extract(work: Work, now: nat, settings: Settings, world: World): Attempt {
    if !world.pdfReadable then Attempt(MovedTo(work, Failed), WorkflowFailure)
    else
      match world.provider
      case InvalidOutput =>
        var moved := MovedTo(work, NeedsReview);
        Attempt(moved.(doc := Noted(moved.doc, OutputInvalid, SYSTEM)), NoRaise)
      case NonRecoverable(_) => Attempt(MovedTo(work, Failed), WorkflowFailure)
      case Recoverable(errorClass) => Attempt(work, TransientError(errorClass))
      case ProviderBroke => Attempt(work, Unexpected)
      case Returned(provider, invoice) =>
        Decide(MovedTo(Stored(work, now, provider, invoice), Extracted), now, invoice, settings, world)
  }

  /** The part of the workflow that starts from `Processing`. */
  function ProcessClaimed(work: Work, now: nat, settings: Settings, world: World): Attempt {
    if RowOf(work.submissions, work.id).Some? then
      Attempt(MovedTo(MovedTo(MovedTo(work, Extracted), Approved), Submitted), NoRaise)
    else
      match Latest(work.doc.extractions)
      case None => Extract(work, now, settings, world)
      case Some(extraction) =>
        if extraction.payload.Malformed? then Attempt(work, Unexpected)
        else Decide(MovedTo(work, Extracted), now, extraction.payload.invoice, settings, world)
  }

  /** The workflow before its exception handlers. */
  function Body(work: Work, now: nat, settings: Settings, world: World): Attempt {
    var status := work.doc.status;
    if IsWorkerNoop(status) then Attempt(work, NoRaise)
    else if status == Received then Attempt(work, WorkflowFailure)
    else if status == Queued then ProcessClaimed(MovedTo(work, Processing), now, settings, world)
    else if status == Processing then ProcessClaimed(work, now, settings, world)
    else
      match Latest(work.doc.extractions)
      case None => Attempt(work, WorkflowFailure)
      case Some(extraction) =>
        if extraction.payload.Malformed? then Attempt(work, Unexpected)
        else if status == Approved then Submit(work, extraction.payload.invoice, world)
        else Decide(work, now, extraction.payload.invoice, settings, world)
  }

  /** An exception of any other class fails the document, if its status allows it, and becomes a workflow error. */
  function Handled(attempt: Attempt): Attempt {
    if attempt.raised != Unexpected then attempt
    else
      Attempt(if CanMove(attempt.work.doc.status, Failed) then MovedTo(attempt.work, Failed) else attempt.work,
              WorkflowFailure)
  }

  function Process(work: Work, now: nat, settings: Settings, world: World): Attempt {
    Handled(Body(work, now, settings, world))
  }

  // ---- The specification has no refusals of its own ----

  lemma SubmitRaises(work: Work, invoice: Invoice, world: World)
    ensures !Submit(work, invoice, world).raised.IllegalTransition?
  {
  }

  lemma DecideRaises(work: Work, now: nat, invoice: Invoice, settings: Settings, world: World)
    ensures !Decide(work, now, invoice, settings, world).raised.IllegalTransition?
  {
    SubmitRaises(MovedTo(work, Approved), invoice, world);
    var decision := DecideWorkflow(invoice, Context(settings, invoice, work.erp, work.submissions)).decision;
    SubmitRaises(MovedTo(Decided(work, now, decision), Approved), invoice, world);
  }

  lemma BodyRaises(work: Work, now: nat, settings: Settings, world: World)
    ensures !Body(work, now, settings, world).raised.IllegalTransition?
  {
    var claimed := if work.doc.status == Queued then MovedTo(work, Processing) else work;
    if Latest(work.doc.extractions).Some? && Latest(work.doc.extractions).value.payload.Parsed? {
      var invoice := Latest(work.doc.extractions).value.payload.invoice;
      SubmitRaises(work, invoice, world);
      DecideRaises(work, now, invoice, settings, world);
      DecideRaises(MovedTo(claimed, Extracted), now, invoice, settings, world);
    }
    if world.provider.Returned? {
      var stored := Stored(claimed, now, world.provider.provider, world.provider.invoice);
      DecideRaises(MovedTo(stored, Extracted), now, world.provider.invoice, settings, world);
    }
  }
}
