/** How an attempt on a committed row ends, and which invoice it sends to the ERP, read off the row and the
    outside world before the attempt is made. */
module AttemptOutcomes {
  import opened Options
  import opened WorkflowStates
  import opened BusinessRules
  import opened Identifiers
  import opened Records
  import opened Erp
  import opened Attempts
  import opened CommittedRows
  import opened Pipeline
  import opened Invariants
  import opened Deliveries

  /** A committed row that the worker has work to do on. */
  ghost predicate Awaits(work: Work, settings: Settings, now: nat) {
    && WellFormed(work.doc, settings.maxRetries, now)
    && IsUnfinished(work.doc.status)
    && work.call.None?
    && RowOf(work.submissions, work.id).None?
  }

  /** No look-up that the invoice needs goes wrong. */
  predicate LookupsAnswer(invoice: Invoice, world: World) {
    && (invoice.supplierId.Some? && invoice.supplierId.value != "" ==> world.supplierFault.None?)
    && (invoice.purchaseOrderId.Some? && invoice.purchaseOrderId.value != "" ==> world.orderFault.None?)
  }

  /** The invoice the attempt sends to the ERP: for a queued row a readable one that passes every rule, for an
      approved row its last extraction. */
  ghost function Sent(work: Work, settings: Settings, world: World): Option<Invoice>
    requires AllParsed(work.doc)
  {
    if work.doc.status == Queued then
      if && world.pdfReadable
         && world.provider.Returned?
         && LookupsAnswer(world.provider.invoice, world)
         && Passes(world.provider.invoice, settings, work.erp, work.submissions)
      then Some(world.provider.invoice)
      else None
    else if work.doc.status == Approved && work.doc.extractions != [] && LastInvoice(work.doc).supplierId.Some? then
      Some(LastInvoice(work.doc))
    else None
  }

  /** `Retries` carries the error class the retry is scheduled under. */
  datatype Ending = Finishes | Retries(errorClass: string) | GivesUp

  function AfterFailure(failure: Failure): Ending {
    if failure.ClientError? && IsTransientStatus(failure.status) then Retries("erp_transient") else GivesUp
  }

  /** What the ERP, or the network on the way there and back, makes of an invoice that is sent. */
  function AfterSending(id: Uuid, erp: ErpState, invoice: Invoice, world: World): Ending {
    match world.create
    case Faulty(_, seen) => AfterFailure(seen)
    case Clean =>
      var known := invoice.supplierId.Some? && invoice.supplierId.value in erp.suppliers;
      if ErpKey(id, invoice.invoiceNumber) in erp.byKey || known then Finishes else GivesUp
  }

  /** What the provider, or the look-ups for its reading, make of an attempt that sends nothing. */
  function BeforeSending(world: World): Ending {
    if !world.pdfReadable then GivesUp
    else
      match world.provider
      case InvalidOutput => Finishes
      case Recoverable(errorClass) => Retries(errorClass)
      case NonRecoverable(_) => GivesUp
      case ProviderBroke => GivesUp
      case Returned(_, invoice) =>
        if invoice.supplierId.Some? && invoice.supplierId.value != "" && world.supplierFault.Some? then
          AfterFailure(world.supplierFault.value)
        else if invoice.purchaseOrderId.Some? && invoice.purchaseOrderId.value != "" && world.orderFault.Some? then
          AfterFailure(world.orderFault.value)
        else Finishes
  }

  ghost function EndingOf(work: Work, settings: Settings, world: World): Ending
    requires AllParsed(work.doc)
  {
    match Sent(work, settings, world)
    case Some(invoice) => AfterSending(work.id, work.erp, invoice, world)
    case None => if work.doc.status == Queued then BeforeSending(world) else GivesUp
  }

  ghost predicate EndsAs(raised: Raise, ending: Ending) {
    match ending
    case Finishes => raised == NoRaise
    case Retries(errorClass) => raised == TransientError(errorClass)
    case GivesUp => raised == WorkflowFailure
  }

  /** What `Sent` and `EndingOf` say of an attempt. */
  ghost predicate Fits(work: Work, settings: Settings, world: World, attempt: Attempt)
    requires AllParsed(work.doc)
  {
    var sent := Sent(work, settings, world);
    && EndsAs(attempt.raised, EndingOf(work, settings, world))
    && match attempt.work.call
       case None => sent.None?
       case Some(call) =>
         && sent == Some(call.invoice) && call.documentId == work.id
         && call.key == ErpKey(work.id, call.invoice.invoiceNumber) && AsksFor(call.request, call.invoice)
  }

  lemma SubmissionFits(work: Work, invoice: Invoice, world: World)
    requires RowOf(work.submissions, work.id).None? && work.call.None? && invoice.supplierId.Some?
    ensures
      var attempt := Handled(Submit(work, invoice, world));
      && EndsAs(attempt.raised, AfterSending(work.id, work.erp, invoice, world))
      && attempt.work.call == Some(ErpCall(work.id, invoice, ErpKey(work.id, invoice.invoiceNumber), RequestFor(invoice)))
  {
    ErpKeyInjective(work.id, invoice.invoiceNumber, work.id, invoice.invoiceNumber);
  }

  lemma PassingNamesSupplier(invoice: Invoice, settings: Settings, erp: ErpState, submissions: seq<Submission>)
    requires Passes(invoice, settings, erp, submissions)
    ensures invoice.supplierId.Some?
  {
  }

  lemma PassingReadingFits(work: Work, read: Work, now: nat, settings: Settings, world: World)
    requires work.doc.status == Queued && AllParsed(work.doc)
    requires world.pdfReadable && world.provider.Returned?
    requires RowOf(work.submissions, work.id).None? && read.call.None? && read.doc.decisions == []
    requires read.id == work.id && read.erp == work.erp && read.submissions == work.submissions
    requires LookupsAnswer(world.provider.invoice, world)
    requires DecisionOn(world.provider.invoice, settings, work.erp, work.submissions) == AutoApprove
    requires Passes(world.provider.invoice, settings, work.erp, work.submissions)
    ensures Fits(work, settings, world, Handled(Decide(read, now, world.provider.invoice, settings, world)))
  {
    var invoice := world.provider.invoice;
    PassingNamesSupplier(invoice, settings, work.erp, work.submissions);
    hide DecideWorkflow, Submit, Passes, AfterSending, BeforeSending, Context;
    SubmissionFits(MovedTo(Decided(read, now, AutoApprove), Approved), invoice, world);
  }

  lemma ReadingFits(work: Work, read: Work, now: nat, settings: Settings, world: World)
    requires work.doc.status == Queued && AllParsed(work.doc)
    requires world.pdfReadable && world.provider.Returned?
    requires RowOf(work.submissions, work.id).None? && read.call.None? && read.doc.decisions == []
    requires read.id == work.id && read.erp == work.erp && read.submissions == work.submissions
    ensures Fits(work, settings, world, Handled(Decide(read, now, world.provider.invoice, settings, world)))
  {
    hide DecideWorkflow, Submit, Acceptable, Passes, AfterSending;
    var invoice := world.provider.invoice;
    DecisionCharacterised(invoice, Context(settings, invoice, work.erp, work.submissions));
    AutoApprovalPasses(invoice, settings, work.erp, work.submissions);
    if LookupsAnswer(invoice, world) && Passes(invoice, settings, work.erp, work.submissions) {
      PassingReadingFits(work, read, now, settings, world);
    }
  }

  lemma QueuedFits(work: Work, now: nat, settings: Settings, world: World)
    requires Awaits(work, settings, now) && work.doc.status == Queued
    ensures Fits(work, settings, world, Process(work, now, settings, world))
  {
    var claimed := MovedTo(work, Processing);
    assert work.doc.extractions == [] && work.doc.decisions == [];
    if world.pdfReadable && world.provider.Returned? {
      var read := MovedTo(Stored(claimed, now, world.provider.provider, world.provider.invoice), Extracted);
      ReadingFits(work, read, now, settings, world);
      hide Decide, Fits, WellFormed;
      assert Process(work, now, settings, world) == Handled(Decide(read, now, world.provider.invoice, settings, world));
    } else {
      hide Decide, Passes, WellFormed;
    }
  }

  lemma ApprovedFits(work: Work, now: nat, settings: Settings, world: World)
    requires Awaits(work, settings, now) && work.doc.status == Approved
    ensures Fits(work, settings, world, Process(work, now, settings, world))
  {
    LatestIsLast(work.doc.extractions, now);
    hide Latest, Replay;
    var invoice := LastInvoice(work.doc);
    assert Body(work, now, settings, world) == Submit(work, invoice, world);
    if invoice.supplierId.Some? {
      SubmissionFits(work, invoice, world);
    }
  }

  /** Every attempt on a committed row that awaits one ends, and sends, as the row and the world foretell. */
  lemma AttemptFits(work: Work, now: nat, settings: Settings, world: World)
    requires Awaits(work, settings, now)
    ensures Fits(work, settings, world, Process(work, now, settings, world))
  {
    hide Process, Fits, WellFormed;
    if work.doc.status == Queued {
      QueuedFits(work, now, settings, world);
    } else {
      ApprovedFits(work, now, settings, world);
    }
  }

  /** The same of a delivery, in a state that keeps the invariant; on any other row it sends nothing and ends
      normally. */
  lemma DeliveryFits(config: Config, system: System, message: Message, world: World)
    requires Inv(config, system) && MessageFits(config, system, message)
    ensures AllParsed(WorkFor(system, message).doc)
    ensures
      var work := WorkFor(system, message);
      var attempt := AttemptFor(config, system, message, world);
      if IsUnfinished(work.doc.status) then Fits(work, config.settings, world, attempt)
      else attempt == Attempt(work, NoRaise)
  {
    var work := WorkFor(system, message);
    DeliveredBehaves(config, system, message, world);
    if IsUnfinished(work.doc.status) {
      UnfinishedOwnsNoRow(config, system, message.documentId);
      AttemptFits(work, system.db.clock, config.settings, world);
    }
    hide Inv, Process, Fits;
  }
}
