/** What a committed document row can look like, and what one attempt makes of it. */
module CommittedRows {
  import opened Options
  import opened WorkflowStates
  import opened BusinessRules
  import opened Identifiers
  import opened Records
  import opened Erp
  import opened Attempts

  /** The audit log replays to the current status. */
  ghost predicate Traced(doc: Document) {
    Replay(doc.audit) == Some(doc.status)
  }

  lemma MovedTraced(doc: Document, target: WorkflowState, actor: string)
    requires Traced(doc) && CanMove(doc.status, target)
    ensures Traced(Moved(doc, target, actor))
  {
    ReplayAppend(doc.audit, StateTransition(doc.status, target, actor));
  }

  lemma NotedTraced(doc: Document, action: AuditAction, actor: string)
    requires Traced(doc)
    ensures Traced(Noted(doc, action, actor))
  {
    ReplayAppend(doc.audit, Note(action, actor));
  }

  ghost predicate HasKinds(doc: Document, kinds: seq<DecisionType>) {
    && |doc.decisions| == |kinds|
    && forall i :: 0 <= i < |kinds| ==> doc.decisions[i].value.kind == kinds[i]
  }

  ghost predicate Pristine(doc: Document) {
    doc.extractions == [] && HasKinds(doc, [])
  }

  ghost predicate InReview(doc: Document) {
    || Pristine(doc)
    || (|doc.extractions| == 1 && HasKinds(doc, [NeedsHumanReview]))
  }

  ghost predicate AutoApproved(doc: Document) {
    |doc.extractions| == 1 && HasKinds(doc, [AutoApprove])
  }

  ghost predicate HumanApproved(doc: Document) {
    || (|doc.extractions| == 1 && HasKinds(doc, [HumanApprove]))
    || (1 <= |doc.extractions| <= 2 && HasKinds(doc, [NeedsHumanReview, HumanApprove]))
  }

  ghost predicate HumanRejected(doc: Document) {
    || (doc.extractions == [] && HasKinds(doc, [HumanReject]))
    || (|doc.extractions| == 1 && HasKinds(doc, [NeedsHumanReview, HumanReject]))
  }

  /** The extractions and decisions a committed row of each status can have. No row is ever committed as
      received, processing or extracted. */
  ghost predicate RowsFitStatus(doc: Document) {
    match doc.status
    case Queued => Pristine(doc)
    case NeedsReview => InReview(doc)
    case Approved => HumanApproved(doc)
    case Submitted => AutoApproved(doc) || HumanApproved(doc)
    case Rejected => HumanRejected(doc)
    case Failed => Pristine(doc) || HumanApproved(doc)
    case _ => false
  }

  ghost predicate AllParsed(doc: Document) {
    forall i :: 0 <= i < |doc.extractions| ==> doc.extractions[i].value.payload.Parsed?
  }

  ghost predicate WellFormed(doc: Document, maxRetries: nat, now: nat) {
    && RowsFitStatus(doc)
    && Traced(doc)
    && Clocked(doc.extractions, now)
    && Clocked(doc.decisions, now)
    && AllParsed(doc)
    && doc.retryCount <= maxRetries + 1
    && (doc.status == Failed ==> doc.retryCount == maxRetries + 1)
  }

  /** The invoice of the last extraction row. */
  function LastInvoice(doc: Document): Invoice
    requires doc.extractions != [] && doc.extractions[|doc.extractions| - 1].value.payload.Parsed?
  {
    doc.extractions[|doc.extractions| - 1].value.payload.invoice
  }

  /** Everything but the status, the audit log, the extractions and the decisions. */
  ghost predicate SameHeader(a: Document, b: Document) {
    b == a.(status := b.status, audit := b.audit, extractions := b.extractions, decisions := b.decisions)
  }

  // ---- Submission ----

  /** What submitting `invoice` may do. */
  ghost predicate Submits(work: Work, invoice: Invoice, world: World, attempt: Attempt) {
    && var key := ErpKey(work.id, invoice.invoiceNumber);
    && attempt.work.id == work.id
    && SameHeader(work.doc, attempt.work.doc)
    && attempt.work.doc.extractions == work.doc.extractions
    && attempt.work.doc.decisions == work.doc.decisions
    && Traced(attempt.work.doc)
    && (attempt.work.call.None? ==> attempt.work.erp == work.erp && attempt.work.submissions == work.submissions)
    && (attempt.work.call.Some? ==>
          && invoice.supplierId.Some?
          && attempt.work.call.value == ErpCall(work.id, invoice, key, RequestFor(invoice))
          && attempt.work.erp == CreateOver(world.create, work.erp, RequestFor(invoice), key, world.freshId))
    && (attempt.raised == NoRaise ==>
          && attempt.work.call.Some?
          && world.create.Clean?
          && attempt.work.doc.status == Submitted
          && var reply := ReplyTo(work.erp, RequestFor(invoice), key, world.freshId);
          && reply.Created?
          && attempt.work.submissions == Listing(work.submissions, work.id, invoice, reply.invoice.invoiceId))
  }

  lemma SubmitEffect(work: Work, invoice: Invoice, world: World)
    requires work.doc.status == Approved && Traced(work.doc) && work.call.None?
    requires RowOf(work.submissions, work.id).None?
    ensures Submits(work, invoice, world, Submit(work, invoice, world))
  {
    MovedTraced(work.doc, Failed, SYSTEM);
    NotedTraced(work.doc, ErpSubmitted, SYSTEM);
    MovedTraced(Noted(work.doc, ErpSubmitted, SYSTEM), Submitted, SYSTEM);
  }

  // ---- Decision ----

  /** The decision the rule engine takes on `invoice` in the state the attempt found. */
  function DecisionOn(invoice: Invoice, settings: Settings, erp: ErpState, submissions: seq<Submission>): DecisionType {
    DecideWorkflow(invoice, Context(settings, invoice, erp, submissions)).decision
  }

  lemma AutoApprovalPasses(invoice: Invoice, settings: Settings, erp: ErpState, submissions: seq<Submission>)
    ensures DecisionOn(invoice, settings, erp, submissions) == AutoApprove <==> Passes(invoice, settings, erp, submissions)
  {
    hide Acceptable, Passes, DecideWorkflow;
    DecisionCharacterised(invoice, Context(settings, invoice, erp, submissions));
    PassingIsAcceptable(invoice, settings, erp, submissions);
  }

  ghost predicate Decides(work: Work, now: nat, invoice: Invoice, settings: Settings, world: World, attempt: Attempt) {
    var decision := DecisionOn(invoice, settings, work.erp, work.submissions);
    && attempt.work.id == work.id
    && SameHeader(work.doc, attempt.work.doc)
    && attempt.work.doc.extractions == work.doc.extractions
    && Traced(attempt.work.doc)
    && (attempt.raised == NoRaise ==>
          attempt.work.doc.decisions == work.doc.decisions + [Row(Decision(decision, SYSTEM), now)])
    && (attempt.work.call.Some? ==> decision == AutoApprove)
    && (attempt.raised == NoRaise && decision == NeedsHumanReview ==>
          attempt.work.doc.status == NeedsReview && attempt.work.call.None?)
    && (decision == NeedsHumanReview || attempt.work.call.None? ==>
          attempt.work.erp == work.erp && attempt.work.submissions == work.submissions)
    && (decision == AutoApprove && LookupRaise(invoice, world) == NoRaise ==>
          Submits(MovedTo(Decided(work, now, decision), Approved), invoice, world, attempt))
    && (LookupRaise(invoice, world) != NoRaise ==> attempt.raised != NoRaise && attempt.work.call.None?)
  }

  lemma DecideEffect(work: Work, now: nat, invoice: Invoice, settings: Settings, world: World)
    requires work.doc.status == Extracted && Traced(work.doc) && work.call.None? && work.doc.decisions == []
    requires RowOf(work.submissions, work.id).None?
    ensures Decides(work, now, invoice, settings, world, Decide(work, now, invoice, settings, world))
  {
    var decision := DecisionOn(invoice, settings, work.erp, work.submissions);
    DecisionCharacterised(invoice, Context(settings, invoice, work.erp, work.submissions));
    var decided := Decided(work, now, decision);
    NotedTraced(work.doc, ValidationCompleted, SYSTEM);
    assert Traced(decided.doc);
    MovedTraced(decided.doc, NeedsReview, SYSTEM);
    MovedTraced(decided.doc, Approved, SYSTEM);
    SubmitEffect(MovedTo(decided, Approved), invoice, world);
  }

  // ---- One attempt on a committed row ----

  /** Who authorised a create call: the rule engine, in this very attempt, or the reviewer whose approval
      the row records, for the row's latest extraction. */
  ghost predicate Authorised(work: Work, settings: Settings, world: World, invoice: Invoice)
    requires AllParsed(work.doc)
  {
    || (&& work.doc.status == Queued
        && world.pdfReadable
        && world.provider.Returned?
        && invoice == world.provider.invoice
        && DecisionOn(invoice, settings, work.erp, work.submissions) == AutoApprove)
    || (&& work.doc.status == Approved
        && work.doc.extractions != []
        && invoice == LastInvoice(work.doc))
  }

  /** What any attempt on a committed row does outside the row: at most one authorised create call. */
  ghost predicate Calls(work: Work, settings: Settings, world: World, attempt: Attempt)
    requires AllParsed(work.doc)
  {
    && (attempt.work.call.None? ==> attempt.work.erp == work.erp && attempt.work.submissions == work.submissions)
    && (attempt.work.call.Some? ==>
          var invoice := attempt.work.call.value.invoice;
          var key := ErpKey(work.id, invoice.invoiceNumber);
          && invoice.supplierId.Some?
          && attempt.work.call.value == ErpCall(work.id, invoice, key, RequestFor(invoice))
          && Authorised(work, settings, world, invoice)
          && attempt.work.erp == CreateOver(world.create, work.erp, RequestFor(invoice), key, world.freshId))
  }

  /** A completed attempt either leaves a settled row alone, sends a queued one to review without calling the
      ERP, or submits: a queued row with its auto-approval, an approved one as it is. */
  ghost predicate Completes(work: Work, settings: Settings, world: World, attempt: Attempt)
    requires AllParsed(work.doc)
  {
    var doc, doc' := work.doc, attempt.work.doc;
    if IsWorkerNoop(doc.status) then attempt.work == work
    else if doc'.status == NeedsReview then
      && doc.status == Queued
      && attempt.work.call.None?
      && InReview(doc')
      && (doc'.extractions != [] ==>
            && world.provider.Returned?
            && AllParsed(doc')
            && LastInvoice(doc') == world.provider.invoice
            && DecisionOn(world.provider.invoice, settings, work.erp, work.submissions) == NeedsHumanReview)
    else
      && doc'.status == Submitted
      && doc'.extractions != []
      && attempt.work.call.Some?
      && world.create.Clean?
      && AllParsed(doc')
      && var invoice := attempt.work.call.value.invoice;
      && var key := ErpKey(work.id, invoice.invoiceNumber);
      && invoice == LastInvoice(doc')
      && invoice.supplierId.Some?
      && var reply := ReplyTo(work.erp, RequestFor(invoice), key, world.freshId);
      && reply.Created?
      && attempt.work.submissions == Listing(work.submissions, work.id, invoice, reply.invoice.invoiceId)
      && (doc.status == Queued ==>
            AutoApproved(doc') && !IsListed(work.submissions, invoice.supplierName, invoice.invoiceNumber))
      && (doc.status == Approved ==> doc'.extractions == doc.extractions && doc'.decisions == doc.decisions)
  }

  /** All that an attempt on a committed row can do. */
  ghost predicate Behaves(work: Work, now: nat, settings: Settings, world: World, attempt: Attempt)
    requires AllParsed(work.doc)
  {
    && attempt.work.id == work.id
    && !attempt.raised.IllegalTransition? && attempt.raised != Unexpected
    && Calls(work, settings, world, attempt)
    && (IsWorkerNoop(work.doc.status) ==> attempt == Attempt(work, NoRaise))
    && (attempt.raised == NoRaise ==>
          && IsWorkerNoop(attempt.work.doc.status)
          && SameHeader(work.doc, attempt.work.doc)
          && WellFormed(attempt.work.doc, settings.maxRetries, now + 1)
          && Completes(work, settings, world, attempt))
  }

  /** An attempt on an approved row is a submission of its latest extraction. */
  lemma ApprovedBehaves(work: Work, now: nat, settings: Settings, world: World)
    requires WellFormed(work.doc, settings.maxRetries, now) && work.call.None? && work.doc.status == Approved
    requires RowOf(work.submissions, work.id).None?
    ensures Behaves(work, now, settings, world, Process(work, now, settings, world))
  {
    LatestIsLast(work.doc.extractions, now);
    var invoice := LastInvoice(work.doc);
    assert Body(work, now, settings, world) == Submit(work, invoice, world);
    SubmitEffect(work, invoice, world);
    SubmitRaises(work, invoice, world);
    ApprovedDetails(work, now, settings, world, Submit(work, invoice, world));
  }

  lemma ApprovedDetails(work: Work, now: nat, settings: Settings, world: World, attempt: Attempt)
    requires WellFormed(work.doc, settings.maxRetries, now) && work.call.None? && work.doc.status == Approved
    requires Submits(work, LastInvoice(work.doc), world, attempt)
    requires !attempt.raised.IllegalTransition?
    ensures Behaves(work, now, settings, world, Handled(attempt))
  {
    hide DecisionOn, ReplyTo, CreateOver, Listing;
    HandlingKeeps(work, attempt);
  }

  /** The handlers change neither the ERP nor the call made, nor anything of a completed attempt. */
  lemma HandlingKeeps(work: Work, attempt: Attempt)
    ensures Handled(attempt).work.erp == attempt.work.erp
    ensures Handled(attempt).work.call == attempt.work.call
    ensures Handled(attempt).work.submissions == attempt.work.submissions
    ensures Handled(attempt).work.id == attempt.work.id
    ensures Handled(attempt).raised != Unexpected
    ensures Handled(attempt).raised == NoRaise <==> attempt.raised == NoRaise
    ensures attempt.raised == NoRaise ==> Handled(attempt) == attempt
  {
  }

  lemma ReturnedBehaves(work: Work, now: nat, settings: Settings, world: World)
    requires WellFormed(work.doc, settings.maxRetries, now) && work.call.None? && work.doc.status == Queued
    requires RowOf(work.submissions, work.id).None?
    requires world.pdfReadable && world.provider.Returned?
    ensures Behaves(work, now, settings, world, Process(work, now, settings, world))
  {
    hide DecideWorkflow;
    var provider, invoice := world.provider.provider, world.provider.invoice;
    var claimed := MovedTo(work, Processing);
    MovedTraced(work.doc, Processing, SYSTEM);
    var stored := Stored(claimed, now, provider, invoice);
    NotedTraced(claimed.doc, ExtractionCompleted, SYSTEM);
    assert Traced(stored.doc);
    MovedTraced(stored.doc, Extracted, SYSTEM);
    var extracted := MovedTo(stored, Extracted);
    DecideEffect(extracted, now, invoice, settings, world);
    DecideRaises(extracted, now, invoice, settings, world);
    var attempt := Decide(extracted, now, invoice, settings, world);
    assert Body(work, now, settings, world) == attempt;
    HandlingKeeps(work, attempt);
    DecisionCharacterised(invoice, Context(settings, invoice, work.erp, work.submissions));
    ReturnedDetails(work, extracted, now, settings, world, attempt);
  }

  /** A queued row whose document the provider has read, about to be decided on. */
  ghost predicate Reads(work: Work, extracted: Work, now: nat, settings: Settings, world: World) {
    && WellFormed(work.doc, settings.maxRetries, now) && work.call.None? && work.doc.status == Queued
    && world.pdfReadable && world.provider.Returned?
    && extracted.id == work.id && extracted.submissions == work.submissions && extracted.erp == work.erp
    && SameHeader(work.doc, extracted.doc)
    && extracted.doc.extractions == [Row(Extraction(world.provider.provider, Parsed(world.provider.invoice)), now)]
    && extracted.doc.decisions == []
    && DecisionOn(world.provider.invoice, settings, work.erp, work.submissions) in {AutoApprove, NeedsHumanReview}
  }

  lemma ReturnedCalls(work: Work, extracted: Work, now: nat, settings: Settings, world: World, attempt: Attempt)
    requires Reads(work, extracted, now, settings, world)
    requires Decides(extracted, now, world.provider.invoice, settings, world, attempt)
    ensures attempt.work.id == work.id
    ensures Calls(work, settings, world, attempt)
  {
    hide ReplyTo, CreateOver, Listing, WellFormed;
  }

  lemma ReturnedFits(work: Work, extracted: Work, now: nat, settings: Settings, world: World, attempt: Attempt)
    requires Reads(work, extracted, now, settings, world)
    requires Decides(extracted, now, world.provider.invoice, settings, world, attempt)
    requires attempt.raised == NoRaise
    ensures attempt.work.doc.status in {NeedsReview, Submitted}
    ensures SameHeader(work.doc, attempt.work.doc)
    ensures WellFormed(attempt.work.doc, settings.maxRetries, now + 1)
  {
    hide ReplyTo, CreateOver, Listing, Replay, DecideWorkflow;
    assert attempt.work.doc.decisions[0].value.kind == DecisionOn(world.provider.invoice, settings, work.erp, work.submissions);
  }

  lemma ReturnedCompletes(work: Work, extracted: Work, now: nat, settings: Settings, world: World, attempt: Attempt)
    requires Reads(work, extracted, now, settings, world)
    requires Decides(extracted, now, world.provider.invoice, settings, world, attempt)
    requires attempt.raised == NoRaise
    requires WellFormed(attempt.work.doc, settings.maxRetries, now + 1)
    ensures Completes(work, settings, world, attempt)
  {
    hide ReplyTo, CreateOver, Replay, Clocked;
    assert attempt.work.doc.decisions[0].value.kind == DecisionOn(world.provider.invoice, settings, work.erp, work.submissions);
    if DecisionOn(world.provider.invoice, settings, work.erp, work.submissions) == AutoApprove {
      DecisionCharacterised(world.provider.invoice, Context(settings, world.provider.invoice, work.erp, work.submissions));
    }
  }

  lemma ReturnedDetails(work: Work, extracted: Work, now: nat, settings: Settings, world: World, attempt: Attempt)
    requires Reads(work, extracted, now, settings, world)
    requires Decides(extracted, now, world.provider.invoice, settings, world, attempt)
    requires !attempt.raised.IllegalTransition?
    ensures Behaves(work, now, settings, world, Handled(attempt))
  {
    HandlingKeeps(work, attempt);
    ReturnedCalls(work, extracted, now, settings, world, attempt);
    if attempt.raised == NoRaise {
      ReturnedFits(work, extracted, now, settings, world, attempt);
      ReturnedCompletes(work, extracted, now, settings, world, attempt);
    }
    hide Decides, Completes, ReplyTo, CreateOver;
  }

  lemma UnreadBehaves(work: Work, now: nat, settings: Settings, world: World)
    requires WellFormed(work.doc, settings.maxRetries, now) && work.call.None? && work.doc.status == Queued
    requires RowOf(work.submissions, work.id).None?
    requires !(world.pdfReadable && world.provider.Returned?)
    ensures Behaves(work, now, settings, world, Process(work, now, settings, world))
  {
    hide Decide, Replay;
    var claimed := MovedTo(work, Processing);
    MovedTraced(work.doc, Processing, SYSTEM);
    MovedTraced(claimed.doc, NeedsReview, SYSTEM);
    NotedTraced(MovedTo(claimed, NeedsReview).doc, OutputInvalid, SYSTEM);
    assert Body(work, now, settings, world) == Extract(claimed, now, settings, world);
    HandlingKeeps(work, Extract(claimed, now, settings, world));
  }

  /** Every attempt on a committed row behaves. */
  lemma AttemptBehaves(work: Work, now: nat, settings: Settings, world: World)
    requires WellFormed(work.doc, settings.maxRetries, now) && work.call.None?
    requires !IsWorkerNoop(work.doc.status) ==> RowOf(work.submissions, work.id).None?
    ensures Behaves(work, now, settings, world, Process(work, now, settings, world))
  {
    if work.doc.status == Approved {
      ApprovedBehaves(work, now, settings, world);
    } else if work.doc.status == Queued {
      if world.pdfReadable && world.provider.Returned? {
        ReturnedBehaves(work, now, settings, world);
      } else {
        UnreadBehaves(work, now, settings, world);
      }
    }
  }
}
