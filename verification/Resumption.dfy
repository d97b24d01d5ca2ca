/** How an attempt goes on from what an earlier one left in the row, whatever the row: a submission is never asked
    for again, a stored reading is used instead of the provider, and an earlier decision stands. */
module Resumption {
  import opened Options
  import opened WorkflowStates
  import opened BusinessRules
  import opened Identifiers
  import opened Records
  import opened Attempts
  import opened CommittedRows
  import opened AttemptOutcomes

  lemma SubmitNeverAsksAgain(work: Work, invoice: Invoice, world: World)
    requires RowOf(work.submissions, work.id).Some?
    ensures
      var attempt := Submit(work, invoice, world);
      && attempt.raised == NoRaise && attempt.work == work.(doc := attempt.work.doc)
      && attempt.work.doc.status == if work.doc.status == Approved then Submitted else work.doc.status
  {
  }

  lemma DecideNeverAsksAgain(work: Work, now: nat, invoice: Invoice, settings: Settings, world: World)
    requires RowOf(work.submissions, work.id).Some?
    ensures Decide(work, now, invoice, settings, world).work == work.(doc := Decide(work, now, invoice, settings, world).work.doc)
  {
    hide DecideWorkflow, Submit, RowOf, Latest;
    SubmitNeverAsksAgain(MovedTo(work, Approved), invoice, world);
    var decision := DecisionOn(invoice, settings, work.erp, work.submissions);
    SubmitNeverAsksAgain(MovedTo(Decided(work, now, decision), Approved), invoice, world);
  }

  lemma BodyNeverAsksAgain(work: Work, now: nat, settings: Settings, world: World)
    requires RowOf(work.submissions, work.id).Some?
    ensures Body(work, now, settings, world).work == work.(doc := Body(work, now, settings, world).work.doc)
  {
    hide Decide, Submit, RowOf, Latest;
    var latest := Latest(work.doc.extractions);
    if latest.Some? && latest.value.payload.Parsed? {
      SubmitNeverAsksAgain(work, latest.value.payload.invoice, world);
      DecideNeverAsksAgain(work, now, latest.value.payload.invoice, settings, world);
    }
  }

  /** A document that owns a row of the submissions table is never asked for again: from any status the attempt
      makes no call and changes neither table nor ERP, and a queued or processing document ends submitted. */
  lemma SubmittedIsNeverAskedAgain(work: Work, now: nat, settings: Settings, world: World)
    requires RowOf(work.submissions, work.id).Some?
    ensures
      var attempt := Process(work, now, settings, world);
      && attempt.work == work.(doc := attempt.work.doc)
      && (work.doc.status in {Queued, Processing} ==> attempt.raised == NoRaise && attempt.work.doc.status == Submitted)
  {
    BodyNeverAsksAgain(work, now, settings, world);
    hide Decide, Submit, RowOf, Latest;
  }

  /** Once a reading is stored, what the PDF and the provider would give now makes no difference, from any status. */
  lemma StoredReadingIsUsed(work: Work, now: nat, settings: Settings, world: World, readable: bool, provider: ProviderOutcome)
    requires work.doc.extractions != []
    ensures Process(work, now, settings, world.(pdfReadable := readable, provider := provider))
         == Process(work, now, settings, world)
  {
    hide RowOf, Latest, DecideWorkflow, IsListed;
    var other := world.(pdfReadable := readable, provider := provider);
    assert Latest(work.doc.extractions).Some? by {
      LatestIsSome(work.doc.extractions);
    }
    var latest := Latest(work.doc.extractions).value;
    if latest.payload.Parsed? {
      var invoice := latest.payload.invoice;
      SubmitIgnoresReading(work, invoice, world, other);
      DecideIgnoresReading(work, now, invoice, settings, world, other);
      DecideIgnoresReading(MovedTo(work, Extracted), now, invoice, settings, world, other);
      DecideIgnoresReading(MovedTo(MovedTo(work, Processing), Extracted), now, invoice, settings, world, other);
    }
    hide Submit, Decide;
  }

  lemma LatestIsSome<T>(rows: seq<Row<T>>)
    requires rows != []
    ensures Latest(rows).Some?
  {
  }

  lemma SubmitIgnoresReading(work: Work, invoice: Invoice, world: World, other: World)
    requires other == world.(pdfReadable := other.pdfReadable, provider := other.provider)
    ensures Submit(work, invoice, other) == Submit(work, invoice, world)
  {
  }

  lemma DecideIgnoresReading(work: Work, now: nat, invoice: Invoice, settings: Settings, world: World, other: World)
    requires other == world.(pdfReadable := other.pdfReadable, provider := other.provider)
    ensures Decide(work, now, invoice, settings, other) == Decide(work, now, invoice, settings, world)
  {
    hide DecideWorkflow, Submit;
    SubmitIgnoresReading(MovedTo(work, Approved), invoice, world, other);
    var decision := DecideWorkflow(invoice, Context(settings, invoice, work.erp, work.submissions)).decision;
    SubmitIgnoresReading(MovedTo(Decided(work, now, decision), Approved), invoice, world, other);
  }

  // ---- From a stored reading on ----

  /** A row that holds `invoice` as its latest reading, and has yet to be decided on or submitted. */
  ghost predicate HoldsReading(work: Work, invoice: Invoice) {
    && work.doc.status in {Queued, Processing, Extracted}
    && work.call.None? && RowOf(work.submissions, work.id).None?
    && Latest(work.doc.extractions).Some? && Latest(work.doc.extractions).value.payload == Parsed(invoice)
  }

  ghost predicate HasDecided(work: Work, kind: DecisionType) {
    Latest(work.doc.decisions).Some? && Latest(work.doc.decisions).value.kind == kind
  }

  /** An earlier decision stands whatever the rules say now; without one they decide. */
  ghost predicate SendsReading(work: Work, invoice: Invoice, settings: Settings, world: World) {
    if HasDecided(work, NeedsHumanReview) then false
    else if HasDecided(work, AutoApprove) then invoice.supplierId.Some?
    else LookupsAnswer(invoice, world) && Passes(invoice, settings, work.erp, work.submissions)
  }

  /** How the attempt ends, and the decisions it leaves. */
  ghost predicate GoesOn(work: Work, now: nat, invoice: Invoice, settings: Settings, world: World, attempt: Attempt) {
    var decided := attempt.work.doc.decisions;
    var sends := SendsReading(work, invoice, settings, world);
    && attempt.work.doc.extractions == work.doc.extractions
    && (match attempt.work.call
        case None => !sends
        case Some(call) =>
          && sends && call.documentId == work.id && call.invoice == invoice
          && call.key == ErpKey(work.id, invoice.invoiceNumber) && AsksFor(call.request, invoice))
    && (sends ==> EndsAs(attempt.raised, AfterSending(work.id, work.erp, invoice, world)))
    && (HasDecided(work, NeedsHumanReview) ==>
          attempt.raised == NoRaise && attempt.work.doc.status == NeedsReview && decided == work.doc.decisions)
    && (HasDecided(work, AutoApprove) ==> decided == work.doc.decisions && (!sends ==> attempt.raised == WorkflowFailure))
    && (!HasDecided(work, NeedsHumanReview) && !HasDecided(work, AutoApprove) ==>
          && (!sends ==> EndsAs(attempt.raised, BeforeSending(world.(pdfReadable := true, provider := Returned("", invoice)))))
          && (attempt.raised == NoRaise ==>
                && attempt.work.doc.status == (if sends then Submitted else NeedsReview)
                && decided == work.doc.decisions
                              + [Row(Decision(if sends then AutoApprove else NeedsHumanReview, "system"), now)]))
  }

  lemma SubmissionGoesOn(work: Work, invoice: Invoice, world: World)
    requires RowOf(work.submissions, work.id).None? && work.call.None? && work.doc.status == Approved
    ensures
      var attempt := Handled(Submit(work, invoice, world));
      && attempt.work.doc.extractions == work.doc.extractions && attempt.work.doc.decisions == work.doc.decisions
      && (attempt.raised == NoRaise ==> attempt.work.doc.status == Submitted)
      && (invoice.supplierId.None? ==> attempt.raised == WorkflowFailure && attempt.work.call.None?)
  {
  }

  lemma EarlierDecisionStands(work: Work, read: Work, now: nat, invoice: Invoice, settings: Settings, world: World)
    requires HoldsReading(work, invoice)
    requires read == work.(doc := read.doc) && read.doc.status == Extracted
    requires read.doc.extractions == work.doc.extractions && read.doc.decisions == work.doc.decisions
    requires HasDecided(work, NeedsHumanReview) || HasDecided(work, AutoApprove)
    ensures GoesOn(work, now, invoice, settings, world, Handled(Decide(read, now, invoice, settings, world)))
  {
    hide DecideWorkflow, Submit, Passes, Latest, RowOf, AfterSending, BeforeSending, LookupsAnswer;
    var resumed := MovedTo(read, Approved);
    SubmissionGoesOn(resumed, invoice, world);
    if invoice.supplierId.Some? {
      SubmissionFits(resumed, invoice, world);
    }
  }

  lemma RulesApprove(work: Work, read: Work, now: nat, invoice: Invoice, settings: Settings, world: World)
    requires HoldsReading(work, invoice)
    requires read == work.(doc := read.doc) && read.doc.status == Extracted
    requires read.doc.extractions == work.doc.extractions && read.doc.decisions == work.doc.decisions
    requires !HasDecided(work, NeedsHumanReview) && !HasDecided(work, AutoApprove)
    requires LookupsAnswer(invoice, world) && DecisionOn(invoice, settings, work.erp, work.submissions) == AutoApprove
    requires Passes(invoice, settings, work.erp, work.submissions)
    ensures GoesOn(work, now, invoice, settings, world, Handled(Decide(read, now, invoice, settings, world)))
  {
    PassingNamesSupplier(invoice, settings, work.erp, work.submissions);
    hide DecideWorkflow, Submit, Passes, Latest, RowOf, AfterSending, BeforeSending, Context;
    var decided := MovedTo(Decided(read, now, AutoApprove), Approved);
    SubmissionGoesOn(decided, invoice, world);
    SubmissionFits(decided, invoice, world);
  }

  lemma RulesDecide(work: Work, read: Work, now: nat, invoice: Invoice, settings: Settings, world: World)
    requires HoldsReading(work, invoice)
    requires read == work.(doc := read.doc) && read.doc.status == Extracted
    requires read.doc.extractions == work.doc.extractions && read.doc.decisions == work.doc.decisions
    requires !HasDecided(work, NeedsHumanReview) && !HasDecided(work, AutoApprove)
    ensures GoesOn(work, now, invoice, settings, world, Handled(Decide(read, now, invoice, settings, world)))
  {
    hide DecideWorkflow, Submit, Passes, Acceptable, Latest, RowOf, AfterSending;
    DecisionCharacterised(invoice, Context(settings, invoice, work.erp, work.submissions));
    AutoApprovalPasses(invoice, settings, work.erp, work.submissions);
    if LookupsAnswer(invoice, world) && Passes(invoice, settings, work.erp, work.submissions) {
      RulesApprove(work, read, now, invoice, settings, world);
    }
  }

  /** From a stored reading, in any of the statuses that may hold one, the attempt goes on as the earlier decision
      or else the rules say, and sends that reading or nothing. */
  lemma ReadingGoesOn(work: Work, now: nat, invoice: Invoice, settings: Settings, world: World)
    requires HoldsReading(work, invoice)
    ensures GoesOn(work, now, invoice, settings, world, Process(work, now, settings, world))
  {
    hide GoesOn, Decide, Latest, RowOf;
    var claimed := if work.doc.status == Queued then MovedTo(work, Processing) else work;
    var read := if work.doc.status == Extracted then work else MovedTo(claimed, Extracted);
    assert Process(work, now, settings, world) == Handled(Decide(read, now, invoice, settings, world));
    if HasDecided(work, NeedsHumanReview) || HasDecided(work, AutoApprove) {
      EarlierDecisionStands(work, read, now, invoice, settings, world);
    } else {
      RulesDecide(work, read, now, invoice, settings, world);
    }
  }

  /** A stored reading that no longer parses ends the attempt with a workflow error and without a call. */
  lemma MalformedReadingGivesUp(work: Work, now: nat, settings: Settings, world: World)
    requires work.doc.status in {Queued, Processing, Extracted, Approved} && RowOf(work.submissions, work.id).None?
    requires Latest(work.doc.extractions).Some? && Latest(work.doc.extractions).value.payload.Malformed?
    ensures
      var attempt := Process(work, now, settings, world);
      attempt.raised == WorkflowFailure && attempt.work == work.(doc := attempt.work.doc)
  {
    hide Latest, RowOf;
  }
}
