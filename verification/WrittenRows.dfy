/** What is written into a document's row: all of it for one attempt that returns normally, and over whole runs
    the step that each extraction and each decision stems from. */
module WrittenRows {
  import opened Options
  import opened WorkflowStates
  import opened BusinessRules
  import opened Identifiers
  import opened Records
  import opened Attempts
  import opened Reviews
  import opened CommittedRows
  import opened Pipeline
  import opened Invariants
  import opened Deliveries
  import opened AttemptOutcomes
  import opened ReviewHistory

  // ---- One attempt ----

  /** The events of an attempt on a queued row that ends in `target` by way of a reading. */
  function ReadingEvents(passes: bool): seq<AuditEvent> {
    [StateTransition(Queued, Processing, "system"), Note(ExtractionCompleted, "system"),
     StateTransition(Processing, Extracted, "system"), Note(ValidationCompleted, "system")]
    + if passes then
        [StateTransition(Extracted, Approved, "system"), Note(ErpSubmitted, "system"),
         StateTransition(Approved, Submitted, "system")]
      else [StateTransition(Extracted, NeedsReview, "system")]
  }

  /** The row of a document whose reading was decided on at time `now`. */
  function DecidedRow(doc: Document, now: nat, provider: string, invoice: Invoice, passes: bool): Document {
    doc.(status := if passes then Submitted else NeedsReview,
         extractions := [Row(Extraction(provider, Parsed(invoice)), now)],
         decisions := [Row(Decision(if passes then AutoApprove else NeedsHumanReview, "system"), now)],
         audit := doc.audit + ReadingEvents(passes))
  }

  /** The row that an attempt on a row awaiting one leaves behind when it returns normally: submitted after an
      approval, in review after an output error, and otherwise as the rules have it. */
  ghost predicate Writes(work: Work, now: nat, settings: Settings, world: World, doc: Document) {
    if work.doc.status == Approved then
      doc == work.doc.(status := Submitted,
                       audit := work.doc.audit + [Note(ErpSubmitted, "system"), StateTransition(Approved, Submitted, "system")])
    else
      world.pdfReadable && match world.provider
      case InvalidOutput =>
        doc == work.doc.(status := NeedsReview,
                         audit := work.doc.audit + [StateTransition(Queued, Processing, "system"),
                                                    StateTransition(Processing, NeedsReview, "system"),
                                                    Note(OutputInvalid, "system")])
      case Returned(provider, invoice) =>
        doc == DecidedRow(work.doc, now, provider, invoice, Passes(invoice, settings, work.erp, work.submissions))
      case _ => false
  }

  lemma SubmissionWrites(work: Work, invoice: Invoice, world: World)
    requires work.doc.status == Approved && RowOf(work.submissions, work.id).None?
    ensures
      var attempt := Handled(Submit(work, invoice, world));
      attempt.raised == NoRaise ==>
        attempt.work.doc
        == work.doc.(status := Submitted,
                     audit := work.doc.audit + [Note(ErpSubmitted, "system"), StateTransition(Approved, Submitted, "system")])
  {
  }

  lemma ReadingWrites(work: Work, read: Work, now: nat, settings: Settings, world: World)
    requires world.provider.Returned?
    requires RowOf(work.submissions, work.id).None? && read.doc.decisions == []
    requires read.id == work.id && read.erp == work.erp && read.submissions == work.submissions
    requires
      read.doc == work.doc.(status := Extracted,
                            extractions := [Row(Extraction(world.provider.provider, Parsed(world.provider.invoice)), now)],
                            audit := work.doc.audit + ReadingEvents(false)[..3])
    ensures
      var invoice := world.provider.invoice;
      var attempt := Handled(Decide(read, now, invoice, settings, world));
      attempt.raised == NoRaise ==>
        attempt.work.doc == DecidedRow(work.doc, now, world.provider.provider, invoice,
                                       Passes(invoice, settings, work.erp, work.submissions))
  {
    hide DecideWorkflow, Submit, Acceptable, Passes;
    var invoice := world.provider.invoice;
    DecisionCharacterised(invoice, Context(settings, invoice, work.erp, work.submissions));
    AutoApprovalPasses(invoice, settings, work.erp, work.submissions);
    var decision := DecisionOn(invoice, settings, work.erp, work.submissions);
    var decided := Decided(read, now, decision);
    assert decided.doc.audit == work.doc.audit + ReadingEvents(false)[..4];
    SubmissionWrites(MovedTo(decided, Approved), invoice, world);
    assert decided.doc.audit + [StateTransition(Extracted, NeedsReview, SYSTEM)] == work.doc.audit + ReadingEvents(false);
    assert decided.doc.audit + [StateTransition(Extracted, Approved, SYSTEM)]
           + [Note(ErpSubmitted, SYSTEM), StateTransition(Approved, Submitted, SYSTEM)]
        == work.doc.audit + ReadingEvents(true);
  }

  lemma QueuedWrites(work: Work, now: nat, settings: Settings, world: World)
    requires Awaits(work, settings, now) && work.doc.status == Queued
    requires Process(work, now, settings, world).raised == NoRaise
    ensures Writes(work, now, settings, world, Process(work, now, settings, world).work.doc)
  {
    var claimed := MovedTo(work, Processing);
    assert work.doc.extractions == [] && work.doc.decisions == [];
    if world.pdfReadable && world.provider.Returned? {
      var read := MovedTo(Stored(claimed, now, world.provider.provider, world.provider.invoice), Extracted);
      ReadingWrites(work, read, now, settings, world);
      hide Decide, WellFormed, Passes;
      assert Process(work, now, settings, world) == Handled(Decide(read, now, world.provider.invoice, settings, world));
    } else {
      hide Decide, Passes, WellFormed;
    }
  }

  /** An attempt that returns normally leaves exactly this row, every field and every audit event of it. */
  lemma AttemptWrites(work: Work, now: nat, settings: Settings, world: World)
    requires Awaits(work, settings, now)
    requires Process(work, now, settings, world).raised == NoRaise
    ensures Writes(work, now, settings, world, Process(work, now, settings, world).work.doc)
  {
    hide WellFormed, Passes;
    if work.doc.status == Queued {
      QueuedWrites(work, now, settings, world);
    } else {
      ApprovedWrites(work, now, settings, world);
    }
  }

  lemma ApprovedWrites(work: Work, now: nat, settings: Settings, world: World)
    requires Awaits(work, settings, now) && work.doc.status == Approved
    requires Process(work, now, settings, world).raised == NoRaise
    ensures Writes(work, now, settings, world, Process(work, now, settings, world).work.doc)
  {
    LatestIsLast(work.doc.extractions, now);
    hide Latest, Replay, Passes;
    assert Body(work, now, settings, world) == Submit(work, LastInvoice(work.doc), world);
    SubmissionWrites(work, LastInvoice(work.doc), world);
  }

  /** A delivery leaves its document's row alone or commits the row that its attempt writes. */
  lemma DeliveryWrites(config: Config, system: System, step: Step) returns (row: Document)
    requires Inv(config, system) && step.Deliver? && CanDeliver(system, step)
    ensures MessageFits(config, system, system.broker[step.index])
    ensures
      var message := system.broker[step.index];
      var doc := system.db.documents[message.documentId];
      && AfterDeliver(config, system, step).db.documents == system.db.documents[message.documentId := row]
      && (row == doc
          || (IsUnfinished(doc.status) && Writes(WorkFor(system, message), system.db.clock, config.settings, step.world, row)))
  {
    hide Inv, AttemptFor, AfterDeliver, AfterAttempt, Delivered, Writes, WellFormed, Process;
    var attempt := DeliverySummary(config, system, step);
    var work := WorkFor(system, system.broker[step.index]);
    row := RowAfter(config, system, AfterDeliver(config, system, step), step, attempt);
    if row != work.doc && IsUnfinished(work.doc.status) {
      DeliveryAwaits(config, system, step);
      AttemptWrites(work, system.db.clock, config.settings, step.world);
    }
  }

  lemma DeliveryAwaits(config: Config, system: System, step: Step)
    requires Inv(config, system) && step.Deliver? && CanDeliver(system, step)
    ensures MessageFits(config, system, system.broker[step.index])
    ensures
      var message := system.broker[step.index];
      var work := WorkFor(system, message);
      && AttemptFor(config, system, message, step.world) == Process(work, system.db.clock, config.settings, step.world)
      && (IsUnfinished(work.doc.status) ==> Awaits(work, config.settings, system.db.clock))
  {
    var message := system.broker[step.index];
    assert MessageFits(config, system, message);
    DeliveredBehaves(config, system, message, step.world);
    if IsUnfinished(system.db.documents[message.documentId].status) {
      UnfinishedOwnsNoRow(config, system, message.documentId);
    }
    hide Inv, Process, WellFormed;
  }

  lemma RowAfter(config: Config, before: System, after: System, step: Step, attempt: Attempt) returns (row: Document)
    requires step.Deliver? && Delivered(config, before, after, step, attempt)
    ensures
      var message := before.broker[step.index];
      && after.db.documents == before.db.documents[message.documentId := row]
      && (row == before.db.documents[message.documentId]
          || (&& attempt.raised == NoRaise && row == attempt.work.doc
              && IsUnfinished(before.db.documents[message.documentId].status)))
  {
    hide Calls, Completes;
    var id := before.broker[step.index].documentId;
    row := if attempt.raised == NoRaise && step.fate in {Acknowledged, CrashAfterCommit} then attempt.work.doc
           else before.db.documents[id];
    assert before.db.documents == before.db.documents[id := before.db.documents[id]];
  }

  // ---- Whole runs ----

  /** Step `k` is a delivery of document `id` whose provider answers with this reading. */
  ghost predicate ReadsAt(config: Config, steps: seq<Step>, k: nat, id: Uuid, provider: string, invoice: Invoice) {
    && k < |steps| && steps[k].Deliver?
    && var before := StateAt(config, steps, k);
    && CanDeliver(before, steps[k]) && before.broker[steps[k].index].documentId == id
    && steps[k].world.pdfReadable && steps[k].world.provider == Returned(provider, invoice)
  }

  /** Step `k` wrote this extraction: a delivery, its provider's reading; or an approval, the reviewer's edit. */
  ghost predicate ExtractedAt(config: Config, steps: seq<Step>, k: nat, id: Uuid, row: Row<Extraction>) {
    && k < |steps| && row.createdAt == StateAt(config, steps, k).db.clock
    && row.value.payload.Parsed?
    && (|| ReadsAt(config, steps, k, id, row.value.provider, row.value.payload.invoice)
        || (&& steps[k].ApproveCommand? && ReportsChange(config, StateAt(config, steps, k), steps[k], id)
            && row.value.provider == "human_review" && steps[k].approval.edited == Some(row.value.payload.invoice)))
  }

  /** Step `k` took this decision: a delivery, by the rules on its provider's reading; or a reviewer's command. */
  ghost predicate DecidedAt(config: Config, steps: seq<Step>, k: nat, id: Uuid, row: Row<Decision>) {
    && k < |steps| && row.createdAt == StateAt(config, steps, k).db.clock
    && var before := StateAt(config, steps, k);
    match row.value.kind
    case HumanApprove =>
      && steps[k].ApproveCommand? && ReportsChange(config, before, steps[k], id) && row.value.actor == steps[k].approval.actor
    case HumanReject =>
      && steps[k].RejectCommand? && ReportsChange(config, before, steps[k], id) && row.value.actor == steps[k].actor
    case _ =>
      && row.value.actor == "system"
      && exists provider, invoice ::
           && ReadsAt(config, steps, k, id, provider, invoice)
           && (row.value.kind == AutoApprove <==> Passes(invoice, config.settings, before.erp, before.db.submissions))
  }

  /** Every extraction and decision of `after` that is not one of `before` was written by step `k`. */
  ghost predicate WrittenAt(config: Config, steps: seq<Step>, k: nat, id: Uuid, before: Document, after: Document) {
    && (forall row :: row in after.extractions && row !in before.extractions ==> ExtractedAt(config, steps, k, id, row))
    && (forall row :: row in after.decisions && row !in before.decisions ==> DecidedAt(config, steps, k, id, row))
  }

  lemma DeliveryWritten(config: Config, steps: seq<Step>, n: nat, id: Uuid)
    requires n < |steps| && steps[n].Deliver? && CanDeliver(StateAt(config, steps, n), steps[n])
    requires id in StateAt(config, steps, n + 1).db.documents
    ensures id in StateAt(config, steps, n).db.documents
    ensures WrittenAt(config, steps, n, id, StateAt(config, steps, n).db.documents[id], StateAt(config, steps, n + 1).db.documents[id])
  {
    hide StateAt, Inv, AfterDeliver, Passes, WellFormed, ReportsChange;
    var before := StateAt(config, steps, n);
    StateAtKeeps(config, steps, n);
    StateAtNext(config, steps, n);
    var row := DeliveryWrites(config, before, steps[n]);
    var message := before.broker[steps[n].index];
    if message.documentId == id && row != before.db.documents[id] {
      RowWritten(config, steps, n, id, row);
    }
  }

  lemma RowWritten(config: Config, steps: seq<Step>, n: nat, id: Uuid, row: Document)
    requires n < |steps| && steps[n].Deliver?
    requires
      var before := StateAt(config, steps, n);
      && CanDeliver(before, steps[n]) && before.broker[steps[n].index].documentId == id && id in before.db.documents
      && Writes(WorkFor(before, before.broker[steps[n].index]), before.db.clock, config.settings, steps[n].world, row)
    ensures WrittenAt(config, steps, n, id, StateAt(config, steps, n).db.documents[id], row)
  {
    hide StateAt, Passes, ReportsChange;
    if steps[n].world.provider.Returned? {
      assert steps[n].world.pdfReadable && StateAt(config, steps, n).db.documents[id].status != Approved ==>
        ReadsAt(config, steps, n, id, steps[n].world.provider.provider, steps[n].world.provider.invoice);
    }
  }

  lemma ApprovalWritten(config: Config, steps: seq<Step>, n: nat, id: Uuid)
    requires n < |steps| && steps[n].ApproveCommand?
    requires id in StateAt(config, steps, n + 1).db.documents
    ensures id in StateAt(config, steps, n).db.documents
    ensures WrittenAt(config, steps, n, id, StateAt(config, steps, n).db.documents[id], StateAt(config, steps, n + 1).db.documents[id])
  {
    hide StateAt, Inv, Approve, AfterApprove, ReadsAt;
    StateAtNext(config, steps, n);
    AppliesApproval(config, StateAt(config, steps, n), steps[n]);
    if ReportsChange(config, StateAt(config, steps, n), steps[n], steps[n].id) {
      ApproveStep(config, StateAt(config, steps, n), steps[n]);
    } else {
      RefusalChangesNoRow(config, StateAt(config, steps, n), steps[n]);
    }
  }

  lemma RejectionWritten(config: Config, steps: seq<Step>, n: nat, id: Uuid)
    requires n < |steps| && steps[n].RejectCommand?
    requires id in StateAt(config, steps, n + 1).db.documents
    ensures id in StateAt(config, steps, n).db.documents
    ensures WrittenAt(config, steps, n, id, StateAt(config, steps, n).db.documents[id], StateAt(config, steps, n + 1).db.documents[id])
  {
    hide StateAt, Inv, ReadsAt;
    StateAtNext(config, steps, n);
  }

  /** What `RowsHaveSources` says of a document after `n` steps. */
  ghost predicate HaveSources(config: Config, steps: seq<Step>, n: nat, id: Uuid, doc: Document) {
    && (forall row :: row in doc.extractions ==> exists k: nat :: k < n && ExtractedAt(config, steps, k, id, row))
    && (forall row :: row in doc.decisions ==> exists k: nat :: k < n && DecidedAt(config, steps, k, id, row))
  }

  lemma QuietlyWritten(config: Config, steps: seq<Step>, n: nat, id: Uuid)
    requires n < |steps| && !steps[n].ApproveCommand? && !steps[n].RejectCommand?
    requires !(steps[n].Deliver? && CanDeliver(StateAt(config, steps, n), steps[n]))
    requires id in StateAt(config, steps, n + 1).db.documents
    ensures
      var before, after := StateAt(config, steps, n).db.documents, StateAt(config, steps, n + 1).db.documents;
      if id in before then WrittenAt(config, steps, n, id, before[id], after[id])
      else after[id].extractions == [] && after[id].decisions == []
  {
    hide StateAt, ExtractedAt, DecidedAt;
    StateAtNext(config, steps, n);
    QuietStepKeepsRows(config, StateAt(config, steps, n), steps[n]);
  }

  lemma StepWritten(config: Config, steps: seq<Step>, n: nat, id: Uuid)
    requires n < |steps| && id in StateAt(config, steps, n + 1).db.documents
    ensures
      var before, after := StateAt(config, steps, n).db.documents, StateAt(config, steps, n + 1).db.documents;
      if id in before then WrittenAt(config, steps, n, id, before[id], after[id])
      else after[id].extractions == [] && after[id].decisions == []
  {
    hide StateAt, WrittenAt;
    if steps[n].ApproveCommand? {
      ApprovalWritten(config, steps, n, id);
    } else if steps[n].RejectCommand? {
      RejectionWritten(config, steps, n, id);
    } else if steps[n].Deliver? && CanDeliver(StateAt(config, steps, n), steps[n]) {
      DeliveryWritten(config, steps, n, id);
    } else {
      QuietlyWritten(config, steps, n, id);
    }
  }

  lemma SourcesLast(config: Config, steps: seq<Step>, n: nat, id: Uuid, before: Document, after: Document)
    requires HaveSources(config, steps, n, id, before) && WrittenAt(config, steps, n, id, before, after)
    ensures HaveSources(config, steps, n + 1, id, after)
  {
    hide ExtractedAt, DecidedAt;
    forall row | row in after.extractions
      ensures exists k: nat :: k < n + 1 && ExtractedAt(config, steps, k, id, row)
    {
      if row in before.extractions {
        var k: nat :| k < n && ExtractedAt(config, steps, k, id, row);
        assert k < n + 1 && ExtractedAt(config, steps, k, id, row);
      }
    }
    forall row | row in after.decisions
      ensures exists k: nat :: k < n + 1 && DecidedAt(config, steps, k, id, row)
    {
      if row in before.decisions {
        var k: nat :| k < n && DecidedAt(config, steps, k, id, row);
        assert k < n + 1 && DecidedAt(config, steps, k, id, row);
      }
    }
  }

  /** In every run, every extraction of a document is the reading of a delivery or the edit of an approval, and
      every decision that of the rules on such a reading or of a reviewer, stamped with the time of that step and
      signed by whoever took it. */
  lemma {:induction false} RowsHaveSources(config: Config, steps: seq<Step>, n: nat, id: Uuid)
    requires n <= |steps| && id in StateAt(config, steps, n).db.documents
    ensures HaveSources(config, steps, n, id, StateAt(config, steps, n).db.documents[id])
    decreases n
  {
    hide StateAt, ExtractedAt, DecidedAt, WrittenAt;
    if n == 0 {
      NothingAtStart(config, steps);
    } else {
      StepWritten(config, steps, n - 1, id);
      if id in StateAt(config, steps, n - 1).db.documents {
        RowsHaveSources(config, steps, n - 1, id);
        SourcesLast(config, steps, n - 1, id, StateAt(config, steps, n - 1).db.documents[id],
                    StateAt(config, steps, n).db.documents[id]);
      }
    }
  }
}
