/** A delivery keeps the invariant: the hard step, because the ERP is changed outside the transaction. */
module Deliveries {
  import opened Options
  import opened WorkflowStates
  import opened BusinessRules
  import opened Identifiers
  import opened Records
  import opened Erp
  import opened Attempts
  import opened CommittedRows
  import opened Pipeline
  import opened Invariants

  function WorkFor(system: System, message: Message): Work
    requires message.documentId in system.db.documents
  {
    Work(message.documentId, system.db.documents[message.documentId], system.db.submissions, system.erp, None)
  }

  lemma UnfinishedOwnsNoRow(config: Config, system: System, id: Uuid)
    requires SubmissionsFit(system) && id in system.db.documents && !IsSubmitted(system, id)
    ensures RowOf(system.db.submissions, id).None?
  {
    RowOfFinds(system.db.submissions, id);
    forall row | row in system.db.submissions
      ensures row.documentId != id
    {
      var i :| 0 <= i < |system.db.submissions| && system.db.submissions[i] == row;
      assert IsSubmitted(system, system.db.submissions[i].documentId);
    }
  }

  /** In a state that keeps the invariant, every delivered message starts an attempt that behaves. */
  lemma DeliveredBehaves(config: Config, system: System, message: Message, world: World)
    requires DocumentsFit(config, system) && SubmissionsFit(system) && MessageFits(config, system, message)
    ensures
      var work := WorkFor(system, message);
      && WellFormed(work.doc, config.settings.maxRetries, system.db.clock)
      && AttemptFor(config, system, message, world) == Process(work, system.db.clock, config.settings, world)
      && Behaves(work, system.db.clock, config.settings, world, AttemptFor(config, system, message, world))
  {
    var work := WorkFor(system, message);
    if !IsWorkerNoop(work.doc.status) {
      UnfinishedOwnsNoRow(config, system, work.id);
    }
    AttemptBehaves(work, system.db.clock, config.settings, world);
  }

  // ---- The ERP only grows ----

  ghost predicate Grows(before: ErpState, after: ErpState) {
    && after.suppliers == before.suppliers
    && after.purchaseOrders == before.purchaseOrders
    && (forall key :: key in before.byKey ==> key in after.byKey && after.byKey[key] == before.byKey[key])
  }

  lemma CreateGrows(erp: ErpState, request: InvoiceRequest, key: string, freshId: string)
    ensures Grows(erp, AfterCreate(erp, request, key, freshId))
    ensures ReplyTo(erp, request, key, freshId).Created? ==> key in AfterCreate(erp, request, key, freshId).byKey
  {
  }

  lemma AttemptGrowsErp(work: Work, settings: Settings, world: World, attempt: Attempt)
    requires AllParsed(work.doc) && Calls(work, settings, world, attempt)
    requires Consistent(work.erp) && world.freshId !in work.erp.byId
    ensures Grows(work.erp, attempt.work.erp) && Consistent(attempt.work.erp)
  {
    if attempt.work.call.Some? {
      var invoice := attempt.work.call.value.invoice;
      CreateGrows(work.erp, RequestFor(invoice), ErpKey(work.id, invoice.invoiceNumber), world.freshId);
      CreateKeepsConsistent(work.erp, RequestFor(invoice), ErpKey(work.id, invoice.invoiceNumber), world.freshId);
    }
  }

  // ---- A delivery that commits nothing ----

  /** The database is as it was but for the clock. */
  ghost predicate Ticked(before: System, after: System) {
    && after.db == before.db.(clock := before.db.clock + 1)
    && Grows(before.erp, after.erp) && Consistent(after.erp)
    && after.dlq == before.dlq
  }

  lemma TickedKeepsTables(config: Config, before: System, after: System)
    requires Inv(config, before) && Ticked(before, after)
    ensures DocumentsFit(config, after) && KeysFit(config, after) && SubmissionsFit(after)
    ensures SubmittedFit(after) && ErpFits(config, after) && DlqFits(config, after)
  {
    ClockTicks(config, before, after);
    TickedKeepsSubmitted(before, after);
    assert forall id :: IsSubmitted(after, id) <==> IsSubmitted(before, id);
  }

  lemma TickedKeepsSubmitted(before: System, after: System)
    requires SubmittedFit(before) && Ticked(before, after)
    ensures SubmittedFit(after)
  {
    assert forall id :: IsSubmitted(after, id) ==> IsSubmitted(before, id);
  }

  // ---- A delivery that commits a submission ----

  /** The tables after a committed submission of `invoice` for document `id`. */
  ghost predicate RecordsSubmission(before: System, after: System, id: Uuid, invoice: Invoice, erpId: string) {
    && id in before.db.documents && id in after.db.documents
    && IsUnfinished(before.db.documents[id].status)
    && after.db.documents == before.db.documents[id := after.db.documents[id]]
    && after.db.clock == before.db.clock + 1
    && var doc := after.db.documents[id];
    && doc.status == Submitted
    && doc.extractions != [] && AllParsed(doc) && LastInvoice(doc) == invoice
    && after.db.submissions == Listing(before.db.submissions, id, invoice, erpId)
    && (AutoApproved(doc) ==> !IsListed(before.db.submissions, invoice.supplierName, invoice.invoiceNumber))
    && Grows(before.erp, after.erp)
    && ErpKey(id, invoice.invoiceNumber) in after.erp.byKey
  }

  lemma SubmittedKeepsSubmissions(before: System, after: System, id: Uuid, invoice: Invoice, erpId: string)
    requires SubmissionsFit(before) && RecordsSubmission(before, after, id, invoice, erpId)
    ensures SubmissionsFit(after)
  {
    var rows, rows' := before.db.submissions, after.db.submissions;
    forall i | 0 <= i < |rows'|
      ensures IsSubmitted(after, rows'[i].documentId)
    {
      if i < |rows| {
        assert rows'[i] == rows[i] && IsSubmitted(before, rows[i].documentId);
      }
    }
    if |rows'| > |rows| {
      forall i | 0 <= i < |rows|
        ensures rows[i].documentId != id
        ensures rows[i].supplierName != invoice.supplierName || rows[i].invoiceNumber != invoice.invoiceNumber
      {
        assert IsSubmitted(before, rows[i].documentId);
        assert rows[i] in rows;
      }
    }
  }

  lemma ListingCovers(submissions: seq<Submission>, id: Uuid, invoice: Invoice, erpId: string)
    ensures
      var rows := Listing(submissions, id, invoice, erpId);
      && IsListed(rows, invoice.supplierName, invoice.invoiceNumber)
      && (!IsListed(submissions, invoice.supplierName, invoice.invoiceNumber) ==> OwnsRow(rows, id, invoice))
  {
    var row := Submission(id, invoice.supplierName, invoice.invoiceNumber, erpId);
    var rows := Listing(submissions, id, invoice, erpId);
    if !IsListed(submissions, invoice.supplierName, invoice.invoiceNumber) {
      assert rows[|submissions|] == row && row in rows;
    }
  }

  lemma ListingKeepsCovered(submissions: seq<Submission>, id: Uuid, invoice: Invoice, erpId: string, other: Uuid, doc: Document)
    requires doc.extractions != [] && AllParsed(doc) && Covered(submissions, other, doc)
    ensures Covered(Listing(submissions, id, invoice, erpId), other, doc)
  {
    var rows := Listing(submissions, id, invoice, erpId);
    var pair := LastInvoice(doc);
    var row :| row in submissions && row.supplierName == pair.supplierName && row.invoiceNumber == pair.invoiceNumber;
    assert row in rows;
    if AutoApproved(doc) {
      var i :| 0 <= i < |submissions| && submissions[i].documentId == other
        && submissions[i].supplierName == pair.supplierName && submissions[i].invoiceNumber == pair.invoiceNumber;
      assert rows[i] == submissions[i];
    }
  }

  lemma SubmittedKeepsSubmitted(before: System, after: System, id: Uuid, invoice: Invoice, erpId: string)
    requires SubmittedFit(before) && RecordsSubmission(before, after, id, invoice, erpId)
    ensures SubmittedFit(after)
  {
    ListingCovers(before.db.submissions, id, invoice, erpId);
    forall other | IsSubmitted(after, other)
      ensures
        var doc := after.db.documents[other];
        && doc.extractions != [] && AllParsed(doc)
        && Covered(after.db.submissions, other, doc)
        && ErpKey(other, LastInvoice(doc).invoiceNumber) in after.erp.byKey
    {
      if other != id {
        assert IsSubmitted(before, other);
        ListingKeepsCovered(before.db.submissions, id, invoice, erpId, other, after.db.documents[other]);
      }
    }
  }

  lemma SubmittedKeepsKeys(config: Config, before: System, after: System, id: Uuid)
    requires KeysFit(config, before)
    requires id in before.db.documents && id in after.db.documents
    requires after.db.documents == before.db.documents[id := after.db.documents[id]]
    requires SameUpload(before.db.documents[id], after.db.documents[id])
    ensures KeysFit(config, after)
  {
  }

  lemma SubmittedKeepsDocuments(config: Config, before: System, after: System, id: Uuid)
    requires DocumentsFit(config, before) && id in after.db.documents
    requires after.db.documents == before.db.documents[id := after.db.documents[id]]
    requires after.db.clock == before.db.clock + 1
    requires WellFormed(after.db.documents[id], config.settings.maxRetries, after.db.clock)
    ensures DocumentsFit(config, after)
  {
    ClockTicks(config, before, before.(db := before.db.(clock := after.db.clock)));
  }

  lemma SubmittedKeepsDlq(config: Config, before: System, after: System, id: Uuid)
    requires DlqFits(config, before) && id in before.db.documents && id in after.db.documents
    requires before.db.documents[id].status != Failed
    requires after.db.documents == before.db.documents[id := after.db.documents[id]]
    requires after.dlq == before.dlq
    ensures DlqFits(config, after)
  {
    assert forall i :: 0 <= i < |after.dlq| ==> after.dlq[i].documentId != id;
  }

  lemma SubmittedKeepsTables(config: Config, before: System, after: System, id: Uuid, invoice: Invoice, erpId: string)
    requires Inv(config, before) && RecordsSubmission(before, after, id, invoice, erpId)
    requires SameUpload(before.db.documents[id], after.db.documents[id])
    requires WellFormed(after.db.documents[id], config.settings.maxRetries, after.db.clock)
    requires Consistent(after.erp) && after.dlq == before.dlq
    ensures DocumentsFit(config, after) && KeysFit(config, after) && SubmissionsFit(after)
    ensures SubmittedFit(after) && ErpFits(config, after) && DlqFits(config, after)
  {
    SubmittedKeepsDocuments(config, before, after, id);
    SubmittedKeepsKeys(config, before, after, id);
    SubmittedKeepsSubmissions(before, after, id, invoice, erpId);
    SubmittedKeepsSubmitted(before, after, id, invoice, erpId);
    SubmittedKeepsDlq(config, before, after, id);
  }

  // ---- Messages ----

  /** Every committed row keeps its upload and correlation id across a delivery. */
  ghost predicate SameDocuments(before: System, after: System) {
    forall id :: id in before.db.documents ==>
      id in after.db.documents && after.db.documents[id].correlationId == before.db.documents[id].correlationId
  }

  lemma WithoutSubset(broker: seq<Message>, index: nat)
    requires index < |broker|
    ensures forall i :: 0 <= i < |broker| - 1 ==> Without(broker, index)[i] in broker
    ensures |Without(broker, index)| == |broker| - 1
  {
  }

  lemma DeliveryKeepsMessages(config: Config, system: System, index: nat, attempt: Attempt, fate: Fate)
    requires MessagesFit(config, system) && index < |system.broker| && system.worker == Idle
    requires SameDocuments(system, AfterAttempt(system, index, attempt, fate))
    ensures MessagesFit(config, AfterAttempt(system, index, attempt, fate))
  {
    var after := AfterAttempt(system, index, attempt, fate);
    WithoutSubset(system.broker, index);
    assert MessageFits(config, after, system.broker[index]);
    forall i | 0 <= i < |after.broker|
      ensures MessageFits(config, after, after.broker[i])
    {
      assert after.broker[i] in system.broker;
      var j :| 0 <= j < |system.broker| && system.broker[j] == after.broker[i];
      assert MessageFits(config, system, system.broker[j]);
    }
  }

  // ---- The step ----

  lemma UncommittedKeeps(config: Config, system: System, index: nat, world: World, attempt: Attempt, fate: Fate)
    requires Inv(config, system) && index < |system.broker| && system.worker == Idle
    requires world.freshId !in system.erp.byId
    requires MessageFits(config, system, system.broker[index])
    requires AllParsed(WorkFor(system, system.broker[index]).doc)
    requires Behaves(WorkFor(system, system.broker[index]), system.db.clock, config.settings, world, attempt)
    requires attempt.raised != NoRaise || fate !in {Acknowledged, CrashAfterCommit}
    ensures Inv(config, AfterAttempt(system, index, attempt, fate))
  {
    var after := AfterAttempt(system, index, attempt, fate);
    AttemptGrowsErp(WorkFor(system, system.broker[index]), config.settings, world, attempt);
    TickedKeepsTables(config, system, after);
    DeliveryKeepsMessages(config, system, index, attempt, fate);
    UncommittedKeepsWorker(config, system, index, world, attempt, fate);
  }

  lemma UncommittedKeepsWorker(config: Config, system: System, index: nat, world: World, attempt: Attempt, fate: Fate)
    requires DocumentsFit(config, system) && index < |system.broker| && system.worker == Idle
    requires MessageFits(config, system, system.broker[index])
    requires AllParsed(WorkFor(system, system.broker[index]).doc)
    requires Behaves(WorkFor(system, system.broker[index]), system.db.clock, config.settings, world, attempt)
    requires attempt.raised != NoRaise || fate !in {Acknowledged, CrashAfterCommit}
    ensures WorkerFits(config, AfterAttempt(system, index, attempt, fate))
  {
    assert WellFormed(WorkFor(system, system.broker[index]).doc, config.settings.maxRetries, system.db.clock);
  }

  ghost predicate SendsToReview(config: Config, before: System, after: System, id: Uuid) {
    && Changes(config, before, after, id)
    && id in before.db.documents
    && before.db.documents[id].status == Queued
    && after.db.documents[id].status == NeedsReview
  }

  /** What a commit does to the tables: nothing, a row sent to review, or a submission. */
  ghost predicate CommitFits(config: Config, system: System, after: System, id: Uuid) {
    && id in system.db.documents && id in after.db.documents
    && SameUpload(system.db.documents[id], after.db.documents[id])
    && WellFormed(after.db.documents[id], config.settings.maxRetries, after.db.clock)
    && SameDocuments(system, after)
    && Consistent(after.erp)
    && after.worker == system.worker && after.dlq == system.dlq
    && (|| Ticked(system, after)
        || SendsToReview(config, system, after, id)
        || (exists invoice, erpId :: RecordsSubmission(system, after, id, invoice, erpId)))
  }

  lemma NoopCommitFits(config: Config, system: System, after: System, work: Work)
    requires work.id in system.db.documents && work.doc == system.db.documents[work.id]
    requires WellFormed(work.doc, config.settings.maxRetries, system.db.clock)
    requires after.db == Put(system.db, work.id, work.doc).(submissions := system.db.submissions)
    requires after.erp == system.erp && Consistent(system.erp)
    requires after.worker == system.worker && after.dlq == system.dlq
    ensures CommitFits(config, system, after, work.id)
  {
    assert after.db.documents == system.db.documents;
  }

  lemma ReviewCommitFits(config: Config, system: System, after: System, work: Work, doc: Document)
    requires work.id in system.db.documents && work.doc == system.db.documents[work.id]
    requires work.doc.status == Queued && doc.status == NeedsReview && SameHeader(work.doc, doc)
    requires WellFormed(doc, config.settings.maxRetries, system.db.clock + 1)
    requires after.db == Put(system.db, work.id, doc).(submissions := system.db.submissions)
    requires after.erp == system.erp && Consistent(system.erp)
    requires after.worker == system.worker && after.dlq == system.dlq
    ensures CommitFits(config, system, after, work.id)
  {
    assert SendsToReview(config, system, after, work.id);
  }

  lemma CommittedCases(config: Config, system: System, after: System, work: Work, world: World, attempt: Attempt)
    requires work.id in system.db.documents && work.doc == system.db.documents[work.id]
    requires work.submissions == system.db.submissions && work.erp == system.erp
    requires world.freshId !in system.erp.byId && Consistent(system.erp)
    requires WellFormed(work.doc, config.settings.maxRetries, system.db.clock)
    requires Behaves(work, system.db.clock, config.settings, world, attempt) && attempt.raised == NoRaise
    requires after.db == Put(system.db, work.id, attempt.work.doc).(submissions := attempt.work.submissions)
    requires after.erp == attempt.work.erp && after.worker == system.worker && after.dlq == system.dlq
    ensures CommitFits(config, system, after, work.id)
  {
    if IsWorkerNoop(work.doc.status) {
      NoopCommitFits(config, system, after, work);
    } else if attempt.work.doc.status == NeedsReview {
      ReviewCommitFits(config, system, after, work, attempt.work.doc);
    } else {
      AttemptGrowsErp(work, config.settings, world, attempt);
      var invoice := attempt.work.call.value.invoice;
      var key := ErpKey(work.id, invoice.invoiceNumber);
      CreateGrows(work.erp, RequestFor(invoice), key, world.freshId);
      var erpId := ReplyTo(work.erp, RequestFor(invoice), key, world.freshId).invoice.invoiceId;
      SubmissionCommitted(config, system, after, work, world, attempt, invoice, erpId);
    }
  }

  lemma SubmissionCommitted(config: Config, system: System, after: System, work: Work, world: World, attempt: Attempt,
                            invoice: Invoice, erpId: string)
    requires work.id in system.db.documents && work.doc == system.db.documents[work.id]
    requires work.submissions == system.db.submissions && work.erp == system.erp
    requires WellFormed(work.doc, config.settings.maxRetries, system.db.clock)
    requires attempt.work.id == work.id && Completes(work, config.settings, world, attempt)
    requires !IsWorkerNoop(work.doc.status) && attempt.work.doc.status == Submitted
    requires invoice == attempt.work.call.value.invoice && invoice.supplierId.Some?
    requires
      var reply := ReplyTo(work.erp, RequestFor(invoice), ErpKey(work.id, invoice.invoiceNumber), world.freshId);
      reply.Created? && erpId == reply.invoice.invoiceId
    requires after.db == Put(system.db, work.id, attempt.work.doc).(submissions := attempt.work.submissions)
    requires after.erp == attempt.work.erp && Grows(system.erp, after.erp)
    requires ErpKey(work.id, invoice.invoiceNumber) in after.erp.byKey
    ensures RecordsSubmission(system, after, work.id, invoice, erpId)
  {
    if work.doc.status == Approved {
      assert work.doc.decisions[0].value.kind != AutoApprove;
      assert !AutoApproved(attempt.work.doc);
    }
  }

  lemma CommitKeepsTables(config: Config, system: System, after: System, id: Uuid)
    requires Inv(config, system) && CommitFits(config, system, after, id)
    ensures DocumentsFit(config, after) && KeysFit(config, after) && SubmissionsFit(after)
    ensures SubmittedFit(after) && ErpFits(config, after) && DlqFits(config, after)
  {
    hide DocumentsFit, KeysFit, MessagesFit, WorkerFits, DlqFits, SubmissionsFit, SubmittedFit, ErpFits, WellFormed,
      Ticked, RecordsSubmission, Consistent, SameDocuments;
    if Ticked(system, after) {
      TickedKeepsTables(config, system, after);
    } else if SendsToReview(config, system, after, id) {
      ReviewKeepsTables(config, system, after, id);
    } else {
      var invoice, erpId :| RecordsSubmission(system, after, id, invoice, erpId);
      SubmittedKeepsTables(config, system, after, id, invoice, erpId);
    }
  }

  lemma ReviewKeepsTables(config: Config, system: System, after: System, id: Uuid)
    requires Inv(config, system) && SendsToReview(config, system, after, id) && after.dlq == system.dlq
    ensures DocumentsFit(config, after) && KeysFit(config, after) && SubmissionsFit(after)
    ensures SubmittedFit(after) && ErpFits(config, after) && DlqFits(config, after)
  {
    hide DocumentsFit, KeysFit, MessagesFit, WorkerFits, DlqFits, SubmissionsFit, SubmittedFit, ErpFits, WellFormed,
      Replaces, KeepsIdentity;
    ChangeKeepsTables(config, system, after, id);
    ChangeKeepsDlq(config, system, after, id);
  }

  lemma CommittedKeeps(config: Config, system: System, index: nat, world: World, attempt: Attempt, fate: Fate)
    requires Inv(config, system) && index < |system.broker| && system.worker == Idle
    requires world.freshId !in system.erp.byId
    requires MessageFits(config, system, system.broker[index])
    requires WellFormed(WorkFor(system, system.broker[index]).doc, config.settings.maxRetries, system.db.clock)
    requires Behaves(WorkFor(system, system.broker[index]), system.db.clock, config.settings, world, attempt)
    requires attempt.raised == NoRaise && fate in {Acknowledged, CrashAfterCommit}
    ensures Inv(config, AfterAttempt(system, index, attempt, fate))
  {
    hide DocumentsFit, KeysFit, MessagesFit, DlqFits, SubmissionsFit, SubmittedFit, Calls, Completes,
      RowsFitStatus, Traced, Clocked, Consistent, Ticked, SendsToReview, RecordsSubmission;
    var after := AfterAttempt(system, index, attempt, fate);
    var id := system.broker[index].documentId;
    CommittedCases(config, system, after, WorkFor(system, system.broker[index]), world, attempt);
    DeliveryKeepsMessages(config, system, index, attempt, fate);
    CommitKeepsTables(config, system, after, id);
  }

  /** A delivery in summary: what the attempt did, and what of it was committed. */
  ghost predicate Delivered(config: Config, before: System, after: System, step: Step, attempt: Attempt)
    requires step.Deliver?
  {
    && step.index < |before.broker|
    && var message := before.broker[step.index];
    && message.documentId in before.db.documents
    && WellFormed(before.db.documents[message.documentId], config.settings.maxRetries, before.db.clock)
    && Behaves(WorkFor(before, message), before.db.clock, config.settings, step.world, attempt)
    && after.db == Committed(before.db, attempt, step.fate)
    && after.erp == attempt.work.erp
  }

  lemma DeliverySummary(config: Config, system: System, step: Step) returns (attempt: Attempt)
    requires Inv(config, system) && step.Deliver? && CanDeliver(system, step)
    ensures MessageFits(config, system, system.broker[step.index])
    ensures attempt == AttemptFor(config, system, system.broker[step.index], step.world)
    ensures AfterDeliver(config, system, step) == AfterAttempt(system, step.index, attempt, step.fate)
    ensures Delivered(config, system, AfterDeliver(config, system, step), step, attempt)
  {
    var message := system.broker[step.index];
    assert MessageFits(config, system, message);
    DeliveredBehaves(config, system, message, step.world);
    hide Inv, Process;
    attempt := AttemptFor(config, system, message, step.world);
  }

  lemma CommitCase(config: Config, system: System, after: System, step: Step, attempt: Attempt)
    requires step.Deliver? && CanDeliver(system, step) && Consistent(system.erp)
    requires Delivered(config, system, after, step, attempt) && after == AfterAttempt(system, step.index, attempt, step.fate)
    requires attempt.raised == NoRaise && step.fate in {Acknowledged, CrashAfterCommit}
    ensures CommitFits(config, system, after, system.broker[step.index].documentId)
  {
    hide CommitFits, Calls, Completes, RowsFitStatus, Traced, Clocked;
    CommittedCases(config, system, after, WorkFor(system, system.broker[step.index]), step.world, attempt);
  }

  lemma NoCommitCase(config: Config, system: System, after: System, step: Step, attempt: Attempt)
    requires step.Deliver? && CanDeliver(system, step) && Consistent(system.erp)
    requires Delivered(config, system, after, step, attempt) && after == AfterAttempt(system, step.index, attempt, step.fate)
    requires attempt.raised != NoRaise || step.fate !in {Acknowledged, CrashAfterCommit}
    ensures Ticked(system, after)
  {
    hide Calls, Completes, RowsFitStatus, Traced, Clocked, Grows, Consistent;
    AttemptGrowsErp(WorkFor(system, system.broker[step.index]), config.settings, step.world, attempt);
  }

  lemma ErpIsConsistent(config: Config, system: System)
    requires Inv(config, system)
    ensures Consistent(system.erp)
  {
    hide DocumentsFit, KeysFit, MessagesFit, WorkerFits, DlqFits, SubmissionsFit, SubmittedFit, Consistent;
  }

  /** Every delivery, in a state that keeps the invariant: the tables are left alone, or one queued row is
      sent to review, or one submission is recorded; and only an attempt that raised nothing and was
      committed changes them. */
  lemma DeliverCases(config: Config, system: System, step: Step)
    requires Inv(config, system) && step.Deliver? && CanDeliver(system, step)
    ensures MessageFits(config, system, system.broker[step.index])
    ensures
      var message := system.broker[step.index];
      var after := AfterDeliver(config, system, step);
      var attempt := AttemptFor(config, system, message, step.world);
      && after == AfterAttempt(system, step.index, attempt, step.fate)
      && (attempt.raised == NoRaise && step.fate in {Acknowledged, CrashAfterCommit} ==>
            CommitFits(config, system, after, message.documentId))
      && (attempt.raised != NoRaise || step.fate !in {Acknowledged, CrashAfterCommit} ==> Ticked(system, after))
  {
    hide Inv, AttemptFor, AfterDeliver, AfterAttempt, Delivered, CommitFits, Ticked, Consistent;
    var after := AfterDeliver(config, system, step);
    var attempt := DeliverySummary(config, system, step);
    ErpIsConsistent(config, system);
    if attempt.raised == NoRaise && step.fate in {Acknowledged, CrashAfterCommit} {
      CommitCase(config, system, after, step, attempt);
    } else {
      NoCommitCase(config, system, after, step, attempt);
    }
  }

  /** Steps that neither deliver nor review keep every document's extractions and decisions. */
  ghost predicate KeepsRows(before: System, after: System) {
    && (forall id :: id in before.db.documents ==>
          && id in after.db.documents
          && after.db.documents[id].extractions == before.db.documents[id].extractions
          && after.db.documents[id].decisions == before.db.documents[id].decisions)
    && (forall id :: id in after.db.documents && id !in before.db.documents ==>
          after.db.documents[id].extractions == [] && after.db.documents[id].decisions == [])
  }

  lemma UploadKeepsRows(config: Config, system: System, step: Step)
    requires step.Upload?
    ensures KeepsRows(system, Apply(config, system, step))
  {
    hide UploadKey, IsKnownUpload;
  }

  lemma NotingKeepsRows(system: System)
    ensures KeepsRows(system, AfterRecordRetry(system))
  {
  }

  lemma FinaliserKeepsRows(config: Config, system: System, published: bool)
    ensures KeepsRows(system, AfterRetryOrExhaust(config, system, published))
  {
    hide MarkedExhausted, FinaliserRefused;
    if system.worker.RetryRecorded? && system.worker.message.documentId in system.db.documents {
      ExhaustionKeepsRows(system.db.documents[system.worker.message.documentId], system.worker.message.retries + 1,
                          system.worker.errorClass);
    }
  }

  lemma ExhaustionKeepsRows(doc: Document, retryCount: nat, errorClass: string)
    ensures
      var row := MarkedExhausted(doc, retryCount, errorClass);
      row.extractions == doc.extractions && row.decisions == doc.decisions
  {
  }

  lemma MessageStepKeepsDocuments(config: Config, system: System, step: Step)
    requires step.PushDeadLetter? || step.Crash? || step.Abort? || step.Redeliver? || (step.Deliver? && !CanDeliver(system, step))
    ensures Apply(config, system, step).db.documents == system.db.documents
  {
  }

  lemma SameDocumentsKeepRows(before: System, after: System)
    requires after.db.documents == before.db.documents
    ensures KeepsRows(before, after)
  {
  }

  lemma WorkerKeepsRows(config: Config, system: System, step: Step)
    requires !step.Upload? && !step.ApproveCommand? && !step.RejectCommand? && !(step.Deliver? && CanDeliver(system, step))
    ensures KeepsRows(system, Apply(config, system, step))
  {
    hide AfterRecordRetry, AfterRetryOrExhaust, KeepsRows;
    if step.RecordRetry? {
      NotingKeepsRows(system);
    } else if step.RetryOrExhaust? {
      FinaliserKeepsRows(config, system, step.published);
    } else {
      hide Apply;
      MessageStepKeepsDocuments(config, system, step);
      SameDocumentsKeepRows(system, Apply(config, system, step));
    }
  }

  lemma QuietStepKeepsRows(config: Config, system: System, step: Step)
    requires !step.ApproveCommand? && !step.RejectCommand? && !(step.Deliver? && CanDeliver(system, step))
    ensures KeepsRows(system, Apply(config, system, step))
  {
    hide Apply, KeepsRows;
    if step.Upload? {
      UploadKeepsRows(config, system, step);
    } else {
      WorkerKeepsRows(config, system, step);
    }
  }

  lemma DeliverKeeps(config: Config, system: System, step: Step)
    requires Inv(config, system) && step.Deliver?
    ensures Inv(config, AfterDeliver(config, system, step))
  {
    if CanDeliver(system, step) {
      var message := system.broker[step.index];
      assert MessageFits(config, system, message);
      DeliveredBehaves(config, system, message, step.world);
      var attempt := AttemptFor(config, system, message, step.world);
      if attempt.raised == NoRaise && step.fate in {Acknowledged, CrashAfterCommit} {
        CommittedKeeps(config, system, step.index, step.world, attempt, step.fate);
      } else {
        UncommittedKeeps(config, system, step.index, step.world, attempt, step.fate);
      }
    }
  }

  // ---- Every reachable state ----

  lemma ApplyKeeps(config: Config, system: System, step: Step)
    requires Inv(config, system)
    ensures Inv(config, Apply(config, system, step))
  {
    match step
    case Upload(_, _, _, _, _) => UploadKeeps(config, system, step);
    case Deliver(_, _, _) => DeliverKeeps(config, system, step);
    case RecordRetry => RecordRetryKeeps(config, system);
    case RetryOrExhaust(published) => RetryOrExhaustKeeps(config, system, published);
    case PushDeadLetter => PushKeeps(config, system);
    case Crash => CrashKeeps(config, system);
    case Abort => CrashKeeps(config, system);
    case Redeliver(message) => RedeliverKeeps(config, system, message);
    case ApproveCommand(_, _, _) => ApproveKeeps(config, system, step);
    case RejectCommand(_, _) => RejectKeeps(config, system, step);
  }

  /** Every run, from any state that keeps the invariant. */
  lemma {:induction false} RunKeeps(config: Config, start: System, steps: seq<Step>)
    requires Inv(config, start)
    ensures Inv(config, Exec(config, start, steps))
  {
    if steps != [] {
      var front := steps[..|steps| - 1];
      RunKeeps(config, start, front);
      ApplyKeeps(config, Exec(config, start, front), steps[|steps| - 1]);
    }
  }

  lemma ReachableKeeps(config: Config, steps: seq<Step>)
    ensures Inv(config, Exec(config, Init(config), steps))
  {
    RunKeeps(config, Init(config), steps);
  }

  lemma StateAtKeeps(config: Config, steps: seq<Step>, n: nat)
    requires n <= |steps|
    ensures Inv(config, StateAt(config, steps, n))
  {
    hide Inv;
    ReachableKeeps(config, steps[..n]);
  }
}
