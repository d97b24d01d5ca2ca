/** What holds in every state the pipeline can reach, whatever crashes, faults, redeliveries and reviews
    it has been through. */
module Invariants {
  import opened Options
  import opened WorkflowStates
  import opened BusinessRules
  import opened Identifiers
  import opened Records
  import opened Erp
  import opened Attempts
  import opened Reviews
  import opened CommittedRows
  import opened Pipeline

  ghost predicate DocumentsFit(config: Config, system: System) {
    forall id :: id in system.db.documents ==>
      WellFormed(system.db.documents[id], config.settings.maxRetries, system.db.clock)
  }

  /** Upload keys are derived from the row's own columns, and no two documents share one. */
  ghost predicate KeysFit(config: Config, system: System) {
    var docs := system.db.documents;
    && (forall id :: id in docs ==> docs[id].uploadKey == UploadKey(config.sha, docs[id].sourceMessageId, docs[id].contentHash))
    && (forall a, b :: a in docs && b in docs && docs[a].uploadKey == docs[b].uploadKey ==> a == b)
  }

  ghost predicate MessageFits(config: Config, system: System, message: Message) {
    && message.documentId in system.db.documents
    && system.db.documents[message.documentId].correlationId == message.correlationId
    && message.retries <= config.settings.maxRetries
  }

  ghost predicate MessagesFit(config: Config, system: System) {
    && (forall i :: 0 <= i < |system.broker| ==> MessageFits(config, system, system.broker[i]))
    && (!system.worker.Idle? ==> MessageFits(config, system, system.worker.message))
  }

  predicate IsUnfinished(status: WorkflowState) {
    status in {Queued, Approved}
  }

  ghost predicate InDlq(dlq: seq<DlqEntry>, id: Uuid) {
    exists i :: 0 <= i < |dlq| && dlq[i].documentId == id
  }

  /** Between its transactions the worker holds a document it has not finished, or one it has just failed. */
  ghost predicate WorkerFits(config: Config, system: System) {
    MessagesFit(config, system) ==>
      match system.worker
      case Idle => true
      case AttemptRaised(message, _) => IsUnfinished(system.db.documents[message.documentId].status)
      case RetryRecorded(message, _) => IsUnfinished(system.db.documents[message.documentId].status)
      case Exhausted(message, _) =>
        && system.db.documents[message.documentId].status == Failed
        && message.retries == config.settings.maxRetries
        && !InDlq(system.dlq, message.documentId)
  }

  /** The dead-letter queue lists failed documents, each at most once, with the exhausted retry count. */
  ghost predicate DlqFits(config: Config, system: System) {
    && (forall i :: 0 <= i < |system.dlq| ==>
          && system.dlq[i].documentId in system.db.documents
          && system.db.documents[system.dlq[i].documentId].status == Failed
          && system.dlq[i].retryCount == config.settings.maxRetries + 1)
    && (forall i, j :: 0 <= i < j < |system.dlq| ==> system.dlq[i].documentId != system.dlq[j].documentId)
  }

  ghost predicate IsSubmitted(system: System, id: Uuid) {
    id in system.db.documents && system.db.documents[id].status == Submitted
  }

  /** No two rows of the submissions table share a pair or a document, and each row's document is submitted. */
  ghost predicate SubmissionsFit(system: System) {
    var rows := system.db.submissions;
    && (forall i :: 0 <= i < |rows| ==> IsSubmitted(system, rows[i].documentId))
    && (forall i, j :: 0 <= i < j < |rows| ==>
          && rows[i].documentId != rows[j].documentId
          && (rows[i].supplierName != rows[j].supplierName || rows[i].invoiceNumber != rows[j].invoiceNumber))
  }

  ghost predicate OwnsRow(submissions: seq<Submission>, id: Uuid, invoice: Invoice) {
    exists i :: 0 <= i < |submissions| && submissions[i].documentId == id
      && submissions[i].supplierName == invoice.supplierName && submissions[i].invoiceNumber == invoice.invoiceNumber
  }

  /** A submitted document's latest pair is listed; an auto-approved one's is listed under its own id. */
  ghost predicate Covered(submissions: seq<Submission>, id: Uuid, doc: Document)
    requires doc.extractions != [] && AllParsed(doc)
  {
    var invoice := LastInvoice(doc);
    && IsListed(submissions, invoice.supplierName, invoice.invoiceNumber)
    && (AutoApproved(doc) ==> OwnsRow(submissions, id, invoice))
  }

  ghost predicate SubmittedFit(system: System) {
    forall id :: IsSubmitted(system, id) ==>
      var doc := system.db.documents[id];
      && doc.extractions != [] && AllParsed(doc)
      && Covered(system.db.submissions, id, doc)
      && ErpKey(id, LastInvoice(doc).invoiceNumber) in system.erp.byKey
  }

  ghost predicate ErpFits(config: Config, system: System) {
    && Consistent(system.erp)
    && system.erp.suppliers == config.suppliers
    && system.erp.purchaseOrders == config.purchaseOrders
  }

  ghost predicate Inv(config: Config, system: System) {
    && DocumentsFit(config, system)
    && KeysFit(config, system)
    && MessagesFit(config, system)
    && WorkerFits(config, system)
    && DlqFits(config, system)
    && SubmissionsFit(system)
    && SubmittedFit(system)
    && ErpFits(config, system)
  }

  // ---- Changing one row ----

  /** `after` differs from `before` in one row, which is not a submitted document's before or after. */
  ghost predicate Replaces(before: System, after: System, id: Uuid) {
    && id in after.db.documents
    && after.db.documents == before.db.documents[id := after.db.documents[id]]
    && after.db.clock == before.db.clock + 1
    && after.db.submissions == before.db.submissions
    && after.erp == before.erp
    && !IsSubmitted(before, id) && !IsSubmitted(after, id)
  }

  ghost predicate SameUpload(a: Document, b: Document) {
    && a.uploadKey == b.uploadKey
    && a.sourceMessageId == b.sourceMessageId
    && a.contentHash == b.contentHash
    && a.correlationId == b.correlationId
  }

  /** The row is a changed version of an existing one, or a new one with an unused key. */
  ghost predicate KeepsIdentity(config: Config, before: System, after: System, id: Uuid)
    requires id in after.db.documents
  {
    var doc := after.db.documents[id];
    if id in before.db.documents then
      && SameUpload(before.db.documents[id], doc)
      && (before.db.documents[id].status == Failed ==> doc.status == Failed)
    else
      !IsKnownUpload(before.db, doc.uploadKey) && doc.uploadKey == UploadKey(config.sha, doc.sourceMessageId, doc.contentHash)
  }

  ghost predicate Changes(config: Config, before: System, after: System, id: Uuid) {
    && Replaces(before, after, id)
    && KeepsIdentity(config, before, after, id)
    && WellFormed(after.db.documents[id], config.settings.maxRetries, after.db.clock)
  }

  lemma ClockTicks(config: Config, system: System, after: System)
    requires DocumentsFit(config, system)
    requires after.db.documents == system.db.documents && after.db.clock >= system.db.clock
    ensures DocumentsFit(config, after)
  {
  }

  lemma ChangeKeepsDocuments(config: Config, before: System, after: System, id: Uuid)
    requires DocumentsFit(config, before) && Changes(config, before, after, id)
    ensures DocumentsFit(config, after)
  {
    ClockTicks(config, before, before.(db := before.db.(clock := after.db.clock)));
  }

  lemma ChangeKeepsKeys(config: Config, before: System, after: System, id: Uuid)
    requires KeysFit(config, before) && Replaces(before, after, id) && KeepsIdentity(config, before, after, id)
    ensures KeysFit(config, after)
  {
  }

  lemma ChangeKeepsSubmissions(before: System, after: System, id: Uuid)
    requires SubmissionsFit(before) && Replaces(before, after, id)
    ensures SubmissionsFit(after)
  {
    forall i | 0 <= i < |after.db.submissions|
      ensures IsSubmitted(after, after.db.submissions[i].documentId)
    {
      assert IsSubmitted(before, before.db.submissions[i].documentId);
    }
  }

  lemma ChangeKeepsSubmitted(before: System, after: System, id: Uuid)
    requires SubmittedFit(before) && Replaces(before, after, id)
    ensures SubmittedFit(after)
  {
    forall other | IsSubmitted(after, other)
      ensures after.db.documents[other] == before.db.documents[other] && IsSubmitted(before, other)
    {
    }
  }

  lemma ChangeKeepsTables(config: Config, before: System, after: System, id: Uuid)
    requires Inv(config, before) && Changes(config, before, after, id)
    ensures DocumentsFit(config, after) && KeysFit(config, after)
    ensures SubmissionsFit(after) && SubmittedFit(after) && ErpFits(config, after)
  {
    ChangeKeepsDocuments(config, before, after, id);
    ChangeKeepsKeys(config, before, after, id);
    ChangeKeepsSubmissions(before, after, id);
    ChangeKeepsSubmitted(before, after, id);
  }

  lemma ChangeKeepsMessages(config: Config, before: System, after: System, id: Uuid)
    requires MessagesFit(config, before)
    requires Replaces(before, after, id) && KeepsIdentity(config, before, after, id)
    requires forall i :: 0 <= i < |after.broker| ==> IsPending(before, after.broker[i]) || MessageFits(config, after, after.broker[i])
    requires !after.worker.Idle? ==> IsPending(before, after.worker.message)
    ensures MessagesFit(config, after)
  {
  }

  lemma ChangeKeepsDlq(config: Config, before: System, after: System, id: Uuid)
    requires DlqFits(config, before)
    requires Replaces(before, after, id) && KeepsIdentity(config, before, after, id)
    requires after.dlq == before.dlq
    ensures DlqFits(config, after)
  {
  }

  /** A changed row that leaves the worker's own document alone keeps everything. */
  lemma ChangeKeeps(config: Config, before: System, after: System, id: Uuid)
    requires Inv(config, before) && Changes(config, before, after, id)
    requires after.worker == before.worker && after.dlq == before.dlq
    requires before.worker.Idle? || before.worker.message.documentId != id
    requires after.broker == before.broker
             || after.broker == before.broker + [Message(id, after.db.documents[id].correlationId, 0)]
    ensures Inv(config, after)
  {
    ChangeKeepsTables(config, before, after, id);
    ChangeKeepsMessages(config, before, after, id);
    ChangeKeepsDlq(config, before, after, id);
  }

  lemma TickKeeps(config: Config, system: System)
    requires Inv(config, system)
    ensures Inv(config, Tick(system))
  {
    ClockTicks(config, system, Tick(system));
  }

  // ---- The steps ----

  lemma NewDocumentFits(config: Config, sourceMessageId: string, content: string, correlationId: Uuid, now: nat)
    ensures WellFormed(NewDocument(config, sourceMessageId, content, correlationId), config.settings.maxRetries, now)
  {
    var received, queued := Note(DocumentReceived, SYSTEM), StateTransition(Received, Queued, SYSTEM);
    ReplayAppend([], received);
    assert [] + [received] == [received];
    ReplayAppend([received], queued);
    assert [received] + [queued] == [received, queued];
  }

  lemma UploadKeeps(config: Config, system: System, step: Step)
    requires Inv(config, system) && step.Upload?
    ensures Inv(config, AfterUpload(config, system, step))
  {
    var after := AfterUpload(config, system, step);
    TickKeeps(config, system);
    if after != system && after != Tick(system) {
      NewDocumentFits(config, step.sourceMessageId, step.content, step.correlationId, after.db.clock);
      ChangeKeeps(config, system, after, step.id);
    }
  }

  lemma RowFits(config: Config, system: System, id: Uuid)
    requires DocumentsFit(config, system) && id in system.db.documents
    ensures WellFormed(system.db.documents[id], config.settings.maxRetries, system.db.clock)
  {
    hide WellFormed;
  }

  lemma NotedRetryFits(doc: Document, retryCount: nat, errorClass: string, maxRetries: nat, now: nat)
    requires WellFormed(doc, maxRetries, now) && IsUnfinished(doc.status) && retryCount <= maxRetries + 1
    ensures WellFormed(RetryNoted(doc, retryCount, errorClass), maxRetries, now + 1)
  {
    hide Replay;
    NotedTraced(doc.(retryCount := retryCount, lastErrorClass := Some(errorClass)), RetryScheduled, SYSTEM);
  }

  lemma RecordRetryKeeps(config: Config, system: System)
    requires Inv(config, system)
    ensures Inv(config, AfterRecordRetry(system))
  {
    hide DocumentsFit, KeysFit, SubmissionsFit, SubmittedFit, DlqFits, MessagesFit, MessageFits, WellFormed;
    if system.worker.AttemptRaised? {
      var message, errorClass := system.worker.message, system.worker.errorClass;
      var id, after := message.documentId, AfterRecordRetry(system);
      FinaliserFindsUnfinished(config, system);
      RowFits(config, system, id);
      NotedRetryFits(system.db.documents[id], message.retries + 1, errorClass, config.settings.maxRetries, system.db.clock);
      ChangeKeepsTables(config, system, after, id);
      ChangeKeepsMessages(config, system, after, id);
      ChangeKeepsDlq(config, system, after, id);
    }
  }

  lemma ExhaustedRowFits(doc: Document, errorClass: string, maxRetries: nat, now: nat)
    requires WellFormed(doc, maxRetries, now) && IsUnfinished(doc.status)
    ensures WellFormed(MarkedExhausted(doc, maxRetries + 1, errorClass), maxRetries, now + 1)
  {
    var counted := doc.(retryCount := maxRetries + 1, lastErrorClass := Some(errorClass));
    MovedTraced(counted, Failed, SYSTEM);
    NotedTraced(Moved(counted, Failed, SYSTEM), RetriesExhausted, SYSTEM);
  }

  lemma ExhaustKeepsRest(config: Config, system: System, after: System, message: Message, errorClass: string)
    requires MessagesFit(config, system) && DlqFits(config, system) && WorkerFits(config, system)
    requires system.worker == RetryRecorded(message, errorClass) && after.worker == Exhausted(message, errorClass)
    requires message.retries == config.settings.maxRetries
    requires after.broker == system.broker && after.dlq == system.dlq
    requires Replaces(system, after, message.documentId) && KeepsIdentity(config, system, after, message.documentId)
    requires after.db.documents[message.documentId].status == Failed
    ensures MessagesFit(config, after) && DlqFits(config, after) && WorkerFits(config, after)
  {
    ChangeKeepsMessages(config, system, after, message.documentId);
    ChangeKeepsDlq(config, system, after, message.documentId);
    assert !InDlq(system.dlq, message.documentId);
  }

  lemma ExhaustKeeps(config: Config, system: System, after: System, message: Message, errorClass: string)
    requires Inv(config, system) && system.worker == RetryRecorded(message, errorClass)
    requires message.retries == config.settings.maxRetries
    requires message.documentId in system.db.documents
    requires
      var doc := MarkedExhausted(system.db.documents[message.documentId], message.retries + 1, errorClass);
      after == system.(db := Put(system.db, message.documentId, doc), worker := Exhausted(message, errorClass))
    ensures Inv(config, after)
  {
    hide DocumentsFit, KeysFit, SubmissionsFit, SubmittedFit, DlqFits, MessagesFit, MessageFits, WorkerFits, WellFormed;
    var id := message.documentId;
    FinaliserFindsUnfinished(config, system);
    RowFits(config, system, id);
    ExhaustedRowFits(system.db.documents[id], errorClass, message.retries, system.db.clock);
    ChangeKeepsTables(config, system, after, id);
    ExhaustKeepsRest(config, system, after, message, errorClass);
  }

  lemma RetryKeeps(config: Config, system: System, published: bool)
    requires Inv(config, system) && system.worker.RetryRecorded?
    requires system.worker.message.retries < config.settings.maxRetries
    ensures Inv(config, AfterRetryOrExhaust(config, system, published))
  {
    hide DocumentsFit, KeysFit, SubmissionsFit, SubmittedFit, DlqFits;
    SameTablesKeep(config, system, AfterRetryOrExhaust(config, system, published));
  }

  /** The finaliser always finds a document it may fail: never a terminal one, never an illegal transition. */
  lemma FinaliserFindsUnfinished(config: Config, system: System)
    requires Inv(config, system)
    requires system.worker.AttemptRaised? || system.worker.RetryRecorded?
    ensures system.worker.message.documentId in system.db.documents
    ensures IsUnfinished(system.db.documents[system.worker.message.documentId].status)
    ensures !FinaliserRefused(system.db.documents[system.worker.message.documentId])
    ensures system.worker.message.retries <= config.settings.maxRetries
  {
  }

  lemma ExhaustStep(config: Config, system: System, published: bool)
    requires system.worker.RetryRecorded? && system.worker.message.retries >= config.settings.maxRetries
    requires system.worker.message.documentId in system.db.documents
    requires !FinaliserRefused(system.db.documents[system.worker.message.documentId])
    ensures
      var message, errorClass := system.worker.message, system.worker.errorClass;
      var doc := MarkedExhausted(system.db.documents[message.documentId], message.retries + 1, errorClass);
      AfterRetryOrExhaust(config, system, published)
      == system.(db := Put(system.db, message.documentId, doc), worker := Exhausted(message, errorClass))
  {
  }

  lemma RetryOrExhaustKeeps(config: Config, system: System, published: bool)
    requires Inv(config, system)
    ensures Inv(config, AfterRetryOrExhaust(config, system, published))
  {
    hide Inv;
    if system.worker.RetryRecorded? {
      if system.worker.message.retries < config.settings.maxRetries {
        RetryKeeps(config, system, published);
      } else {
        FinaliserFindsUnfinished(config, system);
        ExhaustStep(config, system, published);
        ExhaustKeeps(config, system, AfterRetryOrExhaust(config, system, published), system.worker.message,
                     system.worker.errorClass);
      }
    }
  }

  lemma PushKeepsQueue(config: Config, system: System)
    requires MessagesFit(config, system) && WorkerFits(config, system) && DlqFits(config, system)
    requires system.worker.Exhausted?
    ensures DlqFits(config, AfterPush(system))
  {
    assert forall i :: 0 <= i < |system.dlq| ==> system.dlq[i].documentId != system.worker.message.documentId;
  }

  lemma PushKeeps(config: Config, system: System)
    requires Inv(config, system)
    ensures Inv(config, AfterPush(system))
  {
    hide DocumentsFit, KeysFit, SubmissionsFit, SubmittedFit, DlqFits;
    if system.worker.Exhausted? {
      PushKeepsQueue(config, system);
      SameTablesKeep(config, system, AfterPush(system));
    }
  }

  /** What concerns the tables and the ERP alone holds of any state with the same ones. */
  lemma SameTablesKeep(config: Config, before: System, after: System)
    requires after.db == before.db && after.erp == before.erp
    ensures DocumentsFit(config, before) ==> DocumentsFit(config, after)
    ensures KeysFit(config, before) ==> KeysFit(config, after)
    ensures SubmissionsFit(before) ==> SubmissionsFit(after)
    ensures SubmittedFit(before) ==> SubmittedFit(after)
    ensures DlqFits(config, before) && after.dlq == before.dlq ==> DlqFits(config, after)
  {
    assert forall id :: IsSubmitted(before, id) <==> IsSubmitted(after, id);
  }

  lemma CrashKeeps(config: Config, system: System)
    requires Inv(config, system)
    ensures Inv(config, AfterCrash(system)) && Inv(config, AfterAbort(system))
  {
    hide DocumentsFit, KeysFit, SubmissionsFit, SubmittedFit, DlqFits;
    SameTablesKeep(config, system, AfterCrash(system));
    SameTablesKeep(config, system, AfterAbort(system));
  }

  lemma RedeliverKeeps(config: Config, system: System, message: Message)
    requires Inv(config, system)
    ensures Inv(config, AfterRedeliver(system, message))
  {
    hide DocumentsFit, KeysFit, SubmissionsFit, SubmittedFit, DlqFits;
    SameTablesKeep(config, system, AfterRedeliver(system, message));
  }

  lemma ApprovedRowFits(doc: Document, now: nat, approval: Approval, maxRetries: nat)
    requires WellFormed(doc, maxRetries, now) && doc.status == NeedsReview
    requires approval.edited.None? ==> doc.extractions != []
    ensures WellFormed(ApprovedRow(doc, now, approval), maxRetries, now + 1)
  {
    hide Replay;
    var action := if approval.edited.None? then ReviewApproved else ReviewEditApproved;
    ReplayAppend(doc.audit, Note(action, approval.actor));
    ReplayAppend(doc.audit + [Note(action, approval.actor)], StateTransition(NeedsReview, Approved, approval.actor));
  }

  lemma RejectedRowFits(doc: Document, now: nat, actor: string, maxRetries: nat)
    requires WellFormed(doc, maxRetries, now) && doc.status == NeedsReview
    ensures WellFormed(RejectedRow(doc, now, actor), maxRetries, now + 1)
  {
    ReplayAppend(doc.audit, Note(ReviewRejected, actor));
    ReplayAppend(doc.audit + [Note(ReviewRejected, actor)], StateTransition(NeedsReview, Rejected, actor));
  }

  /** An approval that reports a change found a document in review, with something to approve. */
  lemma ApproveStep(config: Config, system: System, step: Step)
    requires step.ApproveCommand? && step.id in system.db.documents
    requires ApproveOutcome(config, system, step).result == Changed
    ensures
      var doc := system.db.documents[step.id];
      var row := ApprovedRow(doc, system.db.clock, step.approval);
      && doc.status == NeedsReview
      && (step.approval.edited.None? ==> doc.extractions != [])
      && ApproveOutcome(config, system, step).doc == row
      && AfterApprove(config, system, step)
         == system.(db := Put(system.db, step.id, row),
                    broker := if step.enqueued then system.broker + [Message(step.id, row.correlationId, 0)]
                              else system.broker)
  {
  }

  lemma ApproveChanges(config: Config, system: System, after: System, id: Uuid, approval: Approval)
    requires DocumentsFit(config, system) && id in system.db.documents
    requires system.db.documents[id].status == NeedsReview
    requires approval.edited.None? ==> system.db.documents[id].extractions != []
    requires after.db == Put(system.db, id, ApprovedRow(system.db.documents[id], system.db.clock, approval))
    requires after.erp == system.erp
    ensures Changes(config, system, after, id)
  {
    ApprovedRowFits(system.db.documents[id], system.db.clock, approval, config.settings.maxRetries);
  }

  lemma ApproveKeeps(config: Config, system: System, step: Step)
    requires Inv(config, system) && step.ApproveCommand?
    ensures Inv(config, AfterApprove(config, system, step))
  {
    hide DocumentsFit, KeysFit, SubmissionsFit, SubmittedFit, DlqFits, MessagesFit, MessageFits, ApproveOutcome;
    if step.id in system.db.documents && ApproveOutcome(config, system, step).result == Changed {
      ApproveStep(config, system, step);
      var after := AfterApprove(config, system, step);
      ApproveChanges(config, system, after, step.id, step.approval);
      ChangeKeeps(config, system, after, step.id);
    } else {
      TickKeeps(config, system);
    }
  }

  lemma RejectChanges(config: Config, system: System, step: Step)
    requires DocumentsFit(config, system) && step.RejectCommand? && step.id in system.db.documents
    requires system.db.documents[step.id].status == NeedsReview
    ensures Changes(config, system, AfterReject(system, step), step.id)
  {
    RejectedRowFits(system.db.documents[step.id], system.db.clock, step.actor, config.settings.maxRetries);
  }

  lemma RejectKeeps(config: Config, system: System, step: Step)
    requires Inv(config, system) && step.RejectCommand?
    ensures Inv(config, AfterReject(system, step))
  {
    hide DocumentsFit, KeysFit, SubmissionsFit, SubmittedFit, DlqFits, MessagesFit, MessageFits, RejectedRow;
    TickKeeps(config, system);
    if step.id in system.db.documents && system.db.documents[step.id].status == NeedsReview {
      RejectChanges(config, system, step);
      ChangeKeeps(config, system, AfterReject(system, step), step.id);
    }
  }
}
