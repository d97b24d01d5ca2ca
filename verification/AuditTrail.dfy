/** The audit log against the row it belongs to: over every run, the notes of a document's log account for its
    extractions, its decisions, its retries and its status. */
module AuditTrail {
  import opened WorkflowStates
  import opened Identifiers
  import opened Records
  import opened Attempts
  import opened Reviews
  import opened CommittedRows
  import opened Pipeline
  import opened Invariants
  import opened Deliveries
  import opened ReviewHistory
  import opened WrittenRows
  import opened Sums

  /** How often the log notes this action. */
  function Count(audit: seq<AuditEvent>, action: AuditAction): nat {
    if audit == [] then 0
    else
      var last := audit[|audit| - 1];
      Count(audit[..|audit| - 1], action) + if last.Note? && last.action == action then 1 else 0
  }

  /** The notes account for the row: each extraction and each decision has its note, as have the submission, the
      rejection and the final failure; the first decision or output error is noted once; retries are noted
      exactly when the row counts any; and no transition was ever refused. */
  ghost predicate Accounts(doc: Document) {
    && Count(doc.audit, DocumentReceived) == 1
    && |doc.extractions| == Count(doc.audit, ExtractionCompleted) + Count(doc.audit, ReviewEditApproved)
    && |doc.decisions| == Count(doc.audit, ValidationCompleted) + Count(doc.audit, ReviewApproved)
                          + Count(doc.audit, ReviewEditApproved) + Count(doc.audit, ReviewRejected)
    && Count(doc.audit, ExtractionCompleted) == Count(doc.audit, ValidationCompleted)
    && Count(doc.audit, ErpSubmitted) == One(doc.status == Submitted)
    && Count(doc.audit, RetriesExhausted) == One(doc.status == Failed)
    && Count(doc.audit, ReviewRejected) == One(doc.status == Rejected)
    && (doc.status !in {Queued, Failed} ==> Count(doc.audit, OutputInvalid) + Count(doc.audit, ValidationCompleted) == 1)
    && (doc.status == Queued ==> Count(doc.audit, OutputInvalid) + Count(doc.audit, ValidationCompleted) == 0)
    && (doc.retryCount == 0 <==> Count(doc.audit, RetryScheduled) == 0)
    && Count(doc.audit, TransitionRefused) == 0
  }

  /** Adding one event adds one to the count of its own action. */
  lemma CountNext(audit: seq<AuditEvent>, event: AuditEvent)
    ensures forall action :: Count(audit + [event], action)
              == Count(audit, action) + One(event.Note? && event.action == action)
  {
    assert (audit + [event])[..|audit|] == audit;
  }

  lemma CountNextTwo(audit: seq<AuditEvent>, first: AuditEvent, second: AuditEvent)
    ensures forall action :: Count(audit + [first, second], action)
              == Count(audit, action) + One(first.Note? && first.action == action) + One(second.Note? && second.action == action)
  {
    CountNext(audit, first);
    CountNext(audit + [first], second);
    assert audit + [first] + [second] == audit + [first, second];
  }

  lemma CountReading(audit: seq<AuditEvent>, passes: bool)
    ensures forall action :: Count(audit + ReadingEvents(passes), action)
              == Count(audit, action) + One(action == ExtractionCompleted || action == ValidationCompleted)
                 + One(passes && action == ErpSubmitted)
  {
    hide Count;
    var events := ReadingEvents(passes);
    CountNextTwo(audit, events[0], events[1]);
    CountNextTwo(audit + [events[0], events[1]], events[2], events[3]);
    var decided := audit + [events[0], events[1]] + [events[2], events[3]];
    if passes {
      CountNextTwo(decided, events[4], events[5]);
      CountNext(decided + [events[4], events[5]], events[6]);
      assert decided + [events[4], events[5]] + [events[6]] == audit + events;
    } else {
      CountNext(decided, events[4]);
      assert decided + [events[4]] == audit + events;
    }
  }

  // ---- The steps ----

  lemma NewDocumentAccounts(config: Config, sourceMessageId: string, content: string, correlationId: Uuid)
    ensures Accounts(NewDocument(config, sourceMessageId, content, correlationId))
  {
    CountNextTwo([], Note(DocumentReceived, SYSTEM), StateTransition(Received, Queued, SYSTEM));
    assert [] + [Note(DocumentReceived, SYSTEM), StateTransition(Received, Queued, SYSTEM)]
        == [Note(DocumentReceived, SYSTEM), StateTransition(Received, Queued, SYSTEM)];
  }

  lemma AttemptAccounts(work: Work, now: nat, settings: Settings, world: World, doc: Document)
    requires Accounts(work.doc) && RowsFitStatus(work.doc) && IsUnfinished(work.doc.status)
    requires Writes(work, now, settings, world, doc)
    ensures Accounts(doc)
  {
    hide Passes, Count, ReadingEvents;
    var audit := work.doc.audit;
    if work.doc.status == Approved {
      CountNextTwo(audit, Note(ErpSubmitted, SYSTEM), StateTransition(Approved, Submitted, SYSTEM));
    } else if world.provider.Returned? {
      CountReading(audit, Passes(world.provider.invoice, settings, work.erp, work.submissions));
    } else {
      CountNextTwo(audit, StateTransition(Queued, Processing, SYSTEM), StateTransition(Processing, NeedsReview, SYSTEM));
      var moved := audit + [StateTransition(Queued, Processing, SYSTEM), StateTransition(Processing, NeedsReview, SYSTEM)];
      CountNext(moved, Note(OutputInvalid, SYSTEM));
      assert moved + [Note(OutputInvalid, SYSTEM)] == doc.audit;
    }
  }

  lemma RetryAccounts(doc: Document, retryCount: nat, errorClass: string)
    requires Accounts(doc) && retryCount > 0
    ensures Accounts(RetryNoted(doc, retryCount, errorClass))
  {
    hide Count;
    CountNext(doc.audit, Note(RetryScheduled, SYSTEM));
  }

  lemma ExhaustionAccounts(doc: Document, retryCount: nat, errorClass: string)
    requires Accounts(doc) && IsUnfinished(doc.status) && retryCount > 0 && doc.retryCount > 0
    ensures Accounts(MarkedExhausted(doc, retryCount, errorClass))
  {
    hide Count;
    CountNext(doc.audit, StateTransition(doc.status, Failed, SYSTEM));
    CountNext(doc.audit + [StateTransition(doc.status, Failed, SYSTEM)], Note(RetriesExhausted, SYSTEM));
  }

  lemma ApprovalAccounts(doc: Document, now: nat, approval: Approval)
    requires Accounts(doc) && doc.status == NeedsReview
    ensures Accounts(ApprovedRow(doc, now, approval))
  {
    hide Count;
    var note := Note(if approval.edited.None? then ReviewApproved else ReviewEditApproved, approval.actor);
    CountNext(doc.audit, note);
    CountNext(doc.audit + [note], StateTransition(NeedsReview, Approved, approval.actor));
  }

  lemma RejectionAccounts(doc: Document, now: nat, actor: string)
    requires Accounts(doc) && doc.status == NeedsReview
    ensures Accounts(RejectedRow(doc, now, actor))
  {
    hide Count;
    CountNext(doc.audit, Note(ReviewRejected, actor));
    CountNext(doc.audit + [Note(ReviewRejected, actor)], StateTransition(NeedsReview, Rejected, actor));
  }

  // ---- Whole runs ----

  /** Every log accounts for its row, and a retry in hand has been noted in the row it is for. */
  ghost predicate AllAccounted(system: System) {
    && (forall id :: id in system.db.documents ==> Accounts(system.db.documents[id]))
    && (system.worker.RetryRecorded? && system.worker.message.documentId in system.db.documents ==>
          system.db.documents[system.worker.message.documentId].retryCount > 0)
  }

  lemma DeliveryAccounts(config: Config, system: System, step: Step)
    requires Inv(config, system) && AllAccounted(system) && step.Deliver? && CanDeliver(system, step)
    ensures AllAccounted(AfterDeliver(config, system, step))
  {
    hide Inv, AfterDeliver, AttemptFor, Accounts, Writes, WellFormed;
    var message := system.broker[step.index];
    var row := DeliveryWrites(config, system, step);
    DeliveryLeavesNoRetry(config, system, step);
    if row != system.db.documents[message.documentId] {
      FitsStatus(config, system, message.documentId);
      AttemptAccounts(WorkFor(system, message), system.db.clock, config.settings, step.world, row);
    }
  }

  lemma FitsStatus(config: Config, system: System, id: Uuid)
    requires Inv(config, system) && id in system.db.documents
    ensures RowsFitStatus(system.db.documents[id])
  {
    assert WellFormed(system.db.documents[id], config.settings.maxRetries, system.db.clock);
  }

  lemma DeliveryLeavesNoRetry(config: Config, system: System, step: Step)
    requires step.Deliver? && CanDeliver(system, step)
    ensures !AfterDeliver(config, system, step).worker.RetryRecorded?
  {
    hide AttemptFor;
  }

  lemma FinaliserAccounts(config: Config, system: System, published: bool)
    requires Inv(config, system) && AllAccounted(system)
    ensures AllAccounted(AfterRetryOrExhaust(config, system, published))
  {
    hide Inv, Accounts;
    if system.worker.RetryRecorded? && system.worker.message.retries >= config.settings.maxRetries {
      FinaliserFindsUnfinished(config, system);
      ExhaustStep(config, system, published);
      ExhaustionAccounts(system.db.documents[system.worker.message.documentId], system.worker.message.retries + 1,
                         system.worker.errorClass);
    }
  }

  lemma NotingAccounts(system: System)
    requires AllAccounted(system)
    ensures AllAccounted(AfterRecordRetry(system))
  {
    hide Accounts;
    if system.worker.AttemptRaised? && system.worker.message.documentId in system.db.documents {
      RetryAccounts(system.db.documents[system.worker.message.documentId], system.worker.message.retries + 1,
                    system.worker.errorClass);
    }
  }

  lemma CommandAccounts(config: Config, system: System, step: Step)
    requires Inv(config, system) && AllAccounted(system) && IsCommand(step)
    ensures AllAccounted(Apply(config, system, step))
  {
    hide Inv, Accounts, Approve, AfterApprove, ApprovedRow, RejectedRow;
    if !ReportsChange(config, system, step, step.id) {
      RefusedAccounts(config, system, step);
    } else if step.ApproveCommand? {
      ApproveStep(config, system, step);
      AppliesApproval(config, system, step);
      ApprovalAccounts(system.db.documents[step.id], system.db.clock, step.approval);
      ApprovalKeepsRetries(system.db.documents[step.id], system.db.clock, step.approval);
    } else {
      RejectionAccounts(system.db.documents[step.id], system.db.clock, step.actor);
      RejectionKeepsRetries(system.db.documents[step.id], system.db.clock, step.actor);
    }
  }

  lemma RefusedAccounts(config: Config, system: System, step: Step)
    requires AllAccounted(system) && IsCommand(step) && !ReportsChange(config, system, step, step.id)
    ensures AllAccounted(Apply(config, system, step))
  {
    hide Accounts, Approve, Reject;
  }

  lemma ApprovalKeepsRetries(doc: Document, now: nat, approval: Approval)
    ensures ApprovedRow(doc, now, approval).retryCount == doc.retryCount
  {
  }

  lemma RejectionKeepsRetries(doc: Document, now: nat, actor: string)
    ensures RejectedRow(doc, now, actor).retryCount == doc.retryCount
  {
  }

  lemma UploadAccounts(config: Config, system: System, step: Step)
    requires Inv(config, system) && AllAccounted(system) && step.Upload?
    ensures AllAccounted(AfterUpload(config, system, step))
  {
    hide Inv, Accounts, NewDocument, IsKnownUpload;
    if system.worker.RetryRecorded? {
      FinaliserFindsUnfinished(config, system);
    }
    NewDocumentAccounts(config, step.sourceMessageId, step.content, step.correlationId);
  }

  lemma StepAccounts(config: Config, system: System, step: Step)
    requires Inv(config, system) && AllAccounted(system)
    ensures AllAccounted(Apply(config, system, step))
  {
    hide Inv, AllAccounted, AfterUpload, AfterDeliver, AfterRecordRetry, AfterRetryOrExhaust;
    if step.Upload? {
      UploadAccounts(config, system, step);
    } else if step.Deliver? && CanDeliver(system, step) {
      DeliveryAccounts(config, system, step);
    } else if step.RecordRetry? {
      NotingAccounts(system);
    } else if step.RetryOrExhaust? {
      FinaliserAccounts(config, system, step.published);
    } else if IsCommand(step) {
      CommandAccounts(config, system, step);
    } else {
      hide Apply;
      MessageStepAccounts(config, system, step);
    }
  }

  lemma MessageStepAccounts(config: Config, system: System, step: Step)
    requires AllAccounted(system)
    requires step.PushDeadLetter? || step.Crash? || step.Abort? || step.Redeliver? || (step.Deliver? && !CanDeliver(system, step))
    ensures AllAccounted(Apply(config, system, step))
  {
    hide Accounts;
    MessageStepKeepsDocuments(config, system, step);
  }

  /** In every reachable state the audit log of every document accounts for its row. */
  lemma {:induction false} LogsAccountForRows(config: Config, steps: seq<Step>)
    ensures AllAccounted(Exec(config, Init(config), steps))
  {
    hide AllAccounted, Inv, Apply;
    if steps == [] {
      NothingToAccount(config);
    } else {
      var front := steps[..|steps| - 1];
      LogsAccountForRows(config, front);
      ReachableKeeps(config, front);
      StepAccounts(config, Exec(config, Init(config), front), steps[|steps| - 1]);
    }
  }

  lemma NothingToAccount(config: Config)
    ensures AllAccounted(Init(config))
  {
  }
}
