/** Why a document was retried or given up: over every run, each retry counter and each entry of the dead-letter
    queue goes back to a delivery that ended in an error of the class they name. */
module RetryCauses {
  import opened Options
  import opened WorkflowStates
  import opened Identifiers
  import opened Records
  import opened Attempts
  import opened Reviews
  import opened CommittedRows
  import opened Pipeline
  import opened Invariants
  import opened Deliveries
  import opened ForwardSimulation
  import opened RetryExhaustion
  import opened AttemptOutcomes
  import opened ReviewHistory
  import opened WrittenRows

  // ---- One step ----

  /** A delivery of this message, met by the worker to the end, that the row and the world foretell to be retried
      under this class. */
  ghost predicate EndsInRetry(config: Config, system: System, step: Step, message: Message, errorClass: string) {
    && step.Deliver? && CanDeliver(system, step) && system.broker[step.index] == message
    && step.fate in {Acknowledged, CommitFailed}
    && message.documentId in system.db.documents
    && AllParsed(system.db.documents[message.documentId])
    && EndingOf(WorkFor(system, message), config.settings, step.world) == Retries(errorClass)
  }

  lemma DeliveryHandsOver(config: Config, system: System, step: Step)
    requires Inv(config, system) && step.Deliver? && CanDeliver(system, step)
    ensures
      var worker := AfterDeliver(config, system, step).worker;
      && (worker.Idle? || worker.AttemptRaised?)
      && (worker.AttemptRaised? ==> EndsInRetry(config, system, step, worker.message, worker.errorClass))
  {
    hide Inv, AttemptFor, AfterDeliver, Delivered, EndingOf, WellFormed, Sent;
    var attempt := DeliverySummary(config, system, step);
    DeliveryFits(config, system, system.broker[step.index], step.world);
    assert step.fate.Acknowledged? || step.fate.CommitFailed? || step.fate.CrashBeforeCommit? || step.fate.CrashAfterCommit?;
  }

  /** What the worker has in hand it had before, or has from a delivery that ended in a retry. */
  lemma HandedOver(config: Config, system: System, step: Step)
    requires Inv(config, system) && !Apply(config, system, step).worker.Idle?
    ensures
      var worker := Apply(config, system, step).worker;
      || (!system.worker.Idle? && worker.message == system.worker.message && worker.errorClass == system.worker.errorClass)
      || EndsInRetry(config, system, step, worker.message, worker.errorClass)
  {
    hide Inv, AfterDeliver, EndsInRetry, Approve, IsKnownUpload;
    if step.Deliver? && CanDeliver(system, step) {
      DeliveryHandsOver(config, system, step);
    } else if step.Deliver? {
      NoDelivery(config, system, step);
    }
  }

  /** The row counts the retry that the worker has in hand. */
  ghost predicate CountsRetry(worker: Worker, doc: Document) {
    && !worker.Idle?
    && doc.retryCount == worker.message.retries + 1
    && doc.lastErrorClass == Some(worker.errorClass)
  }

  ghost predicate SameCounters(a: Document, b: Document) {
    a.retryCount == b.retryCount && a.lastErrorClass == b.lastErrorClass
  }

  /** A step keeps a document's counters or sets them from the message in hand; it never touches those of a failed
      document. */
  ghost predicate CountersFollow(before: System, after: System, id: Uuid)
    requires id in before.db.documents
  {
    && id in after.db.documents
    && (|| SameCounters(before.db.documents[id], after.db.documents[id])
        || (&& before.db.documents[id].status != Failed
            && !before.worker.Idle? && before.worker.message.documentId == id
            && CountsRetry(before.worker, after.db.documents[id])))
  }

  lemma DeliveryCounts(config: Config, system: System, step: Step, id: Uuid)
    requires Inv(config, system) && step.Deliver? && CanDeliver(system, step) && id in system.db.documents
    ensures CountersFollow(system, AfterDeliver(config, system, step), id)
  {
    hide Inv, AfterDeliver, AttemptFor, Passes;
    var row := DeliveryWrites(config, system, step);
  }

  lemma CommandCounts(config: Config, system: System, step: Step, id: Uuid)
    requires IsCommand(step) && id in system.db.documents
    ensures CountersFollow(system, Apply(config, system, step), id)
  {
    hide Approve, AfterApprove;
    if !ReportsChange(config, system, step, step.id) {
      RefusalChangesNoRow(config, system, step);
    } else if step.ApproveCommand? {
      ApproveStep(config, system, step);
      AppliesApproval(config, system, step);
    }
  }

  lemma WorkerCounts(config: Config, system: System, step: Step, id: Uuid)
    requires Inv(config, system) && id in system.db.documents && (step.RecordRetry? || step.RetryOrExhaust?)
    ensures CountersFollow(system, Apply(config, system, step), id)
  {
    hide Inv;
    if system.worker.AttemptRaised? || system.worker.RetryRecorded? {
      FinaliserFindsUnfinished(config, system);
    }
  }

  lemma QuietCounts(config: Config, system: System, step: Step, id: Uuid)
    requires id in system.db.documents && !IsCommand(step) && !step.RecordRetry? && !step.RetryOrExhaust?
    requires !(step.Deliver? && CanDeliver(system, step))
    ensures CountersFollow(system, Apply(config, system, step), id)
  {
    hide NewDocument, IsKnownUpload, AttemptFor;
  }

  lemma StepCounts(config: Config, system: System, step: Step, id: Uuid)
    requires Inv(config, system) && id in system.db.documents
    ensures CountersFollow(system, Apply(config, system, step), id)
  {
    hide Inv, AfterDeliver, AfterRetryOrExhaust, AfterRecordRetry, CountersFollow, AfterApprove, AfterUpload;
    if step.Deliver? && CanDeliver(system, step) {
      DeliveryCounts(config, system, step, id);
    } else if step.RecordRetry? || step.RetryOrExhaust? {
      WorkerCounts(config, system, step, id);
    } else if IsCommand(step) {
      CommandCounts(config, system, step, id);
    } else {
      QuietCounts(config, system, step, id);
    }
  }

  lemma NewDocumentCounts(config: Config, system: System, step: Step, id: Uuid)
    requires Inv(config, system) && id !in system.db.documents && id in Apply(config, system, step).db.documents
    ensures Apply(config, system, step).db.documents[id].retryCount == 0
    ensures Apply(config, system, step).db.documents[id].lastErrorClass == None
  {
    hide Inv, AfterDeliver;
    NewDocumentsAreQueued(config, system, step, id);
  }

  // ---- Where the counters come from ----

  /** Before step `n` of the run a delivery of this message ended in a retry under this class. */
  ghost predicate RetriedBefore(config: Config, steps: seq<Step>, n: nat, message: Message, errorClass: string) {
    exists k: nat :: k < n && k < |steps| && EndsInRetry(config, StateAt(config, steps, k), steps[k], message, errorClass)
  }

  /** A row that counts no retry names no error; one that does names the error that its last counted try ended in. */
  ghost predicate CountersCaused(config: Config, steps: seq<Step>, n: nat, id: Uuid, doc: Document) {
    if doc.retryCount == 0 then doc.lastErrorClass == None
    else
      && doc.lastErrorClass.Some?
      && RetriedBefore(config, steps, n, Message(id, doc.correlationId, doc.retryCount - 1), doc.lastErrorClass.value)
  }

  ghost predicate AllCaused(config: Config, steps: seq<Step>, n: nat, system: System) {
    && (!system.worker.Idle? ==> RetriedBefore(config, steps, n, system.worker.message, system.worker.errorClass))
    && forall id :: id in system.db.documents ==> CountersCaused(config, steps, n, id, system.db.documents[id])
  }

  lemma CausesLast(config: Config, steps: seq<Step>, n: nat)
    ensures forall message, errorClass :: RetriedBefore(config, steps, n, message, errorClass)
              ==> RetriedBefore(config, steps, n + 1, message, errorClass)
  {
    hide EndsInRetry, StateAt;
  }

  lemma WorkerCaused(config: Config, steps: seq<Step>, n: nat)
    requires n < |steps| && AllCaused(config, steps, n, StateAt(config, steps, n))
    ensures
      var worker := StateAt(config, steps, n + 1).worker;
      !worker.Idle? ==> RetriedBefore(config, steps, n + 1, worker.message, worker.errorClass)
  {
    hide StateAt, Inv, Apply, EndsInRetry, CountersCaused;
    StateAtKeeps(config, steps, n);
    StateAtNext(config, steps, n);
    CausesLast(config, steps, n);
    if !StateAt(config, steps, n + 1).worker.Idle? {
      HandedOver(config, StateAt(config, steps, n), steps[n]);
    }
  }

  lemma RowCaused(config: Config, steps: seq<Step>, n: nat, id: Uuid)
    requires n < |steps| && AllCaused(config, steps, n, StateAt(config, steps, n))
    requires id in StateAt(config, steps, n + 1).db.documents
    ensures CountersCaused(config, steps, n + 1, id, StateAt(config, steps, n + 1).db.documents[id])
  {
    hide StateAt, Inv, Apply, RetriedBefore;
    var before, after := StateAt(config, steps, n), StateAt(config, steps, n + 1);
    StateAtKeeps(config, steps, n);
    StateAtNext(config, steps, n);
    CausesLast(config, steps, n);
    if id in before.db.documents {
      StepCounts(config, before, steps[n], id);
      StepKeepsCorrelation(config, before, steps[n], id);
      MessageNames(config, before);
    } else {
      NewDocumentCounts(config, before, steps[n], id);
    }
  }

  lemma MessageNames(config: Config, system: System)
    requires Inv(config, system)
    ensures !system.worker.Idle? ==> MessageFits(config, system, system.worker.message)
  {
    hide DocumentsFit, KeysFit, SubmissionsFit, SubmittedFit, DlqFits, ErpFits;
  }

  lemma StepKeepsCorrelation(config: Config, system: System, step: Step, id: Uuid)
    requires Inv(config, system) && id in system.db.documents
    ensures id in Apply(config, system, step).db.documents
    ensures Apply(config, system, step).db.documents[id].correlationId == system.db.documents[id].correlationId
  {
    hide Inv, AfterDeliver, AfterApprove, AttemptFor, Passes;
    if step.Deliver? && CanDeliver(system, step) {
      var row := DeliveryWrites(config, system, step);
    } else if step.Deliver? {
      NoDelivery(config, system, step);
    } else if IsCommand(step) {
      CommandKeepsCorrelation(config, system, step, id);
    }
  }

  lemma CommandKeepsCorrelation(config: Config, system: System, step: Step, id: Uuid)
    requires IsCommand(step) && id in system.db.documents
    ensures id in Apply(config, system, step).db.documents
    ensures Apply(config, system, step).db.documents[id].correlationId == system.db.documents[id].correlationId
  {
    hide Approve, AfterApprove;
    if !ReportsChange(config, system, step, step.id) {
      RefusalChangesNoRow(config, system, step);
    } else if step.ApproveCommand? {
      ApproveStep(config, system, step);
      AppliesApproval(config, system, step);
    }
  }

  /** At every point of every run, a document's retry counter is that of a delivery of its message that ended in a
      retry, one more than the tries that message had behind it, and the error it names is the one that delivery
      ended in; a document never retried names none. */
  lemma {:induction false} RetriesHaveCauses(config: Config, steps: seq<Step>, n: nat)
    requires n <= |steps|
    ensures AllCaused(config, steps, n, StateAt(config, steps, n))
    decreases n
  {
    if n == 0 {
      assert StateAt(config, steps, 0) == Init(config);
    } else {
      hide StateAt, CountersCaused, RetriedBefore;
      RetriesHaveCauses(config, steps, n - 1);
      WorkerCaused(config, steps, n - 1);
      forall id | id in StateAt(config, steps, n).db.documents
        ensures CountersCaused(config, steps, n, id, StateAt(config, steps, n).db.documents[id])
      {
        RowCaused(config, steps, n - 1, id);
      }
    }
  }

  // ---- What the dead-letter queue says ----

  /** The entry says of its document what the document's own row says. */
  ghost predicate Tells(system: System, entry: DlqEntry) {
    && entry.documentId in system.db.documents
    && var doc := system.db.documents[entry.documentId];
    && entry.correlationId == doc.correlationId
    && entry.retryCount == doc.retryCount
    && doc.lastErrorClass == Some(entry.errorClass)
  }

  ghost predicate AllTell(system: System) {
    && (forall i :: 0 <= i < |system.dlq| ==> Tells(system, system.dlq[i]))
    && (system.worker.Exhausted? ==> Tells(system, DeadLetter(system.worker.message, system.worker.errorClass)))
  }

  lemma TellsStays(config: Config, system: System, step: Step, entry: DlqEntry)
    requires Inv(config, system) && Tells(system, entry) && IsFailedDocument(system, entry.documentId)
    ensures Tells(Apply(config, system, step), entry)
  {
    hide Inv, Apply;
    StepCounts(config, system, step, entry.documentId);
    StepKeepsCorrelation(config, system, step, entry.documentId);
  }

  lemma ExhaustionTells(config: Config, system: System, published: bool)
    requires Inv(config, system) && !system.worker.Exhausted?
    ensures
      var after := AfterRetryOrExhaust(config, system, published);
      after.worker.Exhausted? ==> Tells(after, DeadLetter(after.worker.message, after.worker.errorClass))
  {
    MessageNames(config, system);
    hide Inv;
    if system.worker.RetryRecorded? && system.worker.message.retries >= config.settings.maxRetries {
      FinaliserFindsUnfinished(config, system);
      ExhaustStep(config, system, published);
    }
  }

  lemma ListedHaveFailed(config: Config, system: System)
    requires Inv(config, system)
    ensures forall i :: 0 <= i < |system.dlq| ==> IsFailedDocument(system, system.dlq[i].documentId)
    ensures system.worker.Exhausted? ==> IsFailedDocument(system, system.worker.message.documentId)
  {
    hide DocumentsFit, KeysFit, SubmissionsFit, SubmittedFit, ErpFits;
  }

  lemma QueueGrows(config: Config, system: System, step: Step)
    ensures
      var after := Apply(config, system, step);
      && after.dlq == (if step.PushDeadLetter? && system.worker.Exhausted?
                       then system.dlq + [DeadLetter(system.worker.message, system.worker.errorClass)] else system.dlq)
      && (after.worker.Exhausted? && !step.RetryOrExhaust? ==> after.worker == system.worker)
      && (step.RetryOrExhaust? && system.worker.Exhausted? ==> after.worker == system.worker)
  {
    hide AttemptFor, Approve, IsKnownUpload;
  }

  lemma StepTells(config: Config, system: System, step: Step)
    requires Inv(config, system) && AllTell(system)
    ensures AllTell(Apply(config, system, step))
  {
    hide Inv, Apply, Tells, AfterRetryOrExhaust;
    var after := Apply(config, system, step);
    QueueGrows(config, system, step);
    ListedHaveFailed(config, system);
    if system.worker.Exhausted? {
      TellsStays(config, system, step, DeadLetter(system.worker.message, system.worker.errorClass));
    } else if step.RetryOrExhaust? {
      ExhaustionTells(config, system, step.published);
      FinaliserStep(config, system, step);
    }
    forall i | 0 <= i < |system.dlq|
      ensures Tells(after, system.dlq[i])
    {
      TellsStays(config, system, step, system.dlq[i]);
    }
  }

  lemma FinaliserStep(config: Config, system: System, step: Step)
    requires step.RetryOrExhaust?
    ensures Apply(config, system, step) == AfterRetryOrExhaust(config, system, step.published)
  {
    hide AfterRetryOrExhaust;
  }

  lemma {:induction false} EntriesTell(config: Config, steps: seq<Step>)
    ensures AllTell(Exec(config, Init(config), steps))
  {
    hide AllTell, Inv, Apply;
    if steps == [] {
      NothingToTell(config);
    } else {
      var front := steps[..|steps| - 1];
      EntriesTell(config, front);
      ReachableKeeps(config, front);
      StepTells(config, Exec(config, Init(config), front), steps[|steps| - 1]);
    }
  }

  lemma NothingToTell(config: Config)
    ensures AllTell(Init(config))
  {
  }

  /** Every entry of the dead-letter queue, after any run, gives the correlation id, the retry count and the error
      class that its document's row has, and the last try the document was allowed ended in that error. */
  lemma DeadLettersSayWhy(config: Config, steps: seq<Step>, i: nat)
    requires i < |Exec(config, Init(config), steps).dlq|
    ensures
      var end := Exec(config, Init(config), steps);
      var entry := end.dlq[i];
      && Tells(end, entry)
      && RetriedBefore(config, steps, |steps|, Message(entry.documentId, entry.correlationId, config.settings.maxRetries),
                       entry.errorClass)
  {
    hide Exec, Inv, RetriedBefore;
    assert steps[..|steps|] == steps;
    EntriesTell(config, steps);
    RetriesHaveCauses(config, steps, |steps|);
    RetriesAreBounded(config, steps);
  }
}
