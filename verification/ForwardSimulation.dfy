/** The committed life of a document, over every run: which statuses are ever committed, who commits them,
    and what happens to a document whose last message is gone. */
module ForwardSimulation {
  import opened Options
  import opened WorkflowStates
  import opened Identifiers
  import opened Records
  import opened Attempts
  import opened Reviews
  import opened CommittedRows
  import opened Pipeline
  import opened Invariants
  import opened Deliveries

  /** The edges a committed status takes. They are fewer than the life cycle's: what happens between two
      commits is not seen. */
  predicate CommittedEdge(source: WorkflowState, target: WorkflowState) {
    match source
    case Queued => target in {NeedsReview, Submitted, Failed}
    case NeedsReview => target in {Approved, Rejected}
    case Approved => target in {Submitted, Failed}
    case _ => false
  }

  /** One step of the pipeline, seen from one document. Only the finaliser commits a failure. */
  ghost predicate Follows(before: System, after: System, step: Step, id: Uuid)
    requires id in before.db.documents
  {
    && id in after.db.documents
    && var source, target := before.db.documents[id].status, after.db.documents[id].status;
    && (source == target || CommittedEdge(source, target))
    && (target == Failed && source != Failed ==> step.RetryOrExhaust?)
    && (target in {Approved, Rejected} && source != target ==> step.ApproveCommand? || step.RejectCommand?)
    && (target in {NeedsReview, Submitted} && source != target ==> step.Deliver?)
  }

  lemma NoDelivery(config: Config, system: System, step: Step)
    requires step.Deliver? && !CanDeliver(system, step)
    ensures AfterDeliver(config, system, step) == system
  {
  }

  lemma DeliverFollows(config: Config, system: System, step: Step, id: Uuid)
    requires Inv(config, system) && step.Deliver? && id in system.db.documents
    ensures Follows(system, AfterDeliver(config, system, step), step, id)
  {
    hide Inv, AfterDeliver, AttemptFor, AfterAttempt, WellFormed, SubmissionsFit, Covered;
    if CanDeliver(system, step) {
      DeliverCases(config, system, step);
    } else {
      NoDelivery(config, system, step);
    }
  }

  lemma RetryFollows(config: Config, system: System, published: bool, id: Uuid)
    requires Inv(config, system) && id in system.db.documents
    ensures Follows(system, AfterRetryOrExhaust(config, system, published), RetryOrExhaust(published), id)
  {
    hide Inv;
    if system.worker.RetryRecorded? && system.worker.message.retries >= config.settings.maxRetries {
      FinaliserFindsUnfinished(config, system);
      ExhaustStep(config, system, published);
    }
  }

  lemma ApproveFollows(config: Config, system: System, step: Step, id: Uuid)
    requires Inv(config, system) && step.ApproveCommand? && id in system.db.documents
    ensures Follows(system, AfterApprove(config, system, step), step, id)
  {
    if step.id in system.db.documents && ApproveOutcome(config, system, step).result == Changed {
      ApproveStep(config, system, step);
    }
  }

  /** Every step of the pipeline keeps every document's status or takes a committed edge. */
  lemma StepFollows(config: Config, system: System, step: Step, id: Uuid)
    requires Inv(config, system) && id in system.db.documents
    ensures Follows(system, Apply(config, system, step), step, id)
  {
    hide Inv;
    match step
    case Upload(_, _, _, _, _) =>
    case Deliver(_, _, _) => DeliverFollows(config, system, step, id);
    case RecordRetry =>
    case RetryOrExhaust(published) => RetryFollows(config, system, published, id);
    case PushDeadLetter =>
    case Crash =>
    case Abort =>
    case Redeliver(message) =>
    case ApproveCommand(_, _, _) => ApproveFollows(config, system, step, id);
    case RejectCommand(_, _) =>
  }

  lemma DeliveryAddsNone(config: Config, system: System, step: Step)
    requires Inv(config, system) && step.Deliver? && CanDeliver(system, step)
    ensures AfterDeliver(config, system, step).db.documents.Keys == system.db.documents.Keys
  {
    hide Inv, AfterDeliver, AttemptFor, WellFormed, Calls, Completes;
    var attempt := DeliverySummary(config, system, step);
    assert attempt.work.id in system.db.documents;
  }

  lemma OthersAddQueued(config: Config, system: System, step: Step, id: Uuid)
    requires !(step.Deliver? && CanDeliver(system, step))
    requires id !in system.db.documents && id in Apply(config, system, step).db.documents
    ensures Apply(config, system, step).db.documents[id].status == Queued && step.Upload?
  {
    hide AttemptFor, ApproveOutcome;
  }

  /** Every document that a step adds is committed as queued. */
  lemma NewDocumentsAreQueued(config: Config, system: System, step: Step, id: Uuid)
    requires Inv(config, system) && id !in system.db.documents && id in Apply(config, system, step).db.documents
    ensures Apply(config, system, step).db.documents[id].status == Queued && step.Upload?
  {
    hide Inv, AfterDeliver;
    if step.Deliver? && CanDeliver(system, step) {
      DeliveryAddsNone(config, system, step);
    } else {
      hide Apply;
      OthersAddQueued(config, system, step, id);
    }
  }

  /** In every run, at every point, each document is new and queued, or takes a committed edge or stays; and
      no committed row is ever received, processing or extracted. */
  lemma EveryRunFollows(config: Config, steps: seq<Step>, n: nat, id: Uuid)
    requires n < |steps| && id in StateAt(config, steps, n + 1).db.documents
    ensures
      var before, after := StateAt(config, steps, n), StateAt(config, steps, n + 1);
      && after.db.documents[id].status !in {Received, Processing, Extracted}
      && if id in before.db.documents then Follows(before, after, steps[n], id)
         else after.db.documents[id].status == Queued
  {
    var before := StateAt(config, steps, n);
    ReachableKeeps(config, steps[..n]);
    ReachableKeeps(config, steps[..n + 1]);
    StateAtNext(config, steps, n);
    assert WellFormed(StateAt(config, steps, n + 1).db.documents[id], config.settings.maxRetries,
                      StateAt(config, steps, n + 1).db.clock);
    if id in before.db.documents {
      StepFollows(config, before, steps[n], id);
    } else {
      NewDocumentsAreQueued(config, before, steps[n], id);
    }
  }

  /** The audit log of every committed document replays, edge by edge of the life cycle, from received to the
      status committed with it; and it never holds more than six transitions. */
  lemma EveryAuditLogReplays(config: Config, steps: seq<Step>, id: Uuid)
    requires id in Exec(config, Init(config), steps).db.documents
    ensures
      var doc := Exec(config, Init(config), steps).db.documents[id];
      && Replay(doc.audit) == Some(doc.status)
      && TransitionCount(doc.audit) <= 6
  {
    ReachableKeeps(config, steps);
    var system := Exec(config, Init(config), steps);
    assert WellFormed(system.db.documents[id], config.settings.maxRetries, system.db.clock);
    ReplayIsShort(system.db.documents[id].audit);
  }

  // ---- Failures that are rolled back ----

  /** An unreadable PDF: the attempt's own copy of the document ends failed, the committed row stays queued. */
  lemma UnreadablePdfIsNotCommitted(config: Config, system: System, step: Step)
    requires Inv(config, system) && step.Deliver? && CanDeliver(system, step) && !step.world.pdfReadable
    requires
      var id := system.broker[step.index].documentId;
      id in system.db.documents && system.db.documents[id].status == Queued
    ensures
      var message := system.broker[step.index];
      var attempt := AttemptFor(config, system, message, step.world);
      && attempt.raised == WorkflowFailure
      && attempt.work.doc.status == Failed
      && AfterDeliver(config, system, step).db.documents[message.documentId].status == Queued
  {
    hide Process, AfterDeliver, Decided, Completes, Calls;
    var message := system.broker[step.index];
    var attempt := DeliverySummary(config, system, step);
    UnfinishedOwnsNoRow(config, system, message.documentId);
    DeliveredBehaves(config, system, message, step.world);
    hide Inv, AttemptFor;
    UnreadableAttempt(WorkFor(system, message), system.db.clock, config.settings, step.world);
  }

  lemma UnreadableAttempt(work: Work, now: nat, settings: Settings, world: World)
    requires work.doc.status == Queued && work.doc.extractions == [] && RowOf(work.submissions, work.id).None?
    requires !world.pdfReadable
    ensures Process(work, now, settings, world).raised == WorkflowFailure
    ensures Process(work, now, settings, world).work.doc.status == Failed
  {
    hide Decide, Submit;
  }

  /** Queued or approved, with no message left that would resume it. */
  ghost predicate Stranded(system: System, id: Uuid) {
    && id in system.db.documents
    && IsUnfinished(system.db.documents[id].status)
    && (forall i :: 0 <= i < |system.broker| ==> system.broker[i].documentId != id)
    && (!system.worker.Idle? ==> system.worker.message.documentId != id)
  }

  lemma StrandedDelivery(config: Config, system: System, step: Step, id: Uuid)
    requires Inv(config, system) && Stranded(system, id) && step.Deliver?
    ensures Stranded(AfterDeliver(config, system, step), id)
    ensures AfterDeliver(config, system, step).db.documents[id] == system.db.documents[id]
  {
    hide Inv;
    if CanDeliver(system, step) {
      DeliverCases(config, system, step);
      WithoutSubset(system.broker, step.index);
    }
  }

  lemma StrandedApproval(config: Config, system: System, step: Step, id: Uuid)
    requires Stranded(system, id) && step.ApproveCommand?
    ensures Stranded(AfterApprove(config, system, step), id)
    ensures AfterApprove(config, system, step).db.documents[id] == system.db.documents[id]
  {
    if step.id in system.db.documents && ApproveOutcome(config, system, step).result == Changed {
      ApproveStep(config, system, step);
    }
  }

  lemma StrandedStep(config: Config, system: System, step: Step, id: Uuid)
    requires Inv(config, system) && Stranded(system, id)
    ensures Stranded(Apply(config, system, step), id)
    ensures Apply(config, system, step).db.documents[id] == system.db.documents[id]
  {
    hide Inv;
    if step.Deliver? {
      StrandedDelivery(config, system, step, id);
    } else if step.ApproveCommand? {
      StrandedApproval(config, system, step, id);
    }
  }

  /** A stranded document is stranded for good: no delivery, redelivery, review command or repeated upload
      changes its row ever again. */
  lemma {:induction false} StrandedForever(config: Config, system: System, steps: seq<Step>, id: Uuid)
    requires Inv(config, system) && Stranded(system, id)
    ensures Stranded(Exec(config, system, steps), id)
    ensures Exec(config, system, steps).db.documents[id] == system.db.documents[id]
  {
    if steps != [] {
      var front := steps[..|steps| - 1];
      StrandedForever(config, system, front, id);
      RunKeeps(config, system, front);
      StrandedStep(config, Exec(config, system, front), steps[|steps| - 1], id);
    }
  }
}
