/** When a queued or approved document is left with no message that would resume it: exactly which steps do
    that, and that nothing undoes it. */
module Stranding {
  import opened WorkflowStates
  import opened BusinessRules
  import opened Identifiers
  import opened Attempts
  import opened Reviews
  import opened CommittedRows
  import opened Pipeline
  import opened Invariants
  import opened Deliveries
  import opened ForwardSimulation
  import opened ReviewAnswers
  import opened Drain
  import opened AttemptOutcomes

  /** The upload is accepted as a new document. */
  predicate IsNewUpload(config: Config, system: System, step: Step)
    requires step.Upload?
  {
    && step.sourceMessageId != "" && step.content != ""
    && step.id !in system.db.documents
    && !IsKnownUpload(system.db, UploadKey(config.sha, step.sourceMessageId, config.sha(step.content)))
  }

  /** The approval finds the document in review and nothing to object to. */
  ghost predicate IsApprovable(config: Config, system: System, step: Step)
    requires step.ApproveCommand? && step.id in system.db.documents
  {
    var doc := system.db.documents[step.id];
    && doc.status == NeedsReview
    && !LookUpsFail(step.approval)
    && MayApprove(config, system, doc, step.approval)
  }

  /** The attempt is made on an unfinished row, and neither commits nor keeps its message: it gives up, or its
      commit fails after it finished. */
  ghost predicate LosesAttempt(config: Config, system: System, step: Step)
    requires step.Deliver? && step.index < |system.broker|
  {
    var message := system.broker[step.index];
    && message.documentId in system.db.documents
    && IsUnfinished(system.db.documents[message.documentId].status)
    && AllParsed(system.db.documents[message.documentId])
    && var ending := EndingOf(WorkFor(system, message), config.settings, step.world);
    || (ending == GivesUp && step.fate in {Acknowledged, CommitFailed})
    || (ending == Finishes && step.fate == CommitFailed)
  }

  /** The step takes away the last message that would resume document `id`, or makes it need one without
      publishing any. */
  ghost predicate Strands(config: Config, system: System, step: Step, id: Uuid) {
    match step
    case Upload(_, _, _, _, enqueued) => step.id == id && IsNewUpload(config, system, step) && !enqueued
    case ApproveCommand(_, _, enqueued) =>
      && step.id == id && id in system.db.documents && IsApprovable(config, system, step)
      && !enqueued && !HasMessage(system.broker, id)
    case Deliver(index, _, _) =>
      && CanDeliver(system, step) && system.broker[index].documentId == id
      && !HasMessage(Without(system.broker, index), id)
      && LosesAttempt(config, system, step)
    case RetryOrExhaust(published) =>
      && system.worker.RetryRecorded? && system.worker.message.documentId == id
      && system.worker.message.retries < config.settings.maxRetries
      && !published && !HasMessage(system.broker, id)
    case Abort => InHand(system.worker, id) && !HasMessage(system.broker, id)
    case _ => false
  }

  /** In a state that keeps the invariant, a stranded document is an unfinished one with no message, neither
      in the broker nor in hand. */
  lemma StrandedMeans(config: Config, system: System, id: Uuid)
    requires Inv(config, system)
    ensures Stranded(system, id) <==>
            && id in system.db.documents && IsUnfinished(system.db.documents[id].status)
            && !HasMessage(system.broker, id) && !InHand(system.worker, id)
  {
    hide DocumentsFit, KeysFit, DlqFits, SubmissionsFit, SubmittedFit, ErpFits;
  }

  /** `id` is unfinished and nothing would resume it. */
  ghost predicate Untended(system: System, id: Uuid) {
    && id in system.db.documents && IsUnfinished(system.db.documents[id].status)
    && !HasMessage(system.broker, id) && !InHand(system.worker, id)
  }

  lemma OnlyKnownHaveMessages(config: Config, system: System, id: Uuid)
    requires Inv(config, system) && id !in system.db.documents
    ensures !HasMessage(system.broker, id) && (!system.worker.Idle? ==> system.worker.message.documentId != id)
  {
    hide DocumentsFit, KeysFit, WorkerFits, DlqFits, SubmissionsFit, SubmittedFit, ErpFits;
  }

  lemma NoMessageAdded(broker: seq<Message>, message: Message, id: Uuid)
    ensures HasMessage(broker + [message], id) <==> HasMessage(broker, id) || message.documentId == id
  {
    MoreMessages(broker, message);
    if HasMessage(broker + [message], id) {
      var i :| 0 <= i < |broker + [message]| && (broker + [message])[i].documentId == id;
      assert i < |broker| ==> broker[i].documentId == id;
    }
  }

  lemma NoMessageTaken(broker: seq<Message>, index: nat, id: Uuid)
    requires index < |broker|
    ensures HasMessage(broker, id) <==> HasMessage(Without(broker, index), id) || broker[index].documentId == id
  {
    var rest := Without(broker, index);
    if HasMessage(rest, id) {
      var i :| 0 <= i < |rest| && rest[i].documentId == id;
      assert broker[if i < index then i else i + 1] == rest[i];
    }
    if HasMessage(broker, id) && broker[index].documentId != id {
      WithoutOther(broker, index, id);
    }
  }

  // ---- One step ----

  lemma UploadStrands(config: Config, system: System, step: Step, id: Uuid)
    requires Inv(config, system) && step.Upload? && !Untended(system, id)
    ensures Untended(AfterUpload(config, system, step), id) <==> Strands(config, system, step, id)
  {
    if step.id !in system.db.documents {
      OnlyKnownHaveMessages(config, system, step.id);
    }
    hide Inv, HasMessage;
    NoMessageAdded(system.broker, Message(step.id, step.correlationId, 0), id);
  }

  lemma ApprovableChanges(config: Config, system: System, step: Step)
    requires Inv(config, system) && step.ApproveCommand? && step.id in system.db.documents
    ensures IsApprovable(config, system, step) <==> ApproveOutcome(config, system, step).result == Changed
  {
    hide Inv, MayApprove, LookUpsFail, ApproveOutcome, Breaks, Context;
    ApproveAnswers(config, system, step);
  }

  lemma ApprovalStrands(config: Config, system: System, step: Step, id: Uuid)
    requires Inv(config, system) && step.ApproveCommand? && !Untended(system, id)
    ensures Untended(AfterApprove(config, system, step), id) <==> Strands(config, system, step, id)
  {
    hide HasMessage, Approve, IsApprovable, AfterApprove;
    if step.id in system.db.documents {
      ApprovableChanges(config, system, step);
      if IsApprovable(config, system, step) {
        ApproveStep(config, system, step);
        InHandIsUnfinished(config, system);
        hide Inv;
        var row := ApproveOutcome(config, system, step).doc;
        NoMessageAdded(system.broker, Message(step.id, row.correlationId, 0), id);
      } else {
        RefusedApproval(config, system, step);
      }
    } else {
      UnknownApproval(config, system, step);
    }
  }

  lemma RefusedApproval(config: Config, system: System, step: Step)
    requires step.ApproveCommand? && step.id in system.db.documents
    requires ApproveOutcome(config, system, step).result != Changed
    ensures AfterApprove(config, system, step) == Tick(system)
  {
    hide ApproveOutcome;
  }

  lemma UnknownApproval(config: Config, system: System, step: Step)
    requires step.ApproveCommand? && step.id !in system.db.documents
    ensures AfterApprove(config, system, step) == Tick(system)
  {
  }

  lemma InHandIsUnfinished(config: Config, system: System)
    requires Inv(config, system)
    ensures system.worker.AttemptRaised? || system.worker.RetryRecorded? ==>
              && system.worker.message.documentId in system.db.documents
              && IsUnfinished(system.db.documents[system.worker.message.documentId].status)
  {
    if system.worker.AttemptRaised? || system.worker.RetryRecorded? {
      FinaliserFindsUnfinished(config, system);
    }
  }

  /** The delivery of a message of another document changes neither this one's row nor its messages. */
  lemma OtherDelivery(config: Config, before: System, after: System, step: Step, attempt: Attempt, id: Uuid)
    requires step.Deliver? && before.worker == Idle && Delivered(config, before, after, step, attempt)
    requires after == AfterAttempt(before, step.index, attempt, step.fate)
    requires before.broker[step.index].documentId != id
    ensures Untended(after, id) <==> Untended(before, id)
  {
    hide HasMessage, Calls, Completes, WellFormed;
    NoMessageTaken(before.broker, step.index, id);
    NoMessageAdded(Without(before.broker, step.index), before.broker[step.index], id);
  }

  lemma OwnDelivery(config: Config, before: System, after: System, step: Step, attempt: Attempt, id: Uuid)
    requires step.Deliver? && before.worker == Idle && Delivered(config, before, after, step, attempt)
    requires after == AfterAttempt(before, step.index, attempt, step.fate)
    requires before.broker[step.index].documentId == id
    ensures Untended(after, id) <==>
            && !HasMessage(Without(before.broker, step.index), id)
            && step.fate in {Acknowledged, CommitFailed}
            && IsUnfinished(before.db.documents[id].status)
            && !attempt.raised.TransientError?
            && (attempt.raised == NoRaise ==> step.fate == CommitFailed)
  {
    hide HasMessage, Calls, Completes, WellFormed;
    NoMessageAdded(Without(before.broker, step.index), before.broker[step.index], id);
    assert step.fate.Acknowledged? || step.fate.CommitFailed? || step.fate.CrashBeforeCommit? || step.fate.CrashAfterCommit?;
  }

  lemma DeliveryStrands(config: Config, system: System, step: Step, id: Uuid)
    requires Inv(config, system) && step.Deliver? && CanDeliver(system, step) && !Untended(system, id)
    ensures Untended(AfterDeliver(config, system, step), id) <==> Strands(config, system, step, id)
  {
    hide Inv, AttemptFor, AfterDeliver, AfterAttempt, HasMessage, Untended, Delivered, EndingOf, WellFormed;
    var attempt := DeliverySummary(config, system, step);
    var after := AfterDeliver(config, system, step);
    if system.broker[step.index].documentId != id {
      OtherDelivery(config, system, after, step, attempt, id);
    } else {
      OwnDelivery(config, system, after, step, attempt, id);
      DeliveryFits(config, system, system.broker[step.index], step.world);
    }
  }

  /** The worker goes on from a noted retry: it publishes it, drops it, or fails the document. */
  lemma RetryStrands(config: Config, system: System, published: bool, id: Uuid)
    requires Inv(config, system) && !Untended(system, id)
    ensures Untended(AfterRetryOrExhaust(config, system, published), id)
            <==> Strands(config, system, RetryOrExhaust(published), id)
  {
    hide Inv, HasMessage, AfterRetryOrExhaust;
    InHandIsUnfinished(config, system);
    if !system.worker.RetryRecorded? {
      NothingToRetry(config, system, published);
    } else if system.worker.message.retries < config.settings.maxRetries {
      var message := system.worker.message;
      NoMessageAdded(system.broker, message.(retries := message.retries + 1), id);
      RetryPublishes(config, system, published);
    } else {
      ExhaustStep(config, system, published);
    }
  }

  lemma NothingToRetry(config: Config, system: System, published: bool)
    requires !system.worker.RetryRecorded?
    ensures AfterRetryOrExhaust(config, system, published) == system
  {
  }

  lemma RetryPublishes(config: Config, system: System, published: bool)
    requires system.worker.RetryRecorded? && system.worker.message.retries < config.settings.maxRetries
    ensures
      var message := system.worker.message;
      var again := message.(retries := message.retries + 1);
      AfterRetryOrExhaust(config, system, published)
      == system.(worker := Idle, broker := if published then system.broker + [again] else system.broker)
  {
  }

  /** Steps that neither publish, nor take a message away, nor touch a row's status. */
  lemma QuietStepsStrandNothing(config: Config, system: System, step: Step, id: Uuid)
    requires !Untended(system, id)
    requires step.RecordRetry? || step.Redeliver? || step.RejectCommand? || (step.Deliver? && !CanDeliver(system, step))
    ensures !Untended(Apply(config, system, step), id)
  {
    hide HasMessage, AttemptFor;
    if step.Redeliver? {
      NoMessageAdded(system.broker, step.message, id);
    }
  }

  lemma PushStrandsNothing(config: Config, system: System, id: Uuid)
    requires Inv(config, system) && !Untended(system, id)
    ensures !Untended(AfterPush(system), id)
  {
    hide Inv, HasMessage;
    if system.worker.Exhausted? {
      ExhaustedIsFinished(config, system);
    }
  }

  lemma ExhaustedIsFinished(config: Config, system: System)
    requires Inv(config, system) && system.worker.Exhausted?
    ensures system.worker.message.documentId in system.db.documents
    ensures !IsUnfinished(system.db.documents[system.worker.message.documentId].status)
  {
    hide DocumentsFit, KeysFit, DlqFits, SubmissionsFit, SubmittedFit, ErpFits;
  }

  lemma CrashStrandsNothing(system: System, id: Uuid)
    requires !Untended(system, id)
    ensures !Untended(AfterCrash(system), id)
  {
    hide HasMessage;
    if !system.worker.Idle? {
      NoMessageAdded(system.broker, system.worker.message, id);
    }
  }

  lemma AbortStrands(config: Config, system: System, id: Uuid)
    requires Inv(config, system) && !Untended(system, id)
    ensures Untended(AfterAbort(system), id) <==> Strands(config, system, Abort, id)
  {
    hide Inv, HasMessage;
    InHandIsUnfinished(config, system);
  }

  lemma LettingGoStrands(config: Config, system: System, step: Step, id: Uuid)
    requires Inv(config, system) && !Untended(system, id)
    requires step.PushDeadLetter? || step.Crash? || step.Abort?
    ensures Untended(Apply(config, system, step), id) <==> Strands(config, system, step, id)
  {
    hide Inv, Untended, HasMessage, AfterPush, AfterCrash, AfterAbort;
    if step.PushDeadLetter? {
      PushStrandsNothing(config, system, id);
    } else if step.Crash? {
      CrashStrandsNothing(system, id);
    } else {
      AbortStrands(config, system, id);
    }
  }

  lemma NeverStrands(config: Config, system: System, step: Step, id: Uuid)
    requires step.RecordRetry? || step.Redeliver? || step.RejectCommand? || (step.Deliver? && !CanDeliver(system, step))
    ensures !Strands(config, system, step, id)
  {
  }

  lemma StepUntends(config: Config, system: System, step: Step, id: Uuid)
    requires Inv(config, system) && !Untended(system, id)
    ensures Untended(Apply(config, system, step), id) <==> Strands(config, system, step, id)
  {
    hide Inv, Untended, Strands, AfterUpload, AfterApprove, AfterDeliver, AfterRetryOrExhaust;
    if step.Upload? {
      UploadStrands(config, system, step, id);
    } else if step.ApproveCommand? {
      ApprovalStrands(config, system, step, id);
    } else if step.Deliver? && CanDeliver(system, step) {
      DeliveryStrands(config, system, step, id);
    } else if step.RetryOrExhaust? {
      RetryStrands(config, system, step.published, id);
    } else if step.PushDeadLetter? || step.Crash? || step.Abort? {
      LettingGoStrands(config, system, step, id);
    } else {
      QuietStepsStrandNothing(config, system, step, id);
      NeverStrands(config, system, step, id);
    }
  }

  /** From any state that keeps the invariant and in which document `id` is not stranded, a step strands it
      exactly in the cases of `Strands`. */
  lemma StrandedExactlyWhen(config: Config, system: System, step: Step, id: Uuid)
    requires Inv(config, system) && !Stranded(system, id)
    ensures Stranded(Apply(config, system, step), id) <==> Strands(config, system, step, id)
  {
    hide Inv, Stranded, Strands, Apply, HasMessage;
    StrandedMeans(config, system, id);
    StepUntends(config, system, step, id);
    ApplyKeeps(config, system, step);
    StrandedMeans(config, Apply(config, system, step), id);
  }

  // ---- Runs ----

  /** Step `k` of the run strands document `id`. */
  ghost predicate StrandedAt(config: Config, steps: seq<Step>, k: nat, id: Uuid) {
    k < |steps| && Strands(config, StateAt(config, steps, k), steps[k], id)
  }

  lemma {:induction false} StrandedByAStep(config: Config, steps: seq<Step>, n: nat, id: Uuid)
    requires n <= |steps| && Stranded(StateAt(config, steps, n), id)
    ensures exists k: nat :: k < n && StrandedAt(config, steps, k, id)
    decreases n
  {
    hide Inv, Stranded, Strands, StateAt, Apply;
    if n == 0 {
      NothingStrandedAtStart(config, steps, id);
    } else {
      var before := StateAt(config, steps, n - 1);
      StateAtKeeps(config, steps, n - 1);
      StateAtNext(config, steps, n - 1);
      if Stranded(before, id) {
        StrandedByAStep(config, steps, n - 1, id);
      } else {
        StrandedExactlyWhen(config, before, steps[n - 1], id);
        assert StrandedAt(config, steps, n - 1, id);
      }
    }
  }

  lemma NothingStrandedAtStart(config: Config, steps: seq<Step>, id: Uuid)
    ensures !Stranded(StateAt(config, steps, 0), id)
  {
  }

  lemma StrandingLasts(config: Config, steps: seq<Step>, k: nat, id: Uuid)
    requires StrandedAt(config, steps, k, id)
    ensures Stranded(Exec(config, Init(config), steps), id)
  {
    hide Inv, Stranded, Strands, Exec, Apply;
    var before := StateAt(config, steps, k);
    StateAtKeeps(config, steps, k);
    StateAtNext(config, steps, k);
    if Stranded(before, id) {
      StrandedForever(config, before, steps[k..], id);
      StateAtLeadsOn(config, steps, k);
    } else {
      StrandedExactlyWhen(config, before, steps[k], id);
      StateAtKeeps(config, steps, k + 1);
      StrandedForever(config, StateAt(config, steps, k + 1), steps[k + 1..], id);
      StateAtLeadsOn(config, steps, k + 1);
    }
  }

  /** A run ends with a document stranded if and only if one of its steps stranded it. */
  lemma RunStrandsExactlyWhen(config: Config, steps: seq<Step>, id: Uuid)
    ensures Stranded(Exec(config, Init(config), steps), id) <==> exists k: nat :: StrandedAt(config, steps, k, id)
  {
    hide Stranded, Strands, Apply;
    if Stranded(Exec(config, Init(config), steps), id) {
      assert steps[..|steps|] == steps;
      StrandedByAStep(config, steps, |steps|, id);
    }
    forall k: nat | StrandedAt(config, steps, k, id)
      ensures Stranded(Exec(config, Init(config), steps), id)
    {
      StrandingLasts(config, steps, k, id);
    }
  }

  /** When the worker has nothing left to do, the documents still queued or approved are exactly those that
      some step of the run stranded. */
  lemma LeftoversAreStranded(config: Config, steps: seq<Step>, id: Uuid)
    requires IsQuiet(Exec(config, Init(config), steps))
    ensures
      var end := Exec(config, Init(config), steps);
      id in end.db.documents && IsUnfinished(end.db.documents[id].status)
      <==> exists k: nat :: StrandedAt(config, steps, k, id)
  {
    hide Exec, StrandedAt;
    RunStrandsExactlyWhen(config, steps, id);
  }
}
