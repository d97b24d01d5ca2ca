/** The offline evaluator and the pipeline agree: for the same provider outcome and the same rule context, with
    the ERP reachable, the state the evaluator predicts is the status the pipeline finally commits. */
module Agreement {
  import opened Options
  import opened WorkflowStates
  import opened BusinessRules
  import opened Identifiers
  import opened Records
  import opened Erp
  import opened Attempts
  import opened CommittedRows
  import opened Pipeline
  import opened Invariants
  import opened Deliveries
  import opened Drain
  import opened Stranding
  import opened WorkBound
  import opened Metrics
  import Evaluator

  /** A world in which nothing but the provider decides. */
  predicate IsPlain(world: World) {
    && world.pdfReadable
    && world.supplierFault.None? && world.orderFault.None?
    && world.create.Clean?
  }

  /** The provider answers as `outcome` does; recoverable errors may be of any class. */
  predicate Alike(provider: ProviderOutcome, outcome: ProviderOutcome) {
    if outcome.Recoverable? then provider.Recoverable? else provider == outcome
  }

  /** Auto-approval implies a supplier id, and one the ERP knows. */
  lemma AutoApprovalNamesSupplier(settings: Settings, invoice: Invoice, erp: ErpState, submissions: seq<Submission>)
    requires DecisionOn(invoice, settings, erp, submissions) == AutoApprove
    ensures IsGiven(invoice.supplierId) && invoice.supplierId.value in erp.suppliers
  {
    DecisionCharacterised(invoice, Context(settings, invoice, erp, submissions));
  }

  lemma KnownSupplierIsAccepted(work: Work, invoice: Invoice, world: World)
    requires RowOf(work.submissions, work.id).None? && world.create.Clean?
    requires invoice.supplierId.Some? && invoice.supplierId.value in work.erp.suppliers
    ensures Submit(work, invoice, world).raised == NoRaise
    ensures Submit(work, invoice, world).work.doc.status == Submitted
  {
  }

  lemma DecisionDecides(work: Work, now: nat, invoice: Invoice, settings: Settings, world: World)
    requires RowOf(work.submissions, work.id).None? && work.doc.decisions == []
    requires world.supplierFault.None? && world.orderFault.None? && world.create.Clean?
    ensures
      var attempt := Decide(work, now, invoice, settings, world);
      && attempt.raised == NoRaise
      && attempt.work.doc.status
         == if DecisionOn(invoice, settings, work.erp, work.submissions) == AutoApprove then Submitted else NeedsReview
  {
    var decision := DecisionOn(invoice, settings, work.erp, work.submissions);
    DecisionCharacterised(invoice, Context(settings, invoice, work.erp, work.submissions));
    if decision == AutoApprove {
      AutoApprovalNamesSupplier(settings, invoice, work.erp, work.submissions);
      KnownSupplierIsAccepted(MovedTo(Decided(work, now, decision), Approved), invoice, world);
    }
    hide Submit, DecideWorkflow;
  }

  /** Where a queued document ends up once its provider keeps answering alike; a document whose attempts end in a
      workflow error stays queued. */
  function Target(outcome: ProviderOutcome, context: RuleContext): WorkflowState {
    match outcome
    case InvalidOutput => NeedsReview
    case Recoverable(_) => Failed
    case Returned(_, invoice) =>
      if DecideWorkflow(invoice, context).decision == AutoApprove then Submitted else NeedsReview
    case _ => Queued
  }

  /** What one plain attempt on a fresh document comes to. */
  ghost predicate ComesTo(work: Work, settings: Settings, provider: ProviderOutcome, attempt: Attempt) {
    match provider
    case InvalidOutput => attempt.raised == NoRaise && attempt.work.doc.status == NeedsReview
    case Recoverable(_) => attempt.raised.TransientError?
    case Returned(_, invoice) =>
      && attempt.raised == NoRaise
      && attempt.work.doc.status == Target(provider, Context(settings, invoice, work.erp, work.submissions))
    case _ => attempt.raised == WorkflowFailure
  }

  lemma FreshAttempt(work: Work, now: nat, settings: Settings, world: World)
    requires work.doc.status == Queued && work.doc.extractions == [] && work.doc.decisions == []
    requires RowOf(work.submissions, work.id).None? && IsPlain(world)
    ensures ComesTo(work, settings, world.provider, Process(work, now, settings, world))
  {
    var claimed := MovedTo(work, Processing);
    if world.provider.Returned? {
      var invoice := world.provider.invoice;
      var read := MovedTo(Stored(claimed, now, world.provider.provider, invoice), Extracted);
      DecisionDecides(read, now, invoice, settings, world);
      hide Decide, DecideWorkflow;
      assert Process(work, now, settings, world) == Decide(read, now, invoice, settings, world);
    }
  }

  /** A step that lets document `id` run its course: nothing is added to its one message, no reviewer rejects it,
      the worker is not stopped while it holds it, and its attempts are made in plain worlds, on providers that
      answer alike and under the same rule context. Anything may happen to other documents. */
  ghost predicate LetsRun(config: Config, system: System, step: Step, id: Uuid, outcome: ProviderOutcome, context: RuleContext) {
    && LeavesAlone(system, step, id)
    && (step.RejectCommand? ==> step.id != id)
    && (Holds(system.worker, id) ==> !step.Abort? && (step.RetryOrExhaust? ==> step.published))
    && (Executes(system, step, id) ==>
          && step.fate == Acknowledged && IsPlain(step.world) && Alike(step.world.provider, outcome)
          && (outcome.Returned? ==> Context(config.settings, outcome.invoice, system.erp, system.db.submissions) == context))
  }

  ghost predicate OutcomeRun(config: Config, start: System, steps: seq<Step>, id: Uuid, outcome: ProviderOutcome,
                             context: RuleContext) {
    forall n :: 0 <= n < |steps| ==> LetsRun(config, Exec(config, start, steps[..n]), steps[n], id, outcome, context)
  }

  /** Document `id` is queued and its message is in the broker or, after a recoverable error, in hand. */
  ghost predicate Pending(system: System, id: Uuid, outcome: ProviderOutcome) {
    && id in system.db.documents && system.db.documents[id].status == Queued
    && (HasMessage(system.broker, id) || (InHand(system.worker, id) && outcome.Recoverable?))
  }

  /** Document `id` has reached `target`; after exhausted retries it is listed, or about to be. */
  ghost predicate Settled(system: System, id: Uuid, outcome: ProviderOutcome, target: WorkflowState) {
    && id in system.db.documents && system.db.documents[id].status == target
    && !HasMessage(system.broker, id)
    && (if Holds(system.worker, id) then system.worker.Exhausted? else outcome.Recoverable? ==> InDlq(system.dlq, id))
  }

  // ---- Steps about other documents ----

  /** Nothing about document `id` has changed. */
  ghost predicate SameFor(before: System, after: System, id: Uuid) {
    && id in before.db.documents && id in after.db.documents
    && after.db.documents[id] == before.db.documents[id]
    && (HasMessage(after.broker, id) <==> HasMessage(before.broker, id))
    && (after.worker == before.worker || (!Holds(before.worker, id) && !Holds(after.worker, id)))
    && (InDlq(before.dlq, id) ==> InDlq(after.dlq, id))
  }

  lemma OutsideSame(config: Config, system: System, step: Step, id: Uuid)
    requires id in system.db.documents && LeavesAlone(system, step, id)
    requires step.Upload? || step.ApproveCommand? || step.Redeliver? || (step.RejectCommand? && step.id != id)
    ensures SameFor(system, Apply(config, system, step), id)
  {
    hide HasMessage, InDlq, ApproveOutcome;
    if step.Upload? {
      NoMessageAdded(system.broker, Message(step.id, step.correlationId, 0), id);
    } else if step.Redeliver? {
      NoMessageAdded(system.broker, step.message, id);
    } else if step.ApproveCommand? && step.id in system.db.documents {
      NoMessageAdded(system.broker, Message(step.id, ApproveOutcome(config, system, step).doc.correlationId, 0), id);
    }
  }

  lemma PushSame(system: System, id: Uuid)
    requires id in system.db.documents && !Holds(system.worker, id)
    ensures SameFor(system, AfterPush(system), id)
  {
    hide HasMessage;
    var after := AfterPush(system);
    if InDlq(system.dlq, id) {
      var i :| 0 <= i < |system.dlq| && system.dlq[i].documentId == id;
      assert after.dlq[i] == system.dlq[i];
    }
  }

  lemma WorkerSame(config: Config, system: System, step: Step, id: Uuid)
    requires id in system.db.documents && !Holds(system.worker, id)
    requires step.RecordRetry? || step.RetryOrExhaust? || step.Crash? || step.Abort?
    ensures SameFor(system, Apply(config, system, step), id)
  {
    hide HasMessage, InDlq;
    if !system.worker.Idle? {
      var message := system.worker.message;
      NoMessageAdded(system.broker, message, id);
      NoMessageAdded(system.broker, message.(retries := message.retries + 1), id);
    }
  }

  lemma OtherAttemptSame(config: Config, before: System, after: System, step: Step, attempt: Attempt, id: Uuid)
    requires step.Deliver? && before.worker == Idle && Delivered(config, before, after, step, attempt)
    requires after == AfterAttempt(before, step.index, attempt, step.fate)
    requires before.broker[step.index].documentId != id && id in before.db.documents
    ensures SameFor(before, after, id)
  {
    hide HasMessage, InDlq, Calls, Completes, WellFormed;
    NoMessageTaken(before.broker, step.index, id);
    NoMessageAdded(Without(before.broker, step.index), before.broker[step.index], id);
  }

  lemma OtherDeliverySame(config: Config, system: System, step: Step, id: Uuid)
    requires Inv(config, system) && step.Deliver? && CanDeliver(system, step) && !Executes(system, step, id)
    requires id in system.db.documents
    ensures SameFor(system, AfterDeliver(config, system, step), id)
  {
    hide Inv, AttemptFor, AfterDeliver, AfterAttempt, Delivered, SameFor;
    var attempt := DeliverySummary(config, system, step);
    OtherAttemptSame(config, system, AfterDeliver(config, system, step), step, attempt, id);
  }

  lemma SameKeeps(before: System, after: System, id: Uuid, outcome: ProviderOutcome, target: WorkflowState)
    requires SameFor(before, after, id)
    requires Pending(before, id, outcome) || Settled(before, id, outcome, target)
    ensures Pending(after, id, outcome) || Settled(after, id, outcome, target)
  {
    hide HasMessage, InDlq;
  }

  // ---- Steps about this document ----

  lemma OwnAttempt(config: Config, system: System, step: Step, id: Uuid, outcome: ProviderOutcome, context: RuleContext)
    requires Inv(config, system) && Executes(system, step, id) && LetsRun(config, system, step, id, outcome, context)
    requires id in system.db.documents && system.db.documents[id].status == Queued
    ensures MessageFits(config, system, system.broker[step.index])
    ensures
      var attempt := AttemptFor(config, system, system.broker[step.index], step.world);
      match outcome
      case Recoverable(_) => attempt.raised.TransientError?
      case NonRecoverable(_) => attempt.raised == WorkflowFailure
      case ProviderBroke => attempt.raised == WorkflowFailure
      case _ => attempt.raised == NoRaise && attempt.work.doc.status == Target(outcome, context)
  {
    var message := system.broker[step.index];
    assert MessageFits(config, system, message);
    var work := WorkFor(system, message);
    assert WellFormed(work.doc, config.settings.maxRetries, system.db.clock);
    UnfinishedOwnsNoRow(config, system, id);
    FreshAttempt(work, system.db.clock, config.settings, step.world);
    hide Inv, Process, WellFormed, DecideWorkflow;
  }

  lemma OwnDeliverySettles(config: Config, system: System, step: Step, id: Uuid, outcome: ProviderOutcome,
                           context: RuleContext, retries: nat)
    requires Inv(config, system) && Executes(system, step, id) && LetsRun(config, system, step, id, outcome, context)
    requires id in system.db.documents && system.db.documents[id].status == Queued && AtTry(system, id, retries)
    ensures
      var after := AfterDeliver(config, system, step);
      Pending(after, id, outcome) || Settled(after, id, outcome, Target(outcome, context))
  {
    hide Lone, HasMessage, DecideWorkflow, Calls, Completes, WellFormed;
    OwnAttempt(config, system, step, id, outcome, context);
    hide Inv, AttemptFor, AfterDeliver, LetsRun;
    LoneWithout(system.broker, step.index, id, retries);
    var attempt := DeliverySummary(config, system, step);
    assert step.fate == Acknowledged;
  }

  lemma OwnWorkerStep(config: Config, system: System, step: Step, id: Uuid, outcome: ProviderOutcome, context: RuleContext,
                      retries: nat)
    requires LetsRun(config, system, step, id, outcome, context) && AtTry(system, id, retries) && Holds(system.worker, id)
    requires step.RecordRetry? || step.RetryOrExhaust? || step.PushDeadLetter?
    requires Pending(system, id, outcome) || Settled(system, id, outcome, Target(outcome, context))
    ensures
      var after := Apply(config, system, step);
      Pending(after, id, outcome) || Settled(after, id, outcome, Target(outcome, context))
  {
    hide Lone, HasMessage, DecideWorkflow;
    var message := system.worker.message;
    NoMessageAdded(system.broker, message.(retries := message.retries + 1), id);
    if step.PushDeadLetter? && system.worker.Exhausted? {
      assert AfterPush(system).dlq[|system.dlq|].documentId == id;
    }
  }

  lemma StepSettles(config: Config, system: System, step: Step, id: Uuid, outcome: ProviderOutcome, context: RuleContext,
                    retries: nat)
    requires Inv(config, system) && LetsRun(config, system, step, id, outcome, context) && AtTry(system, id, retries)
    requires Pending(system, id, outcome) || Settled(system, id, outcome, Target(outcome, context))
    ensures
      var after := Apply(config, system, step);
      Pending(after, id, outcome) || Settled(after, id, outcome, Target(outcome, context))
  {
    hide Inv, Apply, HasMessage, InDlq, Lone, AttemptFor, AfterDeliver, Target, SameFor, IsPlain, Alike;
    var after := Apply(config, system, step);
    if step.Deliver? {
      DeliverSettles(config, system, step, id, outcome, context, retries);
    } else if Holds(system.worker, id) && (step.RecordRetry? || step.RetryOrExhaust? || step.PushDeadLetter?) {
      OwnWorkerStep(config, system, step, id, outcome, context, retries);
    } else {
      OthersSame(config, system, step, id);
      SameKeeps(system, after, id, outcome, Target(outcome, context));
    }
  }

  lemma OthersSame(config: Config, system: System, step: Step, id: Uuid)
    requires id in system.db.documents && LeavesAlone(system, step, id) && !step.Deliver?
    requires step.RejectCommand? ==> step.id != id
    requires Holds(system.worker, id) ==> !step.Abort? && !step.RecordRetry? && !step.RetryOrExhaust? && !step.PushDeadLetter?
    ensures SameFor(system, Apply(config, system, step), id)
  {
    hide Apply, SameFor;
    if step.Upload? || step.ApproveCommand? || step.Redeliver? || step.RejectCommand? {
      OutsideSame(config, system, step, id);
    } else if step.PushDeadLetter? {
      AppliesPush(config, system);
      PushSame(system, id);
    } else {
      WorkerSame(config, system, step, id);
    }
  }

  lemma AppliesPush(config: Config, system: System)
    ensures Apply(config, system, PushDeadLetter) == AfterPush(system)
  {
  }

  lemma AppliesDelivery(config: Config, system: System, step: Step)
    requires step.Deliver?
    ensures Apply(config, system, step) == if CanDeliver(system, step) then AfterDeliver(config, system, step) else system
  {
  }

  lemma DeliverSettles(config: Config, system: System, step: Step, id: Uuid, outcome: ProviderOutcome, context: RuleContext,
                       retries: nat)
    requires Inv(config, system) && step.Deliver?
    requires LetsRun(config, system, step, id, outcome, context) && AtTry(system, id, retries)
    requires Pending(system, id, outcome) || Settled(system, id, outcome, Target(outcome, context))
    ensures
      var after := Apply(config, system, step);
      Pending(after, id, outcome) || Settled(after, id, outcome, Target(outcome, context))
  {
    hide Inv, Apply, HasMessage, InDlq, Lone, AttemptFor, AfterDeliver, Target, SameFor, IsPlain, Alike;
    AppliesDelivery(config, system, step);
    if Executes(system, step, id) {
      NoMessageTaken(system.broker, step.index, id);
      OwnDeliverySettles(config, system, step, id, outcome, context, retries);
    } else if CanDeliver(system, step) {
      OtherDeliverySame(config, system, step, id);
      SameKeeps(system, AfterDeliver(config, system, step), id, outcome, Target(outcome, context));
    }
  }

  // ---- Runs ----

  lemma OutcomeFront(config: Config, start: System, steps: seq<Step>, id: Uuid, outcome: ProviderOutcome, context: RuleContext)
    requires OutcomeRun(config, start, steps, id, outcome, context)
    ensures UndisturbedRun(config, start, steps, id)
    ensures steps != [] ==>
              var front := steps[..|steps| - 1];
              && OutcomeRun(config, start, front, id, outcome, context)
              && LetsRun(config, Exec(config, start, front), steps[|steps| - 1], id, outcome, context)
  {
    hide Executes, LeavesAlone, IsPlain, Alike;
    if steps != [] {
      FrontOf(config, start, steps);
    }
  }

  /** Along such a run the document is pending on its one message, or has reached its target for good. */
  lemma {:induction false} RunSettles(config: Config, start: System, steps: seq<Step>, id: Uuid, outcome: ProviderOutcome,
                                      context: RuleContext)
    requires Inv(config, start) && AtTry(start, id, 0) && Pending(start, id, outcome)
    requires OutcomeRun(config, start, steps, id, outcome, context)
    ensures
      var end := Exec(config, start, steps);
      Pending(end, id, outcome) || Settled(end, id, outcome, Target(outcome, context))
  {
    hide Inv, Apply, OutcomeRun, LetsRun, UndisturbedRun, Pending, Settled, Target, AtTry;
    if steps != [] {
      var front, last := steps[..|steps| - 1], steps[|steps| - 1];
      OutcomeFront(config, start, steps, id, outcome, context);
      OutcomeFront(config, start, front, id, outcome, context);
      RunSettles(config, start, front, id, outcome, context);
      RunKeeps(config, start, front);
      ChainTries(config, start, front, id);
      StepSettles(config, Exec(config, start, front), last, id, outcome, context, RetriesOf(config, start, front, id));
    }
  }

  /** What the evaluator predicts is where the pipeline ends. */
  lemma PredictionIsTarget(outcome: ProviderOutcome, context: RuleContext)
    ensures Evaluator.PredictedState(outcome, context)
         == if outcome.NonRecoverable? || outcome.ProviderBroke? then None else Some(Target(outcome, context))
  {
    if outcome.Returned? {
      DecisionCharacterised(outcome.invoice, context);
    }
  }

  /** The agreement. A queued document has its one fresh message in the broker, amid any others. While it runs
      its course, however many retries that takes, its provider answers alike and under the case's rule context.
      Once its message is gone, its committed status is the final state the evaluator reports; a recoverable error
      has exhausted the retries and put the document in the dead-letter queue; and where the evaluator has no
      answer (any other provider error) the document is still queued. */
  lemma EvaluatorAgrees<V>(config: Config, start: System, steps: seq<Step>, id: Uuid, outcome: ProviderOutcome,
                           c: Evaluator.GoldenCase<V>, rules: Evaluator.Comparer<V>, result: CaseResult)
    requires Inv(config, start) && AtTry(start, id, 0) && HasMessage(start.broker, id)
    requires id in start.db.documents && start.db.documents[id].status == Queued
    requires OutcomeRun(config, start, steps, id, outcome, Evaluator.BuildRuleContext(c.overrides))
    requires !HasMessage(Exec(config, start, steps).broker, id) && !Holds(Exec(config, start, steps).worker, id)
    requires Evaluator.Reports(c, rules, outcome, result)
    ensures
      var end := Exec(config, start, steps);
      && id in end.db.documents
      && match result.actualFinalState
         case Some(state) =>
           && end.db.documents[id].status == state
           && (state == Failed ==> end.db.documents[id].retryCount == config.settings.maxRetries + 1 && InDlq(end.dlq, id))
         case None => end.db.documents[id].status == Queued
  {
    hide Inv, OutcomeRun, Exec, HasMessage, AtTry, InDlq, Evaluator.Reports, Evaluator.PredictedState,
      Evaluator.BuildRuleContext;
    ReportedState(outcome, c, rules, result);
    var end, context := Exec(config, start, steps), Evaluator.BuildRuleContext(c.overrides);
    RunSettles(config, start, steps, id, outcome, context);
    RunKeeps(config, start, steps);
    PredictionIsTarget(outcome, context);
    FailedAreExhausted(config, end);
    OnlyRecoverableFails(outcome, context);
  }

  lemma ReportedState<V>(outcome: ProviderOutcome, c: Evaluator.GoldenCase<V>, rules: Evaluator.Comparer<V>,
                         result: CaseResult)
    requires Evaluator.Reports(c, rules, outcome, result)
    ensures result.actualFinalState == Evaluator.PredictedState(outcome, Evaluator.BuildRuleContext(c.overrides))
  {
    hide Evaluator.Succeeds, Evaluator.Scored, Evaluator.PredictedState, Evaluator.BuildRuleContext;
  }

  lemma FailedAreExhausted(config: Config, system: System)
    requires Inv(config, system)
    ensures forall id :: id in system.db.documents && system.db.documents[id].status == Failed ==>
              system.db.documents[id].retryCount == config.settings.maxRetries + 1
  {
    hide KeysFit, MessagesFit, WorkerFits, DlqFits, SubmissionsFit, SubmittedFit, ErpFits;
  }

  lemma OnlyRecoverableFails(outcome: ProviderOutcome, context: RuleContext)
    ensures Target(outcome, context) == Failed ==> outcome.Recoverable?
  {
  }
}
