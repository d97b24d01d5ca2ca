/** Nothing is left behind: while messages are published and attempts fail only transiently, every unfinished
    document has a message, and the worker empties the broker in a bounded number of executions. */
module Drain {
  import opened WorkflowStates
  import opened Identifiers
  import opened Attempts
  import opened Reviews
  import opened CommittedRows
  import opened Pipeline
  import opened Invariants
  import opened Deliveries
  import opened ForwardSimulation

  /** Messages are published, transactions commit, and attempts end normally or transiently. Crashes,
      redeliveries and reviews are all allowed. */
  ghost predicate Reliable(config: Config, system: System, step: Step) {
    match step
    case Upload(_, _, _, _, enqueued) => enqueued
    case ApproveCommand(_, _, enqueued) => enqueued
    case RetryOrExhaust(published) => published
    case Abort => false
    case Deliver(index, world, fate) =>
      && fate != CommitFailed
      && (CanDeliver(system, step) && system.broker[index].documentId in system.db.documents ==>
            var raised := AttemptFor(config, system, system.broker[index], world).raised;
            raised == NoRaise || raised.TransientError?)
    case _ => true
  }

  ghost predicate HasMessage(broker: seq<Message>, id: Uuid) {
    exists i :: 0 <= i < |broker| && broker[i].documentId == id
  }

  /** The worker holds a message of this document that it will retry or exhaust. */
  predicate InHand(worker: Worker, id: Uuid) {
    (worker.AttemptRaised? || worker.RetryRecorded?) && worker.message.documentId == id
  }

  ghost predicate Resumable(system: System) {
    forall id :: id in system.db.documents && IsUnfinished(system.db.documents[id].status) ==>
      HasMessage(system.broker, id) || InHand(system.worker, id)
  }

  lemma MoreMessages(broker: seq<Message>, message: Message)
    ensures forall id :: HasMessage(broker, id) ==> HasMessage(broker + [message], id)
    ensures HasMessage(broker + [message], message.documentId)
  {
    assert (broker + [message])[|broker|] == message;
    forall id | HasMessage(broker, id)
      ensures HasMessage(broker + [message], id)
    {
      var i :| 0 <= i < |broker| && broker[i].documentId == id;
      assert (broker + [message])[i] == broker[i];
    }
  }

  lemma WithoutOther(broker: seq<Message>, index: nat, id: Uuid)
    requires index < |broker| && broker[index].documentId != id && HasMessage(broker, id)
    ensures HasMessage(Without(broker, index), id)
  {
    var i :| 0 <= i < |broker| && broker[i].documentId == id;
    assert Without(broker, index)[if i < index then i else i - 1] == broker[i];
  }

  lemma DeliveryResumable(config: Config, system: System, step: Step, attempt: Attempt, after: System)
    requires Resumable(system) && step.Deliver? && system.worker == Idle
    requires Delivered(config, system, after, step, attempt)
    requires after == AfterAttempt(system, step.index, attempt, step.fate)
    requires attempt.raised == NoRaise || attempt.raised.TransientError?
    requires step.fate != CommitFailed
    ensures Resumable(after)
  {
    hide Calls, Completes, WellFormed, HasMessage;
    var message := system.broker[step.index];
    var rest := Without(system.broker, step.index);
    forall id | id in after.db.documents && IsUnfinished(after.db.documents[id].status)
      ensures HasMessage(after.broker, id) || InHand(after.worker, id)
    {
      if id != message.documentId {
        assert after.db.documents[id] == system.db.documents[id];
        WithoutOther(system.broker, step.index, id);
        MoreMessages(rest, message);
      } else {
        MoreMessages(rest, message);
      }
    }
  }

  lemma ApproveResumable(config: Config, system: System, step: Step)
    requires Resumable(system) && step.ApproveCommand? && step.enqueued
    ensures Resumable(AfterApprove(config, system, step))
  {
    hide Approve, HasMessage;
    if step.id in system.db.documents && ApproveOutcome(config, system, step).result == Changed {
      ApproveStep(config, system, step);
      var row := ApproveOutcome(config, system, step).doc;
      MoreMessages(system.broker, Message(step.id, row.correlationId, 0));
    }
  }

  lemma UploadResumable(config: Config, system: System, step: Step)
    requires Resumable(system) && step.Upload? && step.enqueued
    ensures Resumable(AfterUpload(config, system, step))
  {
    hide HasMessage;
    MoreMessages(system.broker, Message(step.id, step.correlationId, 0));
  }

  lemma WorkerResumable(config: Config, system: System, step: Step)
    requires Inv(config, system) && Resumable(system)
    requires step in {RecordRetry, RetryOrExhaust(true), PushDeadLetter, Crash}
    ensures Resumable(Apply(config, system, step))
  {
    hide Inv, HasMessage;
    if system.worker.AttemptRaised? || system.worker.RetryRecorded? {
      FinaliserFindsUnfinished(config, system);
      var message := system.worker.message;
      MoreMessages(system.broker, message);
      MoreMessages(system.broker, message.(retries := message.retries + 1));
    } else if system.worker.Exhausted? {
      MoreMessages(system.broker, system.worker.message);
    }
  }

  lemma StepResumable(config: Config, system: System, step: Step)
    requires Inv(config, system) && Resumable(system) && Reliable(config, system, step)
    ensures Resumable(Apply(config, system, step))
  {
    hide Inv, AttemptFor, AfterApprove, AfterUpload, HasMessage, Delivered;
    match step
    case Upload(_, _, _, _, _) => UploadResumable(config, system, step);
    case Deliver(_, _, _) =>
      if CanDeliver(system, step) {
        var attempt := DeliverySummary(config, system, step);
        DeliveryResumable(config, system, step, attempt, AfterDeliver(config, system, step));
      }
    case RecordRetry => WorkerResumable(config, system, step);
    case RetryOrExhaust(published) => WorkerResumable(config, system, step);
    case PushDeadLetter => WorkerResumable(config, system, step);
    case Crash => WorkerResumable(config, system, step);
    case Redeliver(message) =>
      MoreMessages(system.broker, message);
    case ApproveCommand(_, _, _) => ApproveResumable(config, system, step);
    case RejectCommand(_, _) =>
    case Abort =>
  }

  ghost predicate ReliableRun(config: Config, start: System, steps: seq<Step>) {
    forall n :: 0 <= n < |steps| ==> Reliable(config, Exec(config, start, steps[..n]), steps[n])
  }

  lemma FrontOf(config: Config, start: System, steps: seq<Step>)
    requires steps != []
    ensures
      var front := steps[..|steps| - 1];
      && (forall n :: 0 <= n < |front| ==> steps[..n] == front[..n] && steps[n] == front[n])
      && Exec(config, start, steps) == Apply(config, Exec(config, start, front), steps[|steps| - 1])
  {
  }

  /** Over every reliable run, whatever crashes: no unfinished document is without a message. */
  lemma {:induction false} ReliableRunsResume(config: Config, start: System, steps: seq<Step>)
    requires Inv(config, start) && Resumable(start) && ReliableRun(config, start, steps)
    ensures Resumable(Exec(config, start, steps))
  {
    if steps != [] {
      var front := steps[..|steps| - 1];
      FrontOf(config, start, steps);
      ReliableRunsResume(config, start, front);
      RunKeeps(config, start, front);
      StepResumable(config, Exec(config, start, front), steps[|steps| - 1]);
    }
  }

  // ---- Draining ----

  /** The executions a message can still cause. */
  function Budget(config: Config, message: Message): nat {
    if message.retries <= config.settings.maxRetries then config.settings.maxRetries + 1 - message.retries else 0
  }

  function BrokerBudget(config: Config, broker: seq<Message>): nat {
    if broker == [] then 0
    else BrokerBudget(config, broker[..|broker| - 1]) + Budget(config, broker[|broker| - 1])
  }

  /** The executions a state can still cause: each message's, less the one under way. */
  function Potential(config: Config, system: System): nat {
    BrokerBudget(config, system.broker)
    + match system.worker
      case AttemptRaised(message, _) => if Budget(config, message) > 0 then Budget(config, message) - 1 else 0
      case RetryRecorded(message, _) => if Budget(config, message) > 0 then Budget(config, message) - 1 else 0
      case _ => 0
  }

  function Phase(worker: Worker): nat {
    match worker
    case Idle => 0
    case Exhausted(_, _) => 1
    case RetryRecorded(_, _) => 2
    case AttemptRaised(_, _) => 3
  }

  /** The worker going on by itself: no crash, nothing from outside. */
  predicate DrainStep(system: System, step: Step) {
    match step
    case Deliver(_, _, fate) => fate == Acknowledged && CanDeliver(system, step)
    case RecordRetry => system.worker.AttemptRaised?
    case RetryOrExhaust(published) => published && system.worker.RetryRecorded?
    case PushDeadLetter => system.worker.Exhausted?
    case _ => false
  }

  predicate IsQuiet(system: System) {
    system.worker == Idle && system.broker == []
  }

  lemma {:induction false} BudgetWithout(config: Config, broker: seq<Message>, index: nat)
    requires index < |broker|
    ensures BrokerBudget(config, broker) == BrokerBudget(config, Without(broker, index)) + Budget(config, broker[index])
  {
    var front := broker[..|broker| - 1];
    if index == |front| {
      assert Without(broker, index) == front;
    } else {
      BudgetWithout(config, front, index);
      var rest := Without(broker, index);
      assert rest[..|rest| - 1] == Without(front, index);
    }
  }

  lemma BudgetWith(config: Config, broker: seq<Message>, message: Message)
    ensures BrokerBudget(config, broker + [message]) == BrokerBudget(config, broker) + Budget(config, message)
  {
    assert (broker + [message])[..|broker|] == broker;
  }

  /** `after` can cause less than `before`; an execution uses up one unit of it. */
  predicate Descends(config: Config, before: System, after: System, executions: nat) {
    && Potential(config, after) + executions <= Potential(config, before)
    && 4 * Potential(config, after) + Phase(after.worker) < 4 * Potential(config, before) + Phase(before.worker)
  }

  lemma AttemptDescends(config: Config, system: System, index: nat, attempt: Attempt)
    requires index < |system.broker| && system.worker == Idle
    requires system.broker[index].retries <= config.settings.maxRetries
    ensures Descends(config, system, AfterAttempt(system, index, attempt, Acknowledged), 1)
  {
    hide BrokerBudget, Committed;
    BudgetWithout(config, system.broker, index);
  }

  lemma DeliveryDescends(config: Config, system: System, step: Step)
    requires Inv(config, system) && step.Deliver? && DrainStep(system, step)
    ensures Descends(config, system, AfterDeliver(config, system, step), 1)
  {
    hide Inv, AttemptFor, AfterDeliver, AfterAttempt, Delivered, Descends;
    var attempt := DeliverySummary(config, system, step);
    AttemptDescends(config, system, step.index, attempt);
  }

  lemma RetryDescends(config: Config, system: System)
    requires Inv(config, system) && system.worker.RetryRecorded?
    ensures Descends(config, system, AfterRetryOrExhaust(config, system, true), 0)
  {
    FinaliserFindsUnfinished(config, system);
    hide Inv, BrokerBudget;
    var message := system.worker.message;
    BudgetWith(config, system.broker, message.(retries := message.retries + 1));
  }

  /** Each step of the worker uses up some of what the state can still cause; each execution one unit of it. */
  lemma DrainStepDescends(config: Config, system: System, step: Step)
    requires Inv(config, system) && DrainStep(system, step)
    ensures Descends(config, system, Apply(config, system, step), if step.Deliver? then 1 else 0)
  {
    hide Inv, AfterDeliver, AfterRetryOrExhaust, BrokerBudget;
    if step.Deliver? {
      DeliveryDescends(config, system, step);
    } else if step.RetryOrExhaust? {
      RetryDescends(config, system);
    } else {
      OwnStepDescends(config, system, step);
    }
  }

  lemma OwnStepDescends(config: Config, system: System, step: Step)
    requires DrainStep(system, step) && (step.RecordRetry? || step.PushDeadLetter?)
    ensures Descends(config, system, Apply(config, system, step), 0)
  {
    hide BrokerBudget;
  }

  ghost predicate DrainRun(config: Config, start: System, steps: seq<Step>) {
    forall n :: 0 <= n < |steps| ==>
      && DrainStep(Exec(config, start, steps[..n]), steps[n])
      && Reliable(config, Exec(config, start, steps[..n]), steps[n])
  }

  function Executions(steps: seq<Step>): nat {
    if steps == [] then 0
    else Executions(steps[..|steps| - 1]) + (if steps[|steps| - 1].Deliver? then 1 else 0)
  }

  lemma {:induction false} DrainDescends(config: Config, start: System, steps: seq<Step>)
    requires Inv(config, start) && DrainRun(config, start, steps)
    ensures
      var end := Exec(config, start, steps);
      && Executions(steps) + Potential(config, end) <= Potential(config, start)
      && |steps| + 4 * Potential(config, end) + Phase(end.worker) <= 4 * Potential(config, start) + Phase(start.worker)
  {
    if steps != [] {
      var front := steps[..|steps| - 1];
      FrontOf(config, start, steps);
      DrainDescends(config, start, front);
      RunKeeps(config, start, front);
      DrainStepDescends(config, Exec(config, start, front), steps[|steps| - 1]);
    }
  }

  /** With nothing new from outside, the worker executes at most the sum of `maxRetries + 1 - retries` over the
      messages, takes boundedly many steps in all, and when it can take no more, no document is left queued or
      approved. */
  lemma DrainTheorem(config: Config, start: System, steps: seq<Step>)
    requires Inv(config, start) && Resumable(start) && DrainRun(config, start, steps)
    ensures Executions(steps) <= Potential(config, start)
    ensures |steps| <= 4 * Potential(config, start) + 3
    ensures
      var end := Exec(config, start, steps);
      IsQuiet(end) ==> forall id :: id in end.db.documents ==> !IsUnfinished(end.db.documents[id].status)
  {
    DrainDescends(config, start, steps);
    ReliableRunsResume(config, start, steps);
  }

  /** Until the pipeline is quiet the worker can always take a step. */
  lemma DrainNeverStalls(system: System, world: World)
    requires !IsQuiet(system) && world.freshId !in system.erp.byId
    ensures exists step :: DrainStep(system, step) && (step.Deliver? ==> step.world == world)
  {
    match system.worker
    case Idle => assert DrainStep(system, Deliver(0, world, Acknowledged));
    case AttemptRaised(_, _) => assert DrainStep(system, RecordRetry);
    case RetryRecorded(_, _) => assert DrainStep(system, RetryOrExhaust(true));
    case Exhausted(_, _) => assert DrainStep(system, PushDeadLetter);
  }

  /** The assumption is needed: an attempt that ends in a workflow error, on the document's only message,
      strands the document. */
  lemma WorkflowErrorStrands(config: Config, system: System, step: Step)
    requires Inv(config, system) && step.Deliver? && CanDeliver(system, step) && step.fate == Acknowledged
    requires
      var message := system.broker[step.index];
      && message.documentId in system.db.documents
      && AttemptFor(config, system, message, step.world).raised == WorkflowFailure
      && !HasMessage(Without(system.broker, step.index), message.documentId)
    ensures Stranded(AfterDeliver(config, system, step), system.broker[step.index].documentId)
  {
    hide Inv, AttemptFor;
    var attempt := DeliverySummary(config, system, step);
    var id := system.broker[step.index].documentId;
    assert attempt.raised == WorkflowFailure;
    hide Calls, Completes, WellFormed;
    assert !IsWorkerNoop(system.db.documents[id].status);
    CommittedIsUnfinished(config, system, id);
  }

  lemma CommittedIsUnfinished(config: Config, system: System, id: Uuid)
    requires Inv(config, system) && id in system.db.documents && !IsWorkerNoop(system.db.documents[id].status)
    ensures IsUnfinished(system.db.documents[id].status)
  {
    assert WellFormed(system.db.documents[id], config.settings.maxRetries, system.db.clock);
  }
}
