/** The work and the waiting that messages can cause, through the worker's retries, both providers, both rounds
    and the retry loop: all together, and for one document amid any others. */
module WorkBound {
  import opened Identifiers
  import opened Sums
  import opened Attempts
  import opened Pipeline
  import opened Invariants
  import opened Deliveries
  import opened Drain
  import opened Providers
  import opened Stranding

  /** The model calls of a run: each delivery consults the router at most once. */
  function ModelCalls(steps: seq<Step>, endpoints: nat -> Endpoints, fallbackEnabled: bool, llmMaxRetries: nat): nat {
    if steps == [] then 0
    else
      var last := |steps| - 1;
      ModelCalls(steps[..last], endpoints, fallbackEnabled, llmMaxRetries)
      + if steps[last].Deliver? then RouteCalls(endpoints(last), fallbackEnabled, llmMaxRetries) else 0
  }

  lemma {:induction false} CallsPerExecution(
    steps: seq<Step>, endpoints: nat -> Endpoints, fallbackEnabled: bool, llmMaxRetries: nat)
    ensures ModelCalls(steps, endpoints, fallbackEnabled, llmMaxRetries) <= Executions(steps) * (4 * (llmMaxRetries + 1))
  {
    if steps != [] {
      hide RouteCalls;
      var last := |steps| - 1;
      var each := 4 * (llmMaxRetries + 1);
      CallsPerExecution(steps[..last], endpoints, fallbackEnabled, llmMaxRetries);
      RouteIsBounded(endpoints(last), fallbackEnabled, llmMaxRetries);
      assert (Executions(steps[..last]) + 1) * each == Executions(steps[..last]) * each + each;
    }
  }

  /** While the worker drains a broker, whatever it holds, it makes at most `4 * (llmMaxRetries + 1)` model calls
      for each execution its messages can still cause. */
  lemma DrainIsBounded(config: Config, start: System, steps: seq<Step>, endpoints: nat -> Endpoints,
                       fallbackEnabled: bool, llmMaxRetries: nat)
    requires Inv(config, start) && DrainRun(config, start, steps)
    ensures ModelCalls(steps, endpoints, fallbackEnabled, llmMaxRetries) <= 4 * Potential(config, start) * (llmMaxRetries + 1)
  {
    hide Inv, DrainRun, Potential, Executions, ModelCalls;
    DrainDescends(config, start, steps);
    CallsPerExecution(steps, endpoints, fallbackEnabled, llmMaxRetries);
    Scaled(Executions(steps), Potential(config, start), llmMaxRetries + 1);
  }

  lemma Scaled(executions: nat, tries: nat, loop: nat)
    requires executions <= tries
    ensures executions * (4 * loop) <= 4 * tries * loop
  {
    assert executions * loop <= tries * loop;
  }

  // ---- One document amid others ----

  /** The step executes the task for document `id`. */
  predicate Executes(system: System, step: Step, id: Uuid) {
    step.Deliver? && CanDeliver(system, step) && system.broker[step.index].documentId == id
  }

  /** The worker holds a message of document `id`. */
  predicate Holds(worker: Worker, id: Uuid) {
    !worker.Idle? && worker.message.documentId == id
  }

  /** The step brings no message of document `id` into the broker, except as a retry. Anything may happen to
      other documents, and attempts on this one may end in any way but a crash. */
  predicate LeavesAlone(system: System, step: Step, id: Uuid) {
    match step
    case Upload(_, _, other, _, _) => other != id
    case ApproveCommand(other, _, _) => other != id
    case Redeliver(message) => message.documentId != id
    case Crash => !Holds(system.worker, id)
    case Deliver(_, _, fate) => Executes(system, step, id) ==> fate.Acknowledged? || fate.CommitFailed?
    case _ => true
  }

  ghost predicate UndisturbedRun(config: Config, start: System, steps: seq<Step>, id: Uuid) {
    forall n :: 0 <= n < |steps| ==> LeavesAlone(Exec(config, start, steps[..n]), steps[n], id)
  }

  function OwnBudget(config: Config, id: Uuid): Message -> nat {
    (message: Message) => if message.documentId == id then Budget(config, message) else 0
  }

  /** The executions that document `id`'s messages can still cause. */
  function PotentialOf(config: Config, system: System, id: Uuid): nat {
    Sum(OwnBudget(config, id), system.broker)
    + if InHand(system.worker, id) && Budget(config, system.worker.message) > 0 then Budget(config, system.worker.message) - 1
      else 0
  }

  /** The executions that a step adds for document `id`: the budgets of the messages that an upload, an approval or
      a redelivery brings into the broker, or that a crash puts back. */
  function AddedBy(config: Config, system: System, step: Step, id: Uuid): nat {
    match step
    case Upload(_, _, other, _, enqueued) => if other == id && enqueued then config.settings.maxRetries + 1 else 0
    case ApproveCommand(other, _, enqueued) => if other == id && enqueued then config.settings.maxRetries + 1 else 0
    case Redeliver(message) => OwnBudget(config, id)(message)
    case Crash => if Holds(system.worker, id) then Budget(config, system.worker.message) else 0
    case Deliver(index, _, fate) =>
      if Executes(system, step, id) && (fate.CrashBeforeCommit? || fate.CrashAfterCommit?) then
        Budget(config, system.broker[index])
      else 0
    case _ => 0
  }

  lemma SumWith<T>(weight: T -> nat, items: seq<T>, item: T)
    ensures Sum(weight, items + [item]) == Sum(weight, items) + weight(item)
  {
    assert (items + [item])[..|items|] == items;
  }

  /** The step pays for the execution it makes out of what was left and what it adds. */
  ghost predicate Pays(config: Config, before: System, after: System, step: Step, id: Uuid) {
    PotentialOf(config, after, id) + (if Executes(before, step, id) then 1 else 0)
    <= PotentialOf(config, before, id) + AddedBy(config, before, step, id)
  }

  lemma AttemptPays(config: Config, system: System, step: Step, attempt: Attempt, id: Uuid)
    requires step.Deliver? && CanDeliver(system, step) && system.broker[step.index].retries <= config.settings.maxRetries
    ensures Pays(config, system, AfterAttempt(system, step.index, attempt, step.fate), step, id)
  {
    hide Sum, Committed;
    var message, rest := system.broker[step.index], Without(system.broker, step.index);
    SumWithout(OwnBudget(config, id), system.broker, step.index);
    SumWith(OwnBudget(config, id), rest, message);
  }

  lemma DeliveryPays(config: Config, system: System, step: Step, id: Uuid)
    requires Inv(config, system) && step.Deliver? && CanDeliver(system, step)
    ensures Pays(config, system, AfterDeliver(config, system, step), step, id)
  {
    hide Inv, AttemptFor, AfterDeliver, AfterAttempt, Delivered, Pays;
    var attempt := DeliverySummary(config, system, step);
    AttemptPays(config, system, step, attempt, id);
  }

  lemma WorkerPays(config: Config, system: System, step: Step, id: Uuid)
    requires !step.Deliver? && !step.Upload? && !step.ApproveCommand?
    ensures Pays(config, system, Apply(config, system, step), step, id)
  {
    hide Sum;
    var weight := OwnBudget(config, id);
    if !system.worker.Idle? {
      var message := system.worker.message;
      SumWith(weight, system.broker, message);
      SumWith(weight, system.broker, message.(retries := message.retries + 1));
    }
    if step.Redeliver? {
      SumWith(weight, system.broker, step.message);
    }
  }

  lemma OutsidePays(config: Config, system: System, step: Step, id: Uuid)
    requires step.Upload? || step.ApproveCommand?
    ensures Pays(config, system, Apply(config, system, step), step, id)
  {
    hide Sum, ApproveOutcome;
    if step.Upload? {
      SumWith(OwnBudget(config, id), system.broker, Message(step.id, step.correlationId, 0));
    } else if step.id in system.db.documents {
      var row := ApproveOutcome(config, system, step).doc;
      SumWith(OwnBudget(config, id), system.broker, Message(step.id, row.correlationId, 0));
    }
  }

  lemma IdlePays(config: Config, system: System, step: Step, id: Uuid)
    requires step.Deliver? && !CanDeliver(system, step)
    ensures Pays(config, system, Apply(config, system, step), step, id)
  {
    hide PotentialOf;
  }

  lemma StepPays(config: Config, system: System, step: Step, id: Uuid)
    requires Inv(config, system)
    ensures Pays(config, system, Apply(config, system, step), step, id)
  {
    hide Inv, Pays, AfterDeliver;
    if step.Deliver? && CanDeliver(system, step) {
      DeliveryPays(config, system, step, id);
    } else {
      hide Apply;
      if step.Deliver? {
        IdlePays(config, system, step, id);
      } else if step.Upload? || step.ApproveCommand? {
        OutsidePays(config, system, step, id);
      } else {
        WorkerPays(config, system, step, id);
      }
    }
  }

  function ExecutionsOf(config: Config, start: System, steps: seq<Step>, id: Uuid): nat {
    if steps == [] then 0
    else
      var front := steps[..|steps| - 1];
      ExecutionsOf(config, start, front, id)
      + if Executes(Exec(config, start, front), steps[|steps| - 1], id) then 1 else 0
  }

  /** The model calls made for document `id`. */
  function ModelCallsOf(config: Config, start: System, steps: seq<Step>, id: Uuid, endpoints: nat -> Endpoints,
                        fallbackEnabled: bool, llmMaxRetries: nat): nat {
    if steps == [] then 0
    else
      var last := |steps| - 1;
      ModelCallsOf(config, start, steps[..last], id, endpoints, fallbackEnabled, llmMaxRetries)
      + if Executes(Exec(config, start, steps[..last]), steps[last], id)
        then RouteCalls(endpoints(last), fallbackEnabled, llmMaxRetries) else 0
  }

  lemma UndisturbedFront(config: Config, start: System, steps: seq<Step>, id: Uuid)
    requires steps != [] && UndisturbedRun(config, start, steps, id)
    ensures UndisturbedRun(config, start, steps[..|steps| - 1], id)
    ensures LeavesAlone(Exec(config, start, steps[..|steps| - 1]), steps[|steps| - 1], id)
  {
    hide LeavesAlone;
    FrontOf(config, start, steps);
  }

  /** What the steps of a run add for document `id`. */
  function AddedIn(config: Config, start: System, steps: seq<Step>, id: Uuid): nat {
    if steps == [] then 0
    else
      var front := steps[..|steps| - 1];
      AddedIn(config, start, front, id) + AddedBy(config, Exec(config, start, front), steps[|steps| - 1], id)
  }

  lemma {:induction false} RunPays(config: Config, start: System, steps: seq<Step>, id: Uuid)
    requires Inv(config, start)
    ensures ExecutionsOf(config, start, steps, id) + PotentialOf(config, Exec(config, start, steps), id)
            <= PotentialOf(config, start, id) + AddedIn(config, start, steps, id)
  {
    hide Inv, Executes, PotentialOf, AddedBy, Apply;
    if steps != [] {
      var front := steps[..|steps| - 1];
      RunPays(config, start, front, id);
      RunKeeps(config, start, front);
      StepPays(config, Exec(config, start, front), steps[|steps| - 1], id);
    }
  }

  lemma {:induction false} UndisturbedAddsNothing(config: Config, start: System, steps: seq<Step>, id: Uuid)
    requires UndisturbedRun(config, start, steps, id)
    ensures AddedIn(config, start, steps, id) == 0
  {
    hide UndisturbedRun, Exec;
    if steps != [] {
      UndisturbedFront(config, start, steps, id);
      UndisturbedAddsNothing(config, start, steps[..|steps| - 1], id);
    }
  }

  lemma {:induction false} CallsPerOwnExecution(config: Config, start: System, steps: seq<Step>, id: Uuid,
                                                endpoints: nat -> Endpoints, fallbackEnabled: bool, llmMaxRetries: nat)
    ensures ModelCallsOf(config, start, steps, id, endpoints, fallbackEnabled, llmMaxRetries)
            <= ExecutionsOf(config, start, steps, id) * (4 * (llmMaxRetries + 1))
  {
    if steps != [] {
      hide RouteCalls, Executes, Exec;
      var front, last, each := steps[..|steps| - 1], |steps| - 1, 4 * (llmMaxRetries + 1);
      CallsPerOwnExecution(config, start, front, id, endpoints, fallbackEnabled, llmMaxRetries);
      RouteIsBounded(endpoints(last), fallbackEnabled, llmMaxRetries);
      assert (ExecutionsOf(config, start, front, id) + 1) * each == ExecutionsOf(config, start, front, id) * each + each;
    }
  }

  /** Over any run whatever, a document is executed at most as often as its own messages at the start allow, and
      those that uploads, approvals, redeliveries and crashes bring in later; with at most
      `4 * (llmMaxRetries + 1)` model calls each time. */
  lemma DocumentIsBounded(config: Config, start: System, steps: seq<Step>, id: Uuid, endpoints: nat -> Endpoints,
                          fallbackEnabled: bool, llmMaxRetries: nat)
    requires Inv(config, start)
    ensures
      var budget := PotentialOf(config, start, id) + AddedIn(config, start, steps, id);
      && ExecutionsOf(config, start, steps, id) <= budget
      && ModelCallsOf(config, start, steps, id, endpoints, fallbackEnabled, llmMaxRetries) <= 4 * budget * (llmMaxRetries + 1)
  {
    hide Inv, PotentialOf, AddedIn, ExecutionsOf, ModelCallsOf;
    RunPays(config, start, steps, id);
    CallsPerOwnExecution(config, start, steps, id, endpoints, fallbackEnabled, llmMaxRetries);
    Scaled(ExecutionsOf(config, start, steps, id), PotentialOf(config, start, id) + AddedIn(config, start, steps, id),
           llmMaxRetries + 1);
  }

  // ---- One delivery chain ----

  /** The broker holds at most one message of document `id`, and at this try. */
  ghost predicate Lone(broker: seq<Message>, id: Uuid, retries: nat) {
    && (forall i, j :: 0 <= i < j < |broker| && broker[i].documentId == id ==> broker[j].documentId != id)
    && (forall i :: 0 <= i < |broker| && broker[i].documentId == id ==> broker[i].retries == retries)
  }

  /** At most one message of document `id` is left, in the broker or in the worker's hands, and at this try. */
  ghost predicate AtTry(system: System, id: Uuid, retries: nat) {
    && Lone(system.broker, id, retries)
    && (Holds(system.worker, id) ==> !HasMessage(system.broker, id) && system.worker.message.retries == retries)
  }

  lemma LoneMeans(broker: seq<Message>, id: Uuid, retries: nat)
    requires !HasMessage(broker, id)
    ensures Lone(broker, id, retries)
  {
    forall i | 0 <= i < |broker|
      ensures broker[i].documentId != id
    {
    }
  }

  lemma LoneWith(broker: seq<Message>, message: Message, id: Uuid, retries: nat)
    requires Lone(broker, id, retries)
    requires message.documentId == id ==> !HasMessage(broker, id) && message.retries == retries
    ensures Lone(broker + [message], id, retries)
  {
    forall i | 0 <= i < |broker| && message.documentId == id
      ensures broker[i].documentId != id
    {
    }
  }

  lemma LoneWithout(broker: seq<Message>, index: nat, id: Uuid, retries: nat)
    requires Lone(broker, id, retries) && index < |broker|
    ensures Lone(Without(broker, index), id, retries)
    ensures broker[index].documentId == id ==> !HasMessage(Without(broker, index), id)
  {
    var rest := Without(broker, index);
    forall i | 0 <= i < |rest|
      ensures rest[i] == broker[if i < index then i else i + 1]
    {
    }
  }

  lemma LoneBudget(config: Config, broker: seq<Message>, id: Uuid, retries: nat)
    requires Lone(broker, id, retries)
    ensures Sum(OwnBudget(config, id), broker) <= if HasMessage(broker, id) then Budget(config, Message(id, id, retries)) else 0
    decreases broker
  {
    if broker != [] {
      var front, last := broker[..|broker| - 1], broker[|broker| - 1];
      LoneBudget(config, front, id, retries);
      assert broker == front + [last];
      NoMessageAdded(front, last, id);
    }
  }

  /** A document whose one message is fresh: all the work it can cause. */
  lemma FreshChainIsBounded(config: Config, start: System, steps: seq<Step>, id: Uuid, endpoints: nat -> Endpoints,
                            fallbackEnabled: bool, llmMaxRetries: nat)
    requires Inv(config, start) && UndisturbedRun(config, start, steps, id)
    requires AtTry(start, id, 0)
    ensures ExecutionsOf(config, start, steps, id) <= config.settings.maxRetries + 1
    ensures ModelCallsOf(config, start, steps, id, endpoints, fallbackEnabled, llmMaxRetries)
            <= 4 * (config.settings.maxRetries + 1) * (llmMaxRetries + 1)
  {
    hide Inv, UndisturbedRun, ExecutionsOf, ModelCallsOf, AddedIn, HasMessage, Lone, Sum;
    LoneBudget(config, start.broker, id, 0);
    UndisturbedAddsNothing(config, start, steps, id);
    assert PotentialOf(config, start, id) <= config.settings.maxRetries + 1;
    DocumentIsBounded(config, start, steps, id, endpoints, fallbackEnabled, llmMaxRetries);
    CallsPerOwnExecution(config, start, steps, id, endpoints, fallbackEnabled, llmMaxRetries);
    Scaled(ExecutionsOf(config, start, steps, id), config.settings.maxRetries + 1, llmMaxRetries + 1);
  }

  predicate IsRetryOf(config: Config, system: System, step: Step, id: Uuid) {
    && step.RetryOrExhaust? && system.worker.RetryRecorded?
    && system.worker.message.documentId == id && system.worker.message.retries < config.settings.maxRetries
  }

  lemma AttemptTries(config: Config, system: System, step: Step, attempt: Attempt, id: Uuid, retries: nat)
    requires step.Deliver? && CanDeliver(system, step) && LeavesAlone(system, step, id) && AtTry(system, id, retries)
    ensures AtTry(AfterAttempt(system, step.index, attempt, step.fate), id, retries)
  {
    hide Lone, HasMessage, Committed;
    var message := system.broker[step.index];
    LoneAt(system.broker, step.index, id, retries);
    LoneWithout(system.broker, step.index, id, retries);
    if message.documentId != id {
      LoneWith(Without(system.broker, step.index), message, id, retries);
    }
  }

  lemma LoneAt(broker: seq<Message>, index: nat, id: Uuid, retries: nat)
    requires Lone(broker, id, retries) && index < |broker|
    ensures broker[index].documentId == id ==> broker[index].retries == retries
  {
  }

  lemma DeliveryTries(config: Config, system: System, step: Step, id: Uuid, retries: nat)
    requires Inv(config, system) && step.Deliver? && CanDeliver(system, step)
    requires LeavesAlone(system, step, id) && AtTry(system, id, retries)
    ensures AtTry(AfterDeliver(config, system, step), id, retries)
  {
    hide Inv, AttemptFor, AfterDeliver, AfterAttempt, Delivered, AtTry, LeavesAlone;
    var attempt := DeliverySummary(config, system, step);
    AttemptTries(config, system, step, attempt, id, retries);
  }

  lemma OutsideTries(config: Config, system: System, step: Step, id: Uuid, retries: nat)
    requires (step.Upload? || step.ApproveCommand?) && LeavesAlone(system, step, id) && AtTry(system, id, retries)
    ensures AtTry(Apply(config, system, step), id, retries)
  {
    hide Lone, HasMessage, ApproveOutcome;
    if step.Upload? {
      var message := Message(step.id, step.correlationId, 0);
      LoneWith(system.broker, message, id, retries);
      NoMessageAdded(system.broker, message, id);
    } else if step.id in system.db.documents {
      var message := Message(step.id, ApproveOutcome(config, system, step).doc.correlationId, 0);
      LoneWith(system.broker, message, id, retries);
      NoMessageAdded(system.broker, message, id);
    }
  }

  lemma RetryTries(config: Config, system: System, published: bool, id: Uuid, retries: nat)
    requires AtTry(system, id, retries)
    ensures
      var step := RetryOrExhaust(published);
      if IsRetryOf(config, system, step, id) then
        retries < config.settings.maxRetries && AtTry(Apply(config, system, step), id, retries + 1)
      else AtTry(Apply(config, system, step), id, retries)
  {
    hide Lone, HasMessage;
    if system.worker.RetryRecorded? {
      var message := system.worker.message;
      var again := message.(retries := message.retries + 1);
      if message.documentId == id {
        LoneMeans(system.broker, id, retries + 1);
        LoneWith(system.broker, again, id, retries + 1);
      } else {
        LoneWith(system.broker, again, id, retries);
      }
    }
  }

  lemma WorkerTries(config: Config, system: System, step: Step, id: Uuid, retries: nat)
    requires !step.Deliver? && !step.Upload? && !step.ApproveCommand? && !step.RetryOrExhaust?
    requires LeavesAlone(system, step, id) && AtTry(system, id, retries)
    ensures AtTry(Apply(config, system, step), id, retries)
  {
    hide Lone, HasMessage;
    if step.Crash? && !system.worker.Idle? {
      LoneWith(system.broker, system.worker.message, id, retries);
    }
    if step.Redeliver? {
      LoneWith(system.broker, step.message, id, retries);
      NoMessageAdded(system.broker, step.message, id);
    }
  }

  lemma StepTries(config: Config, system: System, step: Step, id: Uuid, retries: nat)
    requires Inv(config, system) && LeavesAlone(system, step, id)
    requires AtTry(system, id, retries) && retries <= config.settings.maxRetries
    ensures
      if IsRetryOf(config, system, step, id) then
        retries < config.settings.maxRetries && AtTry(Apply(config, system, step), id, retries + 1)
      else AtTry(Apply(config, system, step), id, retries)
  {
    hide Inv, AtTry, LeavesAlone;
    if step.Deliver? {
      if CanDeliver(system, step) {
        DeliveryTries(config, system, step, id, retries);
      }
    } else if step.Upload? || step.ApproveCommand? {
      hide Apply;
      OutsideTries(config, system, step, id, retries);
    } else if step.RetryOrExhaust? {
      hide Apply;
      RetryTries(config, system, step.published, id, retries);
    } else {
      hide Apply;
      WorkerTries(config, system, step, id, retries);
    }
  }

  /** The retries of document `id` that a run publishes. */
  function RetriesOf(config: Config, start: System, steps: seq<Step>, id: Uuid): nat {
    if steps == [] then 0
    else
      var front := steps[..|steps| - 1];
      RetriesOf(config, start, front, id)
      + if IsRetryOf(config, Exec(config, start, front), steps[|steps| - 1], id) then 1 else 0
  }

  lemma {:induction false} ChainTries(config: Config, start: System, steps: seq<Step>, id: Uuid)
    requires Inv(config, start) && UndisturbedRun(config, start, steps, id) && AtTry(start, id, 0)
    ensures RetriesOf(config, start, steps, id) <= config.settings.maxRetries
    ensures AtTry(Exec(config, start, steps), id, RetriesOf(config, start, steps, id))
  {
    hide Inv, UndisturbedRun, LeavesAlone, AtTry, Apply, IsRetryOf;
    if steps != [] {
      var front, last := steps[..|steps| - 1], steps[|steps| - 1];
      UndisturbedFront(config, start, steps, id);
      ChainTries(config, start, front, id);
      RunKeeps(config, start, front);
      StepTries(config, Exec(config, start, front), last, id, RetriesOf(config, start, front, id));
    }
  }

  // ---- The waiting between the worker's retries ----

  function RealPow(base: real, n: nat): real {
    if n == 0 then 1.0 else base * RealPow(base, n - 1)
  }

  function Min(x: real, y: real): real {
    if y < x then y else x
  }

  /** The wait before retry number `retries + 1`. */
  function Countdown(base: real, cap: real, retries: nat): real {
    Min(RealPow(base, retries), cap)
  }

  /** The waits of a run on behalf of document `id`: one for each retry it publishes. */
  function WaitedFor(config: Config, start: System, steps: seq<Step>, id: Uuid, base: real, cap: real): real {
    if steps == [] then 0.0
    else
      var front := steps[..|steps| - 1];
      var before := Exec(config, start, front);
      WaitedFor(config, start, front, id, base, cap)
      + if IsRetryOf(config, before, steps[|steps| - 1], id) then Countdown(base, cap, before.worker.message.retries) else 0.0
  }

  lemma {:induction false} PowerGrows(base: real, n: nat)
    requires base > 1.0
    ensures 1.0 <= RealPow(base, n) <= RealPow(base, n + 1)
  {
    if n > 0 {
      PowerGrows(base, n - 1);
    }
    GrowsTimes(base, RealPow(base, n));
  }

  lemma GrowsTimes(base: real, x: real)
    requires base > 1.0 && x >= 1.0
    ensures x <= base * x
  {
    assert 0.0 <= (base - 1.0) * x;
  }

  /** Each wait is at least as long as the one before it, and none is longer than the cap. */
  lemma CountdownsGrow(base: real, cap: real, retries: nat)
    requires base > 1.0 && cap > 0.0
    ensures 0.0 < Countdown(base, cap, retries) <= Countdown(base, cap, retries + 1) <= cap
  {
    PowerGrows(base, retries);
    hide RealPow;
  }

  /** The first wait is one second and each later one `base` times the one before, as long as the cap allows. */
  lemma CountdownsMultiply(base: real, cap: real, retries: nat)
    requires base > 1.0 && cap > 0.0
    ensures Countdown(base, cap, 0) == if cap < 1.0 then cap else 1.0
    ensures
      var next := base * Countdown(base, cap, retries);
      Countdown(base, cap, retries + 1) == if next <= cap then next else cap
  {
    PowerGrows(base, retries);
    if RealPow(base, retries) > cap {
      GrowsBy(base, cap);
    }
  }

  lemma GrowsBy(base: real, x: real)
    requires base > 1.0 && x > 0.0
    ensures base * x > x
  {
    assert 0.0 < (base - 1.0) * x;
  }

  function TotalCountdown(base: real, cap: real, retries: nat): real {
    if retries == 0 then 0.0 else TotalCountdown(base, cap, retries - 1) + Countdown(base, cap, retries - 1)
  }

  lemma {:induction false} TotalIsCapped(base: real, cap: real, retries: nat)
    requires base > 1.0 && cap > 0.0
    ensures 0.0 <= TotalCountdown(base, cap, retries) <= retries as real * cap
  {
    if retries > 0 {
      hide Countdown;
      TotalIsCapped(base, cap, retries - 1);
      CountdownsGrow(base, cap, retries - 1);
      assert retries as real * cap == (retries - 1) as real * cap + cap;
    }
  }

  lemma RetryOfTry(config: Config, system: System, step: Step, id: Uuid, retries: nat)
    requires AtTry(system, id, retries) && IsRetryOf(config, system, step, id)
    ensures system.worker.message.retries == retries
  {
  }

  /** The waits of a chain are exactly the first so many countdowns, one for each retry it took. */
  lemma {:induction false} ChainWaits(config: Config, start: System, steps: seq<Step>, id: Uuid, base: real, cap: real)
    requires Inv(config, start) && UndisturbedRun(config, start, steps, id) && AtTry(start, id, 0)
    ensures WaitedFor(config, start, steps, id, base, cap) == TotalCountdown(base, cap, RetriesOf(config, start, steps, id))
  {
    hide Inv, UndisturbedRun, LeavesAlone, AtTry, Countdown, Apply;
    if steps != [] {
      var front, last := steps[..|steps| - 1], steps[|steps| - 1];
      UndisturbedFront(config, start, steps, id);
      ChainWaits(config, start, front, id, base, cap);
      ChainTries(config, start, front, id);
      if IsRetryOf(config, Exec(config, start, front), last, id) {
        RetryOfTry(config, Exec(config, start, front), last, id, RetriesOf(config, start, front, id));
      }
    }
  }

  /** One delivery chain never waits longer than the cap for each of its retries. */
  lemma ChainWaitIsBounded(config: Config, start: System, steps: seq<Step>, id: Uuid, base: real, cap: real)
    requires Inv(config, start) && UndisturbedRun(config, start, steps, id) && AtTry(start, id, 0)
    requires base > 1.0 && cap > 0.0
    ensures WaitedFor(config, start, steps, id, base, cap) <= config.settings.maxRetries as real * cap
  {
    hide Inv, UndisturbedRun, AtTry, WaitedFor, RetriesOf, TotalCountdown, Countdown;
    var retries := RetriesOf(config, start, steps, id);
    ChainWaits(config, start, steps, id, base, cap);
    ChainTries(config, start, steps, id);
    TotalIsCapped(base, cap, retries);
    assert 0.0 <= (config.settings.maxRetries - retries) as real * cap;
  }
}
