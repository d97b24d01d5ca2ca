/** The whole pipeline as a state machine: the committed database, the ERP, the broker, the dead-letter
    queue and the one sequential worker. A step is one transaction or one message operation; reviews and
    uploads may come between any two of the worker's transactions, and crashes and faults are steps too. */
module Pipeline {
  import opened Options
  import opened WorkflowStates
  import opened Identifiers
  import opened Records
  import opened Erp
  import opened Attempts
  import opened Reviews

  datatype Message = Message(documentId: Uuid, correlationId: Uuid, retries: nat)

  datatype DlqEntry = DlqEntry(documentId: Uuid, correlationId: Uuid, retryCount: nat, errorClass: string)

  datatype Db = Db(documents: map<Uuid, Document>, submissions: seq<Submission>, clock: nat)

  /** Where the worker is in handling one message, between its separate transactions. */
  datatype Worker =
    | Idle
    | AttemptRaised(message: Message, errorClass: string)
    | RetryRecorded(message: Message, errorClass: string)
    | Exhausted(message: Message, errorClass: string)

  datatype System = System(db: Db, erp: ErpState, broker: seq<Message>, dlq: seq<DlqEntry>, worker: Worker)

  datatype Config = Config(settings: Settings, sha: string -> string, suppliers: set<string>, purchaseOrders: set<string>)

  /** What happens to the worker and its message around the commit of an attempt. */
  datatype Fate = Acknowledged | CrashBeforeCommit | CrashAfterCommit | CommitFailed

  datatype Step =
    | Upload(sourceMessageId: string, content: string, id: Uuid, correlationId: Uuid, enqueued: bool)
    | Deliver(index: nat, world: World, fate: Fate)
    | RecordRetry
    | RetryOrExhaust(published: bool)
    | PushDeadLetter
    | Crash
    | Abort
    | Redeliver(message: Message)
    | ApproveCommand(id: Uuid, approval: Approval, enqueued: bool)
    | RejectCommand(id: Uuid, actor: string)

  function Init(config: Config): System {
    System(Db(map[], [], 0), ErpState(config.suppliers, config.purchaseOrders, map[], map[]), [], [], Idle)
  }

  function Put(db: Db, id: Uuid, doc: Document): Db {
    db.(documents := db.documents[id := doc], clock := db.clock + 1)
  }

  function Tick(system: System): System {
    system.(db := system.db.(clock := system.db.clock + 1))
  }

  // ---- Uploads ----

  function NewDocument(config: Config, sourceMessageId: string, content: string, correlationId: Uuid): Document {
    var hash := config.sha(content);
    Document(sourceMessageId, hash, UploadKey(config.sha, sourceMessageId, hash), correlationId, Queued, 0, None, [], [],
             [Note(DocumentReceived, SYSTEM), StateTransition(Received, Queued, SYSTEM)])
  }

  predicate IsKnownUpload(db: Db, key: string) {
    exists id :: id in db.documents && db.documents[id].uploadKey == key
  }

  function AfterUpload(config: Config, system: System, step: Step): System
    requires step.Upload?
  {
    var doc := NewDocument(config, step.sourceMessageId, step.content, step.correlationId);
    if step.sourceMessageId == "" || step.content == "" then system
    else if IsKnownUpload(system.db, doc.uploadKey) || step.id in system.db.documents then Tick(system)
    else
      var message := Message(step.id, step.correlationId, 0);
      system.(db := Put(system.db, step.id, doc), broker := if step.enqueued then system.broker + [message] else system.broker)
  }

  // ---- The worker's task ----

  function Without(broker: seq<Message>, index: nat): seq<Message>
    requires index < |broker|
  {
    broker[..index] + broker[index + 1..]
  }

  /** The attempt a delivered message leads to; a message for an unknown document, or with another
      correlation id, is a workflow error before any work starts. */
  function AttemptFor(config: Config, system: System, message: Message, world: World): Attempt
    requires message.documentId in system.db.documents
  {
    var doc := system.db.documents[message.documentId];
    var work := Work(message.documentId, doc, system.db.submissions, system.erp, None);
    if doc.correlationId != message.correlationId then Attempt(work, WorkflowFailure)
    else Process(work, system.db.clock, config.settings, world)
  }

  /** The committed database after an attempt: all of its writes, or none when it raised or was cut off. */
  function Committed(db: Db, attempt: Attempt, fate: Fate): Db {
    if attempt.raised == NoRaise && fate in {Acknowledged, CrashAfterCommit} then
      Put(db, attempt.work.id, attempt.work.doc).(submissions := attempt.work.submissions)
    else db.(clock := db.clock + 1)
  }

  function AfterAttempt(system: System, index: nat, attempt: Attempt, fate: Fate): System
    requires index < |system.broker|
  {
    var message := system.broker[index];
    var rest := Without(system.broker, index);
    var after := system.(db := Committed(system.db, attempt, fate), erp := attempt.work.erp);
    if fate in {CrashBeforeCommit, CrashAfterCommit} then after.(broker := rest + [message])
    else if attempt.raised.TransientError? then
      after.(broker := rest, worker := AttemptRaised(message, attempt.raised.errorClass))
    else after.(broker := rest)
  }

  /** A delivery can happen when the worker is free; the ERP draws ids it has not used. */
  predicate CanDeliver(system: System, step: Step)
    requires step.Deliver?
  {
    system.worker == Idle && step.index < |system.broker| && step.world.freshId !in system.erp.byId
  }

  function AfterDeliver(config: Config, system: System, step: Step): System
    requires step.Deliver?
  {
    if !CanDeliver(system, step) then system
    else if system.broker[step.index].documentId !in system.db.documents then
      Tick(system).(broker := Without(system.broker, step.index))
    else
      AfterAttempt(system, step.index, AttemptFor(config, system, system.broker[step.index], step.world), step.fate)
  }

  function RetryNoted(doc: Document, retryCount: nat, errorClass: string): Document {
    Noted(doc.(retryCount := retryCount, lastErrorClass := Some(errorClass)), RetryScheduled, SYSTEM)
  }

  function AfterRecordRetry(system: System): System {
    if !system.worker.AttemptRaised? then system
    else
      var message, errorClass := system.worker.message, system.worker.errorClass;
      var recorded := system.(worker := RetryRecorded(message, errorClass));
      if message.documentId !in system.db.documents then Tick(recorded)
      else
        var doc := RetryNoted(system.db.documents[message.documentId], message.retries + 1, errorClass);
        recorded.(db := Put(system.db, message.documentId, doc))
  }

  /** The finaliser's effect on the row: a document that is already terminal only has its counters set. */
  function MarkedExhausted(doc: Document, retryCount: nat, errorClass: string): Document {
    var counted := doc.(retryCount := retryCount, lastErrorClass := Some(errorClass));
    if IsTerminal(doc.status) then counted
    else Noted(Moved(counted, Failed, SYSTEM), RetriesExhausted, SYSTEM)
  }

  /** The finaliser's own transaction is refused when the status cannot become `Failed`. */
  predicate FinaliserRefused(doc: Document) {
    !IsTerminal(doc.status) && !CanMove(doc.status, Failed)
  }

  function AfterRetryOrExhaust(config: Config, system: System, published: bool): System {
    if !system.worker.RetryRecorded? then system
    else
      var message, errorClass := system.worker.message, system.worker.errorClass;
      if message.retries < config.settings.maxRetries then
        var again := message.(retries := message.retries + 1);
        system.(worker := Idle, broker := if published then system.broker + [again] else system.broker)
      else if message.documentId !in system.db.documents || FinaliserRefused(system.db.documents[message.documentId]) then
        Tick(system).(worker := Idle)
      else
        var doc := MarkedExhausted(system.db.documents[message.documentId], message.retries + 1, errorClass);
        system.(db := Put(system.db, message.documentId, doc), worker := Exhausted(message, errorClass))
  }

  function DeadLetter(message: Message, errorClass: string): DlqEntry {
    DlqEntry(message.documentId, message.correlationId, message.retries + 1, errorClass)
  }

  function AfterPush(system: System): System {
    if !system.worker.Exhausted? then system
    else
      system.(dlq := system.dlq + [DeadLetter(system.worker.message, system.worker.errorClass)], worker := Idle)
  }

  /** The worker dies between two of its transactions: the unacknowledged message returns to the broker. */
  function AfterCrash(system: System): System {
    if system.worker == Idle then system
    else system.(broker := system.broker + [system.worker.message], worker := Idle)
  }

  /** One of the worker's later transactions fails: its task ends with an error and its message is acknowledged. */
  function AfterAbort(system: System): System {
    system.(worker := Idle)
  }

  /** A message not yet acknowledged. */
  predicate IsPending(system: System, message: Message) {
    message in system.broker || (!system.worker.Idle? && system.worker.message == message)
  }

  function AfterRedeliver(system: System, message: Message): System {
    if IsPending(system, message) then system.(broker := system.broker + [message]) else system
  }

  // ---- Reviews ----

  function ApproveOutcome(config: Config, system: System, step: Step): ReviewOutcome
    requires step.ApproveCommand? && step.id in system.db.documents
  {
    Approve(system.db.documents[step.id], system.db.clock, step.approval, config.settings, system.erp, system.db.submissions)
  }

  function AfterApprove(config: Config, system: System, step: Step): System
    requires step.ApproveCommand?
  {
    if step.id !in system.db.documents then Tick(system)
    else
      var outcome := ApproveOutcome(config, system, step);
      if outcome.result != Changed then Tick(system)
      else
        var message := Message(step.id, outcome.doc.correlationId, 0);
        system.(db := Put(system.db, step.id, outcome.doc),
                broker := if step.enqueued then system.broker + [message] else system.broker)
  }

  function AfterReject(system: System, step: Step): System
    requires step.RejectCommand?
  {
    if step.id !in system.db.documents then Tick(system)
    else
      var outcome := Reject(system.db.documents[step.id], system.db.clock, step.actor);
      if outcome.result != Changed then Tick(system)
      else system.(db := Put(system.db, step.id, outcome.doc))
  }

  // ---- Runs ----

  /** The system after a step. A step that is not possible in this state leaves it as it is. */
  function Apply(config: Config, system: System, step: Step): System {
    match step
    case Upload(_, _, _, _, _) => AfterUpload(config, system, step)
    case Deliver(_, _, _) => AfterDeliver(config, system, step)
    case RecordRetry => AfterRecordRetry(system)
    case RetryOrExhaust(published) => AfterRetryOrExhaust(config, system, published)
    case PushDeadLetter => AfterPush(system)
    case Crash => AfterCrash(system)
    case Abort => AfterAbort(system)
    case Redeliver(message) => AfterRedeliver(system, message)
    case ApproveCommand(_, _, _) => AfterApprove(config, system, step)
    case RejectCommand(_, _) => AfterReject(system, step)
  }

  function Exec(config: Config, start: System, steps: seq<Step>): System {
    if steps == [] then start
    else Apply(config, Exec(config, start, steps[..|steps| - 1]), steps[|steps| - 1])
  }

  /** The state a run from the empty pipeline is in after its first `n` steps. */
  function StateAt(config: Config, steps: seq<Step>, n: nat): System
    requires n <= |steps|
  {
    Exec(config, Init(config), steps[..n])
  }

  lemma StateAtNext(config: Config, steps: seq<Step>, n: nat)
    requires n < |steps|
    ensures StateAt(config, steps, n + 1) == Apply(config, StateAt(config, steps, n), steps[n])
  {
    assert steps[..n + 1][..n] == steps[..n];
  }

  /** A run goes on from the state its first part ends in. */
  lemma {:induction false} ExecInParts(config: Config, start: System, first: seq<Step>, rest: seq<Step>)
    ensures Exec(config, start, first + rest) == Exec(config, Exec(config, start, first), rest)
    decreases rest
  {
    hide Apply;
    if rest == [] {
      assert first + rest == first;
    } else {
      ExecInParts(config, start, first, rest[..|rest| - 1]);
      assert (first + rest)[..|first + rest| - 1] == first + rest[..|rest| - 1];
    }
  }

  /** The end of a run, seen from the state after its first `n` steps. */
  lemma StateAtLeadsOn(config: Config, steps: seq<Step>, n: nat)
    requires n <= |steps|
    ensures Exec(config, Init(config), steps) == Exec(config, StateAt(config, steps, n), steps[n..])
  {
    hide Apply;
    ExecInParts(config, Init(config), steps[..n], steps[n..]);
    assert steps[..n] + steps[n..] == steps;
  }
}
