/** The programs that run the transactions, as the services write them: the committed tables, the broker and
    the dead-letter queue are objects updated in place. Each program is proved to take the step, or the
    sequence of steps, of `Pipeline` that it stands for. */
module Tasks {
  import opened Options
  import opened WorkflowStates
  import opened Identifiers
  import opened Records
  import opened Erp
  import opened Attempts
  import PD = ProcessDocument
  import RV = Reviews
  import opened Pipeline

  /** The committed tables, and a clock that advances with each transaction. */
  class Database {
    var documents: map<Uuid, Document>
    var submissions: seq<Submission>
    var clock: nat

    function State(): Db
      reads this
    {
      Db(documents, submissions, clock)
    }

    /** Leaving a session normally: its copy of the row and of the submissions becomes the committed one. */
    method Commit(document: PD.DocumentRecord, session: PD.Session)
      modifies this
      ensures State() == Put(old(State()), document.id, document.AsRow()).(submissions := session.submissions)
    {
      documents := documents[document.id := document.AsRow()];
      submissions := session.submissions;
      clock := clock + 1;
    }

    /** Leaving a session by an exception, or without having written anything. */
    method Rollback()
      modifies this
      ensures State() == old(State()).(clock := old(clock) + 1)
    {
      clock := clock + 1;
    }
  }

  class Broker {
    var queue: seq<Message>

    method Publish(message: Message)
      modifies this
      ensures queue == old(queue) + [message]
    {
      queue := queue + [message];
    }

    method Take(index: nat) returns (message: Message)
      requires index < |queue|
      modifies this
      ensures message == old(queue)[index] && queue == Without(old(queue), index)
    {
      message := queue[index];
      queue := queue[..index] + queue[index + 1..];
    }
  }

  /** The dead-letter list in Redis. */
  class DeadLetterQueue {
    var entries: seq<DlqEntry>

    method Push(entry: DlqEntry)
      modifies this
      ensures entries == old(entries) + [entry]
    {
      entries := entries + [entry];
    }

    /** The last `limit` entries, newest first; a zero limit means all of them, as a Redis range ending at -1 does. */
    method ListEntries(limit: nat) returns (listed: seq<DlqEntry>)
      ensures |listed| == if limit == 0 || |entries| <= limit then |entries| else limit
      ensures forall i :: 0 <= i < |listed| ==> listed[i] == entries[|entries| - 1 - i]
    {
      var count := if limit == 0 || |entries| <= limit then |entries| else limit;
      var raw := entries[|entries| - count..];
      listed := [];
      for i := 0 to |raw|
        invariant |listed| == i
        invariant forall j :: 0 <= j < i ==> listed[j] == raw[i - 1 - j]
      {
        listed := [raw[i]] + listed;
      }
    }

    /** The newest entry of a document, among the last thousand of the list. */
    method FindForDocument(id: Uuid) returns (entry: Option<DlqEntry>)
      ensures entry.Some? ==>
                exists i :: && 0 <= i < |entries| && |entries| - i <= 1000 && entries[i] == entry.value
                            && entries[i].documentId == id
                            && forall j :: i < j < |entries| ==> entries[j].documentId != id
      ensures entry.None? ==> forall i :: 0 <= i < |entries| && |entries| - i <= 1000 ==> entries[i].documentId != id
    {
      var listed := ListEntries(1000);
      for i := 0 to |listed|
        invariant forall j :: 0 <= j < i ==> listed[j].documentId != id
      {
        if listed[i].documentId == id {
          var at := |entries| - 1 - i;
          assert entries[at] == listed[i];
          forall j | at < j < |entries|
            ensures entries[j].documentId != id
          {
            assert listed[|entries| - 1 - j] == entries[j];
          }
          return Some(listed[i]);
        }
      }
      forall i | 0 <= i < |entries| && |entries| - i <= 1000
        ensures entries[i].documentId != id
      {
        assert listed[|entries| - 1 - i] == entries[i];
      }
      return None;
    }
  }

  function Observed(db: Database, erp: ErpMock, broker: Broker, dlq: DeadLetterQueue, worker: Worker): System
    reads db, erp, broker, dlq
  {
    System(db.State(), erp.State(), broker.queue, dlq.entries, worker)
  }

  // ---- The worker ----

  /** One attempt in its own session: committed when it returns, rolled back when it raises. */
  method RunDocumentProcessing(db: Database, erp: ErpMock, config: Config, message: Message, world: World)
    returns (raised: Raise, call: Option<ErpCall>)
    modifies db, erp
    ensures message.documentId !in old(db.documents) ==>
              raised == WorkflowFailure && call == None && erp.State() == old(erp.State())
              && db.State() == old(db.State()).(clock := old(db.clock) + 1)
    ensures message.documentId in old(db.documents) ==>
              var attempt := AttemptFor(config, old(System(db.State(), erp.State(), [], [], Idle)), message, world);
              && raised == attempt.raised && call == attempt.work.call
              && erp.State() == attempt.work.erp
              && db.State() == Committed(old(db.State()), attempt, Acknowledged)
  {
    call := None;
    if message.documentId !in db.documents {
      db.Rollback();
      return WorkflowFailure, None;
    }
    var document := new PD.DocumentRecord(message.documentId, db.documents[message.documentId]);
    var session := new PD.Session(db.clock, db.submissions);
    if document.correlationId != message.correlationId {
      db.Rollback();
      return WorkflowFailure, None;
    }
    hide Process;
    raised, call := PD.Run(session, document, erp, config.settings, world);
    if raised == NoRaise {
      db.Commit(document, session);
    } else {
      db.Rollback();
    }
  }

  method RecordRetryMetadata(document: PD.DocumentRecord, retryCount: nat, errorClass: string)
    modifies document
    ensures document.AsRow() == RetryNoted(old(document.AsRow()), retryCount, errorClass)
  {
    document.retryCount := retryCount;
    document.lastErrorClass := Some(errorClass);
    document.Audit(RetryScheduled, SYSTEM);
  }

  method MarkRetryExhausted(document: PD.DocumentRecord, retryCount: nat, errorClass: string) returns (raised: Raise)
    modifies document
    ensures raised == NoRaise <==> !FinaliserRefused(old(document.AsRow()))
    ensures raised == NoRaise ==> document.AsRow() == MarkedExhausted(old(document.AsRow()), retryCount, errorClass)
  {
    document.retryCount := retryCount;
    document.lastErrorClass := Some(errorClass);
    if IsTerminal(document.status) {
      return NoRaise;
    }
    raised := document.Transition(Failed, SYSTEM);
    if raised == NoRaise {
      document.Audit(RetriesExhausted, SYSTEM);
    }
  }

  /** The transaction that notes a scheduled retry. */
  method NoteRetry(db: Database, message: Message, errorClass: string)
    modifies db
    ensures message.documentId !in old(db.documents) ==> db.State() == old(db.State()).(clock := old(db.clock) + 1)
    ensures message.documentId in old(db.documents) ==>
              db.State() == Put(old(db.State()), message.documentId,
                                RetryNoted(old(db.documents)[message.documentId], message.retries + 1, errorClass))
  {
    if message.documentId !in db.documents {
      db.Rollback();
      return;
    }
    var document := new PD.DocumentRecord(message.documentId, db.documents[message.documentId]);
    var session := new PD.Session(db.clock, db.submissions);
    RecordRetryMetadata(document, message.retries + 1, errorClass);
    db.Commit(document, session);
  }

  /** The finaliser: its transaction first, the dead-letter entry only after the commit. */
  method FinalizeExhaustedFailure(db: Database, dlq: DeadLetterQueue, message: Message, errorClass: string)
    modifies db, dlq
    ensures
      var gone := message.documentId !in old(db.documents) || FinaliserRefused(old(db.documents)[message.documentId]);
      && db.State() == (if gone then old(db.State()).(clock := old(db.clock) + 1)
                        else Put(old(db.State()), message.documentId,
                                 MarkedExhausted(old(db.documents)[message.documentId], message.retries + 1, errorClass)))
      && dlq.entries == old(dlq.entries) + (if gone then [] else [DeadLetter(message, errorClass)])
  {
    if message.documentId !in db.documents {
      db.Rollback();
      return;
    }
    var document := new PD.DocumentRecord(message.documentId, db.documents[message.documentId]);
    var session := new PD.Session(db.clock, db.submissions);
    var raised := MarkRetryExhausted(document, message.retries + 1, errorClass);
    if raised != NoRaise {
      db.Rollback();
      return;
    }
    db.Commit(document, session);
    dlq.Push(DeadLetter(message, errorClass));
  }

  /** What follows a transient failure: note it, then schedule a retry, which the broker may refuse, or give up. */
  method RetryOrGiveUp(db: Database, erp: ErpMock, broker: Broker, dlq: DeadLetterQueue, config: Config,
                       message: Message, errorClass: string, published: bool)
    modifies db, broker, dlq
    ensures
      var raised := old(Observed(db, erp, broker, dlq, AttemptRaised(message, errorClass)));
      Observed(db, erp, broker, dlq, Idle)
      == AfterPush(AfterRetryOrExhaust(config, AfterRecordRetry(raised), published))
  {
    NoteRetry(db, message, errorClass);
    ghost var noted := Observed(db, erp, broker, dlq, RetryRecorded(message, errorClass));
    assert noted == AfterRecordRetry(old(Observed(db, erp, broker, dlq, AttemptRaised(message, errorClass))));
    if message.retries >= config.settings.maxRetries {
      FinalizeExhaustedFailure(db, dlq, message, errorClass);
    } else if published {
      broker.Publish(message.(retries := message.retries + 1));
    }
    assert Observed(db, erp, broker, dlq, Idle) == AfterPush(AfterRetryOrExhaust(config, noted, published));
  }

  /** The whole task for one delivered message, run without interruption, is a delivery followed by the
      worker's three later steps, each of which does nothing when the attempt does not call for it. */
  method ProcessDocumentTask(db: Database, erp: ErpMock, broker: Broker, dlq: DeadLetterQueue, config: Config,
                             index: nat, world: World, published: bool)
    requires index < |broker.queue| && world.freshId !in erp.invoicesById
    modifies db, erp, broker, dlq
    ensures
      var before := old(Observed(db, erp, broker, dlq, Idle));
      var delivered := AfterDeliver(config, before, Deliver(index, world, Acknowledged));
      Observed(db, erp, broker, dlq, Idle) == AfterPush(AfterRetryOrExhaust(config, AfterRecordRetry(delivered), published))
  {
    hide Process;
    ghost var before := Observed(db, erp, broker, dlq, Idle);
    var message := broker.Take(index);
    var raised, call := RunDocumentProcessing(db, erp, config, message, world);
    ghost var delivered := AfterDeliver(config, before, Deliver(index, world, Acknowledged));
    DeliveredState(config, before, index, world);
    if raised.TransientError? {
      assert Observed(db, erp, broker, dlq, AttemptRaised(message, raised.errorClass)) == delivered;
      RetryOrGiveUp(db, erp, broker, dlq, config, message, raised.errorClass, published);
    } else {
      assert Observed(db, erp, broker, dlq, Idle) == delivered;
    }
  }

  lemma DeliveredState(config: Config, before: System, index: nat, world: World)
    requires index < |before.broker| && before.worker == Idle && world.freshId !in before.erp.byId
    ensures
      var message := before.broker[index];
      var after := AfterDeliver(config, before, Deliver(index, world, Acknowledged));
      if message.documentId !in before.db.documents then
        after == Tick(before).(broker := Without(before.broker, index))
      else
        var attempt := AttemptFor(config, System(before.db, before.erp, [], [], Idle), message, world);
        after == System(Committed(before.db, attempt, Acknowledged), attempt.work.erp, Without(before.broker, index), before.dlq,
                        if attempt.raised.TransientError? then AttemptRaised(message, attempt.raised.errorClass) else Idle)
  {
    hide Process;
  }

  // ---- The API ----

  /** The upload: look for the key, otherwise create, queue and commit, and only then enqueue. */
  method UploadDocument(db: Database, erp: ErpMock, broker: Broker, dlq: DeadLetterQueue, config: Config,
                        sourceMessageId: string, content: string, id: Uuid, correlationId: Uuid, enqueued: bool)
    requires id !in db.documents
    modifies db, broker
    ensures Observed(db, erp, broker, dlq, Idle)
         == AfterUpload(config, old(Observed(db, erp, broker, dlq, Idle)),
                        Upload(sourceMessageId, content, id, correlationId, enqueued))
  {
    if sourceMessageId == "" || content == "" {
      return;
    }
    var hash := config.sha(content);
    var key := UploadKey(config.sha, sourceMessageId, hash);
    if exists known :: known in db.documents && db.documents[known].uploadKey == key {
      assert IsKnownUpload(db.State(), key);
      db.Rollback();
      return;
    }
    var row := Document(sourceMessageId, hash, key, correlationId, Received, 0, None, [], [], []);
    var document := new PD.DocumentRecord(id, row);
    document.Audit(DocumentReceived, SYSTEM);
    var session := new PD.Session(db.clock, db.submissions);
    var raised := document.Transition(Queued, SYSTEM);
    assert document.AsRow() == NewDocument(config, sourceMessageId, content, correlationId);
    db.Commit(document, session);
    if enqueued {
      broker.Publish(Message(id, correlationId, 0));
    }
  }

  method ApproveDocumentReview(db: Database, erp: ErpMock, broker: Broker, dlq: DeadLetterQueue, config: Config,
                               id: Uuid, approval: RV.Approval, enqueued: bool)
    modifies db, broker
    ensures Observed(db, erp, broker, dlq, Idle)
         == AfterApprove(config, old(Observed(db, erp, broker, dlq, Idle)), ApproveCommand(id, approval, enqueued))
  {
    hide RV.Approve;
    if id !in db.documents {
      db.Rollback();
      return;
    }
    var document := new PD.DocumentRecord(id, db.documents[id]);
    var session := new PD.Session(db.clock, db.submissions);
    var result := RV.ApproveReview(session, document, erp, approval, config.settings);
    if result != RV.Changed {
      db.Rollback();
      return;
    }
    db.Commit(document, session);
    if enqueued {
      broker.Publish(Message(id, document.correlationId, 0));
    }
  }

  method RejectDocumentReview(db: Database, erp: ErpMock, broker: Broker, dlq: DeadLetterQueue, id: Uuid, actor: string)
    modifies db
    ensures Observed(db, erp, broker, dlq, Idle)
         == AfterReject(old(Observed(db, erp, broker, dlq, Idle)), RejectCommand(id, actor))
  {
    if id !in db.documents {
      db.Rollback();
      return;
    }
    var document := new PD.DocumentRecord(id, db.documents[id]);
    var session := new PD.Session(db.clock, db.submissions);
    var result := RV.RejectReview(session, document, actor);
    if result != RV.Changed {
      db.Rollback();
      return;
    }
    db.Commit(document, session);
  }
}
