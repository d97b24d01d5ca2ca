/** Two concrete runs. One leaves a document queued with nothing to resume it; the other leaves a failed document
    out of the dead-letter queue. */
module LostDocuments {
  import opened Options
  import opened WorkflowStates
  import opened Identifiers
  import opened Erp
  import opened Attempts
  import opened CommittedRows
  import opened Pipeline
  import opened Invariants
  import opened Deliveries
  import opened ForwardSimulation
  import opened RetryExhaustion
  import opened Drain
  import opened AttemptOutcomes
  import opened Stranding

  const ID: Uuid := "00000000-0000-0000-0000-000000000000"

  const CONFIG := Config(Settings(["EUR"], 0.0, 100.0, 0.0, 0), text => text, {}, {})

  const UPLOAD := Upload("mail-1", "pdf", ID, ID, true)

  function Outside(pdfReadable: bool): World {
    World(pdfReadable, Recoverable("timeout"), None, None, Clean, "fresh")
  }

  lemma Uploaded()
    ensures
      var system := Apply(CONFIG, Init(CONFIG), UPLOAD);
      && Inv(CONFIG, system)
      && system.worker == Idle && system.broker == [Message(ID, ID, 0)]
      && ID in system.db.documents && system.db.documents[ID].status == Queued && AllParsed(system.db.documents[ID])
      && "fresh" !in system.erp.byId
  {
    assert [UPLOAD][..0] == [];
    assert Exec(CONFIG, Init(CONFIG), [UPLOAD]) == Apply(CONFIG, Init(CONFIG), UPLOAD);
    ReachableKeeps(CONFIG, [UPLOAD]);
    hide Inv;
  }

  lemma AfterFirst(rest: seq<Step>)
    ensures StateAt(CONFIG, [UPLOAD] + rest, 1) == Apply(CONFIG, Init(CONFIG), UPLOAD)
  {
    hide Apply;
    assert ([UPLOAD] + rest)[..1] == [UPLOAD];
    StateAtNext(CONFIG, [UPLOAD] + rest, 0);
  }

  lemma NothingElse(system: System)
    requires system.broker == [Message(ID, ID, 0)]
    ensures Without(system.broker, 0) == [] && !HasMessage(Without(system.broker, 0), ID)
  {
  }

  const UNREADABLE := Deliver(0, Outside(false), Acknowledged)

  /** An unreadable PDF: the attempt fails its own copy and raises, the rollback keeps the row queued, and the
      acknowledged message was the only one. */
  lemma UnreadableDocumentIsStranded()
    ensures Stranded(Exec(CONFIG, Init(CONFIG), [UPLOAD, UNREADABLE]), ID)
  {
    hide Inv, Apply;
    var run := [UPLOAD] + [UNREADABLE];
    assert run == [UPLOAD, UNREADABLE];
    Uploaded();
    AfterFirst([UNREADABLE]);
    NothingElse(StateAt(CONFIG, run, 1));
    assert StrandedAt(CONFIG, run, 1, ID);
    RunStrandsExactlyWhen(CONFIG, run, ID);
  }

  const TIMED_OUT := Deliver(0, Outside(true), Acknowledged)

  const GIVE_UP := [TIMED_OUT, RecordRetry, RetryOrExhaust(true), Crash]

  /** The delivery times out; with no retry allowed the worker will give up. */
  lemma TimesOut(system: System)
    requires Inv(CONFIG, system) && system.worker == Idle && system.broker == [Message(ID, ID, 0)]
    requires ID in system.db.documents && system.db.documents[ID].status == Queued && "fresh" !in system.erp.byId
    ensures
      var after := Apply(CONFIG, system, TIMED_OUT);
      after.worker.AttemptRaised? && after.worker.message == Message(ID, ID, 0)
  {
    hide Inv, AttemptFor, AfterDeliver, WellFormed, Delivered;
    var attempt := DeliverySummary(CONFIG, system, TIMED_OUT);
    DeliveryFits(CONFIG, system, Message(ID, ID, 0), TIMED_OUT.world);
  }

  lemma NotesHere(system: System)
    requires Inv(CONFIG, system) && system.worker.AttemptRaised? && system.worker.message == Message(ID, ID, 0)
    ensures Inv(CONFIG, AfterRecordRetry(system))
    ensures AfterRecordRetry(system).worker.RetryRecorded? && AfterRecordRetry(system).worker.message == Message(ID, ID, 0)
  {
    hide Inv;
    RecordRetryKeeps(CONFIG, system);
  }

  lemma FailsHere(system: System)
    requires Inv(CONFIG, system) && system.worker.RetryRecorded? && system.worker.message == Message(ID, ID, 0)
    ensures
      var after := AfterRetryOrExhaust(CONFIG, system, true);
      after.worker.Exhausted? && after.worker.message == Message(ID, ID, 0)
  {
    hide Inv, AfterRetryOrExhaust;
    FinaliserFindsUnfinished(CONFIG, system);
    ExhaustStep(CONFIG, system, true);
  }

  lemma GivesUpHere(system: System)
    requires Inv(CONFIG, system) && system.worker.AttemptRaised? && system.worker.message == Message(ID, ID, 0)
    ensures
      var after := Apply(CONFIG, Apply(CONFIG, system, RecordRetry), RetryOrExhaust(true));
      after.worker.Exhausted? && after.worker.message == Message(ID, ID, 0)
  {
    hide Inv, AfterRecordRetry, AfterRetryOrExhaust;
    NotesHere(system);
    FailsHere(AfterRecordRetry(system));
  }

  /** The last retry fails, the finaliser commits the document failed, and the worker dies before the push: no
      entry of the dead-letter queue names it, then or later. */
  lemma FailedDocumentIsUnlisted()
    ensures Unlisted(Exec(CONFIG, Init(CONFIG), [UPLOAD] + GIVE_UP), ID)
  {
    hide Inv, Apply, Unlisted;
    var run := [UPLOAD] + GIVE_UP;
    Uploaded();
    AfterFirst(GIVE_UP);
    StateAtNext(CONFIG, run, 1);
    TimesOut(StateAt(CONFIG, run, 1));
    StateAtKeeps(CONFIG, run, 2);
    StateAtNext(CONFIG, run, 2);
    StateAtNext(CONFIG, run, 3);
    GivesUpHere(StateAt(CONFIG, run, 2));
    KilledIsUnlisted(CONFIG, run, 4);
  }
}
