/** A concrete run in which one document gets two ERP invoices: the ERP accepts the first submission, its
    reply is lost, and on the retry the provider reads another invoice number off the same document. */
module SecondInvoice {
  import opened Options
  import opened WorkflowStates
  import opened BusinessRules
  import opened Identifiers
  import opened Erp
  import opened Attempts
  import opened CommittedRows
  import opened Pipeline
  import opened Invariants
  import opened Deliveries
  import opened ExactlyOnce

  const ID: Uuid := "00000000-0000-0000-0000-000000000000"

  function SampleConfig(): Config {
    Config(Settings(["EUR"], 0.0, 100.0, 0.0, 1), text => text, {"acme"}, {})
  }

  function SampleInvoice(number: string): Invoice {
    Invoice("Acme", number, "2026-03-15", "EUR", 1.0, [], 1.0, Some("acme"), None)
  }

  function Reading(number: string, create: Channel, freshId: string): World {
    World(true, Returned("qwen", SampleInvoice(number)), None, None, create, freshId)
  }

  const LOST := Faulty(true, ClientError(Some(503)))

  function SampleRun(): seq<Step> {
    [Upload("mail-1", "pdf", ID, ID, true),
     Deliver(0, Reading("INV-1", LOST, "first"), Acknowledged),
     RecordRetry,
     RetryOrExhaust(true),
     Deliver(0, Reading("INV-2", Clean, "second"), Acknowledged)]
  }

  lemma SampleAccepted(number: string, erp: ErpState)
    requires erp.suppliers == {"acme"}
    ensures DecisionOn(SampleInvoice(number), SampleConfig().settings, erp, []) == AutoApprove
  {
    DecisionCharacterised(SampleInvoice(number), Context(SampleConfig().settings, SampleInvoice(number), erp, []));
  }

  /** An attempt on a queued row with an acceptable reading submits it, as far as the network lets it. */
  lemma SampleAttempt(work: Work, now: nat, number: string, create: Channel, freshId: string)
    requires work.doc.status == Queued && work.doc.extractions == [] && work.doc.decisions == []
    requires work.submissions == [] && work.id == ID && work.erp.suppliers == {"acme"}
    requires ErpKey(ID, number) !in work.erp.byKey
    requires create == Clean || create == LOST
    ensures
      var attempt := Process(work, now, SampleConfig().settings, Reading(number, create, freshId));
      && attempt.work.erp == AfterCreate(work.erp, RequestFor(SampleInvoice(number)), ErpKey(ID, number), freshId)
      && (create == LOST ==> attempt.raised == TransientError("erp_transient"))
  {
    SampleAccepted(number, work.erp);
  }

  lemma SampleUploaded()
    ensures
      var system := StateAt(SampleConfig(), SampleRun(), 1);
      && system.worker == Idle && system.broker == [Message(ID, ID, 0)]
      && IsFresh(system) && system.erp == Init(SampleConfig()).erp
  {
    var config, run := SampleConfig(), SampleRun();
    StateAtNext(config, run, 0);
    assert StateAt(config, run, 0) == Init(config);
  }

  /** The sample document is queued and nothing has been done about it. */
  ghost predicate IsFresh(system: System) {
    && ID in system.db.documents
    && system.db.documents[ID].status == Queued
    && system.db.documents[ID].correlationId == ID
    && system.db.documents[ID].extractions == [] && system.db.documents[ID].decisions == []
    && system.db.submissions == []
  }

  /** The first delivery: the ERP accepts, the reply is lost, and the row stays as it was. */
  lemma SampleFirstDelivery(system: System)
    requires system.worker == Idle && system.broker == [Message(ID, ID, 0)]
    requires IsFresh(system) && system.erp == Init(SampleConfig()).erp
    ensures
      var after := Apply(SampleConfig(), system, SampleRun()[1]);
      && after.worker == AttemptRaised(Message(ID, ID, 0), "erp_transient") && after.broker == []
      && IsFresh(after)
      && after.erp == AfterCreate(system.erp, RequestFor(SampleInvoice("INV-1")), ErpKey(ID, "INV-1"), "first")
  {
    SampleAttempt(Work(ID, system.db.documents[ID], [], system.erp, None), system.db.clock, "INV-1", LOST, "first");
    hide Process, AfterCreate;
  }

  lemma SampleRetry(system: System)
    requires system.worker == AttemptRaised(Message(ID, ID, 0), "erp_transient") && system.broker == [] && IsFresh(system)
    ensures
      var after := Apply(SampleConfig(), Apply(SampleConfig(), system, RecordRetry), RetryOrExhaust(true));
      && after.worker == Idle && after.broker == [Message(ID, ID, 1)] && IsFresh(after) && after.erp == system.erp
  {
  }

  lemma SampleFirstHalf()
    ensures
      var system := StateAt(SampleConfig(), SampleRun(), 4);
      && system.worker == Idle && system.broker == [Message(ID, ID, 1)] && IsFresh(system)
      && system.erp == AfterCreate(Init(SampleConfig()).erp, RequestFor(SampleInvoice("INV-1")), ErpKey(ID, "INV-1"), "first")
  {
    hide Apply, StateAt, Init, AfterCreate, IsFresh;
    var config, run := SampleConfig(), SampleRun();
    SampleUploaded();
    StateAtNext(config, run, 1);
    SampleFirstDelivery(StateAt(config, run, 1));
    StateAtNext(config, run, 2);
    StateAtNext(config, run, 3);
    SampleRetry(StateAt(config, run, 2));
  }

  /** After this run the ERP holds two invoices for the one document that was ever uploaded. */
  lemma OneDocumentTwoInvoices()
    ensures
      var system := Exec(SampleConfig(), Init(SampleConfig()), SampleRun());
      |InvoicesOf(system.erp, ID)| == 2
  {
    hide Apply, AfterDeliver, AfterCreate, Exec, Inv;
    var config, run := SampleConfig(), SampleRun();
    SampleFirstHalf();
    assert run[..5] == run;
    StateAtNext(config, run, 4);
    ReachableKeeps(config, run[..4]);
    SampleLastStep(StateAt(config, run, 4));
  }

  /** The last delivery, and the two invoices it leaves behind. */
  lemma SampleLastStep(s4: System)
    requires Inv(SampleConfig(), s4)
    requires s4.worker == Idle && s4.broker == [Message(ID, ID, 1)] && IsFresh(s4)
    requires s4.erp == AfterCreate(Init(SampleConfig()).erp, RequestFor(SampleInvoice("INV-1")), ErpKey(ID, "INV-1"), "first")
    ensures |InvoicesOf(Apply(SampleConfig(), s4, SampleRun()[4]).erp, ID)| == 2
  {
    var erp := Init(SampleConfig()).erp;
    assert Consistent(s4.erp);
    ErpKeyInjective(ID, "INV-1", ID, "INV-2");
    hide Inv, InvoicesOf, Process, AfterDeliver;
    SampleSecondHalf(s4);
    CreateAddsInvoice(erp, RequestFor(SampleInvoice("INV-1")), ID, "INV-1", "first");
    CreateAddsInvoice(s4.erp, RequestFor(SampleInvoice("INV-2")), ID, "INV-2", "second");
    SampleStart();
  }

  lemma SampleStart()
    ensures InvoicesOf(Init(SampleConfig()).erp, ID) == {}
  {
  }

  lemma SampleSecondHalf(s4: System)
    requires s4.worker == Idle && s4.broker == [Message(ID, ID, 1)] && IsFresh(s4) && s4.erp.suppliers == {"acme"}
    requires "second" !in s4.erp.byId && ErpKey(ID, "INV-2") !in s4.erp.byKey
    ensures
      AfterDeliver(SampleConfig(), s4, SampleRun()[4]).erp
      == AfterCreate(s4.erp, RequestFor(SampleInvoice("INV-2")), ErpKey(ID, "INV-2"), "second")
  {
    SampleAttempt(Work(ID, s4.db.documents[ID], [], s4.erp, None), s4.db.clock, "INV-2", Clean, "second");
    hide Process;
  }
}
