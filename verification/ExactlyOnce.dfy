/** Exactly one ERP invoice for each submitted document when no acceptance is lost, and one per key whatever is
    lost. */
module ExactlyOnce {
  import opened Options
  import opened BusinessRules
  import opened Identifiers
  import opened Erp
  import opened Attempts
  import opened Reviews
  import opened CommittedRows
  import opened Pipeline
  import opened Invariants
  import opened Deliveries

  /** The ERP invoices created for a document, by invoice id. */
  ghost function InvoicesOf(erp: ErpState, documentId: Uuid): set<string> {
    set id | id in erp.byId && KeyOf(erp.byId[id].idempotencyKey, documentId)
  }

  /** The ERP invoice carries what the extraction says. */
  ghost predicate Carries(stored: ErpInvoice, invoice: Invoice) {
    && invoice.supplierId == Some(stored.supplierId)
    && stored.purchaseOrderId == invoice.purchaseOrderId
    && stored.invoiceNumber == invoice.invoiceNumber
    && stored.invoiceDate == invoice.invoiceDate
    && stored.currency == invoice.currency
    && stored.totalAmount == invoice.totalAmount
  }

  // ---- What a delivery does to the ERP ----

  /** A delivery for document `id` leaves the ERP alone or creates the invoice its attempt called for; a new
      submission means the ERP accepted the latest extraction under its own key. */
  ghost predicate ErpEffect(before: System, after: System, id: Uuid, world: World, call: Option<ErpCall>) {
    && id in before.db.documents && id in after.db.documents
    && (call.None? ==> after.erp == before.erp)
    && (call.Some? ==>
          var invoice := call.value.invoice;
          && invoice.supplierId.Some?
          && call.value == ErpCall(id, invoice, ErpKey(id, invoice.invoiceNumber), RequestFor(invoice))
          && after.erp == CreateOver(world.create, before.erp, RequestFor(invoice), call.value.key, world.freshId))
    && (IsSubmitted(after, id) && !IsSubmitted(before, id) ==>
          && call.Some?
          && var doc := after.db.documents[id];
          && doc.extractions != [] && AllParsed(doc)
          && world.create.Clean?
          && call.value.invoice == LastInvoice(doc)
          && ReplyTo(before.erp, RequestFor(call.value.invoice), call.value.key, world.freshId).Created?)
  }

  ghost predicate OthersUnchanged(before: System, after: System, id: Uuid) {
    && (forall other :: other in after.db.documents ==>
          other in before.db.documents && (other != id ==> after.db.documents[other] == before.db.documents[other]))
    && (forall other :: other in before.db.documents ==> other in after.db.documents)
    && (IsSubmitted(before, id) ==> IsSubmitted(after, id) && after.db.documents[id] == before.db.documents[id])
  }

  lemma BehaviourOnErp(config: Config, system: System, work: Work, world: World, attempt: Attempt, fate: Fate, after: System)
    requires work.id in system.db.documents && work.doc == system.db.documents[work.id]
    requires work.submissions == system.db.submissions && work.erp == system.erp && work.call.None?
    requires AllParsed(work.doc) && Behaves(work, system.db.clock, config.settings, world, attempt)
    requires after.db == Committed(system.db, attempt, fate) && after.erp == attempt.work.erp
    ensures ErpEffect(system, after, work.id, world, attempt.work.call)
    ensures OthersUnchanged(system, after, work.id)
  {
  }

  lemma DeliveryOnErp(config: Config, system: System, step: Step)
    requires Inv(config, system) && step.Deliver? && CanDeliver(system, step)
    ensures
      var message := system.broker[step.index];
      && MessageFits(config, system, message)
      && var attempt := AttemptFor(config, system, message, step.world);
      && var after := AfterDeliver(config, system, step);
      && attempt.work.erp == after.erp
      && ErpEffect(system, after, message.documentId, step.world, attempt.work.call)
      && OthersUnchanged(system, after, message.documentId)
  {
    var message := system.broker[step.index];
    assert MessageFits(config, system, message);
    DeliveredBehaves(config, system, message, step.world);
    hide Inv, Process;
    var attempt := AttemptFor(config, system, message, step.world);
    BehaviourOnErp(config, system, WorkFor(system, message), step.world, attempt, step.fate,
                   AfterDeliver(config, system, step));
  }

  /** Submitted documents, and the ERP, are as they were. */
  ghost predicate SubmittedUntouched(before: System, after: System) {
    && after.erp == before.erp
    && (forall id :: IsSubmitted(after, id) ==> IsSubmitted(before, id))
    && (forall id :: IsSubmitted(before, id) ==>
          id in after.db.documents && after.db.documents[id] == before.db.documents[id])
  }

  lemma RecordRetryUntouched(config: Config, system: System)
    requires Inv(config, system)
    ensures SubmittedUntouched(system, AfterRecordRetry(system))
  {
    hide Inv;
    if system.worker.AttemptRaised? {
      FinaliserFindsUnfinished(config, system);
    }
  }

  lemma ExhaustUntouched(config: Config, system: System, published: bool)
    requires Inv(config, system)
    ensures SubmittedUntouched(system, AfterRetryOrExhaust(config, system, published))
  {
    hide Inv;
    if system.worker.RetryRecorded? {
      FinaliserFindsUnfinished(config, system);
    }
  }

  lemma ApproveUntouched(config: Config, system: System, step: Step)
    requires step.ApproveCommand?
    ensures SubmittedUntouched(system, AfterApprove(config, system, step))
  {
    hide Approve;
    if step.id in system.db.documents && ApproveOutcome(config, system, step).result == Changed {
      ApproveStep(config, system, step);
    }
  }

  lemma NonDeliveryUntouched(config: Config, system: System, step: Step)
    requires Inv(config, system) && !(step.Deliver? && CanDeliver(system, step))
    ensures SubmittedUntouched(system, Apply(config, system, step))
  {
    hide Inv, AfterRecordRetry, AfterRetryOrExhaust, AfterApprove;
    if step.RecordRetry? {
      RecordRetryUntouched(config, system);
    } else if step.RetryOrExhaust? {
      ExhaustUntouched(config, system, step.published);
    } else if step.ApproveCommand? {
      ApproveUntouched(config, system, step);
    }
  }

  // ---- No acceptance is lost ----

  /** An ERP acceptance that changes the ERP is followed by the commit of the attempt that made it. */
  ghost predicate LosesNoAcceptance(config: Config, system: System, step: Step) {
    step.Deliver? && CanDeliver(system, step) && system.broker[step.index].documentId in system.db.documents ==>
      var attempt := AttemptFor(config, system, system.broker[step.index], step.world);
      attempt.work.erp == system.erp
      || (attempt.raised == NoRaise && step.fate in {Acknowledged, CrashAfterCommit})
  }

  ghost predicate LosslessRun(config: Config, steps: seq<Step>) {
    forall n :: 0 <= n < |steps| ==> LosesNoAcceptance(config, StateAt(config, steps, n), steps[n])
  }

  /** The ERP and the submitted documents match one to one, invoice for extraction. */
  ghost predicate Matched(system: System) {
    && (forall key :: key in system.erp.byKey ==> exists id :: IsKeyOf(system, id, key))
    && (forall id :: IsSubmitted(system, id) ==>
          && system.db.documents[id].extractions != [] && AllParsed(system.db.documents[id])
          && var invoice := LastInvoice(system.db.documents[id]);
          && ErpKey(id, invoice.invoiceNumber) in system.erp.byKey
          && Carries(system.erp.byKey[ErpKey(id, invoice.invoiceNumber)], invoice))
  }

  ghost predicate IsKeyOf(system: System, id: Uuid, key: string) {
    && IsSubmitted(system, id)
    && system.db.documents[id].extractions != [] && AllParsed(system.db.documents[id])
    && key == ErpKey(id, LastInvoice(system.db.documents[id]).invoiceNumber)
  }

  /** A first submission finds its key unused: in a matched state a used key has a submitted document. */
  lemma FirstSubmissionCreates(before: System, id: Uuid, number: string)
    requires Matched(before) && !IsSubmitted(before, id)
    ensures ErpKey(id, number) !in before.erp.byKey
  {
    var key := ErpKey(id, number);
    if key in before.erp.byKey {
      var other :| IsKeyOf(before, other, key);
      ErpKeyInjective(id, number, other, LastInvoice(before.db.documents[other]).invoiceNumber);
      assert false;
    }
  }

  lemma SubmissionMatchesKeys(before: System, after: System, id: Uuid, world: World, call: Option<ErpCall>)
    requires Matched(before) && ErpEffect(before, after, id, world, call) && OthersUnchanged(before, after, id)
    requires IsSubmitted(after, id) && !IsSubmitted(before, id)
    requires call.value.key !in before.erp.byKey
    ensures forall key :: key in after.erp.byKey ==> exists other :: IsKeyOf(after, other, key)
  {
    hide Carries;
    var key := call.value.key;
    assert IsKeyOf(after, id, key);
    forall k | k in after.erp.byKey
      ensures exists other :: IsKeyOf(after, other, k)
    {
      if k != key {
        var other :| IsKeyOf(before, other, k);
        assert IsKeyOf(after, other, k);
      }
    }
  }

  /** What the ERP holds for another submitted document stays as it is. */
  lemma OthersStayMatched(before: System, after: System, id: Uuid, world: World, call: Option<ErpCall>, other: Uuid)
    requires Matched(before) && ErpEffect(before, after, id, world, call) && OthersUnchanged(before, after, id)
    requires call.Some? && IsSubmitted(after, other) && other != id
    ensures after.db.documents[other].extractions != [] && AllParsed(after.db.documents[other])
    ensures
      var own := LastInvoice(after.db.documents[other]);
      && ErpKey(other, own.invoiceNumber) in after.erp.byKey
      && Carries(after.erp.byKey[ErpKey(other, own.invoiceNumber)], own)
  {
    hide IsKeyOf, Carries;
    assert IsSubmitted(before, other);
    ErpKeyInjective(id, call.value.invoice.invoiceNumber, other, LastInvoice(before.db.documents[other]).invoiceNumber);
  }

  lemma SubmissionIsMatched(before: System, after: System, id: Uuid, world: World, call: Option<ErpCall>)
    requires ErpEffect(before, after, id, world, call)
    requires IsSubmitted(after, id) && !IsSubmitted(before, id) && call.value.key !in before.erp.byKey
    ensures
      var own := LastInvoice(after.db.documents[id]);
      && ErpKey(id, own.invoiceNumber) in after.erp.byKey
      && Carries(after.erp.byKey[ErpKey(id, own.invoiceNumber)], own)
  {
  }

  lemma SubmissionMatches(before: System, after: System, id: Uuid, world: World, call: Option<ErpCall>)
    requires Matched(before) && ErpEffect(before, after, id, world, call) && OthersUnchanged(before, after, id)
    requires IsSubmitted(after, id) && !IsSubmitted(before, id)
    ensures Matched(after)
  {
    hide IsKeyOf, Carries;
    FirstSubmissionCreates(before, id, call.value.invoice.invoiceNumber);
    SubmissionMatchesKeys(before, after, id, world, call);
    SubmissionIsMatched(before, after, id, world, call);
    forall other | IsSubmitted(after, other) && other != id
      ensures
        var own := LastInvoice(after.db.documents[other]);
        && ErpKey(other, own.invoiceNumber) in after.erp.byKey
        && Carries(after.erp.byKey[ErpKey(other, own.invoiceNumber)], own)
    {
      OthersStayMatched(before, after, id, world, call, other);
    }
  }

  lemma QuietMatches(before: System, after: System)
    requires Matched(before) && SubmittedUntouched(before, after)
    ensures Matched(after)
  {
    forall key | key in after.erp.byKey
      ensures exists id :: IsKeyOf(after, id, key)
    {
      var id :| IsKeyOf(before, id, key);
      assert IsKeyOf(after, id, key);
    }
  }

  /** A lossless delivery that submits nothing leaves the ERP alone. */
  lemma LosslessDelivery(config: Config, system: System, step: Step)
    requires Inv(config, system) && step.Deliver? && CanDeliver(system, step)
    requires LosesNoAcceptance(config, system, step)
    requires
      var id := system.broker[step.index].documentId;
      !IsSubmitted(AfterDeliver(config, system, step), id) || IsSubmitted(system, id)
    ensures AfterDeliver(config, system, step).erp == system.erp
  {
    var attempt := DeliverySummary(config, system, step);
    hide Inv, AttemptFor, WellFormed, CreateOver, DecisionOn;
  }

  lemma DeliveryMatches(config: Config, system: System, step: Step)
    requires Inv(config, system) && Matched(system) && LosesNoAcceptance(config, system, step)
    requires step.Deliver? && CanDeliver(system, step)
    ensures Matched(AfterDeliver(config, system, step))
  {
    hide Inv, AttemptFor, Matched, AfterDeliver, ErpEffect, OthersUnchanged, LosesNoAcceptance, SubmittedUntouched;
    DeliveryOnErp(config, system, step);
    var after := AfterDeliver(config, system, step);
    var id := system.broker[step.index].documentId;
    if IsSubmitted(after, id) && !IsSubmitted(system, id) {
      SubmissionMatches(system, after, id, step.world,
                        AttemptFor(config, system, system.broker[step.index], step.world).work.call);
    } else {
      LosslessDelivery(config, system, step);
      SettledUntouched(config, system, step);
      QuietMatches(system, after);
    }
  }

  lemma SettledUntouched(config: Config, system: System, step: Step)
    requires Inv(config, system) && step.Deliver? && CanDeliver(system, step)
    requires
      var id := system.broker[step.index].documentId;
      !IsSubmitted(AfterDeliver(config, system, step), id) || IsSubmitted(system, id)
    requires AfterDeliver(config, system, step).erp == system.erp
    ensures SubmittedUntouched(system, AfterDeliver(config, system, step))
  {
    hide Inv, AttemptFor, AfterDeliver, ErpEffect;
    DeliveryOnErp(config, system, step);
  }

  lemma StepMatches(config: Config, system: System, step: Step)
    requires Inv(config, system) && Matched(system) && LosesNoAcceptance(config, system, step)
    ensures Matched(Apply(config, system, step))
  {
    hide Inv, Matched, LosesNoAcceptance;
    if step.Deliver? && CanDeliver(system, step) {
      DeliveryMatches(config, system, step);
    } else {
      NonDeliveryUntouched(config, system, step);
      QuietMatches(system, Apply(config, system, step));
    }
  }

  lemma {:induction false} LosslessMatches(config: Config, steps: seq<Step>)
    requires LosslessRun(config, steps)
    ensures Matched(Exec(config, Init(config), steps))
  {
    if steps != [] {
      var front := steps[..|steps| - 1];
      assert forall n :: 0 <= n < |front| ==> steps[..n] == front[..n];
      assert forall n :: 0 <= n < |front| ==> StateAt(config, front, n) == StateAt(config, steps, n) && front[n] == steps[n];
      LosslessMatches(config, front);
      ReachableKeeps(config, front);
      assert StateAt(config, steps, |front|) == Exec(config, Init(config), front);
      StepMatches(config, Exec(config, Init(config), front), steps[|steps| - 1]);
    }
  }

  /** Exactly once: after any run that loses no acceptance, whatever was retried, delivered twice or uploaded
      again, the ERP holds exactly one invoice for each submitted document, carrying its latest extraction,
      and none for any other. */
  lemma ExactlyOneInvoice(config: Config, steps: seq<Step>, id: Uuid)
    requires LosslessRun(config, steps)
    ensures
      var system := Exec(config, Init(config), steps);
      && |InvoicesOf(system.erp, id)| == (if IsSubmitted(system, id) then 1 else 0)
      && (IsSubmitted(system, id) ==>
            && system.db.documents[id].extractions != [] && AllParsed(system.db.documents[id])
            && forall i :: i in InvoicesOf(system.erp, id) ==>
                 Carries(system.erp.byId[i], LastInvoice(system.db.documents[id])))
  {
    LosslessMatches(config, steps);
    ReachableKeeps(config, steps);
    var system := Exec(config, Init(config), steps);
    MatchedCount(system, id);
  }

  /** In a matched store an invoice of a document is filed under the number of its last extraction. */
  lemma MatchedInvoice(system: System, id: Uuid, i: string)
    requires Matched(system) && Consistent(system.erp) && i in InvoicesOf(system.erp, id)
    ensures IsKeyOf(system, id, system.erp.byId[i].idempotencyKey)
  {
    var key := system.erp.byId[i].idempotencyKey;
    var other :| IsKeyOf(system, other, key);
    ErpKeyInjective(other, LastInvoice(system.db.documents[other]).invoiceNumber, id, "");
  }

  lemma MatchedCount(system: System, id: Uuid)
    requires Matched(system) && Consistent(system.erp)
    ensures |InvoicesOf(system.erp, id)| == (if IsSubmitted(system, id) then 1 else 0)
    ensures IsSubmitted(system, id) ==>
              forall i :: i in InvoicesOf(system.erp, id) ==> Carries(system.erp.byId[i], LastInvoice(system.db.documents[id]))
  {
    forall i | i in InvoicesOf(system.erp, id)
      ensures IsKeyOf(system, id, system.erp.byId[i].idempotencyKey)
    {
      MatchedInvoice(system, id, i);
    }
    if IsSubmitted(system, id) {
      var number := LastInvoice(system.db.documents[id]).invoiceNumber;
      ErpKeyInjective(id, number, id, number);
      assert InvoicesOf(system.erp, id) == {system.erp.byKey[ErpKey(id, number)].invoiceId};
    } else {
      assert InvoicesOf(system.erp, id) == {};
    }
  }

  // ---- Acceptances may be lost ----

  /** Whatever is lost, every submitted document has its ERP invoice under the key of its latest extraction,
      no two invoices share a key, and the two ERP dictionaries agree. */
  lemma SubmittedHaveInvoices(config: Config, steps: seq<Step>)
    ensures
      var system := Exec(config, Init(config), steps);
      && Consistent(system.erp)
      && system.erp.byId.Values == system.erp.byKey.Values
      && (forall a, b :: a in system.erp.byId && b in system.erp.byId && a != b ==>
            system.erp.byId[a].idempotencyKey != system.erp.byId[b].idempotencyKey)
      && (forall id :: IsSubmitted(system, id) ==>
            && system.db.documents[id].extractions != [] && AllParsed(system.db.documents[id])
            && ErpKey(id, LastInvoice(system.db.documents[id]).invoiceNumber) in system.erp.byKey)
  {
    ReachableKeeps(config, steps);
    OneInvoicePerKey(Exec(config, Init(config), steps).erp);
  }

  // ---- What a create call adds ----

  lemma CreateAddsInvoice(erp: ErpState, request: InvoiceRequest, id: Uuid, number: string, freshId: string)
    requires Consistent(erp) && freshId !in erp.byId
    ensures
      var key := ErpKey(id, number);
      var after := AfterCreate(erp, request, key, freshId);
      if key in erp.byKey || request.supplierId !in erp.suppliers then after == erp
      else InvoicesOf(after, id) == InvoicesOf(erp, id) + {freshId} && freshId !in InvoicesOf(erp, id)
  {
    var key := ErpKey(id, number);
    ErpKeyInjective(id, number, id, number);
    if key !in erp.byKey && request.supplierId in erp.suppliers {
      assert InvoicesOf(AfterCreate(erp, request, key, freshId), id) == InvoicesOf(erp, id) + {freshId};
    }
  }
}
