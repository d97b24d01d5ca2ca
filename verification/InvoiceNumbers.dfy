/** How many ERP invoices a document has after a run: as many as invoice numbers the ERP was asked under. */
module InvoiceNumbers {
  import opened Identifiers
  import opened Records
  import opened Erp
  import opened Attempts
  import opened Reviews
  import opened CommittedRows
  import opened Pipeline
  import opened Invariants
  import opened Deliveries
  import opened ExactlyOnce
  import opened AttemptOutcomes

  predicate Reaches(create: Channel) {
    create.Clean? || create.reached
  }

  /** This step asks the ERP, in this state, for an invoice of document `id` with this number: a delivery of the
      document that finds it queued with a readable and acceptable invoice, or approved, whose request gets
      through and names a supplier the ERP knows. */
  ghost predicate Asks(config: Config, system: System, step: Step, id: Uuid, number: string) {
    && step.Deliver? && CanDeliver(system, step) && system.broker[step.index].documentId == id
    && id in system.db.documents && AllParsed(system.db.documents[id])
    && Reaches(step.world.create)
    && match Sent(WorkFor(system, system.broker[step.index]), config.settings, step.world)
       case None => false
       case Some(invoice) =>
         && invoice.invoiceNumber == number
         && invoice.supplierId.Some? && invoice.supplierId.value in config.suppliers
  }

  /** Some step of the run asks for this document and number. */
  ghost predicate AskedAt(config: Config, steps: seq<Step>, k: nat, id: Uuid, number: string) {
    k < |steps| && Asks(config, StateAt(config, steps, k), steps[k], id, number)
  }

  ghost predicate EverAsked(config: Config, steps: seq<Step>, id: Uuid, number: string) {
    exists k: nat :: AskedAt(config, steps, k, id, number)
  }

  lemma CreateAddsKey(erp: ErpState, create: Channel, request: InvoiceRequest, key: string, freshId: string)
    requires key != ""
    ensures forall other :: other in CreateOver(create, erp, request, key, freshId).byKey
              <==> other in erp.byKey || (other == key && Reaches(create) && request.supplierId in erp.suppliers)
  {
  }

  lemma DeliveryAsks(config: Config, system: System, step: Step, id: Uuid, number: string)
    requires Inv(config, system) && step.Deliver? && CanDeliver(system, step)
    ensures ErpKey(id, number) in AfterDeliver(config, system, step).erp.byKey
            <==> ErpKey(id, number) in system.erp.byKey || Asks(config, system, step, id, number)
  {
    var message := system.broker[step.index];
    DeliveryOnErp(config, system, step);
    DeliveryFits(config, system, message, step.world);
    assert system.erp.suppliers == config.suppliers;
    hide Inv, AttemptFor, AfterDeliver, OthersUnchanged, EndsAs, Sent, WellFormed;
    var call := AttemptFor(config, system, message, step.world).work.call;
    if call.Some? {
      var invoice := call.value.invoice;
      ErpKeyInjective(message.documentId, invoice.invoiceNumber, id, number);
      CreateAddsKey(system.erp, step.world.create, RequestFor(invoice), call.value.key, step.world.freshId);
    }
  }

  lemma StepAsks(config: Config, system: System, step: Step, id: Uuid, number: string)
    requires Inv(config, system)
    ensures ErpKey(id, number) in Apply(config, system, step).erp.byKey
            <==> ErpKey(id, number) in system.erp.byKey || Asks(config, system, step, id, number)
  {
    hide Inv, AfterDeliver;
    if step.Deliver? && CanDeliver(system, step) {
      DeliveryAsks(config, system, step, id, number);
    } else {
      hide Apply;
      NonDeliveryUntouched(config, system, step);
    }
  }

  /** After every run the ERP holds an invoice of a document under a number exactly when some step of the run
      asked for it. */
  lemma {:induction false} KeysAreAsked(config: Config, steps: seq<Step>, id: Uuid, number: string)
    ensures ErpKey(id, number) in Exec(config, Init(config), steps).erp.byKey <==> EverAsked(config, steps, id, number)
    decreases |steps|
  {
    hide Inv, Asks, Apply;
    if steps == [] {
      assert forall k: nat :: !AskedAt(config, steps, k, id, number);
    } else {
      var front, last := steps[..|steps| - 1], |steps| - 1;
      KeysAreAsked(config, front, id, number);
      ReachableKeeps(config, front);
      StateAtNext(config, steps, last);
      assert steps[..|steps|] == steps;
      StepAsks(config, StateAt(config, steps, last), steps[last], id, number);
      FrontAsks(config, steps, id, number);
    }
  }

  lemma FrontAsks(config: Config, steps: seq<Step>, id: Uuid, number: string)
    requires steps != []
    ensures EverAsked(config, steps, id, number)
            <==> EverAsked(config, steps[..|steps| - 1], id, number) || AskedAt(config, steps, |steps| - 1, id, number)
  {
    hide Asks, Exec;
    var front := steps[..|steps| - 1];
    forall k: nat | k < |front|
      ensures AskedAt(config, steps, k, id, number) <==> AskedAt(config, front, k, id, number)
    {
      assert steps[..k] == front[..k];
    }
  }

  lemma KeyNames(key: string, id: Uuid)
    requires KeyOf(key, id)
    ensures key == ErpKey(id, key[37..])
  {
    assert key == key[..36] + [key[36]] + key[37..];
  }

  /** In a consistent store a document has two invoices exactly when it has two numbers. */
  lemma CountByNumber(erp: ErpState, id: Uuid)
    requires Consistent(erp)
    ensures |InvoicesOf(erp, id)| <= 1
            <==> forall m, n :: ErpKey(id, m) in erp.byKey && ErpKey(id, n) in erp.byKey ==> m == n
    ensures InvoicesOf(erp, id) == {} <==> forall n :: ErpKey(id, n) !in erp.byKey
  {
    forall m | ErpKey(id, m) in erp.byKey
      ensures erp.byKey[ErpKey(id, m)].invoiceId in InvoicesOf(erp, id)
    {
      ErpKeyInjective(id, m, id, m);
    }
    forall i | i in InvoicesOf(erp, id)
      ensures erp.byId[i].idempotencyKey == ErpKey(id, erp.byId[i].idempotencyKey[37..])
    {
      KeyNames(erp.byId[i].idempotencyKey, id);
    }
    if forall m, n :: ErpKey(id, m) in erp.byKey && ErpKey(id, n) in erp.byKey ==> m == n {
      OneNumberOneInvoice(erp, id);
    } else {
      var m, n :| ErpKey(id, m) in erp.byKey && ErpKey(id, n) in erp.byKey && m != n;
      ErpKeyInjective(id, m, id, n);
      var two := {erp.byKey[ErpKey(id, m)].invoiceId, erp.byKey[ErpKey(id, n)].invoiceId};
      assert two <= InvoicesOf(erp, id);
      SubsetIsSmaller(two, InvoicesOf(erp, id));
    }
  }

  lemma OneNumberOneInvoice(erp: ErpState, id: Uuid)
    requires Consistent(erp)
    requires forall m, n :: ErpKey(id, m) in erp.byKey && ErpKey(id, n) in erp.byKey ==> m == n
    ensures |InvoicesOf(erp, id)| <= 1
  {
    var all := InvoicesOf(erp, id);
    if all != {} {
      var i :| i in all;
      KeyNames(erp.byId[i].idempotencyKey, id);
      forall j | j in all
        ensures j == i
      {
        KeyNames(erp.byId[j].idempotencyKey, id);
      }
      assert all == {i};
    }
  }

  lemma SubsetIsSmaller(a: set<string>, b: set<string>)
    requires a <= b
    ensures |a| <= |b|
  {
    assert b == a + (b - a);
  }

  /** Over every run, with any crash and any lost reply: a document ends with at most one ERP invoice exactly
      when all the numbers the ERP was asked for it under are one number, and with none exactly when it was
      never asked. */
  lemma SecondInvoiceExactlyWhen(config: Config, steps: seq<Step>, id: Uuid)
    ensures
      var invoices := InvoicesOf(Exec(config, Init(config), steps).erp, id);
      && (|invoices| <= 1 <==>
            forall m, n :: EverAsked(config, steps, id, m) && EverAsked(config, steps, id, n) ==> m == n)
      && (invoices == {} <==> forall n :: !EverAsked(config, steps, id, n))
  {
    hide Inv, Exec, EverAsked, InvoicesOf;
    var system := Exec(config, Init(config), steps);
    ReachableIsConsistent(config, steps);
    CountByNumber(system.erp, id);
    forall n
      ensures ErpKey(id, n) in system.erp.byKey <==> EverAsked(config, steps, id, n)
    {
      KeysAreAsked(config, steps, id, n);
    }
  }

  lemma ReachableIsConsistent(config: Config, steps: seq<Step>)
    ensures Consistent(Exec(config, Init(config), steps).erp)
  {
    ReachableKeeps(config, steps);
  }

  lemma SubmittedIsInvoiced(config: Config, steps: seq<Step>, id: Uuid)
    ensures IsSubmitted(Exec(config, Init(config), steps), id) ==> InvoicesOf(Exec(config, Init(config), steps).erp, id) != {}
  {
    ReachableKeeps(config, steps);
    hide Exec;
    CountByNumber(Exec(config, Init(config), steps).erp, id);
  }

  /** Over every run: the ERP holds exactly one invoice for a submitted document if and only if all the numbers it
      was asked under are one number, and none for any other document if and only if it was never asked. */
  lemma OneInvoiceExactlyWhen(config: Config, steps: seq<Step>, id: Uuid)
    ensures
      var end := Exec(config, Init(config), steps);
      |InvoicesOf(end.erp, id)| == (if IsSubmitted(end, id) then 1 else 0)
      <==>
        if IsSubmitted(end, id) then
          forall m, n :: EverAsked(config, steps, id, m) && EverAsked(config, steps, id, n) ==> m == n
        else
          forall n :: !EverAsked(config, steps, id, n)
  {
    hide Exec, EverAsked, InvoicesOf;
    SecondInvoiceExactlyWhen(config, steps, id);
    SubmittedIsInvoiced(config, steps, id);
  }

  // ---- Numbers that depend on the document alone ----

  /** If this step reads or edits document `id`, the invoice carries this number. */
  ghost predicate KeepsNumber(system: System, step: Step, id: Uuid, number: string) {
    && (step.Deliver? && step.index < |system.broker| && system.broker[step.index].documentId == id
        && step.world.provider.Returned? ==>
          step.world.provider.invoice.invoiceNumber == number)
    && (step.ApproveCommand? && step.id == id && step.approval.edited.Some? ==>
          step.approval.edited.value.invoiceNumber == number)
  }

  ghost predicate NumberedRun(config: Config, steps: seq<Step>, id: Uuid, number: string) {
    forall n :: 0 <= n < |steps| ==> KeepsNumber(StateAt(config, steps, n), steps[n], id, number)
  }

  ghost predicate DocNumbered(doc: Document, number: string) {
    forall i :: 0 <= i < |doc.extractions| ==>
      doc.extractions[i].value.payload.Parsed? && doc.extractions[i].value.payload.invoice.invoiceNumber == number
  }

  ghost predicate Numbered(system: System, id: Uuid, number: string) {
    id in system.db.documents ==> DocNumbered(system.db.documents[id], number)
  }

  lemma NumberedAttempt(work: Work, now: nat, settings: Settings, world: World, attempt: Attempt, number: string)
    requires DocNumbered(work.doc, number) && AllParsed(work.doc) && RowsFitStatus(work.doc)
    requires Behaves(work, now, settings, world, attempt) && attempt.raised == NoRaise
    requires world.provider.Returned? ==> world.provider.invoice.invoiceNumber == number
    ensures DocNumbered(attempt.work.doc, number)
  {
    hide Traced, Clocked, ReplyTo, Listing, DecisionOn;
  }

  lemma NumberedDelivery(config: Config, before: System, after: System, step: Step, attempt: Attempt, id: Uuid, number: string)
    requires step.Deliver? && Delivered(config, before, after, step, attempt)
    requires Numbered(before, id, number) && KeepsNumber(before, step, id, number)
    ensures Numbered(after, id, number)
  {
    var work := WorkFor(before, before.broker[step.index]);
    if work.id == id && attempt.raised == NoRaise {
      NumberedAttempt(work, before.db.clock, config.settings, step.world, attempt, number);
    }
    hide Calls, Completes, WellFormed;
  }

  lemma NumberedApproval(config: Config, system: System, step: Step, id: Uuid, number: string)
    requires Numbered(system, id, number) && KeepsNumber(system, step, id, number) && step.ApproveCommand?
    ensures Numbered(AfterApprove(config, system, step), id, number)
  {
    hide Approve;
    if step.id in system.db.documents && ApproveOutcome(config, system, step).result == Changed {
      ApproveStep(config, system, step);
    }
  }

  lemma NumberedStep(config: Config, system: System, step: Step, id: Uuid, number: string)
    requires Inv(config, system) && Numbered(system, id, number) && KeepsNumber(system, step, id, number)
    ensures Numbered(Apply(config, system, step), id, number)
  {
    hide Inv, AfterApprove, AfterDeliver, AttemptFor, Delivered, Numbered;
    if step.Deliver? && CanDeliver(system, step) {
      var attempt := DeliverySummary(config, system, step);
      NumberedDelivery(config, system, AfterDeliver(config, system, step), step, attempt, id, number);
    } else if step.ApproveCommand? {
      NumberedApproval(config, system, step, id, number);
    } else {
      NumberedQuietly(config, system, step, id, number);
    }
  }

  lemma NumberedQuietly(config: Config, system: System, step: Step, id: Uuid, number: string)
    requires Numbered(system, id, number) && !step.ApproveCommand? && (step.Deliver? ==> !CanDeliver(system, step))
    ensures Numbered(Apply(config, system, step), id, number)
  {
    hide AttemptFor, AfterApprove;
  }

  lemma {:induction false} NumberedReach(config: Config, steps: seq<Step>, n: nat, id: Uuid, number: string)
    requires n <= |steps| && NumberedRun(config, steps, id, number)
    ensures Numbered(StateAt(config, steps, n), id, number)
    decreases n
  {
    if n > 0 {
      hide Inv, Apply, StateAt, KeepsNumber, Numbered;
      NumberedReach(config, steps, n - 1, id, number);
      StateAtKeeps(config, steps, n - 1);
      StateAtNext(config, steps, n - 1);
      NumberedStep(config, StateAt(config, steps, n - 1), steps[n - 1], id, number);
    } else {
      hide Inv, Apply, KeepsNumber;
    }
  }

  lemma AsksItsNumber(config: Config, system: System, step: Step, id: Uuid, number: string, asked: string)
    requires Numbered(system, id, number) && KeepsNumber(system, step, id, number)
    requires Asks(config, system, step, id, asked)
    ensures asked == number
  {
    hide Passes;
  }

  /** If the provider reads one number off a document and no edit changes it, then in every run, with any crash
      and any lost acceptance, the document has at most one ERP invoice, and once submitted it has one. */
  lemma AtMostOneInvoice(config: Config, steps: seq<Step>, id: Uuid, number: string)
    requires NumberedRun(config, steps, id, number)
    ensures
      var system := Exec(config, Init(config), steps);
      && |InvoicesOf(system.erp, id)| <= 1
      && (IsSubmitted(system, id) ==> |InvoicesOf(system.erp, id)| == 1)
  {
    hide Asks, KeepsNumber, Numbered, InvoicesOf;
    forall k: nat, asked | AskedAt(config, steps, k, id, asked)
      ensures asked == number
    {
      NumberedReach(config, steps, k, id, number);
      AsksItsNumber(config, StateAt(config, steps, k), steps[k], id, number, asked);
    }
    SecondInvoiceExactlyWhen(config, steps, id);
    SubmittedIsInvoiced(config, steps, id);
  }
}
