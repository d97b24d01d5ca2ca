/** Delivering a document again. These results hold of any row whatever, reachable or not. */
module Redelivery {
  import opened Options
  import opened WorkflowStates
  import opened BusinessRules
  import opened Records
  import opened Attempts

  lemma SubmitSettles(work: Work, invoice: Invoice, world: World)
    requires work.doc.status == Approved
    ensures Submit(work, invoice, world).raised == NoRaise ==> Submit(work, invoice, world).work.doc.status == Submitted
  {
  }

  lemma DecideSettles(work: Work, now: nat, invoice: Invoice, settings: Settings, world: World)
    requires work.doc.status == Extracted
    ensures Decide(work, now, invoice, settings, world).raised == NoRaise ==>
              Decide(work, now, invoice, settings, world).work.doc.status in {Submitted, NeedsReview}
  {
    hide Submit, DecideWorkflow, Latest;
    SubmitSettles(MovedTo(work, Approved), invoice, world);
    var decision := DecideWorkflow(invoice, Context(settings, invoice, work.erp, work.submissions)).decision;
    SubmitSettles(MovedTo(Decided(work, now, decision), Approved), invoice, world);
  }

  lemma ClaimedSettles(work: Work, now: nat, settings: Settings, world: World)
    requires work.doc.status == Processing
    ensures ProcessClaimed(work, now, settings, world).raised == NoRaise ==>
              IsWorkerNoop(ProcessClaimed(work, now, settings, world).work.doc.status)
  {
    hide Decide, Latest, RowOf;
    if Latest(work.doc.extractions).Some? && Latest(work.doc.extractions).value.payload.Parsed? {
      DecideSettles(MovedTo(work, Extracted), now, Latest(work.doc.extractions).value.payload.invoice, settings, world);
    }
    if world.provider.Returned? {
      DecideSettles(MovedTo(Stored(work, now, world.provider.provider, world.provider.invoice), Extracted), now,
                    world.provider.invoice, settings, world);
    }
  }

  /** From any status, with any extractions, decisions and submissions, an attempt that returns normally
      leaves the document in a status the worker ignores. */
  lemma NormalReturnSettles(work: Work, now: nat, settings: Settings, world: World)
    ensures Process(work, now, settings, world).raised == NoRaise ==>
              IsWorkerNoop(Process(work, now, settings, world).work.doc.status)
  {
    hide ProcessClaimed, Decide, Submit, Latest;
    ClaimedSettles(if work.doc.status == Queued then MovedTo(work, Processing) else work.(doc := work.doc.(status := Processing)),
                   now, settings, world);
    if work.doc.status in {Approved, Extracted} && Latest(work.doc.extractions).Some?
       && Latest(work.doc.extractions).value.payload.Parsed? {
      var invoice := Latest(work.doc.extractions).value.payload.invoice;
      if work.doc.status == Approved {
        SubmitSettles(work, invoice, world);
      } else {
        DecideSettles(work, now, invoice, settings, world);
      }
    }
  }

  /** Successive deliveries of one document, each committed, with nothing in between. */
  function Redelivered(work: Work, now: nat, settings: Settings, worlds: seq<World>): Work
    decreases worlds
  {
    if worlds == [] then work
    else
      var attempt := Process(work.(call := None), now, settings, worlds[0]);
      var committed := if attempt.raised == NoRaise then attempt.work else work.(erp := attempt.work.erp);
      Redelivered(committed.(call := None), now + 1, settings, worlds[1..])
  }

  /** Once an attempt has returned normally, no number of further deliveries changes the row, the submissions
      or the ERP, whatever the outside world answers. */
  lemma FurtherDeliveriesChangeNothing(work: Work, now: nat, settings: Settings, world: World, later: nat,
                                       worlds: seq<World>)
    requires Process(work, now, settings, world).raised == NoRaise
    ensures
      var settled := Process(work, now, settings, world).work.(call := None);
      Redelivered(settled, later, settings, worlds) == settled
  {
    NormalReturnSettles(work, now, settings, world);
    SettledStays(Process(work, now, settings, world).work.(call := None), later, settings, worlds);
  }

  lemma {:induction false} SettledStays(work: Work, now: nat, settings: Settings, worlds: seq<World>)
    requires IsWorkerNoop(work.doc.status) && work.call == None
    ensures Redelivered(work, now, settings, worlds) == work
    decreases worlds
  {
    if worlds != [] {
      assert Process(work, now, settings, worlds[0]) == Attempt(work, NoRaise);
      SettledStays(work, now + 1, settings, worlds[1..]);
    }
  }
}
