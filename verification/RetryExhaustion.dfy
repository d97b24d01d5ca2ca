/** Retries are bounded, and the dead-letter queue and the failed documents belong together. */
module RetryExhaustion {
  import opened Options
  import opened WorkflowStates
  import opened Identifiers
  import opened Records
  import opened Attempts
  import opened Reviews
  import opened CommittedRows
  import opened Pipeline
  import opened Invariants
  import opened Deliveries
  import opened ForwardSimulation

  ghost predicate IsFailedDocument(system: System, id: Uuid) {
    id in system.db.documents && system.db.documents[id].status == Failed
  }

  /** In every reachable state: no retry count exceeds `maxRetries + 1`, a failed document has exactly that
      count, the dead-letter queue names failed documents only, and names none twice. */
  lemma RetriesAreBounded(config: Config, steps: seq<Step>)
    ensures
      var system := Exec(config, Init(config), steps);
      var limit := config.settings.maxRetries + 1;
      && (forall id :: id in system.db.documents ==> system.db.documents[id].retryCount <= limit)
      && (forall id :: IsFailedDocument(system, id) ==> system.db.documents[id].retryCount == limit)
      && (forall i :: 0 <= i < |system.dlq| ==>
            IsFailedDocument(system, system.dlq[i].documentId) && system.dlq[i].retryCount == limit)
      && (forall i, j :: 0 <= i < j < |system.dlq| ==> system.dlq[i].documentId != system.dlq[j].documentId)
  {
    ReachableKeeps(config, steps);
    var system := Exec(config, Init(config), steps);
    forall id | id in system.db.documents
      ensures WellFormed(system.db.documents[id], config.settings.maxRetries, system.db.clock)
    {
    }
  }

  /** The finaliser, in every reachable state: it finds the document queued or approved, and commits it failed
      with the exhausted count, whatever reviews and uploads came in between. */
  lemma FinaliserAlwaysFails(config: Config, steps: seq<Step>, published: bool)
    requires
      var worker := Exec(config, Init(config), steps).worker;
      worker.RetryRecorded? && worker.message.retries >= config.settings.maxRetries
    ensures
      var before := Exec(config, Init(config), steps);
      var after := AfterRetryOrExhaust(config, before, published);
      var id := before.worker.message.documentId;
      && id in before.db.documents
      && IsUnfinished(before.db.documents[id].status)
      && IsFailedDocument(after, id)
      && after.db.documents[id].retryCount == config.settings.maxRetries + 1
      && after.db.documents[id].lastErrorClass == Some(before.worker.errorClass)
      && after.worker.Exhausted?
  {
    var before := Exec(config, Init(config), steps);
    ReachableKeeps(config, steps);
    FinaliserFindsUnfinished(config, before);
    hide Inv;
    ExhaustStep(config, before, published);
  }

  /** The finaliser would be refused exactly by a document in review: every other one may fail, or already is where
      it stays. */
  lemma RefusedExactlyInReview(doc: Document)
    ensures FinaliserRefused(doc) <==> doc.status == NeedsReview
  {
  }

  /** Every failed document is listed, but for the one the finaliser has just failed. */
  ghost predicate FailedListed(system: System) {
    forall id :: IsFailedDocument(system, id) ==>
      InDlq(system.dlq, id) || (system.worker.Exhausted? && system.worker.message.documentId == id)
  }

  /** Between the finaliser's commit and its push the worker is not killed, and the push does not fail. */
  predicate SparesFinaliser(system: System, step: Step) {
    system.worker.Exhausted? ==> !step.Crash? && !step.Abort?
  }

  ghost predicate SparingRun(config: Config, steps: seq<Step>) {
    forall n :: 0 <= n < |steps| ==> SparesFinaliser(StateAt(config, steps, n), steps[n])
  }

  lemma PushLists(system: System)
    requires FailedListed(system)
    ensures FailedListed(AfterPush(system))
  {
    var after := AfterPush(system);
    forall id | IsFailedDocument(after, id)
      ensures InDlq(after.dlq, id)
              || (after.worker.Exhausted? && after.worker.message.documentId == id)
    {
      assert IsFailedDocument(system, id);
      if system.worker.Exhausted? {
        if InDlq(system.dlq, id) {
          var i :| 0 <= i < |system.dlq| && system.dlq[i].documentId == id;
          assert after.dlq[i] == system.dlq[i];
        } else {
          assert after.dlq[|system.dlq|].documentId == id;
        }
      }
    }
  }

  lemma RetryLists(config: Config, system: System, published: bool)
    requires Inv(config, system) && FailedListed(system)
    ensures FailedListed(AfterRetryOrExhaust(config, system, published))
  {
    hide Inv, InDlq;
    var after := AfterRetryOrExhaust(config, system, published);
    if system.worker.RetryRecorded? {
      FinaliserFindsUnfinished(config, system);
      forall id | IsFailedDocument(after, id) && id != system.worker.message.documentId
        ensures IsFailedDocument(system, id)
      {
      }
      assert after.worker.Exhausted? || !IsFailedDocument(after, system.worker.message.documentId);
    }
  }

  lemma ListStep(config: Config, system: System, step: Step)
    requires Inv(config, system) && FailedListed(system) && SparesFinaliser(system, step)
    ensures FailedListed(Apply(config, system, step))
  {
    hide Inv, InDlq, AfterRetryOrExhaust, AfterPush, AttemptFor;
    if step.PushDeadLetter? {
      PushLists(system);
    } else if step.RetryOrExhaust? {
      RetryLists(config, system, step.published);
    } else {
      var after := Apply(config, system, step);
      forall id | IsFailedDocument(after, id)
        ensures IsFailedDocument(system, id)
      {
        if id in system.db.documents {
          StepFollows(config, system, step, id);
        } else {
          NewDocumentsAreQueued(config, system, step, id);
        }
      }
    }
  }

  lemma {:induction false} ListedReach(config: Config, steps: seq<Step>)
    requires SparingRun(config, steps)
    ensures FailedListed(Exec(config, Init(config), steps))
  {
    if steps != [] {
      var front := steps[..|steps| - 1];
      assert forall n :: 0 <= n < |front| ==> steps[..n] == front[..n];
      assert forall n :: 0 <= n < |front| ==> StateAt(config, front, n) == StateAt(config, steps, n) && front[n] == steps[n];
      ListedReach(config, front);
      ReachableKeeps(config, front);
      assert StateAt(config, steps, |front|) == Exec(config, Init(config), front);
      ListStep(config, Exec(config, Init(config), front), steps[|steps| - 1]);
    }
  }

  /** When the finaliser is never stopped before its push, the failed documents and the documents of the
      dead-letter queue are the same, in every state in which it is not about to push. */
  lemma DlqIsTheFailedDocuments(config: Config, steps: seq<Step>, id: Uuid)
    requires SparingRun(config, steps) && !Exec(config, Init(config), steps).worker.Exhausted?
    ensures
      var system := Exec(config, Init(config), steps);
      IsFailedDocument(system, id) <==> InDlq(system.dlq, id)
  {
    ListedReach(config, steps);
    ReachableKeeps(config, steps);
  }

  /** A worker stopped right there leaves a failed document that no later step ever lists. */
  ghost predicate Unlisted(system: System, id: Uuid) {
    && IsFailedDocument(system, id)
    && !InDlq(system.dlq, id)
    && (!system.worker.Idle? ==> system.worker.message.documentId != id)
  }

  lemma UnlistedStep(config: Config, system: System, step: Step, id: Uuid)
    requires Inv(config, system) && Unlisted(system, id)
    ensures Unlisted(Apply(config, system, step), id)
  {
    hide Inv, AttemptFor, AfterDeliver, AfterApprove, AfterUpload, InDlq;
    StepFollows(config, system, step, id);
    if step.Deliver? && CanDeliver(system, step) {
      UnlistedDelivery(config, system, step, id);
    } else if step.PushDeadLetter? {
      UnlistedPush(system, id);
    } else {
      UnlistedQuietly(config, system, step, id);
    }
  }

  lemma UnlistedPush(system: System, id: Uuid)
    requires Unlisted(system, id)
    ensures Unlisted(AfterPush(system), id)
  {
  }

  lemma UnlistedQuietly(config: Config, system: System, step: Step, id: Uuid)
    requires Unlisted(system, id) && !step.PushDeadLetter? && (step.Deliver? ==> !CanDeliver(system, step))
    requires IsFailedDocument(Apply(config, system, step), id)
    ensures Unlisted(Apply(config, system, step), id)
  {
    hide AttemptFor, Approve, InDlq;
  }

  lemma UnlistedDelivery(config: Config, system: System, step: Step, id: Uuid)
    requires Inv(config, system) && Unlisted(system, id) && step.Deliver? && CanDeliver(system, step)
    ensures Unlisted(AfterDeliver(config, system, step), id)
  {
    StepFollows(config, system, step, id);
    var message := system.broker[step.index];
    assert MessageFits(config, system, message);
    DeliveredBehaves(config, system, message, step.world);
    hide Inv, Process;
  }

  lemma {:induction false} UnlistedForever(config: Config, system: System, steps: seq<Step>, id: Uuid)
    requires Inv(config, system) && Unlisted(system, id)
    ensures Unlisted(Exec(config, system, steps), id)
  {
    if steps != [] {
      var front := steps[..|steps| - 1];
      UnlistedForever(config, system, front, id);
      RunKeeps(config, system, front);
      UnlistedStep(config, Exec(config, system, front), steps[|steps| - 1], id);
    }
  }

  // ---- The finaliser stopped before its push ----

  lemma ExhaustedIsUnlisted(config: Config, system: System)
    requires Inv(config, system) && system.worker.Exhausted?
    ensures IsFailedDocument(system, system.worker.message.documentId)
    ensures !InDlq(system.dlq, system.worker.message.documentId)
  {
    hide InDlq, DocumentsFit, KeysFit, DlqFits, SubmissionsFit, SubmittedFit, ErpFits;
  }

  /** Killing the worker there, or a push that fails, leaves the document unlisted. */
  lemma KillUnlists(config: Config, system: System, step: Step)
    requires Inv(config, system) && !SparesFinaliser(system, step)
    ensures Unlisted(Apply(config, system, step), system.worker.message.documentId)
  {
    hide Inv, InDlq;
    ExhaustedIsUnlisted(config, system);
  }

  /** A finaliser stopped there shows at the end of every run: its document is failed and not listed. */
  lemma KilledIsUnlisted(config: Config, steps: seq<Step>, n: nat)
    requires n < |steps| && !SparesFinaliser(StateAt(config, steps, n), steps[n])
    ensures Unlisted(Exec(config, Init(config), steps), StateAt(config, steps, n).worker.message.documentId)
  {
    hide Inv, Exec, Apply, Unlisted;
    var before := StateAt(config, steps, n);
    StateAtKeeps(config, steps, n);
    KillUnlists(config, before, steps[n]);
    StateAtNext(config, steps, n);
    StateAtKeeps(config, steps, n + 1);
    UnlistedForever(config, StateAt(config, steps, n + 1), steps[n + 1..], before.worker.message.documentId);
    StateAtLeadsOn(config, steps, n + 1);
  }

  /** Whenever the finaliser is not about to push, the failed documents are the documents of the dead-letter
      queue if and only if, between the finaliser's commit and its push, the worker was never killed and no push
      failed. */
  lemma DlqIsTheFailedExactlyWhen(config: Config, steps: seq<Step>)
    requires !Exec(config, Init(config), steps).worker.Exhausted?
    ensures
      var end := Exec(config, Init(config), steps);
      (forall id :: IsFailedDocument(end, id) <==> InDlq(end.dlq, id)) <==> SparingRun(config, steps)
  {
    hide Exec, SparesFinaliser, InDlq;
    var end := Exec(config, Init(config), steps);
    if SparingRun(config, steps) {
      forall id
        ensures IsFailedDocument(end, id) <==> InDlq(end.dlq, id)
      {
        DlqIsTheFailedDocuments(config, steps, id);
      }
    } else {
      var n :| 0 <= n < |steps| && !SparesFinaliser(StateAt(config, steps, n), steps[n]);
      KilledIsUnlisted(config, steps, n);
    }
  }
}
