/** Documents and uploads: one document for each pair of source message id and content. */
module Uploads {
  import opened WorkflowStates
  import opened Identifiers
  import opened Attempts
  import opened Reviews
  import opened CommittedRows
  import opened Pipeline
  import opened Invariants
  import opened Deliveries

  /** The document stands for this upload. */
  ghost predicate StandsFor(config: Config, system: System, id: Uuid, sourceMessageId: string, content: string) {
    && id in system.db.documents
    && system.db.documents[id].sourceMessageId == sourceMessageId
    && system.db.documents[id].contentHash == config.sha(content)
  }

  /** Step `n` of the run uploads this pair. */
  ghost predicate UploadedAt(steps: seq<Step>, n: nat, sourceMessageId: string, content: string) {
    n < |steps| && steps[n].Upload? && steps[n].sourceMessageId == sourceMessageId && steps[n].content == content
  }

  /** Documents are never removed and never change the upload they stand for; only an upload adds one. */
  ghost predicate KeepsUploads(before: System, after: System) {
    forall id :: id in before.db.documents ==>
      && id in after.db.documents
      && after.db.documents[id].sourceMessageId == before.db.documents[id].sourceMessageId
      && after.db.documents[id].contentHash == before.db.documents[id].contentHash
  }

  lemma DeliveryKeepsUploads(config: Config, before: System, after: System, step: Step, attempt: Attempt)
    requires step.Deliver? && Delivered(config, before, after, step, attempt)
    ensures KeepsUploads(before, after)
    ensures forall id :: id in after.db.documents ==> id in before.db.documents
  {
    hide Calls, Completes, WellFormed;
  }

  lemma ApproveKeepsUploads(config: Config, system: System, step: Step)
    requires step.ApproveCommand?
    ensures KeepsUploads(system, AfterApprove(config, system, step))
    ensures forall id :: id in AfterApprove(config, system, step).db.documents ==> id in system.db.documents
  {
    if step.id in system.db.documents && ApproveOutcome(config, system, step).result == Changed {
      ApproveStep(config, system, step);
    }
    hide Approve;
  }

  lemma StepKeepsUploads(config: Config, system: System, step: Step)
    requires Inv(config, system)
    ensures KeepsUploads(system, Apply(config, system, step))
    ensures !step.Upload? ==> forall id :: id in Apply(config, system, step).db.documents ==> id in system.db.documents
  {
    hide Inv, AfterApprove, AfterDeliver, AttemptFor, Delivered, KeepsUploads;
    if step.Deliver? && CanDeliver(system, step) {
      var attempt := DeliverySummary(config, system, step);
      DeliveryKeepsUploads(config, system, AfterDeliver(config, system, step), step, attempt);
    } else if step.ApproveCommand? {
      ApproveKeepsUploads(config, system, step);
    } else {
      OtherStepsKeepUploads(config, system, step);
    }
  }

  lemma OtherStepsKeepUploads(config: Config, system: System, step: Step)
    requires !step.ApproveCommand? && (step.Deliver? ==> !CanDeliver(system, step))
    ensures KeepsUploads(system, Apply(config, system, step))
    ensures !step.Upload? ==> forall id :: id in Apply(config, system, step).db.documents ==> id in system.db.documents
  {
    hide AttemptFor, AfterApprove;
  }

  /** An upload of a pair that has a document changes nothing and enqueues nothing. */
  lemma RepeatedUploadChangesNothing(config: Config, system: System, step: Step, id: Uuid)
    requires Inv(config, system) && step.Upload?
    requires StandsFor(config, system, id, step.sourceMessageId, step.content)
    ensures AfterUpload(config, system, step) in {system, Tick(system)}
  {
    assert system.db.documents[id].uploadKey == UploadKey(config.sha, step.sourceMessageId, config.sha(step.content));
  }

  /** The upload's own document is added, queued, with nothing extracted, decided or retried yet and, when the
      broker takes it, a message for its first try. */
  ghost predicate AddsQueued(before: System, after: System, step: Step)
    requires step.Upload?
  {
    && step.id !in before.db.documents && step.id in after.db.documents
    && var doc := after.db.documents[step.id];
    && after.db.documents == before.db.documents[step.id := doc]
    && doc.status == Queued && doc.correlationId == step.correlationId
    && doc.extractions == [] && doc.decisions == [] && doc.retryCount == 0
    && doc.audit == [Note(DocumentReceived, "system"), StateTransition(Received, Queued, "system")]
    && after.broker == before.broker + (if step.enqueued then [Message(step.id, step.correlationId, 0)] else [])
    && after.erp == before.erp && after.db.submissions == before.db.submissions
  }

  /** An upload of a new pair, under a fresh id, adds exactly its own document, queued. */
  lemma NewUploadAddsDocument(config: Config, system: System, step: Step)
    requires Inv(config, system) && CollisionFree(config.sha) && step.Upload?
    requires step.sourceMessageId != "" && step.content != "" && step.id !in system.db.documents
    requires forall id :: !StandsFor(config, system, id, step.sourceMessageId, step.content)
    requires HashesFit(config, system)
    ensures
      var after := AfterUpload(config, system, step);
      && StandsFor(config, after, step.id, step.sourceMessageId, step.content)
      && AddsQueued(system, after, step)
  {
    var key := UploadKey(config.sha, step.sourceMessageId, config.sha(step.content));
    forall id | id in system.db.documents
      ensures system.db.documents[id].uploadKey != key
    {
      var doc := system.db.documents[id];
      var content :| doc.contentHash == config.sha(content);
      UploadKeyInjective(config.sha, doc.sourceMessageId, content, step.sourceMessageId, step.content);
      assert !StandsFor(config, system, id, step.sourceMessageId, step.content);
    }
  }

  /** Every content hash is the digest of some content. */
  ghost predicate HashesFit(config: Config, system: System) {
    forall id :: id in system.db.documents ==> exists content :: system.db.documents[id].contentHash == config.sha(content)
  }

  lemma StaysFor(config: Config, before: System, after: System, id: Uuid, sourceMessageId: string, content: string)
    requires KeepsUploads(before, after) && StandsFor(config, before, id, sourceMessageId, content)
    ensures StandsFor(config, after, id, sourceMessageId, content)
    ensures after.db.documents[id].sourceMessageId == sourceMessageId
  {
  }

  /** Every document stands for an upload of the run. */
  lemma {:induction false} DocumentsComeFromUploads(config: Config, steps: seq<Step>, id: Uuid)
    requires id in Exec(config, Init(config), steps).db.documents
    ensures exists n: nat, content ::
              && UploadedAt(steps, n, Exec(config, Init(config), steps).db.documents[id].sourceMessageId, content)
              && StandsFor(config, Exec(config, Init(config), steps), id,
                           Exec(config, Init(config), steps).db.documents[id].sourceMessageId, content)
  {
    hide Inv, Apply, KeepsUploads;
    if steps != [] {
      var front, last := steps[..|steps| - 1], steps[|steps| - 1];
      var before, after := Exec(config, Init(config), front), Exec(config, Init(config), steps);
      ReachableKeeps(config, front);
      StepKeepsUploads(config, before, last);
      if id in before.db.documents {
        DocumentsComeFromUploads(config, front, id);
        var source := before.db.documents[id].sourceMessageId;
        var n: nat, content :| UploadedAt(front, n, source, content) && StandsFor(config, before, id, source, content);
        StaysFor(config, before, after, id, source, content);
        assert UploadedAt(steps, n, source, content);
      } else {
        UploadStandsFor(config, before, last, id);
        assert UploadedAt(steps, |front|, last.sourceMessageId, last.content);
      }
    }
  }

  lemma DigestsReach(config: Config, steps: seq<Step>)
    ensures HashesFit(config, Exec(config, Init(config), steps))
  {
    var system := Exec(config, Init(config), steps);
    forall id | id in system.db.documents
      ensures exists content :: system.db.documents[id].contentHash == config.sha(content)
    {
      DocumentsComeFromUploads(config, steps, id);
    }
  }

  /** After any run, an upload under a fresh id adds a document, its own and queued, if and only if its id and
      content are given and no document stands for the pair; otherwise it changes no row and enqueues nothing. */
  lemma UploadAddsExactlyWhen(config: Config, steps: seq<Step>, step: Step)
    requires CollisionFree(config.sha) && step.Upload?
    requires step.id !in Exec(config, Init(config), steps).db.documents
    ensures
      var before := Exec(config, Init(config), steps);
      var after := AfterUpload(config, before, step);
      var isNew := forall id :: !StandsFor(config, before, id, step.sourceMessageId, step.content);
      if step.sourceMessageId != "" && step.content != "" && isNew then
        && StandsFor(config, after, step.id, step.sourceMessageId, step.content)
        && AddsQueued(before, after, step)
      else after in {before, Tick(before)}
  {
    hide Inv, Exec, AfterUpload, StandsFor, AddsQueued, HashesFit;
    var before := Exec(config, Init(config), steps);
    ReachableKeeps(config, steps);
    DigestsReach(config, steps);
    if step.sourceMessageId == "" || step.content == "" {
      EmptyUploadChangesNothing(config, before, step);
    } else if forall id :: !StandsFor(config, before, id, step.sourceMessageId, step.content) {
      NewUploadAddsDocument(config, before, step);
    } else {
      var id :| StandsFor(config, before, id, step.sourceMessageId, step.content);
      RepeatedUploadChangesNothing(config, before, step, id);
    }
  }

  lemma EmptyUploadChangesNothing(config: Config, system: System, step: Step)
    requires step.Upload? && (step.sourceMessageId == "" || step.content == "")
    ensures AfterUpload(config, system, step) == system
  {
  }

  lemma UploadStandsFor(config: Config, system: System, step: Step, id: Uuid)
    requires step.Upload? && id !in system.db.documents && id in Apply(config, system, step).db.documents
    ensures StandsFor(config, Apply(config, system, step), id, step.sourceMessageId, step.content)
  {
  }

  /** Every accepted upload has its document in every later state of the run. */
  lemma {:induction false} UploadsHaveDocuments(config: Config, steps: seq<Step>, n: nat, sourceMessageId: string, content: string)
    requires CollisionFree(config.sha) && UploadedAt(steps, n, sourceMessageId, content)
    requires sourceMessageId != "" && content != "" && steps[n].id !in StateAt(config, steps, n).db.documents
    ensures exists id :: StandsFor(config, Exec(config, Init(config), steps), id, sourceMessageId, content)
    decreases |steps|
  {
    var front, last := steps[..|steps| - 1], steps[|steps| - 1];
    var before, after := Exec(config, Init(config), front), Exec(config, Init(config), steps);
    ReachableKeeps(config, front);
    StepKeepsUploads(config, before, last);
    if n < |front| {
      assert front[..n] == steps[..n];
      hide Inv, Apply;
      UploadsHaveDocuments(config, front, n, sourceMessageId, content);
      var id :| StandsFor(config, before, id, sourceMessageId, content);
      assert StandsFor(config, after, id, sourceMessageId, content);
    } else {
      hide Inv, Apply;
      DigestsReach(config, front);
      AcceptedUpload(config, before, last);
    }
  }

  lemma AcceptedUpload(config: Config, system: System, step: Step)
    requires Inv(config, system) && CollisionFree(config.sha) && step.Upload?
    requires step.sourceMessageId != "" && step.content != "" && step.id !in system.db.documents
    requires HashesFit(config, system)
    ensures exists id :: StandsFor(config, AfterUpload(config, system, step), id, step.sourceMessageId, step.content)
  {
    var after := AfterUpload(config, system, step);
    var key := UploadKey(config.sha, step.sourceMessageId, config.sha(step.content));
    if IsKnownUpload(system.db, key) {
      var id :| id in system.db.documents && system.db.documents[id].uploadKey == key;
      var content :| system.db.documents[id].contentHash == config.sha(content);
      UploadKeyInjective(config.sha, system.db.documents[id].sourceMessageId, content, step.sourceMessageId, step.content);
      assert StandsFor(config, after, id, step.sourceMessageId, step.content);
    } else {
      assert StandsFor(config, after, step.id, step.sourceMessageId, step.content);
    }
  }

  /** No two documents stand for the same upload. */
  lemma OneDocumentPerUpload(config: Config, steps: seq<Step>, a: Uuid, b: Uuid, sourceMessageId: string, content: string)
    requires StandsFor(config, Exec(config, Init(config), steps), a, sourceMessageId, content)
    requires StandsFor(config, Exec(config, Init(config), steps), b, sourceMessageId, content)
    ensures a == b
  {
    ReachableKeeps(config, steps);
  }

  /** The source message id alone does not identify a document: with other content it is another one. */
  lemma SameMessageOtherContent(config: Config, sourceMessageId: string, c: string, d: string, a: Uuid, b: Uuid)
    requires CollisionFree(config.sha) && a != b && c != d && sourceMessageId != "" && c != "" && d != ""
    ensures
      var run := [Upload(sourceMessageId, c, a, a, true), Upload(sourceMessageId, d, b, b, true)];
      Exec(config, Init(config), run).db.documents.Keys == {a, b}
  {
    var first, second := Upload(sourceMessageId, c, a, a, true), Upload(sourceMessageId, d, b, b, true);
    var run := [first, second];
    assert run[..1] == [first] && run[..1][..0] == [];
    var s1 := Apply(config, Init(config), first);
    assert Exec(config, Init(config), run[..1]) == s1;
    UploadKeyInjective(config.sha, sourceMessageId, c, sourceMessageId, d);
    assert s1.db.documents.Keys == {a};
    assert Exec(config, Init(config), run) == Apply(config, s1, second);
  }
}
