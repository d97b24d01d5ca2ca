# DocFlow verification model

A Dafny model of the DocFlow document pipeline, with proofs about every run it can take. The pipeline accepts invoice
PDFs, extracts an invoice with a language model, validates it, and submits it to an ERP or sends it to a reviewer. Its
difficulty is in what surrounds those steps: a session discards everything a raising attempt wrote, the ERP is called
inside the transaction but not undone with it, messages are delivered at least once, retries are bounded, and reviewers
act at any time.

## How the model is built

- `WorkflowStates`, `BusinessRules`, `Identifiers`, `Records`, `Erp`: the life cycle, the rule engine, the derived keys,
  the table rows and the ERP mock.
- `Attempts` specifies one processing attempt as a function of the row it locks and of what the outside world answers
  (a `World`: PDF, provider, look-ups, network, fresh id). `ProcessDocument` writes the same attempt as `process_document.py` does,
  statement by statement on mutable objects, and is proved equal to it. `Reviews` does this for the review commands.
- `Pipeline` is the whole system as a state machine: committed tables, ERP, broker, dead-letter queue and one sequential
  worker. Its steps are uploads, deliveries, the worker's three later transactions, reviews, crashes, failed
  transactions and redeliveries; a delivery's `Fate` says whether the worker or the commit fails around it. A step that
  is not possible leaves the state alone, so a run is any sequence of steps. `Tasks` holds the programs that take those
  steps, over a database, a broker and a queue updated in place, each proved to take exactly its step or steps.
- `CommittedRows`, `Invariants`, `Deliveries`: what an attempt can do to a committed row, and the invariant every step
  keeps. `AttemptOutcomes` reads an attempt's ending off the row and the world, `WrittenRows` the row it leaves, and
  `Resumption` how it goes on from rows that no run commits. The results about runs are in `ForwardSimulation`,
  `ExactlyOnce`, `InvoiceNumbers`, `SecondInvoice`, `RetryExhaustion`, `RetryCauses`, `Redelivery`, `ReviewHistory`,
  `ReviewAnswers`, `AuditTrail`, `Uploads`, `SubmissionTable`, `Drain`, `Stranding`, `LostDocuments` and `WorkBound`.
- `Providers`: the retry loop, the corrective round and the fallback. `Evaluator`, `Normalize`, `Metrics`,
  `QualityGate`, `EvaluationReport`, `MetricNames`: the offline evaluation. `Agreement` joins the evaluator to the pipeline.
- `Options`, `Sorting` and `Sums` are shared helpers.

## Where the code and its documentation differ

The model follows the code.

- `README.md:95` says a repeated `source_message_id` returns the original document. The code keys on the id and the
  content, so the same id with other content is a new document (`Uploads.SameMessageOtherContent`).
- `docs/architecture.md:41` says auto-approved invoices are submitted exactly once. That holds when no acceptance is
  lost (`ExactlyOnce.ExactlyOneInvoice`). Otherwise a lost reply and a retry that reads another number give two
  invoices (`SecondInvoice.OneDocumentTwoInvoices`). The exact condition, over every run, is that the ERP was asked for
  the document under one number only (`InvoiceNumbers.SecondInvoiceExactlyWhen`).
- Attempts that end in a workflow error set the status to failed and then raise, so the session discards it: the
  committed row stays queued or approved (`Tasks.RunDocumentProcessing`) and its message is acknowledged. Without
  another message the document is stranded for good (`LostDocuments.UnreadableDocumentIsStranded`,
  `ForwardSimulation.StrandedForever`); which steps strand a document, and that a run leaves exactly those documents
  behind, is `Stranding.StrandedExactlyWhen` and `Stranding.LeftoversAreStranded`. Only exhausted retries commit failed.
  A transport failure of the ERP client is not an `ErpClientError` and takes this path.
- `docs/architecture.md:43` says exhausted documents land in the dead-letter queue with failed status. The two happen one
  after the other, and the queue misses a document exactly when the worker is killed in between, or the push fails
  (`RetryExhaustion.DlqIsTheFailedExactlyWhen`, `LostDocuments.FailedDocumentIsUnlisted`).
- The dead-letter look-up sees only the last thousand entries (`Tasks.DeadLetterQueue.FindForDocument`).
- Line items are sorted by the text of their decimals and compared by value, so `1.5` and `1.50` in one list can make
  equal lists compare different (`Normalize.ExactExactlyWhenCanonical`).
- The gate's slack of 1e-9 forgives one miss in 10^9 (`QualityGate.FullMarksExactlyBelowABillion`).

## Assumptions

- SHA-256 is a function whose digests do not collide and contain no colon; document ids are 36-character texts and
  fresh, as are ERP invoice ids.
- Decimals and floats are exact reals; a transaction's timestamp is the value of a clock that advances with every
  transaction.
- One worker process handles one message at a time, as the deployment's `--pool=solo` makes it. Uploads, attempts and
  review commands are atomic transactions under the row lock.
- The ERP mock does not restart. It keeps its invoices in memory, so a restart would empty both dictionaries.
- Character classes, case folding, the reading of decimals and the comparison of field values are parameters; a decimal
  is known by the text `str` gives for it, which is read back as the same decimal.

## Model

| member | source | states |
|---|---|---|
| ForwardSimulation.EveryRunFollows | services/worker/workflow/process_document.py:493-791 | In every run, at every step, a document is new and queued, or keeps its status, or takes one of queued→{needs_review, submitted, failed}, needs_review→{approved, rejected}, approved→{submitted, failed}; only the finaliser's step commits failed; received, processing and extracted are never committed |
| ForwardSimulation.NewDocumentsAreQueued | services/worker/workflow/process_document.py:115-123 | A document that a step adds is committed as queued, and only an upload adds one |
| ForwardSimulation.EveryAuditLogReplays | services/worker/workflow/process_document.py:91-112 | Folding a committed document's transition events from received gives a contiguous path of allowed edges that ends at its status, with at most six events ever, whichever of the two transition functions wrote them |
| ForwardSimulation.UnreadablePdfIsNotCommitted | services/worker/workflow/process_document.py:580-601 | On an unreadable PDF the attempt's own copy ends failed while the committed row stays queued |
| Stranding.StrandedExactlyWhen | services/worker/tasks.py:175-260 | From any state that keeps the invariant, a step strands a document (queued or approved, with no message in the broker or in hand) if and only if it is one of: an upload or an approval that is not enqueued, an attempt that gives up or whose commit fails, an unpublished retry, a failed worker transaction; the last four only when no other message of the document is left |
| Stranding.RunStrandsExactlyWhen | services/worker/tasks.py:175-260 | A run ends with a document stranded if and only if one of its steps stranded it |
| Stranding.LeftoversAreStranded | services/worker/tasks.py:175-260 | When the worker has nothing left to do, the documents still queued or approved are exactly those some step stranded |
| LostDocuments.UnreadableDocumentIsStranded | services/worker/tasks.py:243-260 | A concrete run, an upload and one delivery with an unreadable PDF, strands its document |
| ForwardSimulation.StrandedForever | services/worker/tasks.py:175-260 | A stranded document is never changed again, by any delivery, redelivery, review command or upload of any run |
| AttemptOutcomes.AttemptFits | services/worker/workflow/process_document.py:493-791 | How an attempt on an unfinished committed row ends (normally, with a retry under a named error class, or giving up) and which invoice it sends, read off the row and the outside world beforehand: a queued row's reading if and only if the PDF is readable, the look-ups answer and the reading passes every rule, each spelled out on settings, ERP and submissions; and the request asks for that invoice in every field |
| AttemptOutcomes.DeliveryFits | services/worker/tasks.py:70-116 | The same of a delivery; on any other committed row it sends nothing, changes nothing and ends normally |
| Attempts.PassingIsAcceptable | services/worker/workflow/process_document.py:390-430 | Amount within bounds, no negative line, line sum within the tolerance, confidence, currency, a given and known supplier, a given purchase order known, and no submission row of the same supplier name and number: these together are what the rule engine accepts in the context the service builds |
| WrittenRows.AttemptWrites | services/worker/workflow/process_document.py:547-752 | The whole row that an attempt leaves when it returns normally: status, extraction with its provider, decision with its actor, timestamps and every audit event in order |
| WrittenRows.RowsHaveSources | services/worker/workflow/process_document.py:699-737 | In every run, every extraction is the reading of an earlier delivery or the edit of an earlier approval, and every decision that of the rules on such a reading, whether or not it passed them, or of the reviewer who signed it, stamped with the time of that step |
| Resumption.SubmittedIsNeverAskedAgain | services/worker/workflow/process_document.py:219-231 | Whatever the row, a document with a submission row makes no create call and changes neither table nor ERP, and from queued or processing ends submitted |
| Resumption.StoredReadingIsUsed | services/worker/workflow/process_document.py:575-746 | Once a reading is stored, what the PDF and the provider would give makes no difference, from any status |
| Resumption.ReadingGoesOn | services/worker/workflow/process_document.py:350-490 | From a stored reading on, whatever the row: an earlier decision stands whatever the rules say now and is not taken twice, without one the rules decide, and that reading or nothing is sent |
| Resumption.MalformedReadingGivesUp | services/worker/workflow/process_document.py:731-746 | A stored reading that no longer parses gives a workflow error and no create call |
| AuditTrail.LogsAccountForRows | services/worker/workflow/process_document.py:91-112 | In every reachable state the notes of each audit log account for its row: one for each extraction and each decision, one for a submission, a rejection or a final failure and none otherwise, retries noted exactly when the row counts any, and no refused transition |
| Deliveries.ReachableKeeps | services/worker/tasks.py:70-116 | Every reachable state keeps the whole invariant: well-formed rows, unique upload keys, messages for existing documents, the worker's hold on unfinished documents, the dead-letter queue, the submissions table and a consistent ERP |
| Deliveries.ApplyKeeps | services/worker/tasks.py:70-116 | Each kind of step keeps that invariant, from any state that has it |
| Deliveries.DeliverCases | services/worker/workflow/process_document.py:493-791 | A delivery leaves the tables alone, sends one queued row to review, or records one submission; only an attempt that raised nothing and was committed changes them |
| CommittedRows.AttemptBehaves | services/worker/workflow/process_document.py:493-791 | What one attempt on a committed row can do: when it calls the ERP and with what, when it is authorised to, which row it returns, and that it never ends in an unhandled exception |
| ExactlyOnce.ExactlyOneInvoice | services/worker/workflow/process_document.py:212-347 | In every run that loses no ERP acceptance before its commit, the ERP holds exactly one invoice for each submitted document, carrying its latest extraction, and none for any other |
| ExactlyOnce.SubmittedHaveInvoices | services/erp_mock/app.py:124-154 | Whatever is lost or crashes, each submitted document has its invoice under the key of its latest extraction, no two invoices share a key, and both ERP dictionaries hold the same invoices |
| InvoiceNumbers.KeysAreAsked | services/worker/workflow/process_document.py:243-273 | After every run the ERP holds an invoice of a document under a number if and only if some step asked for it: a delivery that found the document queued with a readable and acceptable invoice, or approved, whose request got through and named a supplier the ERP knows |
| InvoiceNumbers.SecondInvoiceExactlyWhen | services/worker/workflow/process_document.py:243-273 | Over every run, with any crash and any lost reply, a document ends with at most one ERP invoice if and only if all the numbers the ERP was asked for it under are one number, and with none if and only if it was never asked |
| InvoiceNumbers.OneInvoiceExactlyWhen | services/worker/workflow/process_document.py:212-347 | Over every run, the ERP holds exactly one invoice for a submitted document if and only if all the numbers it was asked under are one number, and none for any other document if and only if it was never asked |
| InvoiceNumbers.AtMostOneInvoice | services/worker/executor/erp_client.py:118-119 | If a document's readings and edits carry one invoice number, every run leaves it at most one ERP invoice, and exactly one once submitted |
| SecondInvoice.OneDocumentTwoInvoices | services/worker/workflow/process_document.py:243-289 | A concrete run that uploads one document and ends with two ERP invoices for it |
| RetryExhaustion.RetriesAreBounded | services/worker/workflow/process_document.py:126-186 | In every reachable state no retry count exceeds max_retries + 1, failed documents have exactly that count, and the dead-letter queue names failed documents only, none twice |
| RetryExhaustion.RefusedExactlyInReview | services/worker/workflow/process_document.py:148-186 | The finaliser's transition would be refused exactly by a document in review |
| RetryExhaustion.FinaliserAlwaysFails | services/worker/tasks.py:119-166 | In every reachable state in which the retries are used up the finaliser finds its document queued or approved, never terminal, and commits it failed with the exhausted count |
| RetryExhaustion.DlqIsTheFailedDocuments | services/worker/tasks.py:119-166 | In runs in which the worker is not killed between the finaliser's commit and its push, and the push does not fail, the failed documents are exactly the documents of the dead-letter queue |
| RetryExhaustion.DlqIsTheFailedExactlyWhen | services/worker/tasks.py:119-166 | Whenever the finaliser is not about to push, the failed documents are the documents of the dead-letter queue if and only if, between the finaliser's commit and its push, the worker was never killed and no push failed |
| RetryExhaustion.KilledIsUnlisted | services/worker/tasks.py:119-166 | A worker killed there, or a push that fails, leaves its document failed and unlisted at the end of every run that goes on from it |
| RetryExhaustion.UnlistedForever | services/worker/tasks.py:119-166 | A failed document that is not listed, and that the worker does not hold, is never listed by any later step |
| RetryCauses.RetriesHaveCauses | services/worker/tasks.py:191-242 | At every point of every run a retry counter goes back to an earlier delivery that ended in a retry: it is one more than the tries that message had behind it, and the error class named is the one that delivery ended in; a document never retried names none |
| RetryCauses.DeadLettersSayWhy | services/worker/tasks.py:119-166 | Every entry of the dead-letter queue gives the correlation id, retry count and error class of its document's row, and the last try the document was allowed ended in that error |
| LostDocuments.FailedDocumentIsUnlisted | services/worker/tasks.py:119-166 | A concrete run ends with a failed document that the dead-letter queue does not name |
| Redelivery.NormalReturnSettles | services/worker/workflow/process_document.py:501-791 | From any status and any extraction, decision and submission rows, a normal return leaves a status the worker ignores |
| Redelivery.FurtherDeliveriesChangeNothing | services/worker/rules/states.py:39-45 | After a normal return no number of further deliveries changes the row, the submissions or the ERP, whatever the outside world answers |
| ReviewHistory.DecisionHistory | services/worker/workflow/review.py:165-352 | The decision list of a committed document is one of seven and fits its status; there are at most two extractions, and approved or submitted implies one |
| ReviewHistory.OneReviewPerDocument | services/worker/workflow/review.py:183-287 | Over any run at most one review command per document reports a change, and it is counted exactly when the document has a reviewer's decision |
| ReviewHistory.ApprovedWasReviewed | services/worker/workflow/review.py:207-287 | Every document found approved was approved by a reviewer at an earlier step, for exactly its last extraction; an edited one passed every rule, each spelled out, at that moment |
| ReviewHistory.EveryCallIsAuthorised | services/worker/workflow/process_document.py:417-531 | Every create call in any run sends either the provider's reading, which passes every rule spelled out on settings, ERP and submissions of that moment, for a queued document, or the invoice a reviewer approved earlier, for an approved one; and the request carries every field of it, line items included |
| ReviewAnswers.ApproveAnswers | services/worker/workflow/review.py:165-287 | The answer to an approve of any reachable document: a replay exactly when it is approved or submitted, a conflict exactly when queued, rejected or failed, and in review a look-up error, every broken rule of the edit, or a change exactly when the edit passes or an extraction is there |
| ReviewAnswers.RejectAnswers | services/worker/workflow/review.py:290-352 | The answer to a reject of any reachable document: a replay exactly when it is rejected, a change exactly when in review, a conflict otherwise |
| ReviewAnswers.LaterCommandsReplay | services/worker/workflow/review.py:183-197 | In every run, once a command of a document has reported a change, the same command replays, unless an approved document has failed since, and the other one conflicts; either way no row, message or table changes |
| ReviewAnswers.ChangeLeavesReview | services/worker/workflow/review.py:207-287 | A command that reports a change found the document in review; the row gets the reviewer's decision under their name, an edit its invoice, and nothing else changes but status and audit log; an approval that the broker takes adds a message for a first try |
| Uploads.OneDocumentPerUpload | services/ingestion/app.py:176-224 | No two documents stand for the same pair of source message id and content |
| Uploads.DocumentsComeFromUploads | services/ingestion/app.py:176-224 | Every document stands for an upload of the run |
| Uploads.UploadsHaveDocuments | services/ingestion/app.py:176-224 | Every accepted upload has a document in every later state |
| Uploads.UploadAddsExactlyWhen | services/ingestion/app.py:165-224 | After any run, an upload under a fresh id adds exactly its own row and, when the broker takes it, one message for a first try, if and only if its id and content are given and no document stands for the pair; otherwise it changes no row and enqueues nothing |
| Uploads.NewUploadAddsDocument | services/ingestion/app.py:203-224 | An upload of a new pair adds exactly one row, queued, with its correlation id, nothing extracted, decided or retried, and its two audit events, and at most its own message |
| Uploads.RepeatedUploadChangesNothing | services/ingestion/app.py:181-202 | An upload of a known pair changes no row and enqueues nothing |
| Uploads.SameMessageOtherContent | README.md:95-95 | The same source message id with other content makes a second document, against the cited sentence |
| SubmissionTable.RowsAreUnique | services/worker/workflow/process_document.py:304-318 | In every reachable state no (supplier_name, invoice_number) pair and no document is listed twice, and each row's document is submitted |
| SubmissionTable.SubmittedAreListed | services/worker/workflow/process_document.py:401-406 | In every reachable state a submitted document's latest pair is listed, and under its own id when the rules alone approved it |
| Drain.ReliableRunsResume | services/worker/tasks.py:175-242 | While messages are published and attempts fail only transiently, every queued or approved document has a message in the broker or in execution, whatever crashes and reviews come between |
| Drain.DrainTheorem | services/worker/tasks.py:175-242 | With nothing new from outside the worker executes at most the sum of max_retries + 1 − retries over the messages, and when it is done no document is queued or approved |
| Drain.DrainNeverStalls | services/worker/tasks.py:175-242 | Until the pipeline is quiet the worker can always take another step |
| Drain.WorkflowErrorStrands | services/worker/tasks.py:243-260 | The condition is needed: a workflow error on a document's only message strands it |
| WorkBound.DrainIsBounded | services/worker/tasks.py:191-242 | Draining any broker makes at most 4·(llm_max_retries + 1) model calls for each execution its messages can still cause |
| WorkBound.DocumentIsBounded | services/worker/tasks.py:191-242 | Over any run, a document's executions stay within the sum of max_retries + 1 − retries over its own messages at the start and those that uploads, approvals, redeliveries and crashes bring in later, and its model calls within 4·(llm_max_retries + 1) times that |
| WorkBound.FreshChainIsBounded | services/worker/tasks.py:191-242 | One fresh message, amid any others, causes at most max_retries + 1 executions of its document and 4·(max_retries + 1)·(llm_max_retries + 1) model calls for it |
| WorkBound.CountdownsGrow | services/worker/tasks.py:234-237 | Each countdown is at least as long as the one before and never longer than the cap |
| WorkBound.CountdownsMultiply | services/worker/tasks.py:234-237 | The first countdown is one second, or the cap if that is less, and each next one is the base times the one before, or the cap |
| WorkBound.ChainWaits | services/worker/tasks.py:234-242 | Amid any others, a chain waits exactly the first so many countdowns, one for each retry it took |
| WorkBound.ChainWaitIsBounded | services/worker/tasks.py:234-242 | The countdowns of one chain total at most max_retries times the cap |
| Tasks.RunDocumentProcessing | services/worker/tasks.py:70-116 | One attempt in its session: all of its writes are committed when it returns, none when it raises, and the ERP keeps its effect either way |
| Tasks.ProcessDocumentTask | services/worker/tasks.py:175-260 | The whole Celery task is a delivery followed by the three later worker steps of the state machine, whether or not the broker takes the retry |
| Tasks.RetryOrGiveUp | services/worker/tasks.py:191-242 | After a transient failure: note the retry, then publish the next message or finalise and push, as the state machine does |
| Tasks.FinalizeExhaustedFailure | services/worker/tasks.py:119-166 | The finaliser commits first and pushes one dead-letter entry after; a missing document or a refused transition changes nothing |
| Tasks.MarkRetryExhausted | services/worker/workflow/process_document.py:148-186 | Raises exactly when the status can neither be failed nor is terminal; otherwise sets the counters and fails a non-terminal row |
| Tasks.RecordRetryMetadata | services/worker/workflow/process_document.py:126-145 | Sets the counters and notes the retry, and changes nothing else of the row |
| Tasks.NoteRetry | services/worker/tasks.py:194-207 | The transaction around it, which skips an unknown document |
| Tasks.Database.Commit | services/persistence/db.py:21-33 | Leaving a session normally publishes its row and its submissions |
| Tasks.Database.Rollback | services/persistence/db.py:21-33 | Leaving it by an exception keeps every table |
| Tasks.DeadLetterQueue.Push | services/worker/dlq.py:18-35 | Appends one entry |
| Tasks.DeadLetterQueue.ListEntries | services/worker/dlq.py:37-44 | The newest entries first, up to the limit; a limit of zero lists all |
| Tasks.DeadLetterQueue.FindForDocument | services/worker/dlq.py:46-51 | The newest entry of a document among the last thousand, and none exactly when none is there |
| Tasks.UploadDocument | services/ingestion/app.py:165-250 | Dedupe, commit, then enqueue: the upload step of the state machine |
| Tasks.ApproveDocumentReview | services/ingestion/app.py:436-517 | The approve command of the API is the approve step: rolled back unless it reports a change, then enqueued |
| Tasks.RejectDocumentReview | services/ingestion/app.py:523-567 | The reject command of the API is the reject step |
| ProcessDocument.Run | services/worker/workflow/process_document.py:493-791 | The workflow with its handlers equals the specification of an attempt, and never ends in an illegal transition or an unclassified exception |
| ProcessDocument.RunBody | services/worker/workflow/process_document.py:501-752 | The body of the try block, from every status and any rows: it equals a specification that has no refused transition |
| ProcessDocument.HandleRaise | services/worker/workflow/process_document.py:754-791 | The exception handlers: an unclassified exception fails the document if its status allows it and becomes a workflow error |
| ProcessDocument.ContinueProcessing | services/worker/workflow/process_document.py:547-752 | The part from processing on: resume from a submission, from an extraction, or extract |
| ProcessDocument.ExtractAndDecide | services/worker/workflow/process_document.py:579-752 | PDF text, provider call and its error classes, then the decision |
| ProcessDocument.DecideAndMaybeSubmit | services/worker/workflow/process_document.py:350-490 | Resumes an earlier decision or looks up the context, decides, and submits when approved; a document that is not extracted is left alone by an earlier decision for review and submitted on an earlier approval |
| ProcessDocument.LookUpContext | services/worker/workflow/process_document.py:390-430 | The look-ups, their faults in order, and each field of the rule context they give; the rules accept an invoice in it exactly when the invoice passes them as spelled out on settings, ERP and submissions |
| ProcessDocument.SubmitApprovedInvoice | services/worker/workflow/process_document.py:212-347 | Resumes an earlier submission, refuses a missing supplier id, calls the ERP, classifies its failure, lists the pair once; from a status other than approved and without a submission it ends with an exception |
| ProcessDocument.SubmissionForDocument | services/worker/workflow/process_document.py:201-209 | The submission row of a document, if there is one |
| ProcessDocument.CallCreate | services/worker/executor/erp_client.py:99-115 | The create call over a network that may lose the request or the reply |
| ProcessDocument.DocumentRecord.Transition | services/worker/workflow/process_document.py:91-112 | Moves and audits along an allowed edge, raises and changes nothing otherwise |
| Reviews.Transition | services/worker/workflow/review.py:70-91 | The review module's own transition function writes the same row and event |
| Reviews.ApproveReview | services/worker/workflow/review.py:165-287 | The command equals its specification, with the row unchanged unless it reports a change, and the edited invoice validated before it is stored; its answers are those of `ReviewAnswers.ApproveAnswers` |
| Reviews.RejectReview | services/worker/workflow/review.py:290-352 | Rejects, replays, or raises with the row unchanged, as specified |
| Records.FindLatest | services/worker/workflow/process_document.py:189-198 | The latest row by timestamp, the first one on a tie |
| Records.LatestIndexIsGreatest | services/worker/workflow/process_document.py:189-198 | No row is later than the latest one, and every earlier row is older |
| Records.LatestIsLast | services/worker/workflow/review.py:94-103 | When rows are inserted one transaction at a time, the latest is the last inserted |
| Erp.ErpMock.CreateInvoice | services/erp_mock/app.py:124-154 | Replies and updates both dictionaries as specified: a known key replays the stored invoice whatever the payload |
| Erp.CreateKeepsConsistent | services/erp_mock/app.py:124-154 | Keeps both dictionaries holding the same invoices, each under its own id and key |
| Erp.OneInvoicePerKey | services/erp_mock/app.py:124-154 | In such a store no two invoices share a key |
| Erp.CreateIsIdempotent | services/erp_mock/app.py:124-154 | A repeated create answers with the stored invoice and changes nothing |
| Identifiers.ErpKeyInjective | services/worker/executor/erp_client.py:118-119 | An ERP key determines its document and its invoice number |
| Identifiers.UploadKeyInjective | services/ingestion/idempotency.py:4-10 | Two uploads share a key exactly when they share source message id and content |
| WorkflowStates.ReplayIsShort | services/worker/rules/states.py:16-37 | No replayable audit log has more than six transitions, because the life cycle has no longer path |
| WorkflowStates.ReachedFrom | services/worker/rules/states.py:16-37 | The life cycle by target: from where each status can be reached |
| WorkflowStates.TerminalMeansNoSuccessor | services/worker/rules/states.py:16-45 | The terminal states are exactly those without a successor |
| BusinessRules.ValidateInvoice | services/worker/rules/business_rules.py:51-119 | An issue is reported if and only if its own rule is broken, each of the nine spelled out on invoice and context; a negative line under its own index; in the rules' order and the lines' order, so none twice |
| BusinessRules.IssuesNameTheirRules | services/worker/rules/business_rules.py:51-119 | The same of the engine's issues as the decision uses them |
| BusinessRules.DecisionReportsIssues | services/worker/rules/business_rules.py:122-159 | A decision lists exactly the broken rules, and its reason gives the message of each, in order |
| BusinessRules.CheckLines | services/worker/rules/business_rules.py:60-67 | One issue for each line with a negative value, in line order |
| BusinessRules.SumLines | services/worker/rules/business_rules.py:76-76 | The sum of the line totals |
| BusinessRules.DecisionCharacterised | services/worker/rules/business_rules.py:51-159 | Auto-approval is exactly the conjunction of all rules, and the generic failure reason is unreachable |
| BusinessRules.DecisionIgnoresLineOrder | services/worker/rules/business_rules.py:122-159 | Reordering the line items never changes the decision |
| BusinessRules.DecisionMonotone | services/worker/rules/business_rules.py:122-159 | Relaxing limit, tolerance, threshold or currency list never revokes an auto-approval |
| Providers.CallWithRetries | services/worker/providers/retry.py:5-22 | Answers with the first call that is not recoverable, or the last one allowed; counts the calls and the time slept |
| Providers.RetriesUsedIs | services/worker/providers/retry.py:13-22 | The number of retries is the only one with nothing but recoverable calls before it and an end after it |
| Providers.SleepBound | services/worker/providers/retry.py:18-22 | The retries of one loop sleep 0.25·(2^used − 1) seconds together, and so at most 0.25·(2^llm_max_retries − 1) |
| Providers.Extract | services/worker/providers/qwen.py:56-81 | One loop, and a second one only after an output error. By its own last call: an invoice under the model's name if and only if that call's text parsed into it, a recoverable or final error of exactly its class, a broken provider only for a broken call, an output error for a missing or unreadable text |
| Providers.SecondRoundExactlyWhen | services/worker/providers/qwen.py:56-81 | There is a second round exactly when the first ended in a text that is missing or does not parse |
| Providers.RecoverableMeansAWholeLoop | services/worker/providers/qwen.py:56-81 | A recoverable error comes out only after a whole loop of llm_max_retries + 1 calls met nothing else |
| Providers.InvalidOutputMeansTwice | services/worker/providers/qwen.py:56-81 | An output error comes out exactly when both rounds ended in one |
| Providers.Route | services/worker/providers/router.py:35-62 | Only a recoverable last call of the primary falls through, and only to an enabled fallback; what is answered is the last call of the provider it names |
| Providers.RouteIsBounded | services/worker/providers/router.py:35-62 | At most 4·(llm_max_retries + 1) model calls over both providers |
| Providers.RouteBoundIsReached | services/worker/providers/router.py:35-62 | That bound is reached |
| Providers.RetriedStatuses | services/worker/providers/qwen.py:117-154 | The provider retries exactly the statuses the ERP client calls transient, but for 408 and 425, 429 as a rate limit and the rest as transient; every other error status is final, 401 and 403 as auth; an invoice comes of exactly the successes whose content parses into it |
| Providers.FaultsAreClassified | services/worker/providers/qwen.py:100-154 | A completion that times out or never arrives is retried, a time-out under its own class; one that cannot be read is neither retried nor corrected |
| Evaluator.EvaluateCase | llmops/eval/runner.py:95-241 | Decision, final state, match, scores and success of a case for each class of provider outcome; a scenario it does not know is an evaluator error without scores |
| Evaluator.InvalidCase | llmops/eval/runner.py:141-169 | The report of an output error |
| Evaluator.FailedCase | llmops/eval/runner.py:170-196 | The report of a recoverable provider error |
| Evaluator.JudgeExtraction | llmops/eval/runner.py:203-241 | The report of a returned invoice |
| Evaluator.EvaluatedIsSound | llmops/eval/runner.py:95-241 | No evaluated case has a field that is right more often than it was compared |
| Evaluator.ReportsTell | llmops/eval/runner.py:132-223 | Schema validity, outcome class, error class and decision match of a known case, read off the provider's answer and the expectations, with the rules spelled out |
| Evaluator.ScoreTells | llmops/eval/metrics.py:78-93 | Every field has its score, in order: compared once when the case expects a value and an invoice is held against it, right exactly when that invoice's value agrees |
| Evaluator.SuccessMeansAsGolden | llmops/eval/runner.py:163-239 | A case is a success if and only if it came out as the data set has it: a reading with every expected field and the decision that the spelled-out rules give, or the very error the case expects |
| Evaluator.DefaultsApply | llmops/eval/runner.py:57-80 | The rules under a case's overrides, with the evaluator's own defaults spelled out, are what its rule context accepts |
| EvaluationReport.RunEvaluation | llmops/eval/runner.py:244-257 | One report for each case, in order, and their metrics, with every reported rate between zero and one |
| EvaluationReport.EvaluationsHaveRates | llmops/eval/metrics.py:61-64 | The rates over any list of evaluated cases lie between zero and one |
| EvaluationReport.SuccessRateCountsGolden | llmops/eval/runner.py:244-257 | The success rate is the share of the cases that came out as the data set has them, and passing a minimum of one on it means that all of them did |
| Agreement.EvaluatorAgrees | llmops/eval/runner.py:132-223 | Amid any other documents, and for the same kind of provider outcome and the same rule context, with the ERP answering, the final state the evaluator reports is the status the pipeline has committed when the document's message is gone, retries of any error classes and the dead-letter entry included; where it reports none, the document is still queued |
| Agreement.AutoApprovalNamesSupplier | services/worker/workflow/process_document.py:392-400 | Auto-approval implies a supplier id, and one the ERP knows |
| Agreement.RunSettles | services/worker/tasks.py:175-242 | Along such a run the document is pending on its one message, or has reached its target for good |
| Normalize.NormalizeTextIsIdempotent | llmops/eval/normalize.py:6-9 | Normalising twice changes no more than once |
| Normalize.SplitUndoesJoin | llmops/eval/normalize.py:6-9 | Splitting undoes joining |
| Normalize.NormalFormsAreJoinedWords | llmops/eval/normalize.py:6-9 | The texts left alone are exactly folded words with one space between neighbours |
| Normalize.NormalFormKeepsLetters | llmops/eval/normalize.py:6-9 | Without its spaces the normal form is the folded text without its spaces |
| Normalize.NormalFormMeetsAtSpace | llmops/eval/normalize.py:6-9 | Around a space, the normal form joins the words of both sides; a text without spaces is its folded self |
| Normalize.FoldTextOfBoth | llmops/eval/normalize.py:6-9 | Folding goes character by character |
| Normalize.SortKeyIsInjective | llmops/eval/normalize.py:50-62 | The sort key tells any two normalised items apart |
| Normalize.NormalFormIsSorted | llmops/eval/normalize.py:50-62 | The normal form of a list is a permutation of its normalised items in ascending order of description, quantity, unit price and line total, each by character codes |
| Normalize.LineOrderIsIgnored | llmops/eval/normalize.py:50-62 | Any permutation of a list has the same normal form |
| Normalize.ReorderedListsAreEqual | llmops/eval/normalize.py:89-94 | Reordering either list never makes equal lists unequal |
| Normalize.EqualListsHoldEqualItems | llmops/eval/normalize.py:89-94 | Lists that compare equal hold equal multisets of values, and each item of one has a counterpart in the other that differs at most in spacing and case of its description and the spelling of its numbers |
| Normalize.ExactExactlyWhenCanonical | llmops/eval/normalize.py:50-94 | Over a set of numerals that are read back as themselves, lists of equal items always compare equal if and only if no number is written in two ways |
| Metrics.ScoreFields | llmops/eval/metrics.py:78-93 | One score per field, in order: compared when expected, correct when equal |
| Metrics.AggregateMetrics | llmops/eval/metrics.py:96-172 | The one-pass counters equal the sums over the cases, in total and per field; mean and percentile are those of the latencies |
| Metrics.AddScores | llmops/eval/metrics.py:122-130 | The inner loop counts every score under its own field and in the total |
| Metrics.CountersCount | llmops/eval/metrics.py:96-172 | Each counter is the number of cases with the property it is named for |
| Metrics.OutcomesCount | llmops/eval/metrics.py:137-144 | The failure counters are numbers of cases |
| Metrics.LatenciesAreCollected | llmops/eval/metrics.py:145-172 | The latencies are those of the cases that have one |
| Metrics.MeanIsBetween | llmops/eval/metrics.py:145-172 | The mean lies between any bounds of the values and times their number is their total |
| Metrics.TotalsAdd | llmops/eval/metrics.py:96-172 | The counters of two batches add up |
| Metrics.TotalsIgnoreOrder | llmops/eval/metrics.py:96-172 | The order of the cases changes no counter, no mean and no percentile |
| Metrics.RatesAreProportions | llmops/eval/metrics.py:61-64 | No rate exceeds one when no score is correct more often than compared |
| Metrics.FieldsAddUpToTheWhole | llmops/eval/metrics.py:122-130 | The overall field counters are the sums of the per-field ones |
| Metrics.FailuresAddUp | llmops/eval/metrics.py:137-142 | Provider failures are the expected and the unexpected ones |
| Metrics.PercentileHasItsRank | llmops/eval/metrics.py:67-75 | The percentile is one of the values; p/100 of their count, to within one half, are no greater, and the rest of the count no smaller; a share of one half or less gives the least value |
| Metrics.RankIsNearShare | llmops/eval/metrics.py:73-74 | The rank is p/100 of the count rounded to the nearest integer, halves to even, and one for a share of one half or less |
| Metrics.PercentileIgnoresOrder | llmops/eval/metrics.py:67-75 | It does not depend on the order of the values |
| QualityGate.CompareMetrics | llmops/eval/thresholds.py:38-79 | Passes exactly when every minimum is met; lists one failure for each that is not, in order, and a failure is listed if and only if it names an unmet minimum and says how it is unmet: missing, not a number, or below |
| QualityGate.ReportedRatesLieInUnit | llmops/eval/metrics.py:61-64 | Every rate of a report that is a number lies between zero and one when no score is correct more often than compared |
| QualityGate.FullMarksExactlyBelowABillion | llmops/eval/thresholds.py:6-79 | A minimum of one forces numerator = denominator if and only if the denominator is below 10^9 |
| QualityGate.PassingMeansEveryDecisionMatched | llmops/eval/thresholds.py:38-79 | Passing a minimum of one on the decision accuracy means every applicable decision of the evaluation came out as expected |
| QualityGate.PassingMeansEverySchemaValid | llmops/eval/thresholds.py:38-79 | Passing a minimum of one on the schema validity means every answer held to the schema fitted it |
| QualityGate.PassingMeansEveryFieldRight | llmops/eval/thresholds.py:38-79 | Passing a minimum of one on the field accuracy means every field compared anywhere was right |
| QualityGate.PassingMeansEveryCaseSucceeded | llmops/eval/thresholds.py:38-79 | Passing a minimum of one on the success rate means there are cases and all of them succeeded |
| MetricNames.SanitizeMetricName | llmops/eval/mlflow_logging.py:15-25 | The two loops end on every name, with every run of underscores shortened to one and none at either end |
| MetricNames.SanitizingSanitizes | llmops/eval/mlflow_logging.py:15-25 | The result is non-empty, uses only allowed characters, has no double underscore and none at an edge, and the names left alone are exactly such names |
| MetricNames.SanitizingKeeps | llmops/eval/mlflow_logging.py:15-25 | The result keeps the allowed characters of the name in order and adds nothing but underscores; a name with none becomes the fallback |

## Left out

- HTTP routing, request validation other than the two empty checks, file types and size limits, PDF storage, settings parsing, the user interface.
- PDF reading, prompts, JSON parsing and the classification of SDK messages: an attempt's `World` decides their outcome freely.
- Metrics export, tracing and logging: they have no effect on workflow state.
- Audit details, decision reasons and error messages as texts: the audit log keeps the kind, edge and actor of each event, a decision its kind and the codes of its issues.
- Several workers at once, and the database's own behaviour after a failed flush: unique-constraint races do not arise with one worker and row locks.
- A broker that loses a message it has accepted.
- The supplier and purchase-order records behind the look-ups, and the quoting of ids in their URLs: a look-up answers whether the id is known, or fails.
- NaN and infinite decimals, and the rounding of decimals and floats.
- The date, currency and confidence comparisons of single fields, MLflow logging and report files: each would add only easy members.
- The Gemini provider's own code: its two rounds have the shape of `Providers.Extract`, which stands for both.
- ProcessDocument.SubmitApprovedInvoice: from a status other than approved, which no caller establishes, its contract does not say which exception it ends with.
- ProcessDocument.DecideAndMaybeSubmit: from a status other than extracted, which no caller establishes, its contract covers earlier decisions only.
- Tasks.ProcessDocumentTask: runs without interruption; a worker killed or failing between its transactions is a `Crash` or an `Abort` of the state machine.
- Evaluator.EvaluateCase: does not model the provider, model and prompt names or the elapsed time it copies into the report.
- Agreement.EvaluatorAgrees: assumes readable PDFs, look-ups that answer and a network that loses nothing, since the evaluator has no counterpart of those failures.
