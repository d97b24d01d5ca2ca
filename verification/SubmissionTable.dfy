/** The table of submitted invoices, which the duplicate rule reads, in every reachable state. */
module SubmissionTable {
  import opened Identifiers
  import opened Records
  import opened CommittedRows
  import opened Pipeline
  import opened Invariants
  import opened Deliveries

  /** Whatever crashes and redeliveries it has been through: no pair of supplier and invoice number is listed
      twice, no document has two rows, and every row belongs to a submitted document. */
  lemma RowsAreUnique(config: Config, steps: seq<Step>, i: nat, j: nat)
    requires i < j < |Exec(config, Init(config), steps).db.submissions|
    ensures
      var system := Exec(config, Init(config), steps);
      var a, b := system.db.submissions[i], system.db.submissions[j];
      && (a.supplierName, a.invoiceNumber) != (b.supplierName, b.invoiceNumber)
      && a.documentId != b.documentId
      && IsSubmitted(system, a.documentId) && IsSubmitted(system, b.documentId)
  {
    ReachableKeeps(config, steps);
    hide Exec, DocumentsFit, KeysFit, MessagesFit, WorkerFits, DlqFits, SubmittedFit, ErpFits;
  }

  /** `id`'s latest extraction is listed, and under its own id when the rules alone approved it. */
  ghost predicate Listed(submissions: seq<Submission>, id: Uuid, doc: Document) {
    match Latest(doc.extractions)
    case None => false
    case Some(extraction) =>
      && extraction.payload.Parsed?
      && var invoice := extraction.payload.invoice;
      && IsListed(submissions, invoice.supplierName, invoice.invoiceNumber)
      && (AutoApproved(doc) ==>
            exists row :: row in submissions && row.documentId == id
              && row.supplierName == invoice.supplierName && row.invoiceNumber == invoice.invoiceNumber)
  }

  lemma CoveredIsListed(submissions: seq<Submission>, id: Uuid, doc: Document, now: nat)
    requires doc.extractions != [] && AllParsed(doc) && Clocked(doc.extractions, now) && Covered(submissions, id, doc)
    ensures Listed(submissions, id, doc)
  {
    LatestIsLast(doc.extractions, now);
    hide Latest, Clocked;
    if AutoApproved(doc) {
      var invoice := LastInvoice(doc);
      var i :| 0 <= i < |submissions| && submissions[i].documentId == id
        && submissions[i].supplierName == invoice.supplierName && submissions[i].invoiceNumber == invoice.invoiceNumber;
      assert submissions[i] in submissions;
    }
  }

  /** In every reachable state, each submitted document is covered by the table in that way. */
  lemma SubmittedAreListed(config: Config, steps: seq<Step>, id: Uuid)
    requires IsSubmitted(Exec(config, Init(config), steps), id)
    ensures
      var system := Exec(config, Init(config), steps);
      Listed(system.db.submissions, id, system.db.documents[id])
  {
    ReachableKeeps(config, steps);
    var system := Exec(config, Init(config), steps);
    assert WellFormed(system.db.documents[id], config.settings.maxRetries, system.db.clock);
    hide Exec, Latest, Clocked, Covered, Listed, RowsFitStatus;
    CoveredIsListed(system.db.submissions, id, system.db.documents[id], system.db.clock);
  }
}
