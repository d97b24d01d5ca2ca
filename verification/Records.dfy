/** The rows of the database, and the rule that picks the latest extraction or decision. */
module Records {
  import opened Options
  import opened WorkflowStates
  import opened BusinessRules
  import opened Identifiers

  /** A row stamped with the start time of the transaction that inserted it. */
  datatype Row<+T> = Row(value: T, createdAt: nat)

  /** A stored extraction payload either parses back into an invoice or does not. */
  datatype Payload = Parsed(invoice: Invoice) | Malformed

  datatype Extraction = Extraction(provider: string, payload: Payload)

  datatype Decision = Decision(kind: DecisionType, actor: string)

  datatype Document = Document(
    sourceMessageId: string,
    contentHash: string,
    uploadKey: string,
    correlationId: Uuid,
    status: WorkflowState,
    retryCount: nat,
    lastErrorClass: Option<string>,
    extractions: seq<Row<Extraction>>,
    decisions: seq<Row<Decision>>,
    audit: seq<AuditEvent>)

  /** A row of the table of submitted invoices. */
  datatype Submission = Submission(documentId: Uuid, supplierName: string, invoiceNumber: string, erpInvoiceId: string)

  // ---- The latest row ----

  /** The index of the first row with the greatest timestamp. */
  function LatestIndex<T>(rows: seq<Row<T>>): (i: nat)
    requires rows != []
    ensures i < |rows|
  {
    if |rows| == 1 then 0
    else
      var i := LatestIndex(rows[..|rows| - 1]);
      if rows[|rows| - 1].createdAt > rows[i].createdAt then |rows| - 1 else i
  }

  function Latest<T>(rows: seq<Row<T>>): Option<T> {
    if rows == [] then None else Some(rows[LatestIndex(rows)].value)
  }

  method FindLatest<T>(rows: seq<Row<T>>) returns (latest: Option<T>)
    ensures latest == Latest(rows)
  {
    if rows == [] {
      return None;
    }
    var best := 0;
    for i := 1 to |rows|
      invariant best == LatestIndex(rows[..i])
    {
      assert rows[..i + 1][..i] == rows[..i];
      if rows[i].createdAt > rows[best].createdAt {
        best := i;
      }
    }
    assert rows[..|rows|] == rows;
    return Some(rows[best].value);
  }

  lemma {:induction false} LatestIndexIsGreatest<T>(rows: seq<Row<T>>)
    requires rows != []
    ensures forall i :: 0 <= i < |rows| ==> rows[i].createdAt <= rows[LatestIndex(rows)].createdAt
    ensures forall i :: 0 <= i < LatestIndex(rows) ==> rows[i].createdAt < rows[LatestIndex(rows)].createdAt
  {
    if |rows| > 1 {
      LatestIndexIsGreatest(rows[..|rows| - 1]);
    }
  }

  /** Rows inserted by successive transactions, all before time `now`. */
  ghost predicate Clocked<T>(rows: seq<Row<T>>, now: nat) {
    && (forall i, j :: 0 <= i < j < |rows| ==> rows[i].createdAt < rows[j].createdAt)
    && (forall i :: 0 <= i < |rows| ==> rows[i].createdAt < now)
  }

  /** In a table written one transaction at a time the latest row is the one inserted last. */
  lemma LatestIsLast<T>(rows: seq<Row<T>>, now: nat)
    requires Clocked(rows, now)
    ensures Latest(rows) == if rows == [] then None else Some(rows[|rows| - 1].value)
  {
    if rows != [] {
      LatestIndexIsGreatest(rows);
      assert rows[|rows| - 1].createdAt <= rows[LatestIndex(rows)].createdAt;
    }
  }

  // ---- The submissions table ----

  function RowOf(submissions: seq<Submission>, documentId: Uuid): Option<Submission> {
    if submissions == [] then None
    else if submissions[0].documentId == documentId then Some(submissions[0])
    else RowOf(submissions[1..], documentId)
  }

  predicate IsListed(submissions: seq<Submission>, supplierName: string, invoiceNumber: string) {
    exists row :: row in submissions && row.supplierName == supplierName && row.invoiceNumber == invoiceNumber
  }

  lemma RowOfFinds(submissions: seq<Submission>, documentId: Uuid)
    ensures RowOf(submissions, documentId).Some? <==> exists row :: row in submissions && row.documentId == documentId
  {
  }

  // ---- Status changes ----

  /** The row after a status change, with the audit event every status change writes. */
  function Moved(doc: Document, target: WorkflowState, actor: string): Document {
    doc.(status := target, audit := doc.audit + [StateTransition(doc.status, target, actor)])
  }

  function Noted(doc: Document, action: AuditAction, actor: string): Document {
    doc.(audit := doc.audit + [Note(action, actor)])
  }
}
