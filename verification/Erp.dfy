/** The ERP mock's invoice store, and the client's view of a call over an unreliable network. */
module Erp {
  import opened Options
  import opened BusinessRules

  datatype InvoiceRequest = InvoiceRequest(
    supplierId: string,
    purchaseOrderId: Option<string>,
    invoiceNumber: string,
    invoiceDate: string,
    currency: string,
    totalAmount: real,
    lineItems: seq<LineItem>)

  datatype ErpInvoice = ErpInvoice(
    invoiceId: string,
    supplierId: string,
    purchaseOrderId: Option<string>,
    invoiceNumber: string,
    invoiceDate: string,
    currency: string,
    totalAmount: real,
    idempotencyKey: string)

  datatype ErpState = ErpState(
    suppliers: set<string>,
    purchaseOrders: set<string>,
    byId: map<string, ErpInvoice>,
    byKey: map<string, ErpInvoice>)

  datatype HttpReply = Created(invoice: ErpInvoice) | BadRequest

  function InvoiceFor(request: InvoiceRequest, key: string, id: string): ErpInvoice {
    ErpInvoice(id, request.supplierId, request.purchaseOrderId, request.invoiceNumber, request.invoiceDate,
               request.currency, request.totalAmount, key)
  }

  /** The reply to `POST /invoices`: a known key answers with the stored invoice, whatever the payload. */
  function ReplyTo(erp: ErpState, request: InvoiceRequest, key: string, freshId: string): HttpReply {
    if key == "" then BadRequest
    else if key in erp.byKey then Created(erp.byKey[key])
    else if request.supplierId !in erp.suppliers then BadRequest
    else Created(InvoiceFor(request, key, freshId))
  }

  /** The store after `POST /invoices`: only a new key with a known supplier adds anything. */
  function AfterCreate(erp: ErpState, request: InvoiceRequest, key: string, freshId: string): ErpState {
    if key == "" || key in erp.byKey || request.supplierId !in erp.suppliers then erp
    else
      var invoice := InvoiceFor(request, key, freshId);
      erp.(byId := erp.byId[freshId := invoice], byKey := erp.byKey[key := invoice])
  }

  /** Both dictionaries of the mock, updated in place. */
  class ErpMock {
    const suppliers: set<string>
    const purchaseOrders: set<string>
    var invoicesById: map<string, ErpInvoice>
    var invoicesByIdempotency: map<string, ErpInvoice>

    constructor (suppliers: set<string>, purchaseOrders: set<string>)
      ensures State() == ErpState(suppliers, purchaseOrders, map[], map[])
    {
      this.suppliers, this.purchaseOrders := suppliers, purchaseOrders;
      invoicesById, invoicesByIdempotency := map[], map[];
    }

    function State(): ErpState
      reads this
    {
      ErpState(suppliers, purchaseOrders, invoicesById, invoicesByIdempotency)
    }

    method CreateInvoice(payload: InvoiceRequest, idempotencyKey: string, freshId: string) returns (reply: HttpReply)
      modifies this
      ensures reply == ReplyTo(old(State()), payload, idempotencyKey, freshId)
      ensures State() == AfterCreate(old(State()), payload, idempotencyKey, freshId)
    {
      if idempotencyKey == "" {
        return BadRequest;
      }
      if idempotencyKey in invoicesByIdempotency {
        return Created(invoicesByIdempotency[idempotencyKey]);
      }
      if payload.supplierId !in suppliers {
        return BadRequest;
      }
      var invoice := InvoiceFor(payload, idempotencyKey, freshId);
      invoicesById := invoicesById[invoice.invoiceId := invoice];
      invoicesByIdempotency := invoicesByIdempotency[idempotencyKey := invoice];
      return Created(invoice);
    }
  }

  // ---- The client side ----

  /** What the client sees of a call that went wrong: an `ErpClientError` with its status code, or an
      exception of another class (a transport failure, an unreadable body). */
  datatype Failure = ClientError(status: Option<int>) | OtherError

  /** A fault may strike before or after the request reached the ERP. */
  datatype Channel = Clean | Faulty(reached: bool, seen: Failure)

  datatype CreateReply = Accepted(invoice: ErpInvoice) | CreateFailed(failure: Failure)

  datatype LookupReply = Found(present: bool) | LookupFailed(failure: Failure)

  function SeenBy(channel: Channel, reply: HttpReply): CreateReply {
    match channel
    case Faulty(_, seen) => CreateFailed(seen)
    case Clean =>
      match reply
      case Created(invoice) => Accepted(invoice)
      case BadRequest => CreateFailed(ClientError(Some(400)))
  }

  /** The store after a create call over `channel`: a fault may strike before the request gets there. */
  function CreateOver(channel: Channel, erp: ErpState, request: InvoiceRequest, key: string, freshId: string): ErpState {
    if channel.Faulty? && !channel.reached then erp else AfterCreate(erp, request, key, freshId)
  }

  function LookUp(known: set<string>, id: string, fault: Option<Failure>): LookupReply {
    if fault.Some? then LookupFailed(fault.value) else Found(id in known)
  }

  const TRANSIENT_STATUSES: set<int> := {408, 425, 429, 500, 502, 503, 504}

  predicate IsTransientStatus(status: Option<int>) {
    status.None? || status.value in TRANSIENT_STATUSES
  }

  // ---- What the store promises ----

  /** Both dictionaries hold the same invoices, each under its own id and its own key. */
  ghost predicate Consistent(erp: ErpState) {
    && (forall id :: id in erp.byId ==>
          && erp.byId[id].invoiceId == id
          && erp.byId[id].idempotencyKey in erp.byKey
          && erp.byKey[erp.byId[id].idempotencyKey] == erp.byId[id])
    && (forall key :: key in erp.byKey ==>
          && erp.byKey[key].idempotencyKey == key
          && erp.byKey[key].invoiceId in erp.byId
          && erp.byId[erp.byKey[key].invoiceId] == erp.byKey[key])
  }

  lemma CreateKeepsConsistent(erp: ErpState, request: InvoiceRequest, key: string, freshId: string)
    requires Consistent(erp) && freshId !in erp.byId
    ensures Consistent(AfterCreate(erp, request, key, freshId))
  {
  }

  /** In a consistent store two invoices never share a key, and the dictionaries have equal contents. */
  lemma OneInvoicePerKey(erp: ErpState)
    requires Consistent(erp)
    ensures forall a, b :: a in erp.byId && b in erp.byId && erp.byId[a].idempotencyKey == erp.byId[b].idempotencyKey ==> a == b
    ensures erp.byId.Values == erp.byKey.Values
  {
    forall a, b | a in erp.byId && b in erp.byId && erp.byId[a].idempotencyKey == erp.byId[b].idempotencyKey
      ensures a == b
    {
      assert erp.byId[a] == erp.byKey[erp.byId[a].idempotencyKey] == erp.byId[b];
    }
    forall invoice | invoice in erp.byId.Values
      ensures invoice in erp.byKey.Values
    {
      var id :| id in erp.byId && erp.byId[id] == invoice;
      assert erp.byKey[invoice.idempotencyKey] == invoice;
    }
    forall invoice | invoice in erp.byKey.Values
      ensures invoice in erp.byId.Values
    {
      var key :| key in erp.byKey && erp.byKey[key] == invoice;
      assert erp.byId[invoice.invoiceId] == invoice;
    }
  }

  /** A repeated create is answered with the stored invoice and changes nothing. */
  lemma CreateIsIdempotent(erp: ErpState, first: InvoiceRequest, second: InvoiceRequest, key: string, id: string, id': string)
    requires ReplyTo(erp, first, key, id).Created?
    ensures
      var after := AfterCreate(erp, first, key, id);
      && AfterCreate(after, second, key, id') == after
      && ReplyTo(after, second, key, id') == ReplyTo(erp, first, key, id)
  {
  }
}
