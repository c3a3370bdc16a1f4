/** Invoice submission against purchase orders: the service operation
    (packages/nexus-procurement/src/Services/VendorPortalService.php) and the
    HTTP endpoint with its validation rules and ownership checks
    (packages/nexus-procurement/src/Http/Controllers/VendorPortalController.php).
    The invoices table is a sequence of rows; purchase orders are a map from
    id to row. Amounts are exact decimals (`real`), dates are instants. */
module VendorInvoices {
  import opened Common
  import Text

  datatype PurchaseOrder = PurchaseOrder(id: nat, vendorId: nat, poNumber: string, createdAt: Instant, totalAmount: real)

  datatype InvoiceItem = InvoiceItem(description: string, quantity: real, unitPrice: real,
                                     taxAmount: Option<real>, lineTotal: real)

  datatype Invoice = Invoice(
    purchaseOrderId: nat,
    vendorId: nat,
    invoiceNumber: string,
    invoiceDate: Instant,
    dueDate: Instant,
    subtotal: real,
    taxAmount: real,
    totalAmount: real,
    currencyCode: string,
    status: string,
    paymentStatus: string,
    matchStatus: Option<string>,
    notes: Option<string>,
    items: seq<InvoiceItem>,
    createdAt: Instant,
    paymentAuthorizedAt: Option<Instant>)

  /** The submitted invoice fields; `items` is absent when not given. */
  datatype InvoiceData = InvoiceData(
    invoiceNumber: string,
    invoiceDate: Instant,
    dueDate: Instant,
    subtotal: real,
    taxAmount: real,
    totalAmount: real,
    currencyCode: string,
    notes: Option<string>,
    items: Option<seq<InvoiceItem>>)

  /** An uploaded file: its detected extension and its size in kilobytes. */
  datatype Attachment = Attachment(extension: string, sizeKB: nat)

  const Pending: string := "pending"
  const MaxInvoiceNumberLength: nat := 50
  const CurrencyCodeLength: nat := 3
  const MaxNotesLength: nat := 500
  const MaxDescriptionLength: nat := 255
  const MaxAttachmentKB: nat := 5120
  const AllowedExtensions: set<string> := {"pdf", "jpg", "jpeg", "png"}
  const UnauthorizedPurchaseOrder: string := "Unauthorized access to purchase order"
  const DuplicateInvoiceNumber: string := "Invoice number already exists for this purchase order"

  /** Some invoice of purchase order `poId` already carries `number`. */
  predicate NumberTaken(invoices: seq<Invoice>, poId: nat, number: string)
  {
    exists i :: 0 <= i < |invoices| && invoices[i].purchaseOrderId == poId && invoices[i].invoiceNumber == number
  }

  /** Invoice numbers are unique within each purchase order. */
  predicate NumbersUniquePerOrder(invoices: seq<Invoice>)
  {
    forall i, j :: 0 <= i < j < |invoices| && invoices[i].purchaseOrderId == invoices[j].purchaseOrderId ==>
      invoices[i].invoiceNumber != invoices[j].invoiceNumber
  }

  /** The loop that searches the purchase order's invoices for a number. */
  method FindNumber(invoices: seq<Invoice>, poId: nat, number: string) returns (taken: bool)
    ensures taken == NumberTaken(invoices, poId, number)
  {
    var k := 0;
    while k < |invoices|
      invariant 0 <= k <= |invoices|
      invariant forall i :: 0 <= i < k ==> !(invoices[i].purchaseOrderId == poId && invoices[i].invoiceNumber == number)
    {
      if invoices[k].purchaseOrderId == poId && invoices[k].invoiceNumber == number {
        return true;
      }
      k := k + 1;
    }
    return false;
  }

  /** Adding an invoice whose number is not yet taken on its purchase order
      keeps numbers unique per order. */
  lemma {:induction false} AppendKeepsNumbersUnique(invoices: seq<Invoice>, inv: Invoice)
    requires NumbersUniquePerOrder(invoices)
    requires !NumberTaken(invoices, inv.purchaseOrderId, inv.invoiceNumber)
    ensures NumbersUniquePerOrder(invoices + [inv])
  {
    var r := invoices + [inv];
    forall i, j | 0 <= i < j < |r| && r[i].purchaseOrderId == r[j].purchaseOrderId
      ensures r[i].invoiceNumber != r[j].invoiceNumber
    {
      if j == |invoices| {
        assert r[i] == invoices[i];
        assert !(invoices[i].purchaseOrderId == inv.purchaseOrderId && invoices[i].invoiceNumber == inv.invoiceNumber);
      } else {
        assert r[i] == invoices[i] && r[j] == invoices[j];
      }
    }
  }

  // ----- the service operation

  datatype SubmitError = NotOwnPurchaseOrder | NumberAlreadyExists

  /** The service's checks, in order: ownership, then duplicate number. */
  function SubmitCheck(invoices: seq<Invoice>, po: PurchaseOrder, vendorId: nat, number: string): (r: Option<SubmitError>)
    ensures r == Some(NotOwnPurchaseOrder) <==> po.vendorId != vendorId
    ensures r == Some(NumberAlreadyExists) <==> po.vendorId == vendorId && NumberTaken(invoices, po.id, number)
    ensures r.None? <==> po.vendorId == vendorId && !NumberTaken(invoices, po.id, number)
  {
    if po.vendorId != vendorId then Some(NotOwnPurchaseOrder)
    else if NumberTaken(invoices, po.id, number) then Some(NumberAlreadyExists)
    else None
  }

  /** The row the service creates, after the three-way-match hook has set
      its match status. */
  function ServiceInvoice(po: PurchaseOrder, vendorId: nat, data: InvoiceData, now: Instant): (inv: Invoice)
    ensures inv.status == Pending && inv.paymentStatus == Pending && inv.matchStatus == Some(Pending)
    ensures inv.purchaseOrderId == po.id && inv.vendorId == vendorId && inv.invoiceNumber == data.invoiceNumber
    ensures inv.items == (if data.items.Some? then data.items.value else [])
    ensures inv.createdAt == now && inv.paymentAuthorizedAt.None?
  {
    Invoice(po.id, vendorId, data.invoiceNumber, data.invoiceDate, data.dueDate, data.subtotal,
            data.taxAmount, data.totalAmount, data.currencyCode, Pending, Pending, Some(Pending),
            data.notes, if data.items.Some? then data.items.value else [], now, None)
  }

  // ----- the HTTP endpoint

  datatype InvoiceRequest = InvoiceRequest(purchaseOrderId: nat, data: InvoiceData, attachments: Option<seq<Attachment>>)

  datatype InvoiceReply = InvoiceCreated(invoice: Invoice) | InvoiceRefused(status: int, error: string) | InvoiceInvalid

  predicate ValidItem(item: InvoiceItem)
  {
    Text.Filled(item.description) && |item.description| <= MaxDescriptionLength &&
    item.quantity >= 0.0 && item.unitPrice >= 0.0 &&
    (item.taxAmount.Some? ==> item.taxAmount.value >= 0.0) &&
    item.lineTotal >= 0.0
  }

  predicate ValidAttachment(a: Attachment)
  {
    a.extension in AllowedExtensions && a.sizeKB <= MaxAttachmentKB
  }

  /** The endpoint's validation rules. */
  predicate ValidSubmission(req: InvoiceRequest, purchaseOrders: map<nat, PurchaseOrder>)
  {
    var d := req.data;
    req.purchaseOrderId in purchaseOrders &&
    Text.Filled(d.invoiceNumber) && |d.invoiceNumber| <= MaxInvoiceNumberLength &&
    d.dueDate > d.invoiceDate &&
    d.subtotal >= 0.0 && d.taxAmount >= 0.0 && d.totalAmount >= 0.0 &&
    Text.Filled(d.currencyCode) && |d.currencyCode| == CurrencyCodeLength &&
    (d.notes.Some? ==> |d.notes.value| <= MaxNotesLength) &&
    d.items.Some? && |d.items.value| >= 1 &&
    (forall k :: 0 <= k < |d.items.value| ==> ValidItem(d.items.value[k])) &&
    (req.attachments.Some? ==> forall k :: 0 <= k < |req.attachments.value| ==> ValidAttachment(req.attachments.value[k]))
  }

  /** The row the endpoint creates: it sets the status but not the payment
      or match status, so both are the column defaults (a null default is
      `None`). */
  function EndpointInvoice(po: PurchaseOrder, authVendorId: nat, data: InvoiceData, now: Instant,
                           paymentStatusDefault: string, matchStatusDefault: Option<string>): (inv: Invoice)
    ensures inv.status == Pending && inv.vendorId == authVendorId && inv.purchaseOrderId == po.id
    ensures inv.paymentStatus == paymentStatusDefault && inv.matchStatus == matchStatusDefault
    ensures inv.invoiceNumber == data.invoiceNumber && inv.createdAt == now
  {
    Invoice(po.id, authVendorId, data.invoiceNumber, data.invoiceDate, data.dueDate, data.subtotal,
            data.taxAmount, data.totalAmount, data.currencyCode, Pending, paymentStatusDefault, matchStatusDefault,
            data.notes, if data.items.Some? then data.items.value else [], now, None)
  }

  /** The purchase-order detail endpoint: 403 unless the order belongs to the
      authenticated user's vendor. */
  function PurchaseOrderAccess(po: PurchaseOrder, authVendorId: nat): (status: int)
    ensures status == 200 <==> po.vendorId == authVendorId
    ensures status != 200 ==> status == 403
  {
    if po.vendorId != authVendorId then 403 else 200
  }

  class InvoiceLedger {
    var invoices: seq<Invoice>
    const purchaseOrders: map<nat, PurchaseOrder>
    const paymentStatusDefault: string
    const matchStatusDefault: Option<string>

    ghost predicate Valid()
      reads this
    {
      NumbersUniquePerOrder(invoices)
    }

    constructor (purchaseOrders: map<nat, PurchaseOrder>, paymentStatusDefault: string,
                 matchStatusDefault: Option<string>)
      ensures Valid() && invoices == []
      ensures this.purchaseOrders == purchaseOrders && this.paymentStatusDefault == paymentStatusDefault
      ensures this.matchStatusDefault == matchStatusDefault
    {
      invoices := [];
      this.purchaseOrders := purchaseOrders;
      this.paymentStatusDefault := paymentStatusDefault;
      this.matchStatusDefault := matchStatusDefault;
    }

    /** The service's `submitInvoice`: the checks of `SubmitCheck`, then the
        row of `ServiceInvoice` is appended. */
    method SubmitInvoice(vendorId: nat, po: PurchaseOrder, data: InvoiceData, now: Instant)
      returns (result: Result<Invoice, SubmitError>)
      requires Valid()
      modifies this
      ensures Valid()
      ensures var check := SubmitCheck(old(invoices), po, vendorId, data.invoiceNumber);
        if check.Some? then result == Err(check.value) && invoices == old(invoices)
        else result == Ok(ServiceInvoice(po, vendorId, data, now)) && invoices == old(invoices) + [result.value]
    {
      if po.vendorId != vendorId {
        return Err(NotOwnPurchaseOrder);
      }
      var taken := FindNumber(invoices, po.id, data.invoiceNumber);
      if taken {
        return Err(NumberAlreadyExists);
      }
      var inv := ServiceInvoice(po, vendorId, data, now);
      AppendKeepsNumbersUnique(invoices, inv);
      invoices := invoices + [inv];
      result := Ok(inv);
    }

    /** The endpoint's `submitInvoice`: 422 on failed validation, 403 for a
        purchase order of another vendor, 422 for a number already used on
        that order, otherwise 201 with the row of `EndpointInvoice`. */
    method SubmitInvoiceRequest(authVendorId: nat, req: InvoiceRequest, now: Instant) returns (reply: InvoiceReply)
      requires Valid()
      modifies this
      ensures Valid()
      ensures !ValidSubmission(req, purchaseOrders) ==> reply == InvoiceInvalid && invoices == old(invoices)
      ensures ValidSubmission(req, purchaseOrders) ==>
        var po := purchaseOrders[req.purchaseOrderId];
        if po.vendorId != authVendorId then
          reply == InvoiceRefused(403, UnauthorizedPurchaseOrder) && invoices == old(invoices)
        else if NumberTaken(old(invoices), po.id, req.data.invoiceNumber) then
          reply == InvoiceRefused(422, DuplicateInvoiceNumber) && invoices == old(invoices)
        else
          reply == InvoiceCreated(EndpointInvoice(po, authVendorId, req.data, now, paymentStatusDefault, matchStatusDefault)) &&
          invoices == old(invoices) + [reply.invoice]
    {
      if !ValidSubmission(req, purchaseOrders) {
        return InvoiceInvalid;
      }
      var po := purchaseOrders[req.purchaseOrderId];
      if PurchaseOrderAccess(po, authVendorId) == 403 {
        return InvoiceRefused(403, UnauthorizedPurchaseOrder);
      }
      var taken := FindNumber(invoices, po.id, req.data.invoiceNumber);
      if taken {
        return InvoiceRefused(422, DuplicateInvoiceNumber);
      }
      var inv := EndpointInvoice(po, authVendorId, req.data, now, paymentStatusDefault, matchStatusDefault);
      AppendKeepsNumbersUnique(invoices, inv);
      invoices := invoices + [inv];
      reply := InvoiceCreated(inv);
    }
  }

  // ----- properties

  /** Ownership is checked first: a foreign order is refused as such even
      when the number is also taken. */
  lemma OwnershipBeforeDuplicate(invoices: seq<Invoice>, po: PurchaseOrder, vendorId: nat, number: string)
    requires po.vendorId != vendorId && NumberTaken(invoices, po.id, number)
    ensures SubmitCheck(invoices, po, vendorId, number) == Some(NotOwnPurchaseOrder)
  {
  }

  /** Submitting the same number to the same order twice: the second
      submission is refused as a duplicate. */
  lemma {:induction false} ResubmissionIsDuplicate(invoices: seq<Invoice>, po: PurchaseOrder, vendorId: nat,
                                                   data: InvoiceData, now: Instant, data2: InvoiceData)
    requires SubmitCheck(invoices, po, vendorId, data.invoiceNumber).None?
    requires data2.invoiceNumber == data.invoiceNumber
    ensures SubmitCheck(invoices + [ServiceInvoice(po, vendorId, data, now)], po, vendorId, data2.invoiceNumber)
            == Some(NumberAlreadyExists)
  {
    var r := invoices + [ServiceInvoice(po, vendorId, data, now)];
    assert r[|invoices|].purchaseOrderId == po.id && r[|invoices|].invoiceNumber == data2.invoiceNumber;
  }

    /** A number carried only by invoices of other purchase orders does not
      block an invoice for this one. */
  lemma NumberScopedToOrder(invoices: seq<Invoice>, po: PurchaseOrder, vendorId: nat, number: string)
    requires po.vendorId == vendorId
    requires forall i :: 0 <= i < |invoices| && invoices[i].invoiceNumber == number ==>
               invoices[i].purchaseOrderId != po.id
    ensures SubmitCheck(invoices, po, vendorId, number).None?
  {
  }

  /** An invoice on another purchase order changes nothing about what may be
      submitted for this one. */
  lemma {:induction false} OtherOrderUnaffected(invoices: seq<Invoice>, other: Invoice, po: PurchaseOrder,
                                                vendorId: nat, number: string)
    requires other.purchaseOrderId != po.id
    ensures SubmitCheck(invoices + [other], po, vendorId, number) == SubmitCheck(invoices, po, vendorId, number)
  {
    var after := invoices + [other];
    assert forall i :: 0 <= i < |invoices| ==> after[i] == invoices[i];
    assert after[|invoices|] == other;
    assert NumberTaken(after, po.id, number) <==> NumberTaken(invoices, po.id, number);
  }
}
