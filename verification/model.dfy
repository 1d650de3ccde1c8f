/** The records of the rental layer (rental/models.py) and the database that holds them. */
module Model {
  import opened Basics
  import opened Accounts

  type ProductId = nat
  type VariantId = nat
  type QuotationId = nat
  type OrderId = nat
  type LineId = nat
  type InvoiceId = nat

  /** Rates of 0 mean "not offered"; `quantityOnHand` is the stock counter the views mutate. */
  datatype Product = Product(
    id: ProductId,
    vendor: UserId,
    salesPrice: Money,
    pricePerHour: Money,
    pricePerDay: Money,
    pricePerWeek: Money,
    quantityOnHand: int,
    publishOnWebsite: bool)

  /** A variant's rates are nullable overrides of its product's rates. */
  datatype Variant = Variant(
    id: VariantId,
    product: ProductId,
    pricePerHour: Option<Money>,
    pricePerDay: Option<Money>,
    pricePerWeek: Option<Money>)

  datatype QuotationStatus = QuotationDraft | QuotationSent | QuotationConfirmed | QuotationCancelled

  /** A quotation in status draft is a customer's cart. */
  datatype Quotation = Quotation(id: QuotationId, customer: UserId, status: QuotationStatus)

  /** QuotationLine and OrderLine carry the same fields; `parent` is the quotation or the order. */
  datatype Line = Line(
    id: LineId,
    parent: nat,
    product: ProductId,
    variant: Option<VariantId>,
    quantity: int,
    startDate: Time,
    endDate: Time,
    unitPrice: Money)

  datatype OrderStatus = Pending | Confirmed | PickedUp | Rented | Returned | Cancelled

  datatype RentalOrder = RentalOrder(
    id: OrderId,
    customer: UserId,
    quotation: Option<QuotationId>,
    status: OrderStatus,
    confirmedAt: Option<Time>)

  datatype InvoiceStatus = InvoiceDraft | InvoiceSent | Paid | PartiallyPaid | InvoiceCancelled

  datatype Invoice = Invoice(
    id: InvoiceId,
    order: OrderId,
    status: InvoiceStatus,
    subtotal: Money,
    discountAmount: Money,
    taxRate: Money,
    taxAmount: Money,
    securityDeposit: Money,
    lateFee: Money,
    totalAmount: Money,
    amountPaid: Money,
    paidAt: Option<Time>)

  datatype Payment = Payment(invoice: InvoiceId, amount: Money)

  datatype Pickup = Pickup(order: OrderId, pickupDate: Time)

  datatype ReturnDoc = ReturnDoc(order: OrderId, returnDate: Time, lateFee: Money, damageFee: Money)

  /**
   * The database. Tables read in primary-key order are sequences (so `.first()`
   * is the head of a filter); tables only looked up by key are maps.
   */
  datatype Store = Store(
    products: map<ProductId, Product>,
    variants: map<VariantId, Variant>,
    quotations: seq<Quotation>,
    quotationLines: seq<Line>,
    orders: map<OrderId, RentalOrder>,
    orderLines: seq<Line>,
    invoices: seq<Invoice>,
    payments: seq<Payment>,
    pickups: seq<Pickup>,
    returnDocs: seq<ReturnDoc>)

  /** Orders in these states hold their lines' stock against the availability window. */
  predicate Reserving(st: OrderStatus) {
    st == Confirmed || st == PickedUp || st == Rented
  }

  /** Entering one of these states gives the order's stock back. */
  predicate Terminal(st: OrderStatus) {
    st == Cancelled || st == Returned
  }

  /** `line.get_total()`. */
  function LineTotal(l: Line): Money {
    l.unitPrice * l.quantity as real
  }

  /** No stored row refers to order `oid` yet. */
  predicate FreshOrder(s: Store, oid: OrderId) {
    && oid !in s.orders
    && (forall l :: l in s.orderLines ==> l.parent != oid)
    && (forall inv :: inv in s.invoices ==> inv.order != oid)
    && (forall p :: p in s.pickups ==> p.order != oid)
    && (forall r :: r in s.returnDocs ==> r.order != oid)
  }

  /** No stored invoice or payment carries invoice id `iid` yet. */
  predicate FreshInvoice(s: Store, iid: InvoiceId) {
    && (forall inv :: inv in s.invoices ==> inv.id != iid)
    && (forall p :: p in s.payments ==> p.invoice != iid)
  }

  /** Every id in `lines` is below `base`, so `base`, `base + 1`, ... are unused. */
  predicate IdsBelow(lines: seq<Line>, base: LineId) {
    forall l :: l in lines ==> l.id < base
  }

  /** Every keyed row carries its own key as its id, as a database row does. */
  predicate Keyed(s: Store) {
    && (forall k :: k in s.products ==> s.products[k].id == k)
    && (forall k :: k in s.variants ==> s.variants[k].id == k)
    && (forall k :: k in s.orders ==> s.orders[k].id == k)
  }
}
