/**
 * The back-office writes of rental/views.py: order status updates, pickup and
 * return documents, invoice creation, recorded payments, and the dashboard's
 * revenue figures. Every view sits behind `@login_required` and
 * `@user_passes_test(is_vendor_or_admin)`; none checks that the order is the
 * vendor's own.
 */
module Backoffice {
  import opened Basics
  import opened Accounts
  import opened Model
  import opened Lines
  import opened Orders
  import opened Billing
  import opened Forms

  /**
   * The two decorators. Both redirect to the sign-in page: `login_required` for an
   * anonymous user (NotSignedIn), `user_passes_test` for a signed-in user who is
   * neither vendor nor admin (Forbidden names that second redirect).
   */
  function Guard(who: Principal): (r: Option<Failure>)
    ensures r.None? <==> IsVendorOrAdmin(who)
    ensures who.Anonymous? ==> r == Some(NotSignedIn)
    ensures r.Some? ==> r.value == NotSignedIn || r.value == Forbidden
  {
    if who.Anonymous? then Some(NotSignedIn)
    else if IsVendorOrAdmin(who) then None
    else Some(Forbidden)
  }

  /** `order.invoice` (a one-to-one reverse lookup), as a position in the invoice table. */
  function InvoiceOf(s: Store, oid: OrderId): (r: Option<nat>)
    ensures r.None? <==> forall j :: 0 <= j < |s.invoices| ==> s.invoices[j].order != oid
    ensures r.Some? ==> r.value < |s.invoices| && s.invoices[r.value].order == oid
  {
    FindFirst(s.invoices, (inv: Invoice) => inv.order == oid)
  }

  // ---------------------------------------------------------------- status

  /**
   * `order_update_status`: the posted status is stored, `confirmed_at` is
   * stamped when the order becomes confirmed from anything else, and the save
   * runs the stock-restoring receiver.
   */
  function UpdateOrderStatus(s: Store, who: Principal, oid: OrderId, status: OrderStatus, now: Time): (r: Result<Store>)
    requires Keyed(s)
    ensures r.Ok? <==> IsVendorOrAdmin(who) && oid in s.orders
    ensures IsVendorOrAdmin(who) && oid !in s.orders ==> r == Err(NotFound)
    ensures r.Ok? ==> r.value.orders.Keys == s.orders.Keys
    ensures r.Ok? ==>
      var o := s.orders[oid];
      var o' := r.value.orders[oid];
      && o' == o.(status := status, confirmedAt := o'.confirmedAt)
      && (status == Confirmed && o.status != Confirmed ==> o'.confirmedAt == Some(now))
      && (status != Confirmed || o.status == Confirmed ==> o'.confirmedAt == o.confirmedAt)
      && (forall k :: k in s.orders && k != oid ==> r.value.orders[k] == s.orders[k])
      && r.value.products.Keys == s.products.Keys
      && r.value.variants == s.variants && r.value.quotations == s.quotations
      && r.value.quotationLines == s.quotationLines && r.value.orderLines == s.orderLines
      && r.value.invoices == s.invoices && r.value.payments == s.payments
      && r.value.pickups == s.pickups && r.value.returnDocs == s.returnDocs
  {
    if Guard(who).Some? then Err(Guard(who).value)
    else if oid !in s.orders then Err(NotFound)
    else
      var o := s.orders[oid];
      var stamp := if status == Confirmed && o.status != Confirmed then Some(now) else o.confirmedAt;
      Ok(SaveOrder(s, o.(status := status, confirmedAt := stamp)))
  }

  /** Confirming twice keeps the first confirmation time. */
  lemma ConfirmStampsOnce(s: Store, who: Principal, oid: OrderId, t1: Time, t2: Time)
    requires Keyed(s)
    requires UpdateOrderStatus(s, who, oid, Confirmed, t1).Ok?
    requires s.orders[oid].status != Confirmed
    ensures var s1 := UpdateOrderStatus(s, who, oid, Confirmed, t1).value;
      && Keyed(s1)
      && UpdateOrderStatus(s1, who, oid, Confirmed, t2).Ok?
      && UpdateOrderStatus(s1, who, oid, Confirmed, t2).value.orders[oid].confirmedAt == Some(t1)
  {
    var s1 := UpdateOrderStatus(s, who, oid, Confirmed, t1).value;
    assert s1.products.Keys == s.products.Keys;
    assert forall k :: k in s1.products ==> s1.products[k].id == k by {
      forall k | k in s1.products ensures s1.products[k].id == k {
        assert s1.products[k] == s.products[k].(quantityOnHand := s1.products[k].quantityOnHand);
      }
    }
  }

  /**
   * The receiver has no inverse: reopening a cancelled order does not take its
   * stock again, so cancelling it a second time gives the stock back twice.
   */
  lemma ReopenThenCancelRestoresTwice(s: Store, who: Principal, oid: OrderId, now: Time, pid: ProductId)
    requires Keyed(s)
    requires IsVendorOrAdmin(who) && oid in s.orders && s.orders[oid].status == Pending
    requires pid in s.products
    ensures
      var s1 := UpdateOrderStatus(s, who, oid, Cancelled, now).value;
      var s2 := UpdateOrderStatus(s1, who, oid, Pending, now).value;
      var s3 := UpdateOrderStatus(s2, who, oid, Cancelled, now).value;
      s3.products[pid].quantityOnHand
        == s.products[pid].quantityOnHand + 2 * QuantityOfProduct(LinesOf(s.orderLines, oid), pid)
  {
    var s1 := UpdateOrderStatus(s, who, oid, Cancelled, now).value;
    StatusStep(s, who, oid, Cancelled, now, pid);
    var s2 := UpdateOrderStatus(s1, who, oid, Pending, now).value;
    StatusStep(s1, who, oid, Pending, now, pid);
    StatusStep(s2, who, oid, Cancelled, now, pid);
  }

  /** One status change seen from one product: the lines stay, and the stock moves only on entering cancelled or returned. */
  lemma StatusStep(s: Store, who: Principal, oid: OrderId, status: OrderStatus, now: Time, pid: ProductId)
    requires Keyed(s) && IsVendorOrAdmin(who) && oid in s.orders && pid in s.products
    ensures
      var s' := UpdateOrderStatus(s, who, oid, status, now).value;
      && Keyed(s') && oid in s'.orders && pid in s'.products
      && s'.orderLines == s.orderLines && s'.orders[oid].status == status
      && s'.products[pid].quantityOnHand == s.products[pid].quantityOnHand
           + (if !Terminal(s.orders[oid].status) && Terminal(status)
              then QuantityOfProduct(LinesOf(s.orderLines, oid), pid) else 0)
  {
    var s' := UpdateOrderStatus(s, who, oid, status, now).value;
    StatusChangeStock(s, who, oid, status, now);
    KeyedAfterSave(s, s');
  }

  /**
   * The stock side of a status change: through the pre_save receiver, entering
   * cancelled or returned from any other status gives every line's quantity
   * back; every other change leaves stock alone.
   */
  lemma StatusChangeStock(s: Store, who: Principal, oid: OrderId, status: OrderStatus, now: Time)
    requires Keyed(s) && IsVendorOrAdmin(who) && oid in s.orders
    ensures
      var s' := UpdateOrderStatus(s, who, oid, status, now).value;
      var restores := !Terminal(s.orders[oid].status) && Terminal(status);
      forall pid :: pid in s.products ==>
        s'.products[pid].quantityOnHand == s.products[pid].quantityOnHand
          + (if restores then QuantityOfProduct(LinesOf(s.orderLines, oid), pid) else 0)
  {
    var o := s.orders[oid];
    var stamp := if status == Confirmed && o.status != Confirmed then Some(now) else o.confirmedAt;
    assert UpdateOrderStatus(s, who, oid, status, now).value == SaveOrder(s, o.(status := status, confirmedAt := stamp));
  }

  /** A save that keeps the key sets and each row's id keeps the store keyed. */
  lemma KeyedAfterSave(s: Store, s': Store)
    requires Keyed(s)
    requires s'.products.Keys == s.products.Keys && s'.orders.Keys == s.orders.Keys && s'.variants == s.variants
    requires forall k :: k in s.products ==> s'.products[k].id == s.products[k].id
    requires forall k :: k in s.orders ==> s'.orders[k].id == s.orders[k].id
    ensures Keyed(s')
  {
  }

  // ---------------------------------------------------------------- pickup and return

  /**
   * `record_pickup`: a valid form creates the order's one pickup document and
   * marks the order picked up; a second pickup breaks the one-to-one link.
   */
  function RecordPickup(
    s: Store, who: Principal, oid: OrderId, formErrors: seq<ValidationError>, pickupDate: Time): (r: Result<Store>)
    requires Keyed(s)
    ensures r.Ok? <==>
      IsVendorOrAdmin(who) && oid in s.orders && formErrors == []
      && forall p :: p in s.pickups ==> p.order != oid
    ensures (IsVendorOrAdmin(who) && oid in s.orders && formErrors == []
             && exists p :: p in s.pickups && p.order == oid) ==> r == Err(IntegrityError)
    ensures r.Ok? ==>
      && r.value.pickups == s.pickups + [Pickup(oid, pickupDate)]
      && r.value.orders == s.orders[oid := s.orders[oid].(status := PickedUp)]
      && r.value == s.(pickups := r.value.pickups, orders := r.value.orders)
  {
    if Guard(who).Some? then Err(Guard(who).value)
    else if oid !in s.orders then Err(NotFound)
    else if formErrors != [] then Err(FormInvalid(formErrors))
    else if exists p :: p in s.pickups && p.order == oid then Err(IntegrityError)
    else
      var s1 := s.(pickups := s.pickups + [Pickup(oid, pickupDate)]);
      var o := s.orders[oid].(status := PickedUp);
      NonTerminalSaveKeepsStock(s1, o);
      Ok(SaveOrder(s1, o))
  }

  /** Each order gets at most one pickup: recording it again is refused. */
  lemma SecondPickupRefused(s: Store, who: Principal, oid: OrderId, d1: Time, d2: Time)
    requires Keyed(s)
    requires RecordPickup(s, who, oid, [], d1).Ok?
    ensures var s1 := RecordPickup(s, who, oid, [], d1).value;
      Keyed(s1) && RecordPickup(s1, who, oid, [], d2) == Err(IntegrityError)
  {
    var s1 := RecordPickup(s, who, oid, [], d1).value;
    assert Pickup(oid, d1) in s1.pickups;
  }

  /** `calculate_late_fee()` as `record_return` calls it: over the order's lines, at the default daily rate. */
  function ReturnLateFee(s: Store, oid: OrderId, returnDate: Time): Money {
    LateFee(LinesOf(s.orderLines, oid), returnDate, DefaultLateFeeRate)
  }

  /**
   * The writes of a valid return on order `oid`: the return document with the
   * late fee at 100 per late day, the order marked returned (restoring stock
   * if it was still live), and the fees charged on the order's invoice.
   */
  function FileReturn(s: Store, oid: OrderId, returnDate: Time, damageFee: Money): (s': Store)
    requires Keyed(s) && oid in s.orders
    ensures
      var fee := ReturnLateFee(s, oid, returnDate);
      && s'.returnDocs == s.returnDocs + [ReturnDoc(oid, returnDate, fee, damageFee)]
      && s'.orders == s.orders[oid := s.orders[oid].(status := Returned)]
      && s'.products.Keys == s.products.Keys
      && s'.invoices == ChargeFees(s, oid, fee + damageFee)
      && s'.variants == s.variants && s'.quotations == s.quotations && s'.quotationLines == s.quotationLines
      && s'.orderLines == s.orderLines && s'.payments == s.payments && s'.pickups == s.pickups
  {
    var fee := ReturnLateFee(s, oid, returnDate);
    MarkReturned(s, ReturnDoc(oid, returnDate, fee, damageFee)).(invoices := ChargeFees(s, oid, fee + damageFee))
  }

  /** Filing a return on a live order gives its lines' stock back; on a cancelled one it gives nothing. */
  lemma ReturnRestocks(s: Store, oid: OrderId, returnDate: Time, damageFee: Money)
    requires Keyed(s) && oid in s.orders
    ensures
      var s' := FileReturn(s, oid, returnDate, damageFee);
      var restores := !Terminal(s.orders[oid].status);
      forall pid :: pid in s.products ==>
        s'.products[pid].quantityOnHand == s.products[pid].quantityOnHand
          + (if restores then QuantityOfProduct(LinesOf(s.orderLines, oid), pid) else 0)
  {
    var fee := ReturnLateFee(s, oid, returnDate);
    assert FileReturn(s, oid, returnDate, damageFee).products == MarkReturned(s, ReturnDoc(oid, returnDate, fee, damageFee)).products;
  }

  /** The stock half of filing a return: the record is stored and the order saved as returned. */
  function MarkReturned(s: Store, doc: ReturnDoc): (s': Store)
    requires Keyed(s) && doc.order in s.orders
    ensures
      var restores := !Terminal(s.orders[doc.order].status);
      && s'.returnDocs == s.returnDocs + [doc]
      && s'.orders == s.orders[doc.order := s.orders[doc.order].(status := Returned)]
      && s'.products.Keys == s.products.Keys
      && (forall pid :: pid in s.products ==>
            s'.products[pid].quantityOnHand == s.products[pid].quantityOnHand
              + (if restores then QuantityOfProduct(LinesOf(s.orderLines, doc.order), pid) else 0))
      && s'.variants == s.variants && s'.quotations == s.quotations && s'.quotationLines == s.quotationLines
      && s'.orderLines == s.orderLines && s'.payments == s.payments && s'.pickups == s.pickups
  {
    var o := s.orders[doc.order].(status := Returned);
    assert o.id == doc.order;
    SaveOrder(s.(returnDocs := s.returnDocs + [doc]), o)
  }

  /**
   * `record_return`: the decorators, the order lookup and the form come
   * first; a second return breaks the one-to-one link, otherwise the return
   * is filed. With no invoice on the order the invoice step is skipped.
   */
  function RecordReturn(
    s: Store, who: Principal, oid: OrderId, formErrors: seq<ValidationError>,
    returnDate: Time, damageFee: Money): (r: Result<Store>)
    requires Keyed(s)
    ensures r.Ok? <==>
      IsVendorOrAdmin(who) && oid in s.orders && formErrors == []
      && forall d :: d in s.returnDocs ==> d.order != oid
    ensures (IsVendorOrAdmin(who) && oid in s.orders && formErrors == []
             && exists d :: d in s.returnDocs && d.order == oid) ==> r == Err(IntegrityError)
    ensures r.Ok? ==> r.value == FileReturn(s, oid, returnDate, damageFee)
  {
    if Guard(who).Some? then Err(Guard(who).value)
    else if oid !in s.orders then Err(NotFound)
    else if formErrors != [] then Err(FormInvalid(formErrors))
    else if exists d :: d in s.returnDocs && d.order == oid then Err(IntegrityError)
    else Ok(FileReturn(s, oid, returnDate, damageFee))
  }

  /**
   * The invoice step of `record_return`: the order's invoice, if it has one,
   * gets `fees` as its late fee and is saved; no other invoice changes.
   */
  function ChargeFees(s: Store, oid: OrderId, fees: Money): (r: seq<Invoice>)
    ensures |r| == |s.invoices|
    ensures InvoiceOf(s, oid).None? ==> r == s.invoices
    ensures InvoiceOf(s, oid).Some? ==>
      var i := InvoiceOf(s, oid).value;
      && r[i].lateFee == fees
      && r[i] == s.invoices[i].(lateFee := fees, subtotal := r[i].subtotal,
                                taxAmount := r[i].taxAmount, totalAmount := r[i].totalAmount)
      && TotalsCurrent(r[i], s.orderLines)
      && forall j :: 0 <= j < |s.invoices| && j != i ==> r[j] == s.invoices[j]
  {
    match InvoiceOf(s, oid)
    case None => s.invoices
    case Some(i) =>
      SaveInvoiceIdempotent(s.invoices[i].(lateFee := fees), s.orderLines);
      s.invoices[i := SaveInvoice(s.invoices[i].(lateFee := fees), s.orderLines)]
  }

  /** Returned on or before every line's end date: no late fee is charged on the return or the invoice. */
  lemma OnTimeReturnChargesNoLateFee(
    s: Store, who: Principal, oid: OrderId, returnDate: Time, damageFee: Money)
    requires Keyed(s)
    requires RecordReturn(s, who, oid, [], returnDate, damageFee).Ok?
    requires forall l :: l in LinesOf(s.orderLines, oid) ==> returnDate <= l.endDate
    ensures var s' := RecordReturn(s, who, oid, [], returnDate, damageFee).value;
      && s'.returnDocs[|s.returnDocs|].lateFee == 0.0
      && (InvoiceOf(s, oid).Some? ==> s'.invoices[InvoiceOf(s, oid).value].lateFee == damageFee)
  {
  }

  /**
   * The invoice's status is not revisited: a paid invoice charged a late fee
   * stays marked paid while its balance turns positive.
   */
  lemma LateFeeLeavesPaidStatus(
    s: Store, who: Principal, oid: OrderId, returnDate: Time, damageFee: Money)
    requires Keyed(s)
    requires RecordReturn(s, who, oid, [], returnDate, damageFee).Ok?
    requires InvoiceOf(s, oid).Some?
    requires var inv := s.invoices[InvoiceOf(s, oid).value];
      inv.status == Paid && TotalsCurrent(inv, s.orderLines)
      && inv.lateFee < ReturnLateFee(s, oid, returnDate) + damageFee
    ensures var i := InvoiceOf(s, oid).value;
      var inv' := RecordReturn(s, who, oid, [], returnDate, damageFee).value.invoices[i];
      && inv'.status == Paid
      && inv'.totalAmount > s.invoices[i].totalAmount
      && Balance(inv') > Balance(s.invoices[i])
  {
    var fees := ReturnLateFee(s, oid, returnDate) + damageFee;
    assert RecordReturn(s, who, oid, [], returnDate, damageFee).value.invoices == ChargeFees(s, oid, fees);
    ChargedPaidInvoiceStaysPaid(s, oid, fees);
  }

  /** Charging a higher fee on a paid, current invoice keeps it paid and raises its total and balance. */
  lemma ChargedPaidInvoiceStaysPaid(s: Store, oid: OrderId, fees: Money)
    requires InvoiceOf(s, oid).Some?
    requires var inv := s.invoices[InvoiceOf(s, oid).value];
      inv.status == Paid && TotalsCurrent(inv, s.orderLines) && inv.lateFee < fees
    ensures var i := InvoiceOf(s, oid).value;
      var inv' := ChargeFees(s, oid, fees)[i];
      && inv'.status == Paid
      && inv'.totalAmount > s.invoices[i].totalAmount
      && Balance(inv') > Balance(s.invoices[i])
  {
    var i := InvoiceOf(s, oid).value;
    RaisedLateFee(s.invoices[i], s.orderLines, fees);
  }

  /** Each order gets at most one return: recording it again is refused. */
  lemma SecondReturnRefused(
    s: Store, who: Principal, oid: OrderId, d1: Time, d2: Time, f1: Money, f2: Money)
    requires Keyed(s)
    requires RecordReturn(s, who, oid, [], d1, f1).Ok?
    ensures var s1 := RecordReturn(s, who, oid, [], d1, f1).value;
      Keyed(s1) && RecordReturn(s1, who, oid, [], d2, f2) == Err(IntegrityError)
  {
    var s1 := RecordReturn(s, who, oid, [], d1, f1).value;
    assert s1.returnDocs[|s.returnDocs|] in s1.returnDocs;
    KeyedAfterSave(s, s1);
  }

  // ---------------------------------------------------------------- invoices and payments

  /** `invoice_manage`: shows the order's invoice, creating it (18% tax, 1000 deposit) when there is none. */
  function InvoiceManage(s: Store, who: Principal, oid: OrderId, newInvoiceId: InvoiceId): (r: Result<Store>)
    requires FreshInvoice(s, newInvoiceId)
    ensures r.Ok? <==> IsVendorOrAdmin(who) && oid in s.orders
    ensures r.Ok? && InvoiceOf(s, oid).Some? ==> r.value == s
    ensures r.Ok? && InvoiceOf(s, oid).None? ==>
      r.value == s.(invoices := s.invoices + [NewInvoice(newInvoiceId, oid, s.orderLines)])
    ensures r.Ok? ==> InvoiceOf(r.value, oid).Some?
  {
    if Guard(who).Some? then Err(Guard(who).value)
    else if oid !in s.orders then Err(NotFound)
    else if InvoiceOf(s, oid).Some? then Ok(s)
    else
      var s' := s.(invoices := s.invoices + [NewInvoice(newInvoiceId, oid, s.orderLines)]);
      assert s'.invoices[|s.invoices|].order == oid;
      Ok(s')
  }

  /** Opening the invoice page twice creates one invoice. */
  lemma InvoiceManageIdempotent(s: Store, who: Principal, oid: OrderId, id1: InvoiceId, id2: InvoiceId)
    requires FreshInvoice(s, id1)
    requires InvoiceManage(s, who, oid, id1).Ok?
    requires FreshInvoice(InvoiceManage(s, who, oid, id1).value, id2)
    ensures var s1 := InvoiceManage(s, who, oid, id1).value;
      InvoiceManage(s1, who, oid, id2) == Ok(s1)
  {
  }

  /** A freshly created invoice is reconciled: nothing paid and its totals current. */
  lemma CreatedInvoiceReconciled(s: Store, who: Principal, oid: OrderId, newInvoiceId: InvoiceId)
    requires FreshInvoice(s, newInvoiceId)
    requires InvoiceManage(s, who, oid, newInvoiceId).Ok? && InvoiceOf(s, oid).None?
    ensures var s' := InvoiceManage(s, who, oid, newInvoiceId).value;
      |s'.invoices| == |s.invoices| + 1 && Reconciled(s', |s.invoices|)
  {
    PaymentsTotalAbsent(s.payments, newInvoiceId);
  }

  /**
   * `record_payment`: the amount may not exceed the invoice's balance, and the
   * form's other fields (the required `payment_method` choice, the reference and
   * notes) bring their own errors, given here as `formErrors`; `is_valid()` collects
   * both. A valid payment is stored through `Payment.save()`, which reconciles the
   * invoice's amount paid, status and totals.
   */
  function RecordPayment(
    s: Store, who: Principal, invoiceId: InvoiceId, formErrors: seq<ValidationError>, amount: Money, now: Time)
    : (r: Result<Store>)
    ensures r.Ok? <==>
      IsVendorOrAdmin(who) && FindFirst(s.invoices, (inv: Invoice) => inv.id == invoiceId).Some?
      && formErrors == []
      && amount <= Balance(s.invoices[FindFirst(s.invoices, (inv: Invoice) => inv.id == invoiceId).value])
    ensures r.Ok? ==> r.value == SavePayment(s, Payment(invoiceId, amount), now)
    ensures r.Ok? ==>
      var i := FindFirst(s.invoices, (inv: Invoice) => inv.id == invoiceId).value;
      && r.value.payments == s.payments + [Payment(invoiceId, amount)]
      && |r.value.invoices| == |s.invoices|
      && r.value.invoices[i].amountPaid == PaymentsTotal(s.payments, invoiceId) + amount
      && (forall j :: 0 <= j < |s.invoices| && j != i ==> r.value.invoices[j] == s.invoices[j])
      && r.value == s.(payments := r.value.payments, invoices := r.value.invoices)
    ensures (IsVendorOrAdmin(who) && FindFirst(s.invoices, (inv: Invoice) => inv.id == invoiceId).Some?
             && r.Err?) ==>
      var balance := Balance(s.invoices[FindFirst(s.invoices, (inv: Invoice) => inv.id == invoiceId).value]);
      && r.failure.FormInvalid?
      && (forall e :: e in formErrors ==> e in r.failure.errors)
      && (amount > balance ==> ExceedsBalance(balance) in r.failure.errors)
  {
    if Guard(who).Some? then Err(Guard(who).value)
    else match FindFirst(s.invoices, (inv: Invoice) => inv.id == invoiceId)
      case None => Err(NotFound)
      case Some(i) =>
        var amountErrors := match CleanAmount(Some(s.invoices[i]), amount)
          case Err(e) => e.errors
          case Ok(_) => [];
        if amountErrors + formErrors != [] then Err(FormInvalid(amountErrors + formErrors))
        else
          var pay := Payment(invoiceId, amount);
          assert (s.payments + [pay])[..|s.payments|] == s.payments;
          Ok(SavePayment(s, pay, now))
  }

  /**
   * On a reconciled invoice the balance check holds: recorded payments never
   * take the amount paid past the total, and the invoice stays reconciled.
   */
  lemma RecordedPaymentsNeverOverpay(
    s: Store, who: Principal, invoiceId: InvoiceId, formErrors: seq<ValidationError>, amount: Money, now: Time)
    requires FindFirst(s.invoices, (inv: Invoice) => inv.id == invoiceId).Some?
    requires Reconciled(s, FindFirst(s.invoices, (inv: Invoice) => inv.id == invoiceId).value)
    requires RecordPayment(s, who, invoiceId, formErrors, amount, now).Ok?
    ensures var i := FindFirst(s.invoices, (inv: Invoice) => inv.id == invoiceId).value;
      var s' := RecordPayment(s, who, invoiceId, formErrors, amount, now).value;
      && s'.invoices[i].amountPaid <= s'.invoices[i].totalAmount
      && Reconciled(s', i)
  {
    var pay := Payment(invoiceId, amount);
    assert RecordPayment(s, who, invoiceId, formErrors, amount, now).value == SavePayment(s, pay, now);
    SavePaymentReconciles(s, pay, now);
    PaymentWithinBalance(s, pay, now);
  }

  // ---------------------------------------------------------------- dashboard

  /** A line that rents out one of the vendor's products. */
  predicate SellsFor(s: Store, l: Line, vendor: UserId) {
    l.product in s.products && s.products[l.product].vendor == vendor
  }

  /** The dashboard's orders: a vendor sees orders with a line for one of their products, an admin sees all. */
  predicate InScope(s: Store, who: Principal, oid: OrderId)
    requires who.SignedIn?
  {
    oid in s.orders
    && (IsVendor(who.user) ==> exists l :: l in s.orderLines && l.parent == oid && SellsFor(s, l, who.user.id))
  }

  /** Sum of `amount_paid` over the invoices whose order satisfies `scope`. */
  function PaidIn(invoices: seq<Invoice>, scope: OrderId -> bool): Money {
    if |invoices| == 0 then 0.0
    else
      var last := invoices[|invoices| - 1];
      PaidIn(invoices[..|invoices| - 1], scope) + (if scope(last.order) then last.amountPaid else 0.0)
  }

  /** Sum of `total_amount` over the draft or sent invoices whose order satisfies `scope`. */
  function PendingIn(invoices: seq<Invoice>, scope: OrderId -> bool): Money {
    if |invoices| == 0 then 0.0
    else
      var last := invoices[|invoices| - 1];
      PendingIn(invoices[..|invoices| - 1], scope)
        + (if scope(last.order) && last.status in {InvoiceDraft, InvoiceSent} then last.totalAmount else 0.0)
  }

  datatype Revenue = Revenue(collected: Money, pending: Money)

  /**
   * `total_revenue` and `pending_revenue` of the dashboard: amounts paid, and totals
   * of draft or sent invoices, over the orders in the viewer's scope.
   */
  function DashboardRevenue(s: Store, who: Principal): (r: Result<Revenue>)
    ensures r.Ok? <==> IsVendorOrAdmin(who)
    ensures r.Ok? && !IsVendor(who.user) ==>
      r.value == Revenue(PaidIn(s.invoices, (oid: OrderId) => oid in s.orders),
                         PendingIn(s.invoices, (oid: OrderId) => oid in s.orders))
    ensures r.Ok? && IsVendor(who.user) ==>
      r.value == Revenue(PaidIn(s.invoices, (oid: OrderId) => InScope(s, who, oid)),
                         PendingIn(s.invoices, (oid: OrderId) => InScope(s, who, oid)))
    ensures r.Ok? && (forall inv :: inv in s.invoices ==> inv.amountPaid >= 0.0 && inv.totalAmount >= 0.0) ==>
      r.value.collected >= 0.0 && r.value.pending >= 0.0
  {
    if Guard(who).Some? then Err(Guard(who).value)
    else
      var scope :=
        if IsVendor(who.user) then (oid: OrderId) => InScope(s, who, oid)
        else (oid: OrderId) => oid in s.orders;
      NonNegativeSums(s.invoices, scope);
      Ok(Revenue(PaidIn(s.invoices, scope), PendingIn(s.invoices, scope)))
  }

  lemma {:induction false} NonNegativeSums(invoices: seq<Invoice>, scope: OrderId -> bool)
    ensures (forall inv :: inv in invoices ==> inv.amountPaid >= 0.0) ==> PaidIn(invoices, scope) >= 0.0
    ensures (forall inv :: inv in invoices ==> inv.totalAmount >= 0.0) ==> PendingIn(invoices, scope) >= 0.0
    decreases |invoices|
  {
    if |invoices| > 0 {
      NonNegativeSums(invoices[..|invoices| - 1], scope);
      assert forall inv :: inv in invoices[..|invoices| - 1] ==> inv in invoices;
    }
  }

  /** Narrowing the scope cannot raise the sums when the amounts are not negative. */
  lemma {:induction false} NarrowerScopeSumsLess(invoices: seq<Invoice>, narrow: OrderId -> bool, wide: OrderId -> bool)
    requires forall oid :: narrow(oid) ==> wide(oid)
    requires forall inv :: inv in invoices ==> inv.amountPaid >= 0.0 && inv.totalAmount >= 0.0
    ensures PaidIn(invoices, narrow) <= PaidIn(invoices, wide)
    ensures PendingIn(invoices, narrow) <= PendingIn(invoices, wide)
    decreases |invoices|
  {
    if |invoices| > 0 {
      assert forall inv :: inv in invoices[..|invoices| - 1] ==> inv in invoices;
      NarrowerScopeSumsLess(invoices[..|invoices| - 1], narrow, wide);
    }
  }

  /** A vendor's dashboard never shows more revenue than an admin's. */
  lemma VendorRevenueWithinAdmin(s: Store, vendor: Principal, admin: Principal)
    requires IsVendorOrAdmin(vendor) && IsVendor(vendor.user)
    requires IsVendorOrAdmin(admin) && !IsVendor(admin.user)
    requires forall inv :: inv in s.invoices ==> inv.amountPaid >= 0.0 && inv.totalAmount >= 0.0
    ensures DashboardRevenue(s, vendor).value.collected <= DashboardRevenue(s, admin).value.collected
    ensures DashboardRevenue(s, vendor).value.pending <= DashboardRevenue(s, admin).value.pending
  {
    NarrowerScopeSumsLess(s.invoices, (oid: OrderId) => InScope(s, vendor, oid), (oid: OrderId) => oid in s.orders);
  }
}
