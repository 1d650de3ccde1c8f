/**
 * The customer-facing writes of website/views.py: adding to the cart, removing
 * a cart line, the cart totals, checkout and the simulated payment.
 */
module Shop {
  import opened Basics
  import opened Accounts
  import opened Model
  import opened Lines
  import opened Catalog
  import opened Orders
  import opened Billing
  import opened Forms

  // ---------------------------------------------------------------- carts

  predicate IsDraftOf(q: Quotation, uid: UserId) {
    q.customer == uid && q.status == QuotationDraft
  }

  /** How many draft quotations the user has (the lookup-or-create guard is not a constraint). */
  function DraftCount(quotations: seq<Quotation>, uid: UserId): (n: nat)
    ensures n == 0 <==> forall j :: 0 <= j < |quotations| ==> !IsDraftOf(quotations[j], uid)
    ensures n <= |quotations|
  {
    if |quotations| == 0 then 0
    else (if IsDraftOf(quotations[0], uid) then 1 else 0) + DraftCount(quotations[1..], uid)
  }

  /** `Quotation.objects.filter(customer=user, status='draft').first()`, as a position. */
  function FirstDraft(quotations: seq<Quotation>, uid: UserId): (r: Option<nat>)
    ensures r.None? <==> DraftCount(quotations, uid) == 0
    ensures r.Some? ==> r.value < |quotations| && IsDraftOf(quotations[r.value], uid)
    ensures r.Some? ==> forall j :: 0 <= j < r.value ==> !IsDraftOf(quotations[j], uid)
  {
    FindFirst(quotations, (q: Quotation) => IsDraftOf(q, uid))
  }

  /** The cart `get_or_create` lands on: the existing draft, or the one it creates. */
  function CartId(s: Store, uid: UserId, newCartId: QuotationId): QuotationId {
    match FirstDraft(s.quotations, uid)
    case Some(i) => s.quotations[i].id
    case None => newCartId
  }

  /**
   * `product_detail` on POST: the product must be published, the user signed
   * in and the form valid; `get_or_create` finds or makes the draft cart (and
   * fails on several), and exactly one line is appended, priced by the product.
   */
  function AddToCart(
    s: Store, who: Principal, pid: ProductId, req: CartRequest,
    newCartId: QuotationId, newLineId: LineId): (r: Result<Store>)
    requires forall q :: q in s.quotations ==> q.id < newCartId
    requires IdsBelow(s.quotationLines, newLineId)
    ensures pid !in s.products || !s.products[pid].publishOnWebsite ==> r == Err(NotFound)
    ensures r.Ok? <==>
      pid in s.products && s.products[pid].publishOnWebsite && who.SignedIn?
      && ValidateCart(s, Some(s.products[pid]), req).Ok? && DraftCount(s.quotations, who.user.id) <= 1
    ensures r.Ok? ==>
      var p := s.products[pid];
      var data := ValidateCart(s, Some(p), req).value;
      var uid := who.user.id;
      var cart := CartId(s, uid, newCartId);
      && r.value.quotationLines == s.quotationLines + [Line(newLineId, cart, pid, data.variant, data.quantity,
           data.startDate, data.endDate, RentalPrice(p, Some(data.startDate), Some(data.endDate)))]
      && (DraftCount(s.quotations, uid) == 0 ==>
            r.value.quotations == s.quotations + [Quotation(newCartId, uid, QuotationDraft)])
      && (DraftCount(s.quotations, uid) == 1 ==> r.value.quotations == s.quotations)
      && r.value.products == s.products && r.value.variants == s.variants && r.value.orders == s.orders
      && r.value.orderLines == s.orderLines && r.value.invoices == s.invoices && r.value.payments == s.payments
      && r.value.pickups == s.pickups && r.value.returnDocs == s.returnDocs
  {
    if pid !in s.products || !s.products[pid].publishOnWebsite then Err(NotFound)
    // No sign-in is required here: an anonymous POST only re-renders the page and
    // writes nothing, which the model reports as NotSignedIn.
    else if who.Anonymous? then Err(NotSignedIn)
    else
      var p := s.products[pid];
      match ValidateCart(s, Some(p), req)
      case Err(e) => Err(e)
      case Ok(data) =>
        var uid := who.user.id;
        if DraftCount(s.quotations, uid) > 1 then Err(MultipleObjectsReturned)
        else
          var quotations :=
            if FirstDraft(s.quotations, uid).Some? then s.quotations
            else s.quotations + [Quotation(newCartId, uid, QuotationDraft)];
          var price := RentalPrice(p, Some(data.startDate), Some(data.endDate));
          var line := Line(newLineId, CartId(s, uid, newCartId), pid, data.variant, data.quantity,
                           data.startDate, data.endDate, price);
          Ok(s.(quotations := quotations, quotationLines := s.quotationLines + [line]))
  }

  /**
   * Adding to the cart appends one line priced at the rental price of the window, and raises
   * the cart's subtotal by exactly that line's total.
   */
  lemma AddToCartRaisesSubtotal(
    s: Store, who: Principal, pid: ProductId, req: CartRequest, newCartId: QuotationId, newLineId: LineId)
    requires forall q :: q in s.quotations ==> q.id < newCartId
    requires IdsBelow(s.quotationLines, newLineId)
    requires AddToCart(s, who, pid, req, newCartId, newLineId).Ok?
    ensures var s' := AddToCart(s, who, pid, req, newCartId, newLineId).value;
      var cart := CartId(s, who.user.id, newCartId);
      && |s'.quotationLines| == |s.quotationLines| + 1
      && var added := s'.quotationLines[|s.quotationLines|];
      && added.unitPrice == RentalPrice(s.products[pid], req.startDate, req.endDate)
      && added.quantity == req.quantity.value
      && ParentTotals(s'.quotationLines, cart).subtotal == ParentTotals(s.quotationLines, cart).subtotal + LineTotal(added)
  {
    var s' := AddToCart(s, who, pid, req, newCartId, newLineId).value;
    var added := AddedCartLine(s, who, pid, req, newCartId, newLineId);
    assert s'.quotationLines[|s.quotationLines|] == added;
    AddedLineRaisesSubtotal(s.quotationLines, added);
  }

  /** The one line a successful add appends, and what it carries. */
  lemma AddedCartLine(
    s: Store, who: Principal, pid: ProductId, req: CartRequest, newCartId: QuotationId, newLineId: LineId)
    returns (added: Line)
    requires forall q :: q in s.quotations ==> q.id < newCartId
    requires IdsBelow(s.quotationLines, newLineId)
    requires AddToCart(s, who, pid, req, newCartId, newLineId).Ok?
    ensures AddToCart(s, who, pid, req, newCartId, newLineId).value.quotationLines == s.quotationLines + [added]
    ensures added.parent == CartId(s, who.user.id, newCartId) && added.quantity == req.quantity.value
    ensures added.unitPrice == RentalPrice(s.products[pid], req.startDate, req.endDate)
  {
    var p := s.products[pid];
    var data := ValidateCart(s, Some(p), req).value;
    added := Line(newLineId, CartId(s, who.user.id, newCartId), pid, data.variant, data.quantity,
                  data.startDate, data.endDate, RentalPrice(p, Some(data.startDate), Some(data.endDate)));
  }

  /** The cart lines left after deleting line `lineId` of quotation `parent`. */
  function RemoveLine(lines: seq<Line>, lineId: LineId, parent: nat): (r: seq<Line>)
    ensures forall l :: l in r <==> l in lines && !(l.id == lineId && l.parent == parent)
    ensures forall other :: other != parent ==> LinesOf(r, other) == LinesOf(lines, other)
  {
    if |lines| == 0 then []
    else
      var init := lines[..|lines| - 1];
      var last := lines[|lines| - 1];
      assert lines == init + [last];
      var kept := RemoveLine(init, lineId, parent);
      var r := kept + (if last.id == lineId && last.parent == parent then [] else [last]);
      assert forall other :: other != parent ==> LinesOf(r, other) == LinesOf(lines, other) by {
        forall other | other != parent
          ensures LinesOf(r, other) == LinesOf(lines, other)
        {
          LinesOfConcat(kept, (if last.id == lineId && last.parent == parent then [] else [last]), other);
          LinesOfConcat(init, [last], other);
          if last.id == lineId && last.parent == parent {
            assert kept + [] == kept;
            LinesOfAbsent([last], other);
            assert LinesOf(init, other) + [] == LinesOf(init, other);
          }
        }
      }
      r
  }

  /** `cart_view` with `remove_line`: only the matching line of the user's first draft cart goes. */
  function RemoveCartLine(s: Store, who: Principal, lineId: LineId): (r: Result<Store>)
    ensures who.Anonymous? ==> r == Err(NotSignedIn)
    ensures who.SignedIn? && FirstDraft(s.quotations, who.user.id).None? ==> r == Err(EmptyCart)
    ensures r.Ok? ==> who.SignedIn? && FirstDraft(s.quotations, who.user.id).Some?
    ensures r.Ok? ==>
      var cart := s.quotations[FirstDraft(s.quotations, who.user.id).value].id;
      && (forall l :: l in r.value.quotationLines <==>
            l in s.quotationLines && !(l.id == lineId && l.parent == cart))
      && (forall other :: other != cart ==>
            LinesOf(r.value.quotationLines, other) == LinesOf(s.quotationLines, other))
      && r.value.products == s.products && r.value.variants == s.variants && r.value.quotations == s.quotations
      && r.value.orders == s.orders && r.value.orderLines == s.orderLines && r.value.invoices == s.invoices
      && r.value.payments == s.payments && r.value.pickups == s.pickups && r.value.returnDocs == s.returnDocs
  {
    if who.Anonymous? then Err(NotSignedIn)
    else match FirstDraft(s.quotations, who.user.id)
      case None => Err(EmptyCart)
      case Some(i) => Ok(s.(quotationLines := RemoveLine(s.quotationLines, lineId, s.quotations[i].id)))
  }

  /** The totals `cart_view` shows: subtotal, 18% tax on it, and their sum. */
  function CartSummary(s: Store, who: Principal): (r: Result<Totals>)
    ensures who.SignedIn? && FirstDraft(s.quotations, who.user.id).None? ==> r == Err(EmptyCart)
    ensures r.Ok? ==> who.SignedIn? && FirstDraft(s.quotations, who.user.id).Some?
    ensures r.Ok? ==>
      var cart := s.quotations[FirstDraft(s.quotations, who.user.id).value].id;
      && r.value.subtotal == LinesTotal(LinesOf(s.quotationLines, cart))
      && r.value.tax == r.value.subtotal * 18.0 / 100.0
      && r.value.grandTotal == r.value.subtotal + r.value.tax
  {
    if who.Anonymous? then Err(NotSignedIn)
    else match FirstDraft(s.quotations, who.user.id)
      case None => Err(EmptyCart)
      case Some(i) => Ok(ParentTotals(s.quotationLines, s.quotations[i].id))
  }

  // ---------------------------------------------------------------- checkout

  /** The order lines copied from cart lines: same goods and window, new ids, new parent. */
  function CopyLines(lines: seq<Line>, order: OrderId, baseId: LineId): (r: seq<Line>)
    ensures |r| == |lines|
    ensures forall k :: 0 <= k < |r| ==> r[k] == lines[k].(id := baseId + k, parent := order)
    ensures forall l :: l in r ==> l.parent == order && baseId <= l.id < baseId + |lines|
  {
    seq(|lines|, k requires 0 <= k < |lines| => lines[k].(id := baseId + k, parent := order))
  }

  /** Appended copies are exactly the new order's lines, and they are worth what the cart was. */
  lemma PlacedLines(orderLines: seq<Line>, cartLines: seq<Line>, orderId: OrderId, baseLineId: LineId)
    requires forall l :: l in orderLines ==> l.parent != orderId
    ensures var copies := CopyLines(cartLines, orderId, baseLineId);
      && LinesOf(orderLines + copies, orderId) == copies
      && LinesTotal(copies) == LinesTotal(cartLines)
  {
    var copies := CopyLines(cartLines, orderId, baseLineId);
    CheckoutLinesBelongToOrder(orderLines, copies, orderId);
    assert SameGoods(copies, cartLines);
    SameGoodsSums(copies, cartLines, 0);
  }

  /**
   * The writes of a checkout that passed its guards: cart `i` becomes order
   * `orderId` with copied lines, stock taken, the cart confirmed and an invoice.
   */
  function PlaceOrder(s: Store, i: nat, orderId: OrderId, invoiceId: InvoiceId, baseLineId: LineId): (s': Store)
    requires i < |s.quotations|
    requires FreshOrder(s, orderId) && FreshInvoice(s, invoiceId) && IdsBelow(s.orderLines, baseLineId)
    ensures
      var cart := s.quotations[i];
      var cartLines := LinesOf(s.quotationLines, cart.id);
      && s'.orders == s.orders[orderId := RentalOrder(orderId, cart.customer, Some(cart.id), Pending, None)]
      && s'.orderLines == s.orderLines + CopyLines(cartLines, orderId, baseLineId)
      && s'.products.Keys == s.products.Keys
      && s'.quotations == s.quotations[i := cart.(status := QuotationConfirmed)]
      && s'.invoices == s.invoices + [NewInvoice(invoiceId, orderId, s'.orderLines)]
      && s'.variants == s.variants && s'.quotationLines == s.quotationLines && s'.payments == s.payments
      && s'.pickups == s.pickups && s'.returnDocs == s.returnDocs
  {
    var cart := s.quotations[i];
    var cartLines := LinesOf(s.quotationLines, cart.id);
    var orderLines := s.orderLines + CopyLines(cartLines, orderId, baseLineId);
    s.(orders := s.orders[orderId := RentalOrder(orderId, cart.customer, Some(cart.id), Pending, None)],
       orderLines := orderLines,
       products := AdjustStock(s.products, cartLines, false),
       quotations := s.quotations[i := cart.(status := QuotationConfirmed)],
       invoices := s.invoices + [NewInvoice(invoiceId, orderId, orderLines)])
  }

  /**
   * The placed order holds exactly copies of the cart's lines, and every
   * product's stock drops by what the cart asked of it.
   */
  lemma PlacedOrderTakesCart(s: Store, i: nat, orderId: OrderId, invoiceId: InvoiceId, baseLineId: LineId)
    requires i < |s.quotations|
    requires FreshOrder(s, orderId) && FreshInvoice(s, invoiceId) && IdsBelow(s.orderLines, baseLineId)
    ensures
      var s' := PlaceOrder(s, i, orderId, invoiceId, baseLineId);
      var cartLines := LinesOf(s.quotationLines, s.quotations[i].id);
      && LinesOf(s'.orderLines, orderId) == CopyLines(cartLines, orderId, baseLineId)
      && forall pid :: pid in s.products ==>
           s'.products[pid] == s.products[pid].(quantityOnHand :=
             s.products[pid].quantityOnHand - QuantityOfProduct(cartLines, pid))
  {
    var cartLines := LinesOf(s.quotationLines, s.quotations[i].id);
    CheckoutLinesBelongToOrder(s.orderLines, CopyLines(cartLines, orderId, baseLineId), orderId);
  }

  /** The checkout's invoice bills exactly the cart: its subtotal is the cart's, plus 18% tax and the deposit. */
  lemma PlacedInvoiceBillsCart(s: Store, i: nat, orderId: OrderId, invoiceId: InvoiceId, baseLineId: LineId)
    requires i < |s.quotations|
    requires FreshOrder(s, orderId) && FreshInvoice(s, invoiceId) && IdsBelow(s.orderLines, baseLineId)
    ensures var inv := PlaceOrder(s, i, orderId, invoiceId, baseLineId).invoices[|s.invoices|];
      && inv.id == invoiceId && inv.order == orderId
      && inv.subtotal == LinesTotal(LinesOf(s.quotationLines, s.quotations[i].id))
      && inv.totalAmount == inv.subtotal * 1.18 + DefaultDeposit
  {
    PlacedLines(s.orderLines, LinesOf(s.quotationLines, s.quotations[i].id), orderId, baseLineId);
  }

  /**
   * `checkout_view` on POST: the single draft cart must have lines and the
   * delivery form no errors; one pending order is created, every cart line is
   * copied into it and its quantity taken from stock (with no floor), the cart
   * is confirmed, and an invoice at 18% tax with a 1000 deposit is created.
   * The cart's lines stay where they are.
   */
  function Checkout(
    s: Store, who: Principal, formErrors: seq<ValidationError>,
    orderId: OrderId, invoiceId: InvoiceId, baseLineId: LineId): (r: Result<Store>)
    requires FreshOrder(s, orderId) && FreshInvoice(s, invoiceId) && IdsBelow(s.orderLines, baseLineId)
    ensures who.Anonymous? ==> r == Err(NotSignedIn)
    ensures who.SignedIn? && DraftCount(s.quotations, who.user.id) == 0 ==> r == Err(NotFound)
    ensures who.SignedIn? && DraftCount(s.quotations, who.user.id) > 1 ==> r == Err(MultipleObjectsReturned)
    ensures who.SignedIn? && DraftCount(s.quotations, who.user.id) == 1
            && LinesOf(s.quotationLines, s.quotations[FirstDraft(s.quotations, who.user.id).value].id) == []
            ==> r == Err(EmptyCart)
    ensures r.Ok? <==>
      who.SignedIn? && DraftCount(s.quotations, who.user.id) == 1 && formErrors == []
      && LinesOf(s.quotationLines, s.quotations[FirstDraft(s.quotations, who.user.id).value].id) != []
    ensures r.Ok? ==>
      var i := FirstDraft(s.quotations, who.user.id).value;
      && s.quotations[i].customer == who.user.id
      && r.value == PlaceOrder(s, i, orderId, invoiceId, baseLineId)
  {
    if who.Anonymous? then Err(NotSignedIn)
    else
      var uid := who.user.id;
      var n := DraftCount(s.quotations, uid);
      if n == 0 then Err(NotFound)
      else if n > 1 then Err(MultipleObjectsReturned)
      else
        var i := FirstDraft(s.quotations, uid).value;
        if |LinesOf(s.quotationLines, s.quotations[i].id)| == 0 then Err(EmptyCart)
        else if formErrors != [] then Err(FormInvalid(formErrors))
        else Ok(PlaceOrder(s, i, orderId, invoiceId, baseLineId))
  }

  lemma CheckoutLinesBelongToOrder(lines: seq<Line>, copies: seq<Line>, orderId: OrderId)
    requires forall l :: l in lines ==> l.parent != orderId
    requires forall l :: l in copies ==> l.parent == orderId
    ensures LinesOf(lines + copies, orderId) == copies
  {
    LinesOfConcat(lines, copies, orderId);
    LinesOfAbsent(lines, orderId);
    LinesOfAll(copies, orderId);
  }

  /** Cancelling a live order whose lines match `goods` adds back what taking `goods` removed. */
  lemma CancelGivesBack(s: Store, before: map<ProductId, Product>, oid: OrderId, goods: seq<Line>)
    requires oid in s.orders && s.orders[oid].id == oid && !Terminal(s.orders[oid].status)
    requires SameGoods(LinesOf(s.orderLines, oid), goods)
    requires s.products.Keys == before.Keys
    requires forall pid :: pid in before ==>
      s.products[pid] == before[pid].(quantityOnHand := before[pid].quantityOnHand - QuantityOfProduct(goods, pid))
    ensures SaveOrder(s, s.orders[oid].(status := Cancelled)).products == before
  {
    var s' := SaveOrder(s, s.orders[oid].(status := Cancelled));
    forall pid | pid in before
      ensures s'.products[pid] == before[pid]
    {
      SameGoodsSums(LinesOf(s.orderLines, oid), goods, pid);
    }
  }

  /** Cancelling an order straight after checkout gives every product its stock back. */
  lemma CheckoutThenCancelRestoresStock(
    s: Store, who: Principal, orderId: OrderId, invoiceId: InvoiceId, baseLineId: LineId)
    requires FreshOrder(s, orderId) && FreshInvoice(s, invoiceId) && IdsBelow(s.orderLines, baseLineId)
    requires Checkout(s, who, [], orderId, invoiceId, baseLineId).Ok?
    ensures var s' := Checkout(s, who, [], orderId, invoiceId, baseLineId).value;
      SaveOrder(s', s'.orders[orderId].(status := Cancelled)).products == s.products
  {
    PlacedThenCancelled(s, FirstDraft(s.quotations, who.user.id).value, orderId, invoiceId, baseLineId);
  }

  lemma PlacedThenCancelled(s: Store, i: nat, orderId: OrderId, invoiceId: InvoiceId, baseLineId: LineId)
    requires i < |s.quotations|
    requires FreshOrder(s, orderId) && FreshInvoice(s, invoiceId) && IdsBelow(s.orderLines, baseLineId)
    ensures var s' := PlaceOrder(s, i, orderId, invoiceId, baseLineId);
      SaveOrder(s', s'.orders[orderId].(status := Cancelled)).products == s.products
  {
    var s' := PlaceOrder(s, i, orderId, invoiceId, baseLineId);
    var cartLines := LinesOf(s.quotationLines, s.quotations[i].id);
    PlacedOrderTakesCart(s, i, orderId, invoiceId, baseLineId);
    assert SameGoods(CopyLines(cartLines, orderId, baseLineId), cartLines);
    CancelGivesBack(s', s.products, orderId, cartLines);
  }

  /** Checkout takes stock without a floor: a cart line larger than the stock drives it negative. */
  lemma CheckoutCanOversell(
    s: Store, who: Principal, orderId: OrderId, invoiceId: InvoiceId, baseLineId: LineId, pid: ProductId)
    requires FreshOrder(s, orderId) && FreshInvoice(s, invoiceId) && IdsBelow(s.orderLines, baseLineId)
    requires Checkout(s, who, [], orderId, invoiceId, baseLineId).Ok?
    requires pid in s.products
    requires QuantityOfProduct(LinesOf(s.quotationLines, s.quotations[FirstDraft(s.quotations, who.user.id).value].id), pid)
             > s.products[pid].quantityOnHand
    ensures Checkout(s, who, [], orderId, invoiceId, baseLineId).value.products[pid].quantityOnHand < 0
  {
    PlacedOrderTakesCart(s, FirstDraft(s.quotations, who.user.id).value, orderId, invoiceId, baseLineId);
  }

  /** The new order's invoice starts reconciled: nothing paid, totals current. */
  lemma CheckoutInvoiceReconciled(
    s: Store, who: Principal, orderId: OrderId, invoiceId: InvoiceId, baseLineId: LineId)
    requires FreshOrder(s, orderId) && FreshInvoice(s, invoiceId) && IdsBelow(s.orderLines, baseLineId)
    requires Checkout(s, who, [], orderId, invoiceId, baseLineId).Ok?
    ensures var s' := Checkout(s, who, [], orderId, invoiceId, baseLineId).value;
      |s'.invoices| == |s.invoices| + 1 && Reconciled(s', |s.invoices|)
  {
    var s' := Checkout(s, who, [], orderId, invoiceId, baseLineId).value;
    assert s'.invoices[|s.invoices|] == NewInvoice(invoiceId, orderId, s'.orderLines);
    NewInvoiceCurrent(invoiceId, orderId, s'.orderLines);
    PaymentsTotalAbsent(s.payments, invoiceId);
  }

  // ---------------------------------------------------------------- simulated payment

  /**
   * `payment_view` on POST: the signed-in customer's invoice is paid its whole
   * balance; if that leaves it fully paid, its order is saved as confirmed.
   */
  function PayInvoice(s: Store, who: Principal, invoiceId: InvoiceId, now: Time): (r: Result<Store>)
    ensures r.Ok? ==>
      && who.SignedIn?
      && FindFirst(s.invoices, (inv: Invoice) => inv.id == invoiceId).Some?
      && var i := FindFirst(s.invoices, (inv: Invoice) => inv.id == invoiceId).value;
         var inv := s.invoices[i];
         var s1 := SavePayment(s, Payment(invoiceId, Balance(inv)), now);
         && inv.order in s.orders && s.orders[inv.order].customer == who.user.id
         && r.value == (if IsFullyPaid(s1.invoices[i])
                        then SaveOrder(s1, s.orders[inv.order].(status := Confirmed)) else s1)
    ensures who.Anonymous? ==> r == Err(NotSignedIn)
    ensures who.SignedIn? && FindFirst(s.invoices, (inv: Invoice) => inv.id == invoiceId).Some? ==>
      var inv := s.invoices[FindFirst(s.invoices, (inv: Invoice) => inv.id == invoiceId).value];
      (r.Ok? <==> inv.order in s.orders && s.orders[inv.order].customer == who.user.id)
    ensures who.SignedIn? && r.Err? ==> r == Err(NotFound)
  {
    if who.Anonymous? then Err(NotSignedIn)
    else match FindFirst(s.invoices, (inv: Invoice) => inv.id == invoiceId)
      case None => Err(NotFound)
      case Some(i) =>
        var inv := s.invoices[i];
        if inv.order !in s.orders || s.orders[inv.order].customer != who.user.id then Err(NotFound)
        else
          var s1 := SavePayment(s, Payment(invoiceId, Balance(inv)), now);
          if IsFullyPaid(s1.invoices[i]) then Ok(SaveOrder(s1, s.orders[inv.order].(status := Confirmed)))
          else Ok(s1)
  }

  /**
   * On a reconciled invoice the simulated payment settles it, marks it paid,
   * confirms its order without stamping `confirmed_at`, and leaves stock alone.
   */
  lemma PaymentSettlesAndConfirms(s: Store, who: Principal, invoiceId: InvoiceId, now: Time)
    requires Keyed(s)
    requires PayInvoice(s, who, invoiceId, now).Ok?
    requires Reconciled(s, FindFirst(s.invoices, (inv: Invoice) => inv.id == invoiceId).value)
    ensures var i := FindFirst(s.invoices, (inv: Invoice) => inv.id == invoiceId).value;
      var s' := PayInvoice(s, who, invoiceId, now).value;
      var oid := s.invoices[i].order;
      && IsFullyPaid(s'.invoices[i]) && s'.invoices[i].status == Paid
      && s'.orders[oid] == s.orders[oid].(status := Confirmed)
      && s'.products == s.products
  {
    var i := FindFirst(s.invoices, (inv: Invoice) => inv.id == invoiceId).value;
    PayingBalanceSettles(s, invoiceId, now);
    var s1 := SavePayment(s, Payment(invoiceId, Balance(s.invoices[i])), now);
    var o := s.orders[s.invoices[i].order].(status := Confirmed);
    NonTerminalSaveKeepsStock(s1, o);
    assert PayInvoice(s, who, invoiceId, now).value == SaveOrder(s1, o);
    assert s1.products == s.products;
  }
}
