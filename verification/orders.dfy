/**
 * Quotation and order totals, return alerts and the stock-restoring signal
 * handlers (Quotation, RentalOrder and the two receivers in rental/models.py).
 */
module Orders {
  import opened Basics
  import opened Model
  import opened Lines

  // ---------------------------------------------------------------- totals

  datatype Totals = Totals(subtotal: Money, tax: Money, grandTotal: Money)

  /**
   * `get_total()`, `get_tax_amount()` and `get_grand_total()` of a quotation or
   * order; the tax is the default 18% GST.
   */
  function ParentTotals(lines: seq<Line>, parent: nat): (t: Totals)
    ensures t.subtotal == LinesTotal(LinesOf(lines, parent))
    ensures t.tax == t.subtotal * 18.0 / 100.0
    ensures t.grandTotal == t.subtotal + t.tax
  {
    var subtotal := LinesTotal(LinesOf(lines, parent));
    var tax := subtotal * 18.0 / 100.0;
    Totals(subtotal, tax, subtotal + tax)
  }

  /** Lines of other quotations or orders do not change a parent's totals. */
  lemma TotalsIgnoreOtherParents(lines: seq<Line>, extra: seq<Line>, parent: nat)
    requires forall l :: l in extra ==> l.parent != parent
    ensures ParentTotals(lines + extra, parent) == ParentTotals(lines, parent)
  {
    LinesOfConcat(lines, extra, parent);
    LinesOfAbsent(extra, parent);
    assert LinesOf(lines, parent) + [] == LinesOf(lines, parent);
  }

  /** Adding a line to a parent raises its subtotal by exactly that line's total. */
  lemma AddedLineRaisesSubtotal(lines: seq<Line>, l: Line)
    ensures ParentTotals(lines + [l], l.parent).subtotal == ParentTotals(lines, l.parent).subtotal + LineTotal(l)
  {
    LinesOfConcat(lines, [l], l.parent);
    LinesOfAll([l], l.parent);
    LinesTotalConcat(LinesOf(lines, l.parent), [l]);
    assert [l][..0] == [];
  }

  // ---------------------------------------------------------------- return alerts

  /** `get_latest_return_date()`: the latest end date, or None for an order without lines. */
  function LatestReturnDate(lines: seq<Line>): (r: Option<Time>)
    ensures r.None? <==> |lines| == 0
    ensures r.Some? ==> forall l :: l in lines ==> l.endDate <= r.value
    ensures r.Some? ==> exists l :: l in lines && l.endDate == r.value
  {
    if |lines| == 0 then None
    else
      var init := lines[..|lines| - 1];
      var last := lines[|lines| - 1];
      assert lines == init + [last];
      match LatestReturnDate(init)
      case None => Some(last.endDate)
      case Some(t) => Some(if last.endDate > t then last.endDate else t)
  }

  /** The statuses in which the goods are out with the customer. */
  predicate OutOnRental(st: OrderStatus) {
    st == PickedUp || st == Rented
  }

  /** `is_return_overdue()`: out on rental and every line's end date has passed. */
  function IsReturnOverdue(o: RentalOrder, lines: seq<Line>, now: Time): (b: bool)
    ensures b <==> OutOnRental(o.status) && |lines| > 0 && forall l :: l in lines ==> l.endDate < now
  {
    if !OutOnRental(o.status) then false
    else
      var latest := LatestReturnDate(lines);
      if latest.None? then false
      else now > latest.value
  }

  /** `has_approaching_return()`: out on rental and the latest end date lies in [now, now + 24h]. */
  function HasApproachingReturn(o: RentalOrder, lines: seq<Line>, now: Time): (b: bool)
    ensures b <==>
      OutOnRental(o.status) && |lines| > 0
      && (forall l :: l in lines ==> l.endDate <= now + SecondsPerDay)
      && (exists l :: l in lines && l.endDate >= now)
  {
    if !OutOnRental(o.status) then false
    else
      var latest := LatestReturnDate(lines);
      if latest.None? then false
      else 0 <= latest.value - now <= SecondsPerDay
  }

  datatype ReturnAlert = ReturnedAlert | Overdue | Approaching | NormalAlert

  /** `get_return_status()`. */
  function ReturnStatus(o: RentalOrder, lines: seq<Line>, now: Time): (r: ReturnAlert)
    ensures r == ReturnedAlert <==> o.status == Returned
    ensures r == Overdue <==>
      OutOnRental(o.status) && |lines| > 0 && forall l :: l in lines ==> l.endDate < now
    ensures r == Approaching <==>
      OutOnRental(o.status) && |lines| > 0
      && (forall l :: l in lines ==> l.endDate <= now + SecondsPerDay)
      && (exists l :: l in lines && l.endDate >= now)
  {
    if o.status == Returned then ReturnedAlert
    else if IsReturnOverdue(o, lines, now) then Overdue
    else if HasApproachingReturn(o, lines, now) then Approaching
    else NormalAlert
  }

  /**
   * The four orders of the return-alert script: ended two hours ago, ends in
   * twelve hours, ends in two days (all rented), and one already returned.
   */
  lemma ReturnAlertScenarios(o: RentalOrder, l: Line, now: Time)
    requires o.status == Rented
    ensures ReturnStatus(o, [l.(endDate := now - 2 * SecondsPerHour)], now) == Overdue
    ensures ReturnStatus(o, [l.(endDate := now + 12 * SecondsPerHour)], now) == Approaching
    ensures ReturnStatus(o, [l.(endDate := now + 2 * SecondsPerDay)], now) == NormalAlert
    ensures ReturnStatus(o.(status := Returned), [l.(endDate := now - 2 * SecondsPerDay)], now) == ReturnedAlert
  {
    var l2 := l.(endDate := now + 12 * SecondsPerHour);
    assert l2 in [l2];
    var l3 := l.(endDate := now + 2 * SecondsPerDay);
    assert l3 in [l3];
  }

  /** An order that is not out on rental is never flagged, whatever its dates. */
  lemma OnlyRentalsRaiseAlerts(o: RentalOrder, lines: seq<Line>, now: Time)
    requires !OutOnRental(o.status) && o.status != Returned
    ensures ReturnStatus(o, lines, now) == NormalAlert
  {
  }

  // ---------------------------------------------------------------- stock

  /**
   * One `quantity_on_hand += quantity` (or `-=`) and save per line, in order;
   * a line whose product is gone changes nothing.
   */
  function AdjustStock(products: map<ProductId, Product>, lines: seq<Line>, restore: bool): (r: map<ProductId, Product>)
    ensures r.Keys == products.Keys
    ensures forall pid :: pid in products ==>
      r[pid] == products[pid].(quantityOnHand :=
        products[pid].quantityOnHand
        + (if restore then QuantityOfProduct(lines, pid) else -QuantityOfProduct(lines, pid)))
  {
    if |lines| == 0 then products
    else
      var prior := AdjustStock(products, lines[..|lines| - 1], restore);
      var l := lines[|lines| - 1];
      if l.product in prior then
        var delta := if restore then l.quantity else -l.quantity;
        prior[l.product := prior[l.product].(quantityOnHand := prior[l.product].quantityOnHand + delta)]
      else prior
  }

  /** Taking a set of lines' stock and giving it back leaves every product as it was. */
  lemma TakeThenRestoreIsIdentity(products: map<ProductId, Product>, lines: seq<Line>)
    ensures AdjustStock(AdjustStock(products, lines, false), lines, true) == products
  {
    var taken := AdjustStock(products, lines, false);
    var back := AdjustStock(taken, lines, true);
    assert back.Keys == products.Keys;
    forall pid | pid in products
      ensures back[pid] == products[pid]
    {
    }
  }

  /**
   * `order.save()` with the pre_save receiver `restore_quantity_on_cancel`: when
   * a stored order moves from a non-terminal status into cancelled or returned,
   * every line of the order gives its quantity back to its product.
   */
  function SaveOrder(s: Store, o: RentalOrder): (s': Store)
    ensures s'.orders == s.orders[o.id := o]
    ensures s'.products.Keys == s.products.Keys
    ensures forall pid :: pid in s.products ==>
      var restores := o.id in s.orders && !Terminal(s.orders[o.id].status) && Terminal(o.status);
      s'.products[pid] == s.products[pid].(quantityOnHand :=
        s.products[pid].quantityOnHand
        + (if restores then QuantityOfProduct(LinesOf(s.orderLines, o.id), pid) else 0))
    ensures s'.variants == s.variants && s'.quotations == s.quotations && s'.quotationLines == s.quotationLines
    ensures s'.orderLines == s.orderLines && s'.invoices == s.invoices && s'.payments == s.payments
    ensures s'.pickups == s.pickups && s'.returnDocs == s.returnDocs
  {
    var products :=
      if o.id in s.orders && !Terminal(s.orders[o.id].status) && Terminal(o.status)
      then AdjustStock(s.products, LinesOf(s.orderLines, o.id), true)
      else s.products;
    s.(orders := s.orders[o.id := o], products := products)
  }

  /** Re-saving an order that is already cancelled or returned, or moving it between those two, restores nothing. */
  lemma TerminalOrderRestoresNothing(s: Store, o: RentalOrder)
    requires o.id in s.orders && Terminal(s.orders[o.id].status)
    ensures SaveOrder(s, o).products == s.products
  {
    var s' := SaveOrder(s, o);
    forall pid | pid in s.products
      ensures s'.products[pid] == s.products[pid]
    {
    }
  }

  /** Saving into a non-terminal status never touches stock. */
  lemma NonTerminalSaveKeepsStock(s: Store, o: RentalOrder)
    requires !Terminal(o.status)
    ensures SaveOrder(s, o).products == s.products
  {
    var s' := SaveOrder(s, o);
    forall pid | pid in s.products
      ensures s'.products[pid] == s.products[pid]
    {
    }
  }

  /**
   * Deleting order line `i` with the post_delete receiver
   * `restore_quantity_on_delete`: unless its order is already cancelled or
   * returned, the line's quantity goes back to its product.
   */
  function DeleteOrderLine(s: Store, i: nat): (s': Store)
    requires i < |s.orderLines|
    requires s.orderLines[i].parent in s.orders
    ensures s'.orderLines == s.orderLines[..i] + s.orderLines[i + 1..]
    ensures s'.products.Keys == s.products.Keys
    ensures forall pid :: pid in s.products ==>
      var l := s.orderLines[i];
      s'.products[pid] == s.products[pid].(quantityOnHand :=
        s.products[pid].quantityOnHand
        + (if pid == l.product && !Terminal(s.orders[l.parent].status) then l.quantity else 0))
    ensures s' == s.(orderLines := s'.orderLines, products := s'.products)
  {
    var l := s.orderLines[i];
    var rest := s.orderLines[..i] + s.orderLines[i + 1..];
    var products :=
      if !Terminal(s.orders[l.parent].status) then AdjustStock(s.products, [l], true) else s.products;
    assert [l][..0] == [];
    s.(orderLines := rest, products := products)
  }

  /**
   * Deleting a line of a live order gives back exactly the stock that line took:
   * from the stock before the line was taken, taking it and then deleting it is
   * the identity.
   */
  lemma DeleteGivesBackWhatLineTook(before: map<ProductId, Product>, s: Store, i: nat)
    requires i < |s.orderLines| && s.orderLines[i].parent in s.orders
    requires !Terminal(s.orders[s.orderLines[i].parent].status)
    requires s.products == AdjustStock(before, [s.orderLines[i]], false)
    ensures DeleteOrderLine(s, i).products == before
  {
    TakeThenRestoreIsIdentity(before, [s.orderLines[i]]);
  }
}
