/**
 * The vendor-wise checkout simulated by test_vendor_splitting.py: the cart's
 * lines are grouped by their product's vendor (a `defaultdict(list)`), and each
 * group becomes one pending order with copies of its lines and one invoice.
 */
module VendorSplit {
  import opened Basics
  import opened Accounts
  import opened Model
  import opened Lines
  import opened Orders
  import opened Billing
  import opened Shop

  /** Every line's product exists, as the foreign key guarantees. */
  predicate KnownProducts(products: map<ProductId, Product>, lines: seq<Line>) {
    forall l :: l in lines ==> l.product in products
  }

  /** `line.product.vendor`. */
  function VendorOf(products: map<ProductId, Product>, l: Line): UserId
    requires l.product in products
  {
    products[l.product].vendor
  }

  /** The lines of one vendor, in cart order. */
  function OfVendor(products: map<ProductId, Product>, lines: seq<Line>, v: UserId): (r: seq<Line>)
    requires KnownProducts(products, lines)
    ensures forall l :: l in r <==> l in lines && VendorOf(products, l) == v
  {
    if |lines| == 0 then []
    else
      var init := lines[..|lines| - 1];
      var last := lines[|lines| - 1];
      assert lines == init + [last];
      OfVendor(products, init, v) + (if VendorOf(products, last) == v then [last] else [])
  }

  lemma {:induction false} OfVendorAbsent(products: map<ProductId, Product>, lines: seq<Line>, v: UserId)
    requires KnownProducts(products, lines)
    requires v !in VendorSet(products, lines)
    ensures OfVendor(products, lines, v) == []
    decreases |lines|
  {
    if |lines| > 0 {
      var init := lines[..|lines| - 1];
      assert lines == init + [lines[|lines| - 1]];
      assert VendorSet(products, init) <= VendorSet(products, lines);
      OfVendorAbsent(products, init, v);
    }
  }

  /** The vendors the cart's lines come from. */
  function VendorSet(products: map<ProductId, Product>, lines: seq<Line>): set<UserId>
    requires KnownProducts(products, lines)
  {
    if |lines| == 0 then {}
    else
      var init := lines[..|lines| - 1];
      var last := lines[|lines| - 1];
      assert lines == init + [last];
      VendorSet(products, init) + {VendorOf(products, last)}
  }

  /** The vendor set holds exactly the vendors of the lines. */
  lemma {:induction false} VendorSetMembers(products: map<ProductId, Product>, lines: seq<Line>, v: UserId)
    requires KnownProducts(products, lines)
    ensures v in VendorSet(products, lines) <==> exists l :: l in lines && VendorOf(products, l) == v
    decreases |lines|
  {
    if |lines| > 0 {
      var init := lines[..|lines| - 1];
      var last := lines[|lines| - 1];
      assert lines == init + [last];
      VendorSetMembers(products, init, v);
      if v in VendorSet(products, init) {
        var l :| l in init && VendorOf(products, l) == v;
        assert l in lines;
      }
    }
  }

  datatype Group = Group(vendor: UserId, lines: seq<Line>)

  /** `vendor_lines[vendor].append(line)`: extend the vendor's group, or open one at the end. */
  function AddToGroup(groups: seq<Group>, v: UserId, l: Line): seq<Group> {
    match FindFirst(groups, (g: Group) => g.vendor == v)
    case None => groups + [Group(v, [l])]
    case Some(k) => groups[k := groups[k].(lines := groups[k].lines + [l])]
  }

  /**
   * The groups are one per vendor of the cart, with distinct vendors, and each
   * holds exactly that vendor's lines in cart order.
   */
  predicate WellGrouped(products: map<ProductId, Product>, lines: seq<Line>, groups: seq<Group>)
    requires KnownProducts(products, lines)
  {
    && (forall i, j :: 0 <= i < j < |groups| ==> groups[i].vendor != groups[j].vendor)
    && (forall i :: 0 <= i < |groups| ==> groups[i].lines == OfVendor(products, lines, groups[i].vendor))
    && (forall i :: 0 <= i < |groups| ==> groups[i].vendor in VendorSet(products, lines))
    && |groups| == |VendorSet(products, lines)|
  }

  /** The grouping loop of the script. */
  function GroupByVendor(products: map<ProductId, Product>, lines: seq<Line>): (groups: seq<Group>)
    requires KnownProducts(products, lines)
    ensures WellGrouped(products, lines, groups)
  {
    if |lines| == 0 then []
    else
      var init := lines[..|lines| - 1];
      var last := lines[|lines| - 1];
      assert lines == init + [last];
      var prior := GroupByVendor(products, init);
      GroupStep(products, init, last, prior);
      AddToGroup(prior, VendorOf(products, last), last)
  }

  lemma OfVendorSnoc(products: map<ProductId, Product>, init: seq<Line>, last: Line, w: UserId)
    requires KnownProducts(products, init + [last])
    ensures KnownProducts(products, init)
    ensures OfVendor(products, init + [last], w)
         == OfVendor(products, init, w) + (if VendorOf(products, last) == w then [last] else [])
    ensures VendorSet(products, init + [last]) == VendorSet(products, init) + {VendorOf(products, last)}
  {
    assert (init + [last])[..|init + [last]| - 1] == init;
  }

  /** One iteration of the grouping loop keeps the groups well formed. */
  lemma GroupStep(products: map<ProductId, Product>, init: seq<Line>, last: Line, prior: seq<Group>)
    requires KnownProducts(products, init + [last])
    requires KnownProducts(products, init)
    requires WellGrouped(products, init, prior)
    ensures WellGrouped(products, init + [last], AddToGroup(prior, VendorOf(products, last), last))
  {
    var v := VendorOf(products, last);
    match FindFirst(prior, (g: Group) => g.vendor == v)
    case None =>
      NewVendorStep(products, init, last, prior);
      OpenGroupStep(products, init, last, prior);
    case Some(k) =>
      ExtendGroupStep(products, init, last, prior, k);
  }

  /** A line of a vendor without a group opens a new group at the end. */
  lemma OpenGroupStep(products: map<ProductId, Product>, init: seq<Line>, last: Line, prior: seq<Group>)
    requires KnownProducts(products, init + [last])
    requires KnownProducts(products, init)
    requires WellGrouped(products, init, prior)
    requires forall j :: 0 <= j < |prior| ==> prior[j].vendor != VendorOf(products, last)
    requires OfVendor(products, init, VendorOf(products, last)) == []
    requires VendorOf(products, last) !in VendorSet(products, init)
    ensures WellGrouped(products, init + [last], prior + [Group(VendorOf(products, last), [last])])
  {
    var v := VendorOf(products, last);
    var lines := init + [last];
    var groups := prior + [Group(v, [last])];
    OpenGroupLines(products, init, last, prior);
    OfVendorSnoc(products, init, last, v);
    assert |VendorSet(products, lines)| == |VendorSet(products, init)| + 1;
  }

  lemma OpenGroupLines(products: map<ProductId, Product>, init: seq<Line>, last: Line, prior: seq<Group>)
    requires KnownProducts(products, init + [last])
    requires KnownProducts(products, init)
    requires forall i :: 0 <= i < |prior| ==> prior[i].lines == OfVendor(products, init, prior[i].vendor)
    requires forall j :: 0 <= j < |prior| ==> prior[j].vendor != VendorOf(products, last)
    requires OfVendor(products, init, VendorOf(products, last)) == []
    ensures var groups := prior + [Group(VendorOf(products, last), [last])];
      forall i :: 0 <= i < |groups| ==> groups[i].lines == OfVendor(products, init + [last], groups[i].vendor)
  {
    var v := VendorOf(products, last);
    var groups := prior + [Group(v, [last])];
    forall i | 0 <= i < |groups|
      ensures groups[i].lines == OfVendor(products, init + [last], groups[i].vendor)
    {
      OfVendorSnoc(products, init, last, groups[i].vendor);
      if i == |prior| {
        assert [] + [last] == [last];
      }
    }
  }

  /** A line of a vendor with group `k` is appended to that group. */
  lemma ExtendGroupStep(products: map<ProductId, Product>, init: seq<Line>, last: Line, prior: seq<Group>, k: nat)
    requires KnownProducts(products, init + [last])
    requires KnownProducts(products, init)
    requires WellGrouped(products, init, prior)
    requires k < |prior| && prior[k].vendor == VendorOf(products, last)
    ensures WellGrouped(products, init + [last], prior[k := prior[k].(lines := prior[k].lines + [last])])
  {
    var v := VendorOf(products, last);
    var lines := init + [last];
    var groups := prior[k := prior[k].(lines := prior[k].lines + [last])];
    OfVendorSnoc(products, init, last, v);
    assert VendorSet(products, lines) == VendorSet(products, init);
    forall i | 0 <= i < |groups|
      ensures groups[i].lines == OfVendor(products, lines, groups[i].vendor)
      ensures groups[i].vendor in VendorSet(products, lines)
    {
      OfVendorSnoc(products, init, last, groups[i].vendor);
    }
  }

  /** A vendor with no group yet has no lines yet, so its new group holds just this line. */
  lemma NewVendorStep(products: map<ProductId, Product>, init: seq<Line>, last: Line, prior: seq<Group>)
    requires KnownProducts(products, init + [last])
    requires KnownProducts(products, init)
    requires WellGrouped(products, init, prior)
    requires forall j :: 0 <= j < |prior| ==> prior[j].vendor != VendorOf(products, last)
    ensures OfVendor(products, init, VendorOf(products, last)) == []
    ensures VendorOf(products, last) !in VendorSet(products, init)
  {
    var v := VendorOf(products, last);
    var vendors := VendorSet(products, init);
    DistinctVendorsCount(prior);
    GroupVendorsCover(prior, vendors);
    assert v !in vendors;
    OfVendorAbsent(products, init, v);
  }

  /** The vendors of groups with distinct vendors are as many as the groups. */
  lemma {:induction false} DistinctVendorsCount(groups: seq<Group>)
    requires forall i, j :: 0 <= i < j < |groups| ==> groups[i].vendor != groups[j].vendor
    ensures |set i | 0 <= i < |groups| :: groups[i].vendor| == |groups|
    decreases |groups|
  {
    if |groups| > 0 {
      var init := groups[..|groups| - 1];
      DistinctVendorsCount(init);
      var a := set i | 0 <= i < |init| :: init[i].vendor;
      var b := set i | 0 <= i < |groups| :: groups[i].vendor;
      assert b == a + {groups[|groups| - 1].vendor};
      assert groups[|groups| - 1].vendor !in a;
    }
  }

  /**
   * When the groups' vendors are distinct, drawn from `vendors`, and as many as
   * `vendors`, every vendor in `vendors` has a group.
   */
  lemma GroupVendorsCover(groups: seq<Group>, vendors: set<UserId>)
    requires forall i :: 0 <= i < |groups| ==> groups[i].vendor in vendors
    requires |set i | 0 <= i < |groups| :: groups[i].vendor| == |groups| == |vendors|
    ensures forall v :: v in vendors ==> exists i :: 0 <= i < |groups| && groups[i].vendor == v
  {
    var covered := set i | 0 <= i < |groups| :: groups[i].vendor;
    assert covered <= vendors;
    SubsetOfSameSize(covered, vendors);
  }

  lemma SubsetOfSameSize<T>(a: set<T>, b: set<T>)
    requires a <= b && |a| == |b|
    ensures a == b
  {
    if a != b {
      var x :| x in b && x !in a;
      SubsetNoLarger(a, b - {x});
    }
  }

  lemma {:induction false} SubsetNoLarger<T>(a: set<T>, b: set<T>)
    requires a <= b
    ensures |a| <= |b|
    decreases |a|
  {
    if a != {} {
      var x :| x in a;
      SubsetNoLarger(a - {x}, b - {x});
    }
  }

  // ---------------------------------------------------------------- subtotals

  /** The sum of the groups' subtotals. */
  function GroupsTotal(groups: seq<Group>): Money {
    if |groups| == 0 then 0.0
    else GroupsTotal(groups[..|groups| - 1]) + LinesTotal(groups[|groups| - 1].lines)
  }

  lemma {:induction false} GroupsTotalUpdate(groups: seq<Group>, k: nat, lines: seq<Line>)
    requires k < |groups|
    ensures GroupsTotal(groups[k := groups[k].(lines := lines)])
         == GroupsTotal(groups) - LinesTotal(groups[k].lines) + LinesTotal(lines)
    decreases |groups|
  {
    var updated := groups[k := groups[k].(lines := lines)];
    var n := |groups| - 1;
    if k < n {
      assert updated[..n] == groups[..n][k := groups[k].(lines := lines)];
      GroupsTotalUpdate(groups[..n], k, lines);
    } else {
      assert updated[..n] == groups[..n];
    }
  }

  /** Filing one more line under its vendor adds that line's total to the groups' sum. */
  lemma AddToGroupTotal(groups: seq<Group>, v: UserId, l: Line)
    ensures GroupsTotal(AddToGroup(groups, v, l)) == GroupsTotal(groups) + LineTotal(l)
  {
    match FindFirst(groups, (g: Group) => g.vendor == v)
    case None =>
      var g := Group(v, [l]);
      assert (groups + [g])[..|groups|] == groups;
      assert (groups + [g])[|groups|] == g;
      assert [l][..0] == [];
      assert LinesTotal([l]) == LineTotal(l);
    case Some(k) =>
      GroupsTotalUpdate(groups, k, groups[k].lines + [l]);
      assert (groups[k].lines + [l])[..|groups[k].lines|] == groups[k].lines;
  }

  /** The vendors' subtotals add up to the cart's total. */
  lemma {:induction false} GroupSubtotalsSumToCart(products: map<ProductId, Product>, lines: seq<Line>)
    requires KnownProducts(products, lines)
    ensures GroupsTotal(GroupByVendor(products, lines)) == LinesTotal(lines)
    decreases |lines|
  {
    if |lines| > 0 {
      var init := lines[..|lines| - 1];
      var last := lines[|lines| - 1];
      assert lines == init + [last];
      GroupSubtotalsSumToCart(products, init);
      AddToGroupTotal(GroupByVendor(products, init), VendorOf(products, last), last);
    }
  }

  // ---------------------------------------------------------------- invoice arithmetic

  /** The deposit the script charges on each vendor's invoice. */
  const SplitDeposit: Money := 500.0

  /** `quantize(Decimal('0.01'))` under the default ROUND_HALF_EVEN: to the nearest cent, ties to even. */
  function Quantize2(x: real): (r: real)
    ensures -0.005 <= r - x <= 0.005
    ensures (r * 100.0).Floor as real == r * 100.0
  {
    var c := x * 100.0;
    var f := c.Floor;
    var frac := c - f as real;
    var n := if frac < 0.5 then f else if frac > 0.5 then f + 1 else if f % 2 == 0 then f else f + 1;
    n as real / 100.0
  }

  /** Whole cents are left alone, and a tie goes to the even cent. */
  lemma QuantizeExamples(cents: int)
    ensures Quantize2(cents as real / 100.0) == cents as real / 100.0
    ensures Quantize2(0.125) == 0.12 && Quantize2(0.135) == 0.14
  {
    assert (cents as real / 100.0 * 100.0).Floor == cents;
    assert (0.125 * 100.0).Floor == 12;
    assert (0.135 * 100.0).Floor == 13;
  }

  /**
   * The script's `Invoice.objects.create`: its arguments (the quantized tax
   * among them) are overwritten by `save()`, which recomputes from the lines.
   */
  function SplitInvoice(id: InvoiceId, order: OrderId, vendorSubtotal: Money, orderLines: seq<Line>): (inv: Invoice)
    ensures inv.id == id && inv.order == order && inv.status == InvoiceDraft && inv.amountPaid == 0.0
    ensures inv.subtotal == LinesTotal(LinesOf(orderLines, order))
    ensures inv.taxAmount == inv.subtotal * 18.0 / 100.0
    ensures inv.totalAmount == inv.subtotal * 1.18 + SplitDeposit
    ensures TotalsCurrent(inv, orderLines)
  {
    var tax := Quantize2(vendorSubtotal * 18.0 / 100.0);
    var created := Invoice(id, order, InvoiceDraft, vendorSubtotal, 0.0, 18.0, tax, SplitDeposit, 0.0,
                           vendorSubtotal + tax + SplitDeposit, 0.0, None);
    SaveInvoiceIdempotent(created, orderLines);
    SaveInvoice(created, orderLines)
  }

  /** What is stored differs from the script's own quantized figures by at most half a cent. */
  lemma StoredTotalsWithinHalfCent(id: InvoiceId, order: OrderId, vendorSubtotal: Money, orderLines: seq<Line>)
    requires LinesTotal(LinesOf(orderLines, order)) == vendorSubtotal
    ensures var inv := SplitInvoice(id, order, vendorSubtotal, orderLines);
      var tax := Quantize2(vendorSubtotal * 18.0 / 100.0);
      && -0.005 <= inv.taxAmount - tax <= 0.005
      && -0.005 <= inv.totalAmount - (vendorSubtotal + tax + SplitDeposit) <= 0.005
  {
  }

  // ---------------------------------------------------------------- orders

  /** The two tables the script's loop fills before each invoice: orders and their lines. */
  datatype Tables = Tables(orders: map<OrderId, RentalOrder>, orderLines: seq<Line>)

  /** Every stored order id is below `oid`. */
  predicate OrdersBelow(orders: map<OrderId, RentalOrder>, oid: OrderId) {
    forall k :: k in orders ==> k < oid
  }

  /** Order ids from `oid` are unused, and no stored line refers to one of them. */
  predicate FreshFrom(t: Tables, oid: OrderId) {
    && OrdersBelow(t.orders, oid)
    && (forall l :: l in t.orderLines ==> l.parent < oid)
  }

  /** One pass of the script's outer loop: the vendor's pending order and copies of the vendor's cart lines. */
  function OrderForGroup(t: Tables, customer: UserId, g: Group, oid: OrderId, lineBase: LineId): Tables {
    Tables(t.orders[oid := RentalOrder(oid, customer, None, Pending, None)],
           t.orderLines + CopyLines(g.lines, oid, lineBase))
  }

  /** The script's outer loop over the vendor groups, numbering orders and lines upward. */
  function SplitOrders(t: Tables, customer: UserId, groups: seq<Group>, oid: OrderId, lineBase: LineId): Tables
    decreases |groups|
  {
    if |groups| == 0 then t
    else
      SplitOrders(OrderForGroup(t, customer, groups[0], oid, lineBase),
                  customer, groups[1..], oid + 1, lineBase + |groups[0].lines|)
  }

  /** The ids `n`, `n + 1`, ..., `n + count - 1`. */
  function IdRange(n: nat, count: nat): (r: set<nat>)
    ensures |r| == count
    ensures forall k :: k in r <==> n <= k < n + count
  {
    if count == 0 then {}
    else
      var prior := IdRange(n, count - 1);
      assert n + count - 1 !in prior;
      prior + {n + count - 1}
  }

  /** Peeling the first id off a range. */
  lemma IdRangeFirst(n: nat, count: nat)
    requires count > 0
    ensures IdRange(n, count) == {n} + IdRange(n + 1, count - 1)
  {
  }

  /** The split's order ids are exactly the old ones plus one fresh id per group. */
  lemma {:induction false} SplitOrdersKeys(t: Tables, customer: UserId, groups: seq<Group>, oid: OrderId, lineBase: LineId)
    requires OrdersBelow(t.orders, oid)
    ensures var t' := SplitOrders(t, customer, groups, oid, lineBase);
      forall o :: o in t'.orders <==> o in t.orders || oid <= o < oid + |groups|
    decreases |groups|
  {
    if |groups| > 0 {
      var t1 := OrderForGroup(t, customer, groups[0], oid, lineBase);
      SplitOrdersKeys(t1, customer, groups[1..], oid + 1, lineBase + |groups[0].lines|);
      var t' := SplitOrders(t, customer, groups, oid, lineBase);
      forall o
        ensures o in t'.orders <==> o in t.orders || oid <= o < oid + |groups|
      {
        assert o in t1.orders <==> o in t.orders || o == oid;
      }
    }
  }

  /** Orders stored before the split are left as they were. */
  lemma {:induction false} SplitOrdersKeepOld(t: Tables, customer: UserId, groups: seq<Group>, oid: OrderId, lineBase: LineId)
    requires OrdersBelow(t.orders, oid)
    ensures var t' := SplitOrders(t, customer, groups, oid, lineBase);
      forall k :: k in t.orders ==> k in t'.orders && t'.orders[k] == t.orders[k]
    decreases |groups|
  {
    if |groups| > 0 {
      var t1 := OrderForGroup(t, customer, groups[0], oid, lineBase);
      SplitOrdersKeepOld(t1, customer, groups[1..], oid + 1, lineBase + |groups[0].lines|);
    }
  }

  /** Group `k` gets order `oid + k`, a pending order of the cart's customer with no quotation. */
  lemma {:induction false} SplitOrdersNew(t: Tables, customer: UserId, groups: seq<Group>, oid: OrderId, lineBase: LineId)
    requires OrdersBelow(t.orders, oid)
    ensures var t' := SplitOrders(t, customer, groups, oid, lineBase);
      forall o :: oid <= o < oid + |groups| ==>
        o in t'.orders && t'.orders[o] == RentalOrder(o, customer, None, Pending, None)
    decreases |groups|
  {
    if |groups| > 0 {
      var t1 := OrderForGroup(t, customer, groups[0], oid, lineBase);
      SplitOrdersNew(t1, customer, groups[1..], oid + 1, lineBase + |groups[0].lines|);
      SplitOrdersKeepOld(t1, customer, groups[1..], oid + 1, lineBase + |groups[0].lines|);
    }
  }

  /** The lines the whole loop appends: group `k`'s copies, owned by order `oid + k`, one group after another. */
  function AllCopies(groups: seq<Group>, oid: OrderId, lineBase: LineId): seq<Line>
    decreases |groups|
  {
    if |groups| == 0 then []
    else CopyLines(groups[0].lines, oid, lineBase) + AllCopies(groups[1..], oid + 1, lineBase + |groups[0].lines|)
  }

  /** The loop only appends to the line table. */
  lemma {:induction false} SplitOrdersAppendsLines(t: Tables, customer: UserId, groups: seq<Group>, oid: OrderId, lineBase: LineId)
    ensures SplitOrders(t, customer, groups, oid, lineBase).orderLines == t.orderLines + AllCopies(groups, oid, lineBase)
    decreases |groups|
  {
    if |groups| > 0 {
      var t1 := OrderForGroup(t, customer, groups[0], oid, lineBase);
      var lb := lineBase + |groups[0].lines|;
      SplitOrdersAppendsLines(t1, customer, groups[1..], oid + 1, lb);
      assert (t.orderLines + CopyLines(groups[0].lines, oid, lineBase)) + AllCopies(groups[1..], oid + 1, lb)
          == t.orderLines + (CopyLines(groups[0].lines, oid, lineBase) + AllCopies(groups[1..], oid + 1, lb));
    }
  }

  /** Every appended line belongs to one of the new orders. */
  lemma {:induction false} AllCopiesParents(groups: seq<Group>, oid: OrderId, lineBase: LineId)
    ensures forall l :: l in AllCopies(groups, oid, lineBase) ==> oid <= l.parent < oid + |groups|
    decreases |groups|
  {
    if |groups| > 0 {
      AllCopiesParents(groups[1..], oid + 1, lineBase + |groups[0].lines|);
    }
  }

  /** Copies made for order `oid`, followed by lines of later orders: order `oid` owns exactly the copies. */
  lemma CopiesOwned(lines: seq<Line>, oid: OrderId, lineBase: LineId, rest: seq<Line>)
    requires forall l :: l in rest ==> oid < l.parent
    ensures LinesOf(CopyLines(lines, oid, lineBase) + rest, oid) == CopyLines(lines, oid, lineBase)
  {
    var copies := CopyLines(lines, oid, lineBase);
    LinesOfConcat(copies, rest, oid);
    LinesOfAll(copies, oid);
    LinesOfAbsent(rest, oid);
    assert copies + [] == copies;
  }

  /** Copies made for order `oid` are invisible to any other order. */
  lemma CopiesSkipped(lines: seq<Line>, oid: OrderId, lineBase: LineId, rest: seq<Line>, o: OrderId)
    requires o != oid
    ensures LinesOf(CopyLines(lines, oid, lineBase) + rest, o) == LinesOf(rest, o)
  {
    var copies := CopyLines(lines, oid, lineBase);
    LinesOfConcat(copies, rest, o);
    LinesOfAbsent(copies, o);
    assert [] + LinesOf(rest, o) == LinesOf(rest, o);
  }

  /** The first new order owns copies of the first group's lines. */
  lemma AllCopiesOfFirst(groups: seq<Group>, oid: OrderId, lineBase: LineId)
    requires 0 < |groups|
    ensures SameGoods(LinesOf(AllCopies(groups, oid, lineBase), oid), groups[0].lines)
  {
    var lb := lineBase + |groups[0].lines|;
    var rest := AllCopies(groups[1..], oid + 1, lb);
    AllCopiesParents(groups[1..], oid + 1, lb);
    CopiesOwned(groups[0].lines, oid, lineBase, rest);
  }

  /** Among the appended lines, order `oid + k` owns copies of group `k`'s lines. */
  lemma {:induction false} AllCopiesOf(groups: seq<Group>, oid: OrderId, lineBase: LineId, k: nat)
    requires k < |groups|
    ensures SameGoods(LinesOf(AllCopies(groups, oid, lineBase), oid + k), groups[k].lines)
    decreases |groups|
  {
    if k == 0 {
      AllCopiesOfFirst(groups, oid, lineBase);
    } else {
      var lb := lineBase + |groups[0].lines|;
      var rest := AllCopies(groups[1..], oid + 1, lb);
      CopiesSkipped(groups[0].lines, oid, lineBase, rest, oid + k);
      AllCopiesOf(groups[1..], oid + 1, lb, k - 1);
      assert oid + k == (oid + 1) + (k - 1);
      assert groups[1..][k - 1] == groups[k];
    }
  }

  /** The split leaves the lines of orders below `oid` alone. */
  lemma SplitOrdersKeepLines(t: Tables, customer: UserId, groups: seq<Group>, oid: OrderId, lineBase: LineId, o: OrderId)
    requires o < oid
    ensures LinesOf(SplitOrders(t, customer, groups, oid, lineBase).orderLines, o) == LinesOf(t.orderLines, o)
  {
    var added := AllCopies(groups, oid, lineBase);
    SplitOrdersAppendsLines(t, customer, groups, oid, lineBase);
    LinesOfConcat(t.orderLines, added, o);
    AllCopiesParents(groups, oid, lineBase);
    LinesOfAbsent(added, o);
    assert LinesOf(t.orderLines, o) + [] == LinesOf(t.orderLines, o);
  }

  /** Order `oid + k` holds copies of group `k`'s lines: the same products, quantities and prices. */
  lemma SplitOrdersLines(t: Tables, customer: UserId, groups: seq<Group>, oid: OrderId, lineBase: LineId, k: nat)
    requires FreshFrom(t, oid)
    requires k < |groups|
    ensures SameGoods(LinesOf(SplitOrders(t, customer, groups, oid, lineBase).orderLines, oid + k), groups[k].lines)
  {
    var added := AllCopies(groups, oid, lineBase);
    SplitOrdersAppendsLines(t, customer, groups, oid, lineBase);
    LinesOfConcat(t.orderLines, added, oid + k);
    LinesOfAbsent(t.orderLines, oid + k);
    AllCopiesOf(groups, oid, lineBase, k);
    assert [] + LinesOf(added, oid + k) == LinesOf(added, oid + k);
  }

  // ---------------------------------------------------------------- invoices and the whole split

  /**
   * The invoice the script creates right after group `k`'s order and lines.
   * Its save reads only that order's lines, and later passes add lines to
   * later orders only, so reading the final line table gives the same invoice.
   */
  function SplitInvoices(groups: seq<Group>, oid: OrderId, iid: InvoiceId, orderLines: seq<Line>): (r: seq<Invoice>)
    ensures |r| == |groups|
  {
    seq(|groups|, k requires 0 <= k < |groups| => SplitInvoice(iid + k, oid + k, LinesTotal(groups[k].lines), orderLines))
  }

  /** Invoice `k` belongs to order `oid + k` and bills group `k`'s goods at 18% tax plus the 500 deposit. */
  lemma SplitInvoicesBill(groups: seq<Group>, oid: OrderId, iid: InvoiceId, orderLines: seq<Line>)
    requires forall k :: 0 <= k < |groups| ==> SameGoods(LinesOf(orderLines, oid + k), groups[k].lines)
    ensures var r := SplitInvoices(groups, oid, iid, orderLines);
      forall k :: 0 <= k < |groups| ==>
        && r[k].id == iid + k && r[k].order == oid + k && r[k].status == InvoiceDraft
        && r[k].subtotal == LinesTotal(groups[k].lines)
        && r[k].totalAmount == r[k].subtotal * 1.18 + SplitDeposit
  {
    var r := SplitInvoices(groups, oid, iid, orderLines);
    forall k | 0 <= k < |groups|
      ensures r[k].subtotal == LinesTotal(groups[k].lines)
    {
      SameGoodsSums(LinesOf(orderLines, oid + k), groups[k].lines, 0);
    }
  }

  /** Sum of the invoices' subtotals. */
  function SubtotalSum(invoices: seq<Invoice>): Money {
    if |invoices| == 0 then 0.0 else SubtotalSum(invoices[..|invoices| - 1]) + invoices[|invoices| - 1].subtotal
  }

  /** Invoices that bill the groups one by one add up to the groups' total. */
  lemma {:induction false} SubtotalSumMatchesGroups(invoices: seq<Invoice>, groups: seq<Group>)
    requires |invoices| == |groups|
    requires forall k :: 0 <= k < |groups| ==> invoices[k].subtotal == LinesTotal(groups[k].lines)
    ensures SubtotalSum(invoices) == GroupsTotal(groups)
    decreases |groups|
  {
    if |groups| > 0 {
      SubtotalSumMatchesGroups(invoices[..|invoices| - 1], groups[..|groups| - 1]);
    }
  }

  /**
   * The vendor-splitting checkout: group the cart's lines by vendor, then per
   * group create a pending order, copy the lines into it and create its
   * invoice. Stock and the quotation are not touched.
   */
  function SplitCheckout(
    s: Store, customer: UserId, cart: QuotationId, nextOrder: OrderId, nextInvoice: InvoiceId, nextLine: LineId): Store
    requires KnownProducts(s.products, LinesOf(s.quotationLines, cart))
  {
    var groups := GroupByVendor(s.products, LinesOf(s.quotationLines, cart));
    var t := SplitOrders(Tables(s.orders, s.orderLines), customer, groups, nextOrder, nextLine);
    s.(orders := t.orders, orderLines := t.orderLines,
       invoices := s.invoices + SplitInvoices(groups, nextOrder, nextInvoice, t.orderLines))
  }

  /**
   * The split creates exactly one pending order per vendor in the cart,
   * keeps every earlier order, and touches neither stock nor the cart.
   */
  lemma SplitCheckoutOrders(
    s: Store, customer: UserId, cart: QuotationId, nextOrder: OrderId, nextInvoice: InvoiceId, nextLine: LineId)
    requires KnownProducts(s.products, LinesOf(s.quotationLines, cart))
    requires OrdersBelow(s.orders, nextOrder)
    ensures var groups := GroupByVendor(s.products, LinesOf(s.quotationLines, cart));
      var s' := SplitCheckout(s, customer, cart, nextOrder, nextInvoice, nextLine);
      && |groups| == |VendorSet(s.products, LinesOf(s.quotationLines, cart))|
      && s'.orders.Keys == s.orders.Keys + IdRange(nextOrder, |groups|)
      && (forall k :: k in s.orders ==> k in s'.orders && s'.orders[k] == s.orders[k])
      && (forall o :: nextOrder <= o < nextOrder + |groups| ==>
            o in s'.orders && s'.orders[o] == RentalOrder(o, customer, None, Pending, None))
      && s'.products == s.products && s'.quotations == s.quotations && s'.quotationLines == s.quotationLines
  {
    var groups := GroupByVendor(s.products, LinesOf(s.quotationLines, cart));
    SplitOrdersMakesOrders(Tables(s.orders, s.orderLines), customer, groups, nextOrder, nextLine);
  }

  lemma SplitOrdersMakesOrders(t: Tables, customer: UserId, groups: seq<Group>, oid: OrderId, lineBase: LineId)
    requires OrdersBelow(t.orders, oid)
    ensures var t' := SplitOrders(t, customer, groups, oid, lineBase);
      && t'.orders.Keys == t.orders.Keys + IdRange(oid, |groups|)
      && (forall k :: k in t.orders ==> k in t'.orders && t'.orders[k] == t.orders[k])
      && (forall o :: oid <= o < oid + |groups| ==>
            o in t'.orders && t'.orders[o] == RentalOrder(o, customer, None, Pending, None))
  {
    var t' := SplitOrders(t, customer, groups, oid, lineBase);
    SplitOrdersKeys(t, customer, groups, oid, lineBase);
    assert t'.orders.Keys == t.orders.Keys + IdRange(oid, |groups|);
    SplitOrdersKeepOld(t, customer, groups, oid, lineBase);
    SplitOrdersNew(t, customer, groups, oid, lineBase);
  }

  /** The order made for the `k`-th vendor holds that vendor's cart lines, and only those. */
  lemma SplitCheckoutLines(
    s: Store, customer: UserId, cart: QuotationId, nextOrder: OrderId, nextInvoice: InvoiceId, nextLine: LineId, k: nat)
    requires KnownProducts(s.products, LinesOf(s.quotationLines, cart))
    requires FreshFrom(Tables(s.orders, s.orderLines), nextOrder)
    requires k < |GroupByVendor(s.products, LinesOf(s.quotationLines, cart))|
    ensures var cartLines := LinesOf(s.quotationLines, cart);
      var v := GroupByVendor(s.products, cartLines)[k].vendor;
      var s' := SplitCheckout(s, customer, cart, nextOrder, nextInvoice, nextLine);
      SameGoods(LinesOf(s'.orderLines, nextOrder + k), OfVendor(s.products, cartLines, v))
  {
    var groups := GroupByVendor(s.products, LinesOf(s.quotationLines, cart));
    SplitOrdersLines(Tables(s.orders, s.orderLines), customer, groups, nextOrder, nextLine, k);
  }

  /**
   * Every new order gets exactly one invoice, in order, and the new
   * invoices' subtotals add up to the cart's total.
   */
  lemma SplitCheckoutInvoices(
    s: Store, customer: UserId, cart: QuotationId, nextOrder: OrderId, nextInvoice: InvoiceId, nextLine: LineId)
    requires KnownProducts(s.products, LinesOf(s.quotationLines, cart))
    requires FreshFrom(Tables(s.orders, s.orderLines), nextOrder)
    ensures var groups := GroupByVendor(s.products, LinesOf(s.quotationLines, cart));
      var s' := SplitCheckout(s, customer, cart, nextOrder, nextInvoice, nextLine);
      && |s'.invoices| == |s.invoices| + |groups|
      && s'.invoices[..|s.invoices|] == s.invoices
      && (forall i :: |s.invoices| <= i < |s'.invoices| ==>
            s'.invoices[i].order == nextOrder + (i - |s.invoices|) && s'.invoices[i].id == nextInvoice + (i - |s.invoices|))
      && SubtotalSum(s'.invoices[|s.invoices|..]) == LinesTotal(LinesOf(s.quotationLines, cart))
  {
    var cartLines := LinesOf(s.quotationLines, cart);
    var groups := GroupByVendor(s.products, cartLines);
    var t0 := Tables(s.orders, s.orderLines);
    var t := SplitOrders(t0, customer, groups, nextOrder, nextLine);
    forall k | 0 <= k < |groups|
      ensures SameGoods(LinesOf(t.orderLines, nextOrder + k), groups[k].lines)
    {
      SplitOrdersLines(t0, customer, groups, nextOrder, nextLine, k);
    }
    var invs := SplitInvoices(groups, nextOrder, nextInvoice, t.orderLines);
    SplitInvoicesBill(groups, nextOrder, nextInvoice, t.orderLines);
    var s' := SplitCheckout(s, customer, cart, nextOrder, nextInvoice, nextLine);
    assert s'.invoices == s.invoices + invs;
    assert s'.invoices[|s.invoices|..] == invs;
    SubtotalSumMatchesGroups(invs, groups);
    GroupSubtotalsSumToCart(s.products, cartLines);
  }

  /** Every line of a split order comes from one vendor: the vendor of its group. */
  lemma SplitOrdersAreSingleVendor(
    s: Store, customer: UserId, cart: QuotationId, nextOrder: OrderId, nextInvoice: InvoiceId, nextLine: LineId, k: nat)
    requires KnownProducts(s.products, LinesOf(s.quotationLines, cart))
    requires FreshFrom(Tables(s.orders, s.orderLines), nextOrder)
    requires k < |GroupByVendor(s.products, LinesOf(s.quotationLines, cart))|
    ensures var v := GroupByVendor(s.products, LinesOf(s.quotationLines, cart))[k].vendor;
      var s' := SplitCheckout(s, customer, cart, nextOrder, nextInvoice, nextLine);
      forall l :: l in LinesOf(s'.orderLines, nextOrder + k) ==>
        l.product in s.products && s.products[l.product].vendor == v
  {
    var cartLines := LinesOf(s.quotationLines, cart);
    var v := GroupByVendor(s.products, cartLines)[k].vendor;
    SplitCheckoutLines(s, customer, cart, nextOrder, nextInvoice, nextLine, k);
    var mine := LinesOf(SplitCheckout(s, customer, cart, nextOrder, nextInvoice, nextLine).orderLines, nextOrder + k);
    SameGoodsVendor(s.products, mine, OfVendor(s.products, cartLines, v), cartLines, v);
  }

  /** Lines with the same products as one vendor's lines are that vendor's too. */
  lemma SameGoodsVendor(products: map<ProductId, Product>, mine: seq<Line>, theirs: seq<Line>, lines: seq<Line>, v: UserId)
    requires KnownProducts(products, lines)
    requires theirs == OfVendor(products, lines, v)
    requires SameGoods(mine, theirs)
    ensures forall l :: l in mine ==> l.product in products && products[l.product].vendor == v
  {
    forall l | l in mine
      ensures l.product in products && products[l.product].vendor == v
    {
      var j :| 0 <= j < |mine| && mine[j] == l;
      assert theirs[j] in theirs;
    }
  }
}
