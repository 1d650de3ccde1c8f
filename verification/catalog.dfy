/**
 * Inventory availability, tiered rental pricing, variant rate fallback and the
 * line validators (Product, ProductVariant, QuotationLine.clean, OrderLine.clean
 * in rental/models.py).
 */
module Catalog {
  import opened Basics
  import opened Model

  // ---------------------------------------------------------------- availability

  /** The overlap test `start_date < end and end_date > start`: windows that only touch do not overlap. */
  predicate Overlaps(l: Line, start: Time, end: Time) {
    l.startDate < end && l.endDate > start
  }

  /** An order line holds stock of `pid` during [start, end). */
  predicate Reserves(orders: map<OrderId, RentalOrder>, l: Line, pid: ProductId, start: Time, end: Time) {
    && l.product == pid
    && l.parent in orders
    && Reserving(orders[l.parent].status)
    && Overlaps(l, start, end)
  }

  /**
   * The quantity held by reserving lines, leaving out the line whose id is
   * `exclude` (OrderLine.clean leaves itself out; availability leaves out nothing).
   */
  function ReservedQuantity(
    orders: map<OrderId, RentalOrder>, lines: seq<Line>, pid: ProductId,
    start: Time, end: Time, exclude: Option<LineId>): (r: int)
    ensures (forall l :: l in lines ==> l.quantity >= 0) ==> r >= 0
    ensures (forall l :: l in lines ==> !Reserves(orders, l, pid, start, end)) ==> r == 0
  {
    if |lines| == 0 then 0
    else
      var init := lines[..|lines| - 1];
      var last := lines[|lines| - 1];
      assert lines == init + [last];
      ReservedQuantity(orders, init, pid, start, end, exclude)
      + (if Reserves(orders, last, pid, start, end) && exclude != Some(last.id) then last.quantity else 0)
  }

  lemma {:induction false} ReservedConcat(
    orders: map<OrderId, RentalOrder>, a: seq<Line>, b: seq<Line>, pid: ProductId,
    start: Time, end: Time, exclude: Option<LineId>)
    ensures ReservedQuantity(orders, a + b, pid, start, end, exclude)
         == ReservedQuantity(orders, a, pid, start, end, exclude)
          + ReservedQuantity(orders, b, pid, start, end, exclude)
    decreases |b|
  {
    if |b| == 0 {
      assert a + b == a;
    } else {
      var b' := b[..|b| - 1];
      assert (a + b)[..|a + b| - 1] == a + b';
      ReservedConcat(orders, a, b', pid, start, end, exclude);
    }
  }

  /** One line holds its own quantity exactly when it reserves and is not the excluded line. */
  lemma ReservedSingle(
    orders: map<OrderId, RentalOrder>, l: Line, pid: ProductId,
    start: Time, end: Time, exclude: Option<LineId>)
    ensures ReservedQuantity(orders, [l], pid, start, end, exclude)
         == (if Reserves(orders, l, pid, start, end) && exclude != Some(l.id) then l.quantity else 0)
  {
    assert [l][..0] == [];
  }

  /** `Product.get_available_quantity(start_date, end_date)`. */
  function AvailableQuantity(s: Store, p: Product, start: Option<Time>, end: Option<Time>): (r: int)
    ensures start.None? || end.None? ==> r == p.quantityOnHand
    ensures start.Some? && end.Some? ==>
      var free := p.quantityOnHand - ReservedQuantity(s.orders, s.orderLines, p.id, start.value, end.value, None);
      r >= 0 && r >= free && (r == 0 || r == free)
  {
    if start.None? || end.None? then p.quantityOnHand
    else
      var reserved := ReservedQuantity(s.orders, s.orderLines, p.id, start.value, end.value, None);
      MaxInt(0, p.quantityOnHand - reserved)
  }

  /**
   * A line that does not hold stock of the product in the window (another
   * product, an order that is pending, returned or cancelled, or a window that
   * at most touches) leaves availability unchanged wherever it is stored.
   */
  lemma NonReservingLineLeavesAvailability(s: Store, p: Product, start: Time, end: Time, l: Line, i: nat)
    requires i <= |s.orderLines|
    requires !Reserves(s.orders, l, p.id, start, end)
    ensures AvailableQuantity(s.(orderLines := s.orderLines[..i] + [l] + s.orderLines[i..]), p, Some(start), Some(end))
         == AvailableQuantity(s, p, Some(start), Some(end))
  {
    var a, b := s.orderLines[..i], s.orderLines[i..];
    assert s.orderLines == a + b;
    ReservedConcat(s.orders, a + [l], b, p.id, start, end, None);
    ReservedConcat(s.orders, a, [l], p.id, start, end, None);
    ReservedConcat(s.orders, a, b, p.id, start, end, None);
  }

  /** Pending, returned and cancelled orders, and windows that only touch, never reserve. */
  lemma NonReservingCases(orders: map<OrderId, RentalOrder>, l: Line, pid: ProductId, start: Time, end: Time)
    requires l.parent in orders
    requires orders[l.parent].status in {Pending, Returned, Cancelled} || l.endDate == start || l.startDate == end
    ensures !Reserves(orders, l, pid, start, end)
  {
  }

  /**
   * Storing one more reserving line takes its quantity off the free stock, with the
   * floor at zero: availability never rises, and falls by at most the line's quantity.
   */
  lemma ReservingLineNeverIncreasesAvailability(s: Store, p: Product, start: Time, end: Time, l: Line, i: nat)
    requires i <= |s.orderLines|
    requires Reserves(s.orders, l, p.id, start, end)
    requires l.quantity >= 0
    ensures var after := AvailableQuantity(s.(orderLines := s.orderLines[..i] + [l] + s.orderLines[i..]), p, Some(start), Some(end));
            var before := AvailableQuantity(s, p, Some(start), Some(end));
            var free := p.quantityOnHand - ReservedQuantity(s.orders, s.orderLines, p.id, start, end, None);
            && after == MaxInt(0, free - l.quantity)
            && after <= before && before - after <= l.quantity
  {
    var a, b := s.orderLines[..i], s.orderLines[i..];
    var lines' := s.orderLines[..i] + [l] + s.orderLines[i..];
    var reserved := ReservedQuantity(s.orders, s.orderLines, p.id, start, end, None);
    assert ReservedQuantity(s.orders, lines', p.id, start, end, None) == reserved + l.quantity by {
      assert s.orderLines == a + b;
      ReservedConcat(s.orders, a + [l], b, p.id, start, end, None);
      ReservedConcat(s.orders, a, [l], p.id, start, end, None);
      ReservedConcat(s.orders, a, b, p.id, start, end, None);
      ReservedSingle(s.orders, l, p.id, start, end, None);
    }
  }

  // ---------------------------------------------------------------- pricing

  /** Which rate prices a rental: coarsest configured unit first, never a cost comparison. */
  datatype Tier = WeekTier | DayTier | HourTier | FlatTier

  lemma WeeksFromDays(d: int)
    ensures (d / SecondsPerDay) / 7 == d / SecondsPerWeek
  {
    var q := d / SecondsPerWeek;
    var r := d % SecondsPerWeek;
    assert d == SecondsPerWeek * q + r && 0 <= r < SecondsPerWeek;
    var rd := r / SecondsPerDay;
    assert r == SecondsPerDay * rd + r % SecondsPerDay;
    assert 0 <= rd < 7;
    assert d == SecondsPerDay * (7 * q + rd) + r % SecondsPerDay;
    assert d / SecondsPerDay == 7 * q + rd;
  }

  /** The tier `calculate_rental_price` settles on for a duration, in seconds. */
  function TierFor(p: Product, duration: int): (t: Tier)
    ensures t == WeekTier <==> duration >= SecondsPerWeek && p.pricePerWeek > 0.0
    ensures t == DayTier <==>
      !(duration >= SecondsPerWeek && p.pricePerWeek > 0.0) && duration >= SecondsPerDay && p.pricePerDay > 0.0
    ensures t == HourTier <==>
      !(duration >= SecondsPerWeek && p.pricePerWeek > 0.0) && !(duration >= SecondsPerDay && p.pricePerDay > 0.0)
      && duration > 0 && p.pricePerHour > 0.0
  {
    var days := duration / SecondsPerDay;
    WeeksFromDays(duration);
    var weeks := days / 7;
    if weeks > 0 && p.pricePerWeek > 0.0 then WeekTier
    else if days > 0 && p.pricePerDay > 0.0 then DayTier
    else if duration > 0 && p.pricePerHour > 0.0 then HourTier
    else FlatTier
  }

  /** The price of a rental lasting `duration` seconds, both dates being present. */
  function DurationPrice(p: Product, duration: int): (r: Money)
    ensures match TierFor(p, duration)
      case WeekTier => r == p.pricePerWeek * (duration / SecondsPerWeek) as real
      case DayTier => r == p.pricePerDay * (duration / SecondsPerDay) as real
      case HourTier => r == p.pricePerHour * (duration as real / SecondsPerHour as real)
      case FlatTier => r == p.salesPrice
  {
    var hours := duration as real / SecondsPerHour as real;
    var days := duration / SecondsPerDay;
    var weeks := days / 7;
    WeeksFromDays(duration);
    if weeks > 0 && p.pricePerWeek > 0.0 then p.pricePerWeek * weeks as real
    else if days > 0 && p.pricePerDay > 0.0 then p.pricePerDay * days as real
    else if hours > 0.0 && p.pricePerHour > 0.0 then p.pricePerHour * hours
    else p.salesPrice
  }

  /** `Product.calculate_rental_price(start_date, end_date)`: a missing date prices the rental at 0. */
  function RentalPrice(p: Product, start: Option<Time>, end: Option<Time>): (r: Money)
    ensures start.None? || end.None? ==> r == 0.0
    ensures start.Some? && end.Some? ==> r == DurationPrice(p, end.value - start.value)
  {
    if start.None? || end.None? then 0.0
    else DurationPrice(p, end.value - start.value)
  }

  /** A 10-day rental with day rate 3000 and week rate 18000 costs one week: 18000, not 30000. */
  lemma TenDaysChargedAsOneWeek(p: Product, start: Time)
    requires p.pricePerDay == 3000.0 && p.pricePerWeek == 18000.0
    ensures RentalPrice(p, Some(start), Some(start + 10 * SecondsPerDay)) == 18000.0
  {
    var d := 10 * SecondsPerDay;
    assert d / SecondsPerWeek == 1;
    assert TierFor(p, d) == WeekTier;
  }

  /** Whole weeks and whole days only grow with the duration. */
  lemma WholeUnitsMonotone(a: int, b: int)
    requires a <= b
    ensures a / SecondsPerWeek <= b / SecondsPerWeek
    ensures a / SecondsPerDay <= b / SecondsPerDay
  {
  }

  /** A duration between `weeks` and `weeks + 1` whole weeks counts as `weeks` weeks. */
  lemma WholeWeeks(n: int, weeks: int)
    requires SecondsPerWeek * weeks <= n < SecondsPerWeek * weeks + SecondsPerWeek
    ensures n / SecondsPerWeek == weeks
  {
  }

  /** In the week tier the leftover days are free: only whole weeks are charged. */
  lemma LeftoverDaysAreFree(p: Product, weeks: nat, extra: nat)
    requires weeks >= 1 && p.pricePerWeek > 0.0
    requires extra < SecondsPerWeek
    ensures DurationPrice(p, weeks * SecondsPerWeek + extra)
         == DurationPrice(p, weeks * SecondsPerWeek)
         == p.pricePerWeek * weeks as real
  {
    var d0 := weeks * SecondsPerWeek;
    var d1 := d0 + extra;
    WholeWeeks(d0, weeks);
    WholeWeeks(d1, weeks);
    WeeksPrice(p, d0, weeks);
    WeeksPrice(p, d1, weeks);
  }

  /** A duration of at least one whole week, with a week rate, is charged per whole week. */
  lemma WeeksPrice(p: Product, d: int, weeks: int)
    requires weeks >= 1 && p.pricePerWeek > 0.0 && d / SecondsPerWeek == weeks
    ensures DurationPrice(p, d) == p.pricePerWeek * weeks as real
  {
    assert TierFor(p, d) == WeekTier;
  }

  /** In the day tier the leftover hours are free. */
  lemma LeftoverHoursAreFree(p: Product, days: nat, extra: nat)
    requires 1 <= days < 7 && p.pricePerDay > 0.0
    requires extra < SecondsPerDay
    ensures DurationPrice(p, days * SecondsPerDay + extra) == p.pricePerDay * days as real
  {
    var d := days * SecondsPerDay + extra;
    assert d / SecondsPerDay == days;
  }

  lemma ScaleMonotone(c: real, x: real, y: real)
    requires c >= 0.0 && x <= y
    ensures c * x <= c * y
  {
    assert c * y - c * x == c * (y - x);
  }

  lemma WeekPriceMonotone(p: Product, d1: int, d2: int)
    requires d1 <= d2
    requires TierFor(p, d1) == WeekTier && TierFor(p, d2) == WeekTier
    ensures DurationPrice(p, d1) <= DurationPrice(p, d2)
  {
    var w1, w2 := d1 / SecondsPerWeek, d2 / SecondsPerWeek;
    assert w1 <= w2 by { WholeUnitsMonotone(d1, d2); }
    ScaleMonotone(p.pricePerWeek, w1 as real, w2 as real);
  }

  lemma DayPriceMonotone(p: Product, d1: int, d2: int)
    requires d1 <= d2
    requires TierFor(p, d1) == DayTier && TierFor(p, d2) == DayTier
    ensures DurationPrice(p, d1) <= DurationPrice(p, d2)
  {
    var n1, n2 := d1 / SecondsPerDay, d2 / SecondsPerDay;
    assert n1 <= n2 by { WholeUnitsMonotone(d1, d2); }
    ScaleMonotone(p.pricePerDay, n1 as real, n2 as real);
  }

  lemma HourPriceMonotone(p: Product, d1: int, d2: int)
    requires d1 <= d2
    requires TierFor(p, d1) == HourTier && TierFor(p, d2) == HourTier
    ensures DurationPrice(p, d1) <= DurationPrice(p, d2)
  {
    var h1, h2 := d1 as real / SecondsPerHour as real, d2 as real / SecondsPerHour as real;
    assert h1 <= h2 by { assert SecondsPerHour as real == 3600.0; }
    ScaleMonotone(p.pricePerHour, h1, h2);
  }

  /** Within one tier, a longer rental never costs less. */
  lemma PriceMonotoneWithinTier(p: Product, d1: int, d2: int)
    requires d1 <= d2
    requires TierFor(p, d1) == TierFor(p, d2)
    ensures DurationPrice(p, d1) <= DurationPrice(p, d2)
  {
    match TierFor(p, d1)
    case WeekTier => WeekPriceMonotone(p, d1, d2);
    case DayTier => DayPriceMonotone(p, d1, d2);
    case HourTier => HourPriceMonotone(p, d1, d2);
    case FlatTier =>
  }

  // ---------------------------------------------------------------- variants

  /** `own or inherited`: a null or zero override falls back to the product's rate. */
  function Inherit(own: Option<Money>, inherited: Money): Money {
    if own.Some? && own.value != 0.0 then own.value else inherited
  }

  function VariantPricePerHour(v: Variant, p: Product): (r: Money)
    requires v.product == p.id
    ensures v.pricePerHour.Some? && v.pricePerHour.value != 0.0 ==> r == v.pricePerHour.value
    ensures v.pricePerHour.None? || v.pricePerHour.value == 0.0 ==> r == p.pricePerHour
  {
    Inherit(v.pricePerHour, p.pricePerHour)
  }

  function VariantPricePerDay(v: Variant, p: Product): (r: Money)
    requires v.product == p.id
    ensures v.pricePerDay.Some? && v.pricePerDay.value != 0.0 ==> r == v.pricePerDay.value
    ensures v.pricePerDay.None? || v.pricePerDay.value == 0.0 ==> r == p.pricePerDay
  {
    Inherit(v.pricePerDay, p.pricePerDay)
  }

  function VariantPricePerWeek(v: Variant, p: Product): (r: Money)
    requires v.product == p.id
    ensures v.pricePerWeek.Some? && v.pricePerWeek.value != 0.0 ==> r == v.pricePerWeek.value
    ensures v.pricePerWeek.None? || v.pricePerWeek.value == 0.0 ==> r == p.pricePerWeek
  {
    Inherit(v.pricePerWeek, p.pricePerWeek)
  }

  // ---------------------------------------------------------------- line validation

  /** `QuotationLine.clean`: the first failing check, or None when the line is acceptable. */
  function CleanQuotationLine(s: Store, l: Line): (r: Option<ValidationError>)
    requires l.product in s.products
    ensures l.startDate >= l.endDate ==> r == Some(EndNotAfterStart)
    ensures r.None? <==>
      l.startDate < l.endDate
      && l.quantity <= AvailableQuantity(s, s.products[l.product], Some(l.startDate), Some(l.endDate))
  {
    if l.startDate >= l.endDate then Some(EndNotAfterStart)
    else
      var available := AvailableQuantity(s, s.products[l.product], Some(l.startDate), Some(l.endDate));
      if l.quantity > available then Some(OnlyAvailable(available)) else None
  }

  /**
   * `OrderLine.clean`: as above, but the stored copy of the line itself does not
   * count and the availability is not clamped at zero.
   */
  function CleanOrderLine(s: Store, l: Line): (r: Option<ValidationError>)
    requires l.product in s.products
    ensures l.startDate >= l.endDate ==> r == Some(EndNotAfterStart)
    ensures r.None? <==>
      l.startDate < l.endDate
      && l.quantity + ReservedQuantity(s.orders, s.orderLines, l.product, l.startDate, l.endDate, Some(l.id))
         <= s.products[l.product].quantityOnHand
  {
    if l.startDate >= l.endDate then Some(EndNotAfterStart)
    else
      var reserved := ReservedQuantity(s.orders, s.orderLines, l.product, l.startDate, l.endDate, Some(l.id));
      var available := s.products[l.product].quantityOnHand - reserved;
      if l.quantity > available then Some(OnlyAvailableReserved(available, reserved)) else None
  }

  /** Excluding an id that no stored line carries changes nothing. */
  lemma {:induction false} ExcludeAbsentId(
    orders: map<OrderId, RentalOrder>, lines: seq<Line>, pid: ProductId, start: Time, end: Time, id: LineId)
    requires forall l :: l in lines ==> l.id != id
    ensures ReservedQuantity(orders, lines, pid, start, end, Some(id))
         == ReservedQuantity(orders, lines, pid, start, end, None)
    decreases |lines|
  {
    if |lines| > 0 {
      var init := lines[..|lines| - 1];
      assert lines == init + [lines[|lines| - 1]];
      ExcludeAbsentId(orders, init, pid, start, end, id);
    }
  }

  /**
   * For a line not yet stored and asking for at least one unit, the two
   * validators agree: the clamp at zero only matters for a quantity of 0.
   */
  lemma CleanersAgreeOnNewLine(s: Store, l: Line)
    requires l.product in s.products && s.products[l.product].id == l.product
    requires forall m :: m in s.orderLines ==> m.id != l.id
    requires l.quantity >= 1
    ensures CleanQuotationLine(s, l).None? <==> CleanOrderLine(s, l).None?
  {
    ExcludeAbsentId(s.orders, s.orderLines, l.product, l.startDate, l.endDate, l.id);
  }

  /** Re-validating a stored order line does not count the line against itself. */
  lemma OrderLineIgnoresItself(s: Store, l: Line)
    requires l.product in s.products
    requires forall m :: m in s.orderLines ==> m.id != l.id
    ensures CleanOrderLine(s.(orderLines := s.orderLines + [l]), l) == CleanOrderLine(s, l)
  {
    var s' := s.(orderLines := s.orderLines + [l]);
    assert ReservedQuantity(s'.orders, s'.orderLines, l.product, l.startDate, l.endDate, Some(l.id))
        == ReservedQuantity(s.orders, s.orderLines, l.product, l.startDate, l.endDate, Some(l.id)) by {
      ReservedConcat(s.orders, s.orderLines, [l], l.product, l.startDate, l.endDate, Some(l.id));
      assert [l][..0] == [];
    }
  }
}
