/**
 * Invoice arithmetic, the payment ledger and the late fee (Invoice, Payment and
 * Return.calculate_late_fee in rental/models.py).
 */
module Billing {
  import opened Basics
  import opened Model
  import opened Lines
  import opened Orders

  // ---------------------------------------------------------------- invoice

  /**
   * `Invoice.save()`: the subtotal is re-read from the order's lines, the
   * discount comes off before tax, and deposit and late fee are added on top.
   */
  function SaveInvoice(inv: Invoice, orderLines: seq<Line>): (r: Invoice)
    ensures r.subtotal == LinesTotal(LinesOf(orderLines, inv.order))
    ensures r.taxAmount == (r.subtotal - inv.discountAmount) * inv.taxRate / 100.0
    ensures r.totalAmount
         == (r.subtotal - inv.discountAmount) * (1.0 + inv.taxRate / 100.0) + inv.securityDeposit + inv.lateFee
    ensures r == inv.(subtotal := r.subtotal, taxAmount := r.taxAmount, totalAmount := r.totalAmount)
  {
    var subtotal := LinesTotal(LinesOf(orderLines, inv.order));
    var afterDiscount := subtotal - inv.discountAmount;
    var tax := afterDiscount * (inv.taxRate / 100.0);
    inv.(subtotal := subtotal, taxAmount := tax, totalAmount := afterDiscount + tax + inv.securityDeposit + inv.lateFee)
  }

  /** An invoice whose stored totals agree with its order's lines. */
  predicate TotalsCurrent(inv: Invoice, orderLines: seq<Line>) {
    SaveInvoice(inv, orderLines) == inv
  }

  /** Saving twice is saving once: the recomputation only reads inputs it never writes. */
  lemma SaveInvoiceIdempotent(inv: Invoice, orderLines: seq<Line>)
    ensures TotalsCurrent(SaveInvoice(inv, orderLines), orderLines)
  {
  }

  /** Raising the late fee on a current invoice and saving it raises the total and the balance by the difference. */
  lemma RaisedLateFee(inv: Invoice, orderLines: seq<Line>, fee: Money)
    requires TotalsCurrent(inv, orderLines)
    ensures var inv' := SaveInvoice(inv.(lateFee := fee), orderLines);
      && inv'.status == inv.status && inv'.amountPaid == inv.amountPaid
      && inv'.totalAmount == inv.totalAmount + (fee - inv.lateFee)
  {
    var inv' := SaveInvoice(inv.(lateFee := fee), orderLines);
    assert inv'.subtotal == inv.subtotal;
  }

  /** `get_balance()`: what is still owed (negative when overpaid). */
  function Balance(inv: Invoice): (b: Money)
    ensures inv.amountPaid + b == inv.totalAmount
  {
    inv.totalAmount - inv.amountPaid
  }

  /** `is_fully_paid()`. */
  predicate IsFullyPaid(inv: Invoice) {
    inv.amountPaid >= inv.totalAmount
  }

  lemma FullyPaidIffNothingOwed(inv: Invoice)
    ensures IsFullyPaid(inv) <==> Balance(inv) <= 0.0
  {
  }

  /** The security deposit every checkout and every back-office invoice charges. */
  const DefaultDeposit: Money := 1000.0

  /**
   * The invoice `Invoice.objects.create` stores for a new order: the view's
   * arguments with the totals over the order's lines. NewInvoiceCurrent shows
   * this is exactly what `save()` writes back.
   */
  function NewInvoice(id: InvoiceId, order: OrderId, orderLines: seq<Line>): (inv: Invoice)
    ensures inv.id == id && inv.order == order && inv.status == InvoiceDraft
    ensures inv.discountAmount == 0.0 && inv.taxRate == 18.0 && inv.securityDeposit == DefaultDeposit
    ensures inv.lateFee == 0.0 && inv.amountPaid == 0.0 && inv.paidAt.None?
    ensures inv.subtotal == LinesTotal(LinesOf(orderLines, order))
    ensures inv.totalAmount == inv.subtotal * 1.18 + DefaultDeposit
  {
    var t := ParentTotals(orderLines, order);
    Invoice(id, order, InvoiceDraft, t.subtotal, 0.0, 18.0, t.tax, DefaultDeposit, 0.0,
            t.grandTotal + DefaultDeposit, 0.0, None)
  }

  /** `save()` on the created invoice changes nothing: its totals already agree with the order's lines. */
  lemma NewInvoiceCurrent(id: InvoiceId, order: OrderId, orderLines: seq<Line>)
    ensures TotalsCurrent(NewInvoice(id, order, orderLines), orderLines)
  {
    var inv := NewInvoice(id, order, orderLines);
    var saved := SaveInvoice(inv, orderLines);
    assert saved.subtotal == inv.subtotal;
    assert saved.taxAmount == inv.taxAmount;
  }

  // ---------------------------------------------------------------- payments

  /** `sum(p.amount for p in invoice.payments.all())`. */
  function PaymentsTotal(payments: seq<Payment>, id: InvoiceId): Money {
    if |payments| == 0 then 0.0
    else
      var last := payments[|payments| - 1];
      PaymentsTotal(payments[..|payments| - 1], id) + (if last.invoice == id then last.amount else 0.0)
  }

  /** An invoice nobody has paid against has paid nothing. */
  lemma {:induction false} PaymentsTotalAbsent(payments: seq<Payment>, id: InvoiceId)
    requires forall p :: p in payments ==> p.invoice != id
    ensures PaymentsTotal(payments, id) == 0.0
    decreases |payments|
  {
    if |payments| > 0 {
      PaymentsTotalAbsent(payments[..|payments| - 1], id);
    }
  }

  lemma {:induction false} PaymentsTotalConcat(a: seq<Payment>, b: seq<Payment>, id: InvoiceId)
    ensures PaymentsTotal(a + b, id) == PaymentsTotal(a, id) + PaymentsTotal(b, id)
    decreases |b|
  {
    if |b| == 0 {
      assert a + b == a;
    } else {
      var b' := b[..|b| - 1];
      assert (a + b)[..|a + b| - 1] == a + b';
      PaymentsTotalConcat(a, b', id);
    }
  }

  /** Taking one payment out of the ledger takes exactly its amount off its invoice's sum. */
  lemma PaymentsTotalWithout(b: seq<Payment>, k: nat, id: InvoiceId)
    requires k < |b|
    ensures PaymentsTotal(b, id)
         == PaymentsTotal(b[..k] + b[k + 1..], id) + (if b[k].invoice == id then b[k].amount else 0.0)
  {
    var before, after := b[..k], b[k + 1..];
    var v := if b[k].invoice == id then b[k].amount else 0.0;
    assert PaymentsTotal(b, id) == PaymentsTotal(before + [b[k]], id) + PaymentsTotal(after, id) by {
      assert b == (before + [b[k]]) + after;
      PaymentsTotalConcat(before + [b[k]], after, id);
    }
    assert PaymentsTotal(before + [b[k]], id) == PaymentsTotal(before, id) + v by {
      assert (before + [b[k]])[..|before|] == before;
    }
    assert PaymentsTotal(before + after, id) == PaymentsTotal(before, id) + PaymentsTotal(after, id) by {
      PaymentsTotalConcat(before, after, id);
    }
  }

  /** The recomputed amount paid does not depend on the order in which payments were stored. */
  lemma {:induction false} PaymentsTotalPermutation(a: seq<Payment>, b: seq<Payment>, id: InvoiceId)
    requires multiset(a) == multiset(b)
    ensures PaymentsTotal(a, id) == PaymentsTotal(b, id)
    decreases |a|
  {
    if |a| == 0 {
      assert |b| == |multiset(b)| == 0;
    } else {
      var a' := a[..|a| - 1];
      var x := a[|a| - 1];
      assert a == a' + [x];
      assert x in multiset(b);
      var k :| 0 <= k < |b| && b[k] == x;
      var rest := b[..k] + b[k + 1..];
      assert b == b[..k] + [x] + b[k + 1..];
      assert multiset(rest) == multiset(b) - multiset{x};
      PaymentsTotalPermutation(a', rest, id);
      PaymentsTotalWithout(b, k, id);
    }
  }

  /** The status step of `Payment.save()`, before the invoice itself is saved. */
  function RecordPaid(inv: Invoice, paid: Money, now: Time): (r: Invoice)
    ensures r.amountPaid == paid
    ensures paid >= inv.totalAmount ==> r.status == Paid && r.paidAt == Some(now)
    ensures 0.0 < paid < inv.totalAmount ==> r.status == PartiallyPaid && r.paidAt == inv.paidAt
    ensures paid <= 0.0 && paid < inv.totalAmount ==> r.status == inv.status && r.paidAt == inv.paidAt
    ensures r.(amountPaid := inv.amountPaid, status := inv.status, paidAt := inv.paidAt) == inv
  {
    if paid >= inv.totalAmount then inv.(amountPaid := paid, status := Paid, paidAt := Some(now))
    else if paid > 0.0 then inv.(amountPaid := paid, status := PartiallyPaid)
    else inv.(amountPaid := paid)
  }

  /**
   * `Payment.save()`: store the payment, set the invoice's amount paid to the
   * sum of all its payments, decide its status against the total as it stood
   * before this save, then save the invoice (which recomputes its totals).
   */
  function SavePayment(s: Store, pay: Payment, now: Time): (s': Store)
    requires FindFirst(s.invoices, (inv: Invoice) => inv.id == pay.invoice).Some?
    ensures |s'.invoices| == |s.invoices|
    ensures var i := FindFirst(s.invoices, (inv: Invoice) => inv.id == pay.invoice).value;
      var old_ := s.invoices[i];
      var paid := PaymentsTotal(s.payments + [pay], pay.invoice);
      var new_ := s'.invoices[i];
      && s'.payments == s.payments + [pay]
      && (forall j :: 0 <= j < |s.invoices| && j != i ==> s'.invoices[j] == s.invoices[j])
      && new_.amountPaid == paid
      && (paid >= old_.totalAmount ==> new_.status == Paid && new_.paidAt == Some(now))
      && (0.0 < paid < old_.totalAmount ==> new_.status == PartiallyPaid && new_.paidAt == old_.paidAt)
      && (paid <= 0.0 && paid < old_.totalAmount ==> new_.status == old_.status && new_.paidAt == old_.paidAt)
      && TotalsCurrent(new_, s.orderLines)
      && new_.id == old_.id && new_.order == old_.order && new_.discountAmount == old_.discountAmount
      && new_.taxRate == old_.taxRate && new_.securityDeposit == old_.securityDeposit
      && new_.lateFee == old_.lateFee
    ensures s' == s.(payments := s'.payments, invoices := s'.invoices)
  {
    var i := FindFirst(s.invoices, (inv: Invoice) => inv.id == pay.invoice).value;
    var payments := s.payments + [pay];
    var inv := s.invoices[i];
    var updated := RecordPaid(inv, PaymentsTotal(payments, inv.id), now);
    var saved := SaveInvoice(updated, s.orderLines);
    SaveInvoiceIdempotent(updated, s.orderLines);
    s.(payments := payments, invoices := s.invoices[i := saved])
  }

  /** The invoice's stored amount paid is its payments' sum and its totals are current. */
  predicate Reconciled(s: Store, i: nat)
    requires i < |s.invoices|
  {
    s.invoices[i].amountPaid == PaymentsTotal(s.payments, s.invoices[i].id)
    && TotalsCurrent(s.invoices[i], s.orderLines)
  }

  /** Paying exactly the balance of a reconciled invoice settles it. */
  lemma PayingBalanceSettles(s: Store, id: InvoiceId, now: Time)
    requires FindFirst(s.invoices, (inv: Invoice) => inv.id == id).Some?
    requires Reconciled(s, FindFirst(s.invoices, (inv: Invoice) => inv.id == id).value)
    ensures var i := FindFirst(s.invoices, (inv: Invoice) => inv.id == id).value;
      var s' := SavePayment(s, Payment(id, Balance(s.invoices[i])), now);
      IsFullyPaid(s'.invoices[i]) && s'.invoices[i].status == Paid && Reconciled(s', i)
  {
    var i := FindFirst(s.invoices, (inv: Invoice) => inv.id == id).value;
    var pay := Payment(id, Balance(s.invoices[i]));
    var s' := SavePayment(s, pay, now);
    assert (s.payments + [pay])[..|s.payments|] == s.payments;
    assert PaymentsTotal(s.payments + [pay], id) == s.invoices[i].totalAmount;
    assert s'.orderLines == s.orderLines;
  }

  /** Storing any payment keeps the invoice reconciled. */
  lemma SavePaymentReconciles(s: Store, pay: Payment, now: Time)
    requires FindFirst(s.invoices, (inv: Invoice) => inv.id == pay.invoice).Some?
    ensures Reconciled(SavePayment(s, pay, now), FindFirst(s.invoices, (inv: Invoice) => inv.id == pay.invoice).value)
  {
  }

  /** A payment within the balance of a reconciled invoice never takes the amount paid past the total. */
  lemma PaymentWithinBalance(s: Store, pay: Payment, now: Time)
    requires FindFirst(s.invoices, (inv: Invoice) => inv.id == pay.invoice).Some?
    requires Reconciled(s, FindFirst(s.invoices, (inv: Invoice) => inv.id == pay.invoice).value)
    requires pay.amount <= Balance(s.invoices[FindFirst(s.invoices, (inv: Invoice) => inv.id == pay.invoice).value])
    ensures var i := FindFirst(s.invoices, (inv: Invoice) => inv.id == pay.invoice).value;
      var s' := SavePayment(s, pay, now);
      && s'.invoices[i].totalAmount == s.invoices[i].totalAmount
      && s'.invoices[i].amountPaid <= s'.invoices[i].totalAmount
  {
    var i := FindFirst(s.invoices, (inv: Invoice) => inv.id == pay.invoice).value;
    var s' := SavePayment(s, pay, now);
    assert s'.invoices[i].amountPaid == s.invoices[i].amountPaid + pay.amount by {
      assert (s.payments + [pay])[..|s.payments|] == s.payments;
    }
    TotalsAgree(s.invoices[i], s'.invoices[i], s.orderLines);
  }

  /** Two current invoices of the same order with the same discount, tax rate, deposit and late fee have the same total. */
  lemma TotalsAgree(a: Invoice, b: Invoice, orderLines: seq<Line>)
    requires TotalsCurrent(a, orderLines) && TotalsCurrent(b, orderLines)
    requires a.order == b.order && a.discountAmount == b.discountAmount && a.taxRate == b.taxRate
    requires a.securityDeposit == b.securityDeposit && a.lateFee == b.lateFee
    ensures a.totalAmount == b.totalAmount
  {
    assert SaveInvoice(a, orderLines).totalAmount == SaveInvoice(b, orderLines).totalAmount;
  }

  // ---------------------------------------------------------------- late fee

  /** The fee per late day when none is given. */
  const DefaultLateFeeRate: int := 100

  /** Whole days a return at `returned` is late for one line; under a day late counts as 0. */
  function LineLateDays(l: Line, returned: Time): (n: nat)
    ensures n == 0 <==> returned < l.endDate + SecondsPerDay
    ensures n > 0 ==> l.endDate + n * SecondsPerDay <= returned < l.endDate + (n + 1) * SecondsPerDay
  {
    if returned > l.endDate then
      var lateDays := (returned - l.endDate) / SecondsPerDay;
      if lateDays > 0 then lateDays else 0
    else 0
  }

  /** `total_late_days` of `calculate_late_fee`: the late days summed over the order's lines. */
  function LateDays(lines: seq<Line>, returned: Time): (n: nat)
    ensures (forall l :: l in lines ==> returned < l.endDate + SecondsPerDay) ==> n == 0
    ensures forall l :: l in lines ==> LineLateDays(l, returned) <= n
  {
    if |lines| == 0 then 0
    else
      var init := lines[..|lines| - 1];
      var last := lines[|lines| - 1];
      assert lines == init + [last];
      LateDays(init, returned) + LineLateDays(last, returned)
  }

  /** `Return.calculate_late_fee(daily_rate)`. */
  function LateFee(lines: seq<Line>, returned: Time, dailyRate: int): (fee: Money)
    ensures dailyRate >= 0 ==> fee >= 0.0
    ensures exists days: nat :: fee == (dailyRate * days) as real
    ensures (forall l :: l in lines ==> returned <= l.endDate) ==> fee == 0.0
  {
    var days := LateDays(lines, returned);
    (dailyRate * days) as real
  }

  /** The late days of two line tables taken together are the sum of each table's late days. */
  lemma {:induction false} LateDaysConcat(a: seq<Line>, b: seq<Line>, returned: Time)
    ensures LateDays(a + b, returned) == LateDays(a, returned) + LateDays(b, returned)
    decreases |b|
  {
    if |b| == 0 {
      assert a + b == a;
    } else {
      var init := b[..|b| - 1];
      assert (a + b)[..|a + b| - 1] == a + init;
      assert (a + b)[|a + b| - 1] == b[|b| - 1];
      LateDaysConcat(a, init, returned);
    }
  }

  /** One line on its own is late by exactly its whole late days. */
  lemma LateDaysSingle(l: Line, returned: Time)
    ensures LateDays([l], returned) == LineLateDays(l, returned)
  {
    assert [l][..0] == [];
  }

  /**
   * The fee is additive over the order's lines: with LateFeeSingle it is the daily
   * rate times the whole late days summed line by line.
   */
  lemma LateFeeConcat(a: seq<Line>, b: seq<Line>, returned: Time, dailyRate: int)
    ensures LateFee(a + b, returned, dailyRate)
      == LateFee(a, returned, dailyRate) + LateFee(b, returned, dailyRate)
  {
    var da, db := LateDays(a, returned), LateDays(b, returned);
    assert LateDays(a + b, returned) == da + db by { LateDaysConcat(a, b, returned); }
    assert LateFee(a + b, returned, dailyRate) == (dailyRate * (da + db)) as real;
    assert LateFee(a, returned, dailyRate) == (dailyRate * da) as real;
    assert LateFee(b, returned, dailyRate) == (dailyRate * db) as real;
    RateTimesSum(dailyRate, da, db);
  }

  /** The charge for two counts of days together is the sum of their charges. */
  lemma RateTimesSum(rate: int, x: int, y: int)
    ensures (rate * (x + y)) as real == (rate * x) as real + (rate * y) as real
  {
    assert rate * (x + y) == rate * x + rate * y;
  }

  /** The fee for one line is the daily rate times that line's whole late days. */
  lemma LateFeeSingle(l: Line, returned: Time, dailyRate: int)
    ensures LateFee([l], returned, dailyRate) == (dailyRate * LineLateDays(l, returned)) as real
  {
    LateDaysSingle(l, returned);
  }

  /** A single line returned `k` whole days after its end date costs `k` times the daily rate. */
  lemma LateByWholeDays(l: Line, k: nat, extra: nat, dailyRate: int)
    requires k > 0 && extra < SecondsPerDay
    ensures LateFee([l], l.endDate + k * SecondsPerDay + extra, dailyRate) == (k * dailyRate) as real
  {
    var returned := l.endDate + k * SecondsPerDay + extra;
    assert (returned - l.endDate) / SecondsPerDay == k;
    assert [l][..0] == [];
  }
}
