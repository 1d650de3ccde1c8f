/** The add-to-cart and payment forms (AddToCartForm and PaymentForm in rental/forms.py). */
module Forms {
  import opened Basics
  import opened Model
  import opened Catalog
  import opened Billing

  /** The posted add-to-cart fields; None is a missing or unparsable value. */
  datatype CartRequest = CartRequest(
    quantity: Option<int>, startDate: Option<Time>, endDate: Option<Time>, variant: Option<VariantId>)

  /** The cleaned data of a valid add-to-cart form. */
  datatype CartData = CartData(quantity: int, startDate: Time, endDate: Time, variant: Option<VariantId>)

  /** The field-level step: required fields, `min_value=1`, and variants limited to the product's own. */
  function FieldErrors(s: Store, product: Option<Product>, req: CartRequest): (errs: seq<ValidationError>)
    ensures errs == [] <==>
      req.quantity.Some? && req.quantity.value >= 1 && req.startDate.Some? && req.endDate.Some?
      && (req.variant.None? ||
          (product.Some? && req.variant.value in s.variants && s.variants[req.variant.value].product == product.value.id))
  {
    (if req.quantity.None? then [Required("quantity")]
     else if req.quantity.value < 1 then [BelowMinimum("quantity", 1)] else [])
    + (if req.startDate.None? then [Required("start_date")] else [])
    + (if req.endDate.None? then [Required("end_date")] else [])
    + (if req.variant.Some?
         && !(product.Some? && req.variant.value in s.variants && s.variants[req.variant.value].product == product.value.id)
       then [InvalidChoice("variant")] else [])
  }

  /**
   * `AddToCartForm.clean()` over the values that survived field validation:
   * with both dates present, the window must be non-empty and, when the form
   * was built for a product, the quantity must fit the availability.
   */
  function CleanCart(s: Store, product: Option<Product>, quantity: Option<int>, start: Option<Time>, end: Option<Time>)
    : (e: Option<ValidationError>)
    ensures start.None? || end.None? ==> e.None?
    ensures start.Some? && end.Some? && start.value >= end.value ==> e == Some(EndNotAfterStart)
    ensures e.None? <==>
      start.None? || end.None?
      || (start.value < end.value
          && (product.None? || quantity.None? || quantity.value == 0
              || quantity.value <= AvailableQuantity(s, product.value, start, end)))
  {
    if start.Some? && end.Some? then
      if start.value >= end.value then Some(EndNotAfterStart)
      else if product.Some? then
        var available := AvailableQuantity(s, product.value, start, end);
        if quantity.Some? && quantity.value != 0 && quantity.value > available then Some(OnlyAvailable(available))
        else None
      else None
    else None
  }

  /** The whole form: field errors, then `clean()` on the fields that passed. */
  function ValidateCart(s: Store, product: Option<Product>, req: CartRequest): (r: Result<CartData>)
    ensures r.Ok? <==>
      req.quantity.Some? && req.quantity.value >= 1 && req.startDate.Some? && req.endDate.Some?
      && req.startDate.value < req.endDate.value
      && (product.Some? ==> req.quantity.value <= AvailableQuantity(s, product.value, req.startDate, req.endDate))
      && (req.variant.None? ||
          (product.Some? && req.variant.value in s.variants && s.variants[req.variant.value].product == product.value.id))
    ensures r.Ok? ==> r.value == CartData(req.quantity.value, req.startDate.value, req.endDate.value, req.variant)
  {
    var fieldErrs := FieldErrors(s, product, req);
    var quantity := if req.quantity.Some? && req.quantity.value >= 1 then req.quantity else None;
    var formErr := CleanCart(s, product, quantity, req.startDate, req.endDate);
    var errs := fieldErrs + (if formErr.Some? then [formErr.value] else []);
    if errs == [] then Ok(CartData(req.quantity.value, req.startDate.value, req.endDate.value, req.variant))
    else Err(FormInvalid(errs))
  }

  /** Asking for exactly the available quantity is accepted; one more is refused with the count. */
  lemma AvailabilityBoundary(s: Store, p: Product, start: Time, end: Time)
    requires start < end
    requires AvailableQuantity(s, p, Some(start), Some(end)) >= 1
    ensures var n := AvailableQuantity(s, p, Some(start), Some(end));
      ValidateCart(s, Some(p), CartRequest(Some(n), Some(start), Some(end), None)).Ok?
      && ValidateCart(s, Some(p), CartRequest(Some(n + 1), Some(start), Some(end), None))
         == Err(FormInvalid([OnlyAvailable(n)]))
  {
    var n := AvailableQuantity(s, p, Some(start), Some(end));
    var req := CartRequest(Some(n + 1), Some(start), Some(end), None);
    assert FieldErrors(s, Some(p), req) == [];
    assert CleanCart(s, Some(p), Some(n + 1), Some(start), Some(end)) == Some(OnlyAvailable(n));
    assert [] + [OnlyAvailable(n)] == [OnlyAvailable(n)];
  }

  /** A reversed or empty window is refused with the date message alone, whatever the quantity. */
  lemma ReversedWindowMessage(s: Store, p: Product, q: int, start: Time, end: Time)
    requires q >= 1 && start >= end
    ensures ValidateCart(s, Some(p), CartRequest(Some(q), Some(start), Some(end), None))
         == Err(FormInvalid([EndNotAfterStart]))
  {
    assert FieldErrors(s, Some(p), CartRequest(Some(q), Some(start), Some(end), None)) == [];
    assert [] + [EndNotAfterStart] == [EndNotAfterStart];
  }

  // ---------------------------------------------------------------- payment form

  /** `PaymentForm.__init__`: the amount field starts at the invoice's balance. */
  function InitialAmount(invoice: Option<Invoice>): (r: Option<Money>)
    ensures invoice.None? <==> r.None?
    ensures invoice.Some? ==> invoice.value.amountPaid + r.value == invoice.value.totalAmount
  {
    if invoice.Some? then Some(Balance(invoice.value)) else None
  }

  /** `PaymentForm.clean_amount()`: no more than the balance may be paid. */
  function CleanAmount(invoice: Option<Invoice>, amount: Money): (r: Result<Money>)
    ensures r.Ok? <==> invoice.None? || invoice.value.amountPaid + amount <= invoice.value.totalAmount
    ensures r.Ok? ==> r.value == amount
    ensures r.Err? ==> r == Err(FormInvalid([ExceedsBalance(Balance(invoice.value))]))
  {
    if invoice.Some? && amount > Balance(invoice.value) then Err(FormInvalid([ExceedsBalance(Balance(invoice.value))]))
    else Ok(amount)
  }

  /** The pre-filled amount always passes, and paying it settles the invoice exactly. */
  lemma InitialAmountAccepted(inv: Invoice)
    ensures CleanAmount(Some(inv), InitialAmount(Some(inv)).value).Ok?
    ensures IsFullyPaid(inv.(amountPaid := inv.amountPaid + InitialAmount(Some(inv)).value))
  {
  }
}
