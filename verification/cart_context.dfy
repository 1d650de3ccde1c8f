/** The cart badge every page shows (`cart_processor` in rental/context_processors.py). */
module CartContext {
  import opened Basics
  import opened Accounts
  import opened Model
  import opened Lines
  import opened Forms
  import opened Shop

  datatype CartInfo = CartInfo(cart: Option<QuotationId>, count: int)

  /**
   * Only a signed-in customer has a cart; it is their first draft quotation,
   * and the count is the total quantity over its lines.
   */
  function CartProcessor(s: Store, who: Principal): (r: CartInfo)
    ensures !(who.SignedIn? && IsCustomer(who.user)) ==> r == CartInfo(None, 0)
    ensures r.cart.None? ==> r.count == 0
    ensures r.cart.Some? <==> who.SignedIn? && IsCustomer(who.user) && DraftCount(s.quotations, who.user.id) > 0
    ensures r.cart.Some? ==>
      var i := FirstDraft(s.quotations, who.user.id).value;
      && r.cart.value == s.quotations[i].id
      && r.count == QuantityTotal(LinesOf(s.quotationLines, s.quotations[i].id))
  {
    if who.Anonymous? || !IsCustomer(who.user) then CartInfo(None, 0)
    else match FirstDraft(s.quotations, who.user.id)
      case None => CartInfo(None, 0)
      case Some(i) =>
        var cart := s.quotations[i];
        CartInfo(Some(cart.id), QuantityTotal(LinesOf(s.quotationLines, cart.id)))
  }

  /** A cart whose lines all have positive quantities shows a positive count. */
  lemma {:induction false} CountPositive(lines: seq<Line>)
    requires |lines| > 0
    requires forall l :: l in lines ==> l.quantity >= 1
    ensures QuantityTotal(lines) >= |lines|
    decreases |lines|
  {
    if |lines| > 1 {
      var init := lines[..|lines| - 1];
      assert forall l :: l in init ==> l in lines;
      CountPositive(init);
    } else {
      assert lines[0] in lines;
      assert lines[..0] == [];
    }
  }

  lemma FirstDraftOfAppended(quotations: seq<Quotation>, q: Quotation, uid: UserId)
    requires DraftCount(quotations, uid) == 0 && IsDraftOf(q, uid)
    ensures FirstDraft(quotations + [q], uid) == Some(|quotations|)
  {
    var r := FirstDraft(quotations + [q], uid);
    assert forall j :: 0 <= j < |quotations| ==> (quotations + [q])[j] == quotations[j];
    assert IsDraftOf((quotations + [q])[|quotations|], uid);
  }

  /**
   * Adding to the cart raises a customer's badge by exactly the quantity added,
   * whether the cart already existed or was created by this add.
   */
  lemma AddToCartRaisesCount(
    s: Store, who: Principal, pid: ProductId, req: CartRequest, newCartId: QuotationId, newLineId: LineId)
    requires forall q :: q in s.quotations ==> q.id < newCartId
    requires forall l :: l in s.quotationLines ==> l.parent != newCartId
    requires IdsBelow(s.quotationLines, newLineId)
    requires AddToCart(s, who, pid, req, newCartId, newLineId).Ok?
    requires IsCustomer(who.user)
    ensures var s' := AddToCart(s, who, pid, req, newCartId, newLineId).value;
      && CartProcessor(s', who).cart == Some(CartId(s, who.user.id, newCartId))
      && CartProcessor(s', who).count == CartProcessor(s, who).count + req.quantity.value
  {
    var uid := who.user.id;
    var s' := AddToCart(s, who, pid, req, newCartId, newLineId).value;
    var cart := CartId(s, uid, newCartId);
    var added := s'.quotationLines[|s'.quotationLines| - 1];
    assert s'.quotationLines == s.quotationLines + [added];
    assert added.parent == cart && added.quantity == req.quantity.value;
    LinesOfConcat(s.quotationLines, [added], cart);
    LinesOfAll([added], cart);
    QuantityTotalConcat(LinesOf(s.quotationLines, cart), [added]);
    assert [added][..0] == [];
    if DraftCount(s.quotations, uid) == 0 {
      FirstDraftOfAppended(s.quotations, Quotation(newCartId, uid, QuotationDraft), uid);
      LinesOfAbsent(s.quotationLines, newCartId);
    }
  }
}
