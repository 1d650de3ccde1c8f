/** Discount coupons and their per-user usage records (website/models.py). */
module Coupons {
  import opened Basics
  import opened Accounts

  /** `maxUses` of 0 (or less) means the coupon has no usage cap. */
  datatype Coupon = Coupon(
    code: string,
    discountPercentage: Money,
    isActive: bool,
    maxUses: int,
    timesUsed: int,
    validFrom: Time,
    validUntil: Option<Time>)

  /** A coupon is created active, capped at nothing, and 10% off. */
  function NewCoupon(code: string, validFrom: Time): (c: Coupon)
    ensures c.code == code && c.isActive && c.maxUses == 0 && c.timesUsed == 0
    ensures c.discountPercentage == 10.0 && c.validUntil.None?
  {
    Coupon(code, 10.0, true, 0, 0, validFrom, None)
  }

  datatype CouponUsage = CouponUsage(coupon: string, user: UserId, order: Option<nat>, discountAmount: Money)

  /** The `(ok, message)` pair both checks return. */
  datatype Verdict = Verdict(ok: bool, message: string)

  const Inactive := "This coupon is inactive"
  const NotYetValid := "This coupon is not yet valid"
  const Expired := "This coupon has expired"
  const UsageLimitReached := "This coupon has reached its usage limit"
  const CouponValid := "Coupon is valid"
  const AlreadyUsed := "You have already used this coupon"
  const CanApply := "Coupon can be applied"

  /** The usage-cap test on its own. */
  predicate Exhausted(c: Coupon) {
    c.maxUses > 0 && c.timesUsed >= c.maxUses
  }

  /** `Coupon.is_valid()`: the checks run in a fixed order and the first failure names itself. */
  function IsValid(c: Coupon, now: Time): (v: Verdict)
    ensures v.ok <==>
      c.isActive && c.validFrom <= now && (c.validUntil.None? || now <= c.validUntil.value)
      && (c.maxUses <= 0 || c.timesUsed < c.maxUses)
    ensures v.ok ==> v.message == CouponValid
    ensures !c.isActive ==> v.message == Inactive
    ensures c.isActive && now < c.validFrom ==> v.message == NotYetValid
    ensures c.isActive && c.validFrom <= now && c.validUntil.Some? && now > c.validUntil.value ==> v.message == Expired
  {
    if !c.isActive then Verdict(false, Inactive)
    else if now < c.validFrom then Verdict(false, NotYetValid)
    else if c.validUntil.Some? && now > c.validUntil.value then Verdict(false, Expired)
    else if Exhausted(c) then Verdict(false, UsageLimitReached)
    else Verdict(true, CouponValid)
  }

  /** A cap of 0 never trips: such a coupon fails only on activity or dates. */
  lemma UnlimitedNeverExhausts(c: Coupon, now: Time)
    requires c.maxUses == 0
    ensures IsValid(c, now).message != UsageLimitReached
    ensures IsValid(c, now).ok <==>
      c.isActive && c.validFrom <= now && (c.validUntil.None? || now <= c.validUntil.value)
  {
  }

  /** With a positive cap and every earlier check passed, the coupon fails exactly when used up. */
  lemma CapDecidesWhenDatesPass(c: Coupon, now: Time)
    requires c.maxUses > 0 && c.isActive && c.validFrom <= now
    requires c.validUntil.None? || now <= c.validUntil.value
    ensures !IsValid(c, now).ok <==> c.timesUsed >= c.maxUses
    ensures !IsValid(c, now).ok ==> IsValid(c, now).message == UsageLimitReached
  {
  }

  /** The validity window is closed at both ends, and a coupon without an end date never expires. */
  lemma WindowBoundariesInclusive(c: Coupon, later: Time)
    requires c.isActive && !Exhausted(c)
    ensures IsValid(c, c.validFrom).ok <==> (c.validUntil.None? || c.validFrom <= c.validUntil.value)
    ensures c.validUntil.Some? && c.validFrom <= c.validUntil.value ==> IsValid(c, c.validUntil.value).ok
    ensures c.validUntil.None? && later >= c.validFrom ==> IsValid(c, later).ok
  {
  }

  /** A coupon with cap 3 used 3 times is refused. */
  lemma ThreeOfThreeUsedIsRefused(c: Coupon, now: Time)
    requires c.isActive && c.validFrom <= now && c.validUntil.None?
    requires c.maxUses == 3 && c.timesUsed == 3
    ensures IsValid(c, now) == Verdict(false, UsageLimitReached)
  {
  }

  /** Whether the user already has a usage row for the coupon. */
  predicate UsedBy(usages: seq<CouponUsage>, code: string, user: UserId) {
    exists k :: 0 <= k < |usages| && usages[k].coupon == code && usages[k].user == user
  }

  /** `Coupon.can_be_used_by(user)`: the validity verdict first, then the per-user check. */
  function CanBeUsedBy(c: Coupon, usages: seq<CouponUsage>, user: UserId, now: Time): (v: Verdict)
    ensures !IsValid(c, now).ok ==> v == IsValid(c, now)
    ensures IsValid(c, now).ok ==> (v.ok <==> !UsedBy(usages, c.code, user))
    ensures v.ok ==> IsValid(c, now).ok
    ensures IsValid(c, now).ok && UsedBy(usages, c.code, user) ==> v.message == AlreadyUsed
  {
    var valid := IsValid(c, now);
    if !valid.ok then Verdict(false, valid.message)
    else if UsedBy(usages, c.code, user) then Verdict(false, AlreadyUsed)
    else Verdict(true, CanApply)
  }

  /** The `unique_together = ['coupon', 'user']` constraint. */
  predicate OneUsagePerUser(usages: seq<CouponUsage>) {
    forall j, k :: 0 <= j < k < |usages| ==>
      !(usages[j].coupon == usages[k].coupon && usages[j].user == usages[k].user)
  }

  /** Inserting a usage row: the database refuses a second row for the same pair. */
  function RecordUsage(usages: seq<CouponUsage>, u: CouponUsage): (r: Result<seq<CouponUsage>>)
    ensures r.Err? <==> UsedBy(usages, u.coupon, u.user)
    ensures r.Ok? ==> r.value == usages + [u]
    ensures r.Ok? && OneUsagePerUser(usages) ==> OneUsagePerUser(r.value)
  {
    if UsedBy(usages, u.coupon, u.user) then Err(IntegrityError) else Ok(usages + [u])
  }

  /** Once a user's usage is recorded, the same user is refused the coupon. */
  lemma RecordedUserIsRefused(c: Coupon, usages: seq<CouponUsage>, u: CouponUsage, now: Time)
    requires u.coupon == c.code
    requires RecordUsage(usages, u).Ok?
    ensures !CanBeUsedBy(c, RecordUsage(usages, u).value, u.user, now).ok
    ensures IsValid(c, now).ok ==> CanBeUsedBy(c, RecordUsage(usages, u).value, u.user, now).message == AlreadyUsed
  {
    var after := RecordUsage(usages, u).value;
    assert after[|usages|] == u;
  }
}
