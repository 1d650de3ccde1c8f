/** Users and their roles (accounts/models.py). */
module Accounts {

  type UserId = nat

  datatype Role = Customer | Vendor | Admin

  /** A freshly created user is a customer. */
  const DefaultRole: Role := Customer

  datatype User = User(id: UserId, role: Role, isSuperuser: bool)

  /** The request's principal: the anonymous user has no role at all. */
  datatype Principal = Anonymous | SignedIn(user: User)

  predicate IsCustomer(u: User) {
    u.role == Customer
  }

  predicate IsVendor(u: User) {
    u.role == Vendor
  }

  predicate IsAdminUser(u: User) {
    u.role == Admin || u.isSuperuser
  }

  /** The guard of every back-office view: signed in, and a vendor or an admin. */
  function IsVendorOrAdmin(p: Principal): (b: bool)
    ensures b <==> p.SignedIn? && (p.user.role != Customer || p.user.isSuperuser)
  {
    p.SignedIn? && (IsVendor(p.user) || IsAdminUser(p.user))
  }

  lemma CustomerAndVendorExclusive(u: User)
    ensures !(IsCustomer(u) && IsVendor(u))
    ensures IsCustomer(u) || IsVendor(u) || u.role == Admin
  {
  }

  lemma SuperuserCustomerIsBoth(u: User)
    requires u.role == Customer && u.isSuperuser
    ensures IsCustomer(u) && IsAdminUser(u) && !IsVendor(u)
  {
  }

  lemma SignedInVendorPassesGuard(u: User)
    requires u.role == Vendor
    ensures IsVendorOrAdmin(SignedIn(u))
  {
  }

  /** A plain customer never reaches the back office. */
  lemma PlainCustomerFailsGuard(p: Principal)
    requires p.Anonymous? || (p.user.role == Customer && !p.user.isSuperuser)
    ensures !IsVendorOrAdmin(p)
  {
  }
}
