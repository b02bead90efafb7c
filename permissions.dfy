/** The listing permissions (src/apps/houserent/permissions.py). */
module Permissions {
  import opened Common

  /** The requesting user: anonymous, or logged in with or without a vendor profile. */
  datatype RequestUser = Anonymous | LoggedIn(vendor: Option<Id>)

  const VendorMethods := ["GET", "HEAD", "OPTIONS", "POST", "DELETE"]
  const SafeMethods := ["GET", "HEAD", "OPTIONS"]

  /** `IsVendor.has_permission`. */
  function IsVendor(user: RequestUser, verb: string): (allowed: bool)
    ensures user.Anonymous? ==> !allowed
    ensures allowed <==> user.LoggedIn? && user.vendor.Some? && verb in VendorMethods
  {
    match user
    case Anonymous => false
    case LoggedIn(vendor) => vendor.Some? && verb in VendorMethods
  }

  /** Methods that change a listing are refused to vendors, except creation and deletion. */
  lemma IsVendorRefusesEdits(user: RequestUser)
    ensures !IsVendor(user, "PUT") && !IsVendor(user, "PATCH")
    ensures user.LoggedIn? && user.vendor.Some? ==> IsVendor(user, "POST") && IsVendor(user, "DELETE")
  {
    assert VendorMethods[3] == "POST" && VendorMethods[4] == "DELETE";
  }

  /** What `has_object_permission` returns: a boolean, the implicit None of a fall-through, or an
      exception (RelatedObjectDoesNotExist when an unsafe request comes from a user without a
      vendor profile). */
  datatype Verdict = Granted | Denied | NoneReturned | Raises

  /** DRF treats any falsy return as a refusal. */
  predicate Permits(v: Verdict) { v == Granted }

  /** `IsVendorOwnerOrReadOnly.has_object_permission` for a listing owned by `owner`. */
  function IsVendorOwnerOrReadOnly(user: RequestUser, verb: string, owner: Id): (v: Verdict)
    ensures user.Anonymous? <==> v == NoneReturned
    ensures user.LoggedIn? && verb in SafeMethods ==> v == Granted
    ensures user.LoggedIn? && verb !in SafeMethods ==>
      (Permits(v) <==> user.vendor == Some(owner))
    ensures v == Raises <==> user.LoggedIn? && verb !in SafeMethods && user.vendor.None?
  {
    match user
    case Anonymous => NoneReturned
    case LoggedIn(vendor) =>
      if verb in SafeMethods then Granted
      else if vendor.None? then Raises
      else if owner == vendor.value then Granted
      else Denied
  }

  /** Anonymous users are refused either way. */
  lemma AnonymousRefused(verb: string, owner: Id)
    ensures !IsVendor(Anonymous, verb) && !Permits(IsVendorOwnerOrReadOnly(Anonymous, verb, owner))
  {
  }
}
