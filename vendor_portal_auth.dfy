/** The vendor portal middleware
    (packages/nexus-procurement/src/Http/Middleware/VendorPortalAuth.php):
    an ordered chain of checks on the authenticated user. */
module VendorPortalAuth {
  import opened Common
  import opened VendorUsers

  /** The authenticated user: a vendor portal user together with its vendor's
      status, or a user of another kind. */
  datatype Principal = VendorPrincipal(user: VendorUser, vendorStatus: string) | OtherPrincipal

  datatype Decision = PassThrough | Deny(status: int, error: string)

  const UnauthorizedError: string := "Unauthorized"
  const NotVendorError: string := "Access denied. Vendor portal access required."
  const InactiveError: string := "Account is inactive or vendor is suspended"

  /** `handle`: 401 without a user, 403 for a user that is not a vendor user,
      403 for a vendor user without portal access, otherwise the request
      goes on. */
  function Handle(user: Option<Principal>): (d: Decision)
    ensures d == PassThrough <==>
      user.Some? && user.value.VendorPrincipal? && CanAccessPortal(user.value.user, user.value.vendorStatus)
    ensures user.None? <==> d == Deny(401, UnauthorizedError)
    ensures d.Deny? ==> d.status == 401 || d.status == 403
    ensures user == Some(OtherPrincipal) ==> d == Deny(403, NotVendorError)
  {
    if user.None? then Deny(401, UnauthorizedError)
    else if !user.value.VendorPrincipal? then Deny(403, NotVendorError)
    else if !CanAccessPortal(user.value.user, user.value.vendorStatus) then Deny(403, InactiveError)
    else PassThrough
  }

  /** A vendor user that fails the access check gets the "inactive or
      suspended" refusal, never the generic one. */
  lemma InactiveVendorUserRefused(u: VendorUser, vendorStatus: string)
    requires !CanAccessPortal(u, vendorStatus)
    ensures Handle(Some(VendorPrincipal(u, vendorStatus))) == Deny(403, InactiveError)
  {
  }
}
