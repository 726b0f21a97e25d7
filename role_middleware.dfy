/**
 * middleware/RoleMiddleware.js: `onlyAllow(...roles)` lets a request through when the
 * authenticated user's role is one of the allowed ones.
 */
module RoleMiddleware {
  import opened Wrappers
  import AuthMiddleware

  /**
   * `Next`: `next()` ran. `Refused`: 400 "You are not authorized". `LoginThenThrows`:
   * 400 "Please, Login" is written but, with no `return`, `req.user.role` is then read
   * on an absent user and throws.
   */
  datatype RoleOutcome = Next | Refused(reply: AuthMiddleware.Reply) | LoginThenThrows(reply: AuthMiddleware.Reply)

  /** `allowedRoles.includes(req.user.role)`: exact string equality. */
  predicate HasAllowedRole(allowedRoles: seq<string>, user: AuthMiddleware.Claims) {
    "role" in user && user["role"] in allowedRoles
  }

  function OnlyAllow(allowedRoles: seq<string>, user: Option<AuthMiddleware.Claims>): (o: RoleOutcome)
    ensures o.Next? <==> user.Some? && HasAllowedRole(allowedRoles, user.value)
    ensures user.None? ==> o == LoginThenThrows(AuthMiddleware.Reply(400, "Please, Login"))
    ensures user.Some? && !o.Next? ==> o == Refused(AuthMiddleware.Reply(400, "You are not authorized"))
  {
    if user.None? then LoginThenThrows(AuthMiddleware.Reply(400, "Please, Login"))
    else if HasAllowedRole(allowedRoles, user.value) then Next
    else Refused(AuthMiddleware.Reply(400, "You are not authorized"))
  }

  /** A buyer's token is refused on a seller-only route; role names are case-sensitive. */
  lemma SellerOnlyRefusesOthers(id: string, role: string, iat: string)
    requires role != "Seller"
    ensures OnlyAllow(["Seller"], Some(AuthMiddleware.SignedClaims(id, role, iat))).Refused?
    ensures OnlyAllow(["Seller"], Some(AuthMiddleware.SignedClaims(id, "Seller", iat))).Next?
  {
  }
}
