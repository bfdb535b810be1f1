/** The authentication and authorisation middleware of routers/users.js and
    routers/orders.js, with a session token reduced to its claims. */
module Auth {
  import opened Common

  /** What a signed token carries. */
  datatype Claims = Claims(userId: Id, email: string, role: string)

  /** The Authorization header of a request: absent, present but refused by
      jwt.verify (bad signature, expired), or verified with its claims. */
  datatype Credential = NoToken | Rejected | Verified(claims: Claims)

  /** A token as login issues it: the claims and the instant it expires. */
  datatype SessionToken = SessionToken(claims: Claims, expiresAt: int)

  /** `expiresIn: '24h'`, in milliseconds. */
  const TokenLifetime := 24 * 60 * 60 * 1000

  /** `auth`: a request passes with the claims of a verified token; a
      missing token and a refused one are both 401, with their own messages. */
  function Authenticate(cred: Credential): (r: Result<Claims>)
    ensures r.Ok? <==> cred.Verified?
    ensures r.Ok? ==> r.value == cred.claims
    ensures r.Fail? ==> r.reply.code == 401
    ensures cred.NoToken? ==> r == Fail(Reply(401, "Authentication required"))
  {
    match cred
    case NoToken => Fail(Reply(401, "Authentication required"))
    case Rejected => Fail(Reply(401, "Authentication failed"))
    case Verified(c) => Ok(c)
  }

  /** `adminAuth`: only the role admin passes; any other role is 403. */
  function AdminGate(c: Claims): (r: Result<Claims>)
    ensures r.Ok? <==> c.role == "admin"
    ensures r.Ok? ==> r.value == c
    ensures r.Fail? ==> r.reply.code == 403
  {
    if c.role != "admin" then Fail(Reply(403, "Access denied. Admin privileges required"))
    else Ok(c)
  }

  /** `sellerAuth`: exactly the roles seller and admin pass; any other
      role is 403. */
  function SellerGate(c: Claims): (r: Result<Claims>)
    ensures r.Ok? <==> c.role == "seller" || c.role == "admin"
    ensures r.Ok? ==> r.value == c
    ensures r.Fail? ==> r.reply.code == 403
  {
    if c.role != "seller" && c.role != "admin" then
      Fail(Reply(403, "Access denied. Seller privileges required"))
    else Ok(c)
  }

  /** The roles a gate admits: seller and admin, or admin alone. */
  predicate Admits(role: string, sellerOnly: bool) {
    if sellerOnly then role == "seller" || role == "admin" else role == "admin"
  }

  /** `auth` followed by a role gate: the request passes exactly when the
      token is verified and its role is admitted; a missing or refused token
      is reported before the role is looked at. */
  function Guard(cred: Credential, sellerOnly: bool): (r: Result<Claims>)
    ensures r.Ok? <==> (cred.Verified? && Admits(cred.claims.role, sellerOnly))
    ensures !cred.Verified? ==> r == Authenticate(cred)
    ensures r.Fail? && cred.Verified? ==> r.reply.code == 403
  {
    match Authenticate(cred)
    case Fail(e) => Fail(e)
    case Ok(c) => if sellerOnly then SellerGate(c) else AdminGate(c)
  }

  /** Whoever passes the admin gate passes the seller gate. */
  lemma AdminPassesSellerGate(cred: Credential)
    requires Guard(cred, false).Ok?
    ensures Guard(cred, true).Ok?
  {
  }
}
