/**
 * The `auth` middleware (bearer token to decoded payload) and the `isAdmin`
 * middleware. JWT signing and verification are parameters: `sign` turns a
 * payload into a token, `verify` gives back the payload of a token it accepts.
 */
module Middleware {
  import opened Wrappers
  import opened Ids
  import opened Text
  import opened UserModel

  /** The claims a token carries. */
  datatype Payload = Payload(
    userId: string, email: Option<string>, username: Option<string>, role: Role, storeId: Option<Id>)

  type Verifier = string -> Option<Payload>
  type Signer = Payload -> string

  /** `req.headers.authorization?.replace('Bearer ', '')` */
  function ExtractToken(authorization: Option<string>): (t: Option<string>)
    ensures t.None? <==> authorization.None?
    ensures authorization.Some? && !Includes(authorization.value, "Bearer ") ==> t == authorization
  {
    match authorization
    case None => None
    case Some(h) => Some(ReplaceFirst(h, "Bearer ", ""))
  }

  /** A header `Bearer <token>` yields exactly `<token>`. */
  lemma BearerHeaderYieldsToken(token: string)
    ensures ExtractToken(Some("Bearer " + token)) == Some(token)
  {
    ReplacePrefix("Bearer ", token, "");
    assert "" + token == token;
  }

  datatype Authentication = Authenticated(user: Payload) | Unauthorized

  /** The decision of `auth`: a missing or empty token, or one `verify` refuses, is 401. */
  function Authenticate(authorization: Option<string>, verify: Verifier): (a: Authentication)
    ensures a.Authenticated? <==> Truthy(ExtractToken(authorization)) && verify(ExtractToken(authorization).value).Some?
    ensures a.Authenticated? ==> verify(ExtractToken(authorization).value) == Some(a.user)
  {
    var token := ExtractToken(authorization);
    if !Truthy(token) then Unauthorized
    else match verify(token.value)
      case None => Unauthorized
      case Some(p) => Authenticated(p)
  }

  /** What a middleware does: pass to the next handler, or answer with a status. */
  datatype Step = Next | Respond(status: int)

  /** `isAdmin`: pass iff there is a user and its type is admin, otherwise 403. */
  function IsAdmin(user: Option<Payload>): (s: Step)
    ensures s.Next? <==> user.Some? && user.value.role == Admin
    ensures s.Respond? ==> s.status == 403
  {
    if user.Some? && user.value.role == Admin then Next else Respond(403)
  }

  /** `auth` followed by `isAdmin`. */
  function AdminGate(authorization: Option<string>, verify: Verifier): (s: Step)
    ensures s.Next? <==> Authenticate(authorization, verify).Authenticated?
                         && Authenticate(authorization, verify).user.role == Admin
    ensures s.Respond? ==> s.status == if Authenticate(authorization, verify).Authenticated? then 403 else 401
  {
    match Authenticate(authorization, verify)
    case Unauthorized => Respond(401)
    case Authenticated(p) => IsAdmin(Some(p))
  }

  /** The admin-only routes' handler runs. */
  predicate AdminPasses(authorization: Option<string>, verify: Verifier) {
    AdminGate(authorization, verify).Next?
  }

  /** A request as the middleware sees it: the Authorization header and `req.user`. */
  class AuthRequest {
    const authorization: Option<string>
    var user: Option<Payload>

    constructor(authorization: Option<string>)
      ensures this.authorization == authorization && user.None?
    {
      this.authorization := authorization;
      user := None;
    }

    /** `auth`: on success sets `req.user` to the decoded payload and calls `next`. */
    method Auth(verify: Verifier) returns (step: Step)
      modifies this`user
      ensures step.Next? <==> Authenticate(authorization, verify).Authenticated?
      ensures step.Next? ==> user == Some(Authenticate(authorization, verify).user)
      ensures step.Respond? ==> step.status == 401 && user == old(user)
    {
      var token := ExtractToken(authorization);
      if !Truthy(token) {
        return Respond(401);
      }
      var decoded := verify(token.value);
      if decoded.None? {
        return Respond(401);
      }
      user := decoded;
      step := Next;
    }
  }

  /** Runs `auth, isAdmin` on a fresh request, as the admin-only routes do. */
  method RunAdminChain(authorization: Option<string>, verify: Verifier) returns (step: Step)
    ensures step == AdminGate(authorization, verify)
  {
    var req := new AuthRequest(authorization);
    step := req.Auth(verify);
    if step.Next? {
      step := IsAdmin(req.user);
    }
  }

  /** Runs `auth` on a fresh request, as the store-scoped routes do. */
  method RunAuth(authorization: Option<string>, verify: Verifier) returns (a: Authentication)
    ensures a == Authenticate(authorization, verify)
  {
    var req := new AuthRequest(authorization);
    var step := req.Auth(verify);
    if step.Next? {
      a := Authenticated(req.user.value);
    } else {
      a := Unauthorized;
    }
  }

  /** A token signed for `p`, sent as `Bearer <token>`, authenticates as `p`. */
  lemma SignedTokenAuthenticates(sign: Signer, verify: Verifier, p: Payload)
    requires sign(p) != "" && verify(sign(p)) == Some(p)
    ensures Authenticate(Some("Bearer " + sign(p)), verify) == Authenticated(p)
  {
    BearerHeaderYieldsToken(sign(p));
  }

  /** Such a token passes the admin gate iff the payload's role is admin. */
  lemma SignedTokenAdminGate(sign: Signer, verify: Verifier, p: Payload)
    requires sign(p) != "" && verify(sign(p)) == Some(p)
    ensures AdminGate(Some("Bearer " + sign(p)), verify).Next? <==> p.role == Admin
    ensures AdminGate(Some("Bearer " + sign(p)), verify).Respond? ==> AdminGate(Some("Bearer " + sign(p)), verify).status == 403
  {
    SignedTokenAuthenticates(sign, verify, p);
  }
}
