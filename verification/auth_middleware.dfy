/**
 * `protectRoute`: the guard in front of every authenticated route. It
 * reads the `jwt` cookie, verifies the token, looks the user up, and either
 * answers the request itself or attaches the user to the request and hands
 * it on. Token verification is a parameter standing for `jwt.verify` with
 * the configured secret.
 */
module AuthMiddleware {
  import opened Wrappers
  import opened JsValues
  import opened Users
  import opened Http

  const NoToken := "Unauthorized"
  const TokenInvalid := "Unauthorized - Token Invalid"
  const UserNotFound := "Unauthorized - User Not Found"

  /** The payload of a verified token; `userId` is missing when the token
      was signed without it. */
  datatype Claims = Claims(userId: Option<string>)

  /** What `jwt.verify(token, secret)` does: throw (a bad signature, an
      expired token), or return a payload, which may be empty. */
  datatype Verified = Threw(thrown: Thrown) | Decoded(payload: Option<Claims>)

  /** How the guard chain ends: the request is answered with a status and
      a message, or handed on with this user attached. */
  datatype Decision = Deny(status: int, message: string) | Allow(user: PublicUser)

  /** `req.cookies?.jwt`. */
  function TokenOf(cookies: map<string, string>): (token: Option<string>)
    ensures token.Some? ==> TokenCookie in cookies && token.value == cookies[TokenCookie]
    // the first guard passes exactly when a non-empty `jwt` cookie came with the request
    ensures Present(token) <==> TokenCookie in cookies && cookies[TokenCookie] != ""
  {
    if TokenCookie in cookies then Some(cookies[TokenCookie]) else None
  }

  /** The guard chain against a collection holding `docs`. */
  function Authorize(token: Option<string>, verify: string -> Verified, docs: seq<UserDoc>, outage: Option<Thrown>): (d: Decision)
    ensures !Present(token) ==> d == Deny(Unauthorized, NoToken)
    ensures Present(token) && verify(token.value).Threw? ==> d == Deny(InternalServerError, ErrorMessage(verify(token.value).thrown))
    ensures Present(token) && verify(token.value).Decoded? ==>
      var p := verify(token.value).payload;
      (p.None? || !Present(p.value.userId) <==> d == Deny(Unauthorized, TokenInvalid))
    ensures (Present(token) && verify(token.value).Decoded? && verify(token.value).payload.Some? &&
             Present(verify(token.value).payload.value.userId)) ==>
      var id := verify(token.value).payload.value.userId.value;
      (outage.Some? ==> d == Deny(InternalServerError, ErrorMessage(outage.value))) &&
      (outage.None? && (forall u :: u in docs ==> u.id != id) ==> d == Deny(Unauthorized, UserNotFound))
    // every refusal is 401, or 500 when something threw
    ensures d.Deny? ==> d.status == Unauthorized || d.status == InternalServerError
    // the request is handed on only when all three checks pass, with the
    // password-less document of the user the token names
    ensures d.Allow? <==>
      Present(token) && verify(token.value).Decoded? && verify(token.value).payload.Some? &&
      Present(verify(token.value).payload.value.userId) && outage.None? &&
      exists u :: u in docs && u.id == verify(token.value).payload.value.userId.value
    ensures d.Allow? ==> exists u :: u in docs && u.id == verify(token.value).payload.value.userId.value && d.user == WithoutPassword(u)
  {
    if !Present(token) then Deny(Unauthorized, NoToken)
    else match verify(token.value)
      case Threw(t) => Deny(InternalServerError, ErrorMessage(t))
      case Decoded(p) =>
        if p.None? || !Present(p.value.userId) then Deny(Unauthorized, TokenInvalid)
        else match Lookup(docs, outage, ById(p.value.userId.value))
          case Err(t) => Deny(InternalServerError, ErrorMessage(t))
          case Ok(None) => Deny(Unauthorized, UserNotFound)
          case Ok(Some(u)) => Allow(WithoutPassword(u))
  }

  /** A thrown value that is not an `Error`, from `jwt.verify` or from the
      query, never reaches the reply: whatever it holds, the decision is the
      same. */
  lemma NonErrorThrownHidden(token: Option<string>, docs: seq<UserDoc>, v1: JsValue, v2: JsValue)
    ensures Authorize(token, s => Threw(NonError(v1)), docs, None) == Authorize(token, s => Threw(NonError(v2)), docs, None)
    ensures forall verify: string -> Verified ::
      Authorize(token, verify, docs, Some(NonError(v1))) == Authorize(token, verify, docs, Some(NonError(v2)))
  {
  }

  /** With ids unique, the user attached is the one document with the id
      the token names. */
  lemma AllowedUserIsTokenOwner(token: Option<string>, verify: string -> Verified, docs: seq<UserDoc>, u: UserDoc)
    requires Unique(docs)
    requires Authorize(token, verify, docs, None).Allow?
    requires u in docs && u.id == verify(token.value).payload.value.userId.value
    ensures Authorize(token, verify, docs, None).user == WithoutPassword(u)
  {
  }

  /** The part of an Express request the middleware reads and writes. */
  class Request {
    var cookies: map<string, string>
    /** `req.user`. */
    var user: Option<PublicUser>

    constructor (cookies: map<string, string>)
      ensures this.cookies == cookies && user == None
    {
      this.cookies := cookies;
      user := None;
    }
  }

  /** `protectRoute(req, res, next)`; `callsNext` says whether `next()` is
      called. */
  method ProtectRoute(req: Request, res: Response, db: UserCollection, verify: string -> Verified)
    returns (callsNext: bool)
    modifies req`user, res, db`log
    ensures var d := Authorize(TokenOf(req.cookies), verify, db.docs, db.outage);
      (callsNext <==> d.Allow?) &&
      (d.Allow? ==> req.user == Some(d.user) && unchanged(res)) &&
      (d.Deny? ==> req.user == old(req.user) && res.statusCode == d.status &&
                   res.body == Some(Note(d.message)) && res.cookies == old(res.cookies))
    // a request without a token is refused before any query
    ensures !Present(TokenOf(req.cookies)) ==> db.log == old(db.log)
  {
    var token := TokenOf(req.cookies);
    if !Present(token) {
      res.Send(Unauthorized, Note(NoToken));
      return false;
    }
    var decoded := verify(token.value);
    if decoded.Threw? {
      res.Send(InternalServerError, Note(ErrorMessage(decoded.thrown)));
      return false;
    }
    if decoded.payload.None? || !Present(decoded.payload.value.userId) {
      res.Send(Unauthorized, Note(TokenInvalid));
      return false;
    }
    var found := db.FindOne(ById(decoded.payload.value.userId.value));
    if found.Err? {
      res.Send(InternalServerError, Note(ErrorMessage(found.error)));
      return false;
    }
    if found.value.None? {
      res.Send(Unauthorized, Note(UserNotFound));
      return false;
    }
    req.user := Some(WithoutPassword(found.value.value));
    return true;
  }
}
