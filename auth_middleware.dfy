/** Request authentication (`validateToken`) and role gating (`authorizeRoles`).

    `validateToken` takes a token from an `Authorization: Bearer <token>`
    header, falling back to the `token` cookie, verifies it, and on success
    attaches `{ uid, role }` read from the decoded payload to the request and
    continues. It fails in one of three ways, each a 401 with its own message.
    `authorizeRoles(roles)` continues exactly when the attached claim's role
    is one of `roles`, and answers 403 otherwise. */
module AuthMiddleware {
  import opened Wrappers
  import opened Js
  import opened Text
  import opened Users
  import opened Http
  import opened Jwt

  const BEARER_PREFIX := "Bearer "
  const NO_TOKEN_MESSAGE := "Invalid token"
  const UNVERIFIED_MESSAGE := "Token verification failed"
  const AUTH_FAILED_MESSAGE := "Authentication failed"
  const ACCESS_DENIED_MESSAGE := "Access denied, you do not have sufficient permission to continue with this request"

  /** `req.user`: the two fields re-projected from the decoded payload. */
  datatype Claim = Claim(uid: JsValue, role: JsValue)

  /** The request as the middleware sees it: the `Authorization` header, the
      `token` cookie (`None` when there is no cookie object or no such
      cookie) and the `user` slot the middleware writes. */
  class Request {
    const authorization: Option<string>
    const cookieToken: Option<string>
    var user: Option<Claim>

    constructor (authorization: Option<string>, cookieToken: Option<string>)
      ensures this.authorization == authorization && this.cookieToken == cookieToken
      ensures user == None
    {
      this.authorization := authorization;
      this.cookieToken := cookieToken;
      user := None;
    }
  }

  /** Truthiness of a `string | undefined`. */
  predicate Present(t: Option<string>)
  {
    t.Some? && t.value != ""
  }

  /** The token the header yields: when it starts with `"Bearer "`, its second
      space-separated segment, that is, the first word after the prefix. */
  function BearerToken(authorization: Option<string>): (token: Option<string>)
    ensures token.Some? <==> authorization.Some? && StartsWith(authorization.value, BEARER_PREFIX)
    ensures token.Some? ==> IsFirstWord(authorization.value[|BEARER_PREFIX|..], token.value, ' ')
  {
    if authorization.Some? && StartsWith(authorization.value, BEARER_PREFIX) then
      var h := authorization.value;
      BearerSplit(h);
      Some(Split(h, ' ')[1])
    else None
  }

  /** A header that starts with `"Bearer "` splits into `"Bearer"` and the
      parts of the rest, so its second part is the first word of the rest. */
  lemma BearerSplit(h: string)
    requires StartsWith(h, BEARER_PREFIX)
    ensures Split(h, ' ') == ["Bearer"] + Split(h[|BEARER_PREFIX|..], ' ')
    ensures IsFirstWord(h[|BEARER_PREFIX|..], Split(h, ' ')[1], ' ')
  {
    assert h == "Bearer" + [' '] + h[7..];
    SplitAtFirstSeparator("Bearer", ' ', h[7..]);
    SplitHead(h[7..], ' ');
  }

  /** The token `validateToken` goes on to verify: the header's if it is
      present, otherwise the cookie's if that is present, otherwise whatever
      (empty or absent) the header gave. */
  function SelectToken(authorization: Option<string>, cookie: Option<string>): (token: Option<string>)
    ensures Present(BearerToken(authorization)) ==> token == BearerToken(authorization)
    ensures !Present(BearerToken(authorization)) && Present(cookie) ==> token == cookie
    ensures Present(token) <==> Present(BearerToken(authorization)) || Present(cookie)
  {
    var fromHeader := BearerToken(authorization);
    if !Present(fromHeader) && Present(cookie) then cookie else fromHeader
  }

  /** `{ uid: decoded.uid, role: decoded.role }`. */
  function Project(d: Decoded): Claim
  {
    Claim(Field(d, "uid"), Field(d, "role"))
  }

  /** What `validateToken` decides: continue with a claim, or reject with a
      401 message (and, for a thrown verification error, its message). */
  datatype Verdict = Admit(claim: Claim) | Reject(message: string, error: Option<string>)

  function Authenticate(authorization: Option<string>, cookie: Option<string>, verify: Verifier): (v: Verdict)
    ensures var t := SelectToken(authorization, cookie);
      v == Reject(NO_TOKEN_MESSAGE, None) <==> !Present(t)
    ensures var t := SelectToken(authorization, cookie);
      v == Reject(AUTH_FAILED_MESSAGE, Some(VERIFY_ERROR)) <==> Present(t) && verify(t.value, JWT_SECRET).None?
    ensures var t := SelectToken(authorization, cookie);
      v == Reject(UNVERIFIED_MESSAGE, None) <==>
        Present(t) && verify(t.value, JWT_SECRET).Some? && !DecodedTruthy(verify(t.value, JWT_SECRET).value)
    ensures var t := SelectToken(authorization, cookie);
      v.Admit? <==>
        Present(t) && verify(t.value, JWT_SECRET).Some? && DecodedTruthy(verify(t.value, JWT_SECRET).value)
    ensures var t := SelectToken(authorization, cookie);
      v.Admit? ==>
        var d := verify(t.value, JWT_SECRET).value;
        v.claim == Claim(Field(d, "uid"), Field(d, "role"))
  {
    var token := SelectToken(authorization, cookie);
    if !Present(token) then Reject(NO_TOKEN_MESSAGE, None)
    else
      match VerifyToken(verify, token.value)
      case Failure(e) => Reject(AUTH_FAILED_MESSAGE, Some(e))
      case Success(d) => if DecodedTruthy(d) then Admit(Project(d)) else Reject(UNVERIFIED_MESSAGE, None)
  }

  /** `validateToken(req, res, next)`; returns whether `next()` was called. */
  method ValidateToken(req: Request, res: Response, verify: Verifier) returns (nextCalled: bool)
    modifies req, res
    ensures nextCalled <==> Authenticate(req.authorization, req.cookieToken, verify).Admit?
    ensures nextCalled ==>
      && req.user == Some(Authenticate(req.authorization, req.cookieToken, verify).claim)
      && res.statusCode == old(res.statusCode) && res.body == old(res.body) && res.cookies == old(res.cookies)
    ensures !nextCalled ==>
      var v := Authenticate(req.authorization, req.cookieToken, verify);
      && req.user == old(req.user)
      && res.statusCode == 401
      && res.body == Some(Body(false, None, v.message, v.error))
      && res.cookies == old(res.cookies)
  {
    var token: Option<string> := None;
    if req.authorization.Some? && StartsWith(req.authorization.value, BEARER_PREFIX) {
      BearerSplit(req.authorization.value);
      token := Some(Split(req.authorization.value, ' ')[1]);
    }
    if !Present(token) && Present(req.cookieToken) {
      token := req.cookieToken;
    }
    if !Present(token) {
      res.Status(401);
      res.Json(Body(false, None, NO_TOKEN_MESSAGE, None));
      return false;
    }
    var decoded := VerifyToken(verify, token.value);
    if decoded.Failure? {
      res.Status(401);
      res.Json(Body(false, None, AUTH_FAILED_MESSAGE, Some(decoded.error)));
      return false;
    }
    if DecodedTruthy(decoded.value) {
      var payload := Claim(Field(decoded.value, "uid"), Field(decoded.value, "role"));
      req.user := Some(payload);
      return true;
    }
    res.Status(401);
    res.Json(Body(false, None, UNVERIFIED_MESSAGE, None));
    return false;
  }

  /** `roles.includes(role)`, comparing by value. */
  function Includes(roles: seq<Role>, role: JsValue): bool
    decreases |roles|
  {
    |roles| > 0 && (Str(roles[0].Name()) == role || Includes(roles[1..], role))
  }

  /** A value is in the list exactly when it names one of its roles. */
  lemma {:induction false} IncludesNamesRole(roles: seq<Role>, role: JsValue)
    ensures Includes(roles, role) <==> RoleOf(role).Some? && RoleOf(role).value in roles
    decreases |roles|
  {
    if |roles| > 0 {
      IncludesNamesRole(roles[1..], role);
      assert roles == [roles[0]] + roles[1..];
    }
  }

  /** The decision of `authorizeRoles(...roles)`: continue exactly when a
      claim is attached and its role is one of `roles`. */
  function Authorize(user: Option<Claim>, roles: seq<Role>): (allowed: bool)
    ensures allowed <==> user.Some? && RoleOf(user.value.role).Some? && RoleOf(user.value.role).value in roles
    ensures roles == [] ==> !allowed
  {
    if user.Some? then IncludesNamesRole(roles, user.value.role); Includes(roles, user.value.role)
    else false
  }

  /** `authorizeRoles(...roles)(req, res, next)`; returns whether `next()` was called. */
  method AuthorizeRoles(roles: seq<Role>, req: Request, res: Response) returns (nextCalled: bool)
    modifies res
    ensures nextCalled == Authorize(req.user, roles)
    ensures nextCalled ==> res.statusCode == old(res.statusCode) && res.body == old(res.body)
    ensures !nextCalled ==> res.statusCode == 403 && res.body == Some(Body(false, None, ACCESS_DENIED_MESSAGE, None))
    ensures res.cookies == old(res.cookies)
  {
    if req.user.Some? && Includes(roles, req.user.value.role) {
      return true;
    }
    res.Status(403);
    res.Json(Body(false, None, ACCESS_DENIED_MESSAGE, None));
    return false;
  }

  /** The header wins over the cookie: with a well-formed bearer header, the
      cookie plays no part in the decision. */
  lemma HeaderTakesPrecedence(header: string, cookie: Option<string>, verify: Verifier)
    requires Present(BearerToken(Some(header)))
    ensures Authenticate(Some(header), cookie, verify) == Authenticate(Some(header), None, verify)
  {
  }

  /** A header that yields no token (absent, another scheme, or an empty
      segment such as `"Bearer  x"`) leaves the decision to the cookie. */
  lemma CookieFallback(authorization: Option<string>, cookie: Option<string>, verify: Verifier)
    requires !Present(BearerToken(authorization))
    ensures Authenticate(authorization, cookie, verify) == Authenticate(None, cookie, verify)
  {
  }

  /** A token without spaces is read back whole from a bearer header. */
  lemma BearerTokenOfToken(token: string)
    requires ' ' !in token
    ensures BearerToken(Some(BEARER_PREFIX + token)) == Some(token)
  {
    var h := BEARER_PREFIX + token;
    assert h[|BEARER_PREFIX|..] == token;
    FirstWordUnique(token, BearerToken(Some(h)).value, token, ' ');
  }
}
