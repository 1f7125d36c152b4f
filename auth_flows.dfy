/** End-to-end facts that tie the login handler's token to the middleware
    that later reads it. */
module AuthFlows {
  import opened Wrappers
  import opened Js
  import opened Users
  import opened Jwt
  import opened AuthMiddleware
  import opened AuthController

  /** A token issued by `login`, presented back either as a bearer header or
      as the `token` cookie, is admitted with role equal to the user's role but
      with `uid` undefined: the token carries `userId`, the middleware reads
      `uid`. The role gate then admits exactly the roles listed. */
  lemma LoginTokenAuthenticates(db: Db, body: map<string, JsValue>, compare: Comparator, sign: Signer,
                                verify: Verifier, iat: int, exp: int, roles: seq<Role>)
    requires LoginSpec(db, body, compare, sign).LoggedIn?
    requires var t := LoginSpec(db, body, compare, sign).token;
      ' ' !in t && t != ""
    requires var o := LoginSpec(db, body, compare, sign);
      verify(o.token, JWT_SECRET) == Some(Object(Stamp(TokenPayload(Num(o.user.id), o.user.role), iat, exp)))
    ensures var o := LoginSpec(db, body, compare, sign);
      var admitted := Admit(Claim(Undefined, Str(o.user.role.Name())));
      && Authenticate(Some(BEARER_PREFIX + o.token), None, verify) == admitted
      && Authenticate(None, Some(o.token), verify) == admitted
      && (Authorize(Some(admitted.claim), roles) <==> o.user.role in roles)
  {
    var o := LoginSpec(db, body, compare, sign);
    BearerTokenOfToken(o.token);
    IssuedPayloadHasNoUid(Num(o.user.id), o.user.role, iat, exp);
  }
}
