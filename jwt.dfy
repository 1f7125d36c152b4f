/** The interface of the token helpers (`generateToken`, `verifyToken`) over
    an abstract JSON Web Token library. Signing and verification are passed in
    as functions; `None` from either stands for the library throwing. */
module Jwt {
  import opened Wrappers
  import opened Js
  import opened Users

  /** The fallback signing secret and lifetime used when the environment sets none. */
  const JWT_SECRET := "secret"
  const JWT_EXPIRATION := "1d"
  const VERIFY_ERROR := "Invalid or expired token"

  /** What verification hands back: the payload object, or a primitive when
      the token was signed over a non-object payload. */
  datatype Decoded = Object(claims: map<string, JsValue>) | Primitive(value: JsValue)

  /** `jwt.sign(payload, secret, { expiresIn })`. */
  type Signer = (map<string, JsValue>, string, string) -> Option<string>
  /** `jwt.verify(token, secret)`. */
  type Verifier = (string, string) -> Option<Decoded>

  /** An object is truthy; a primitive by the usual rule. */
  predicate DecodedTruthy(d: Decoded)
  {
    d.Object? || Truthy(d.value)
  }

  /** `decoded.key`: a property of the payload object, `undefined` otherwise. */
  function Field(d: Decoded, key: string): JsValue
  {
    if d.Object? then Get(d.claims, key) else Undefined
  }

  /** The payload `generateToken` signs: exactly `userId` and `role`. */
  function TokenPayload(userId: JsValue, role: Role): (p: map<string, JsValue>)
    ensures p.Keys == {"userId", "role"}
    ensures p["userId"] == userId && RoleOf(p["role"]) == Some(role)
  {
    map["userId" := userId, "role" := Str(role.Name())]
  }

  /** `generateToken({ userId, role })`. */
  function GenerateToken(sign: Signer, userId: JsValue, role: Role): Option<string>
  {
    sign(TokenPayload(userId, role), JWT_SECRET, JWT_EXPIRATION)
  }

  /** `verifyToken(token)`: any failure of the library becomes one thrown error. */
  function VerifyToken(verify: Verifier, token: string): (r: Result<Decoded>)
    ensures r.Failure? <==> verify(token, JWT_SECRET).None?
    ensures r.Failure? ==> r.error == VERIFY_ERROR
    ensures r.Success? ==> Some(r.value) == verify(token, JWT_SECRET)
  {
    match verify(token, JWT_SECRET)
    case None => Failure(VERIFY_ERROR)
    case Some(d) => Success(d)
  }

  /** The payload as the library returns it after signing `payload` at time
      `iat` with expiry `exp`: the signed claims plus the two registered times. */
  function Stamp(payload: map<string, JsValue>, iat: int, exp: int): map<string, JsValue>
  {
    payload["iat" := Num(iat)]["exp" := Num(exp)]
  }

  /** A token issued for a user carries no `uid` claim: the payload keys are
      `userId`, `role`, `iat` and `exp`. */
  lemma IssuedPayloadHasNoUid(userId: JsValue, role: Role, iat: int, exp: int)
    ensures Field(Object(Stamp(TokenPayload(userId, role), iat, exp)), "uid") == Undefined
    ensures Field(Object(Stamp(TokenPayload(userId, role), iat, exp)), "role") == Str(role.Name())
    ensures Field(Object(Stamp(TokenPayload(userId, role), iat, exp)), "userId") == userId
  {
  }
}
