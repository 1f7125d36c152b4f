/** The part of Express's response object that the handlers drive:
    `res.status(code)`, `res.json(body)` and `res.cookie(name, value, options)`. */
module Http {
  import opened Wrappers
  import opened Users

  /** The `data` member of a JSON body: `null` (`JsonNull`) or a user document. */
  datatype Data = JsonNull | UserDoc(user: User)

  /** A JSON response body `{ success, data?, message, error? }`. `data` and
      `error` are `None` when the key is absent from the object. `error`
      carries the message of a caught error. */
  datatype Body = Body(success: bool, data: Option<Data>, message: string, error: Option<string>)

  datatype SameSite = Strict | Lax | NoneMode

  /** Options handed to `res.cookie`; `None` is a key whose value is `undefined`. */
  datatype CookieOptions = CookieOptions(
    maxAge: Option<int>,
    httpOnly: Option<bool>,
    secure: Option<bool>,
    sameSite: Option<SameSite>,
    path: Option<string>)

  datatype Cookie = Cookie(name: string, value: string, options: CookieOptions)

  class Response {
    var statusCode: int
    var body: Option<Body>
    var cookies: seq<Cookie>

    /** A fresh response: status 200, nothing written yet. */
    constructor ()
      ensures statusCode == 200 && body == None && cookies == []
    {
      statusCode := 200;
      body := None;
      cookies := [];
    }

    method Status(code: int)
      modifies this
      ensures statusCode == code && body == old(body) && cookies == old(cookies)
    {
      statusCode := code;
    }

    method Json(b: Body)
      modifies this
      ensures body == Some(b) && statusCode == old(statusCode) && cookies == old(cookies)
    {
      body := Some(b);
    }

    method SetCookie(name: string, value: string, options: CookieOptions)
      modifies this
      ensures cookies == old(cookies) + [Cookie(name, value, options)]
      ensures statusCode == old(statusCode) && body == old(body)
    {
      cookies := cookies + [Cookie(name, value, options)];
    }
  }
}
