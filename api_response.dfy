/** The `ApiResponse` helpers: each writes a status and a
    `{ success, data, message }` envelope to the response, applying the
    documented defaults for omitted arguments; `SendToken` also sets the
    `token` cookie with options merged from defaults and caller overrides. */
module ApiResponse {
  import opened Wrappers
  import opened Http

  const DEFAULT_SUCCESS_MESSAGE := "Operation successful"
  const DEFAULT_ERROR_MESSAGE := "Something went wrong"
  const DEFAULT_TOKEN_MESSAGE := "Authentication successful"
  const TOKEN_COOKIE := "token"
  /** 24 hours * 3, in milliseconds. */
  const TOKEN_COOKIE_MAX_AGE := 24 * 60 * 60 * 1000 * 3

  /** A key of the caller's `cookieOptions` object: missing, or present with a
      value that may itself be `undefined` (`Given(None)`). */
  datatype Slot<T> = Omitted | Given(value: Option<T>)

  datatype CookieOverrides = CookieOverrides(
    maxAge: Slot<int>,
    httpOnly: Slot<bool>,
    secure: Slot<bool>,
    sameSite: Slot<SameSite>,
    path: Slot<string>)

  /** An argument left out (or passed as `undefined`) takes its default. */
  function OrDefault<T>(arg: Option<T>, default: T): T
  {
    if arg.Some? then arg.value else default
  }

  /** `process.env.NODE_ENV === "production"`. */
  predicate IsProduction(nodeEnv: Option<string>)
  {
    nodeEnv == Some("production")
  }

  /** The default cookie options of `sendToken`. */
  function DefaultCookieOptions(nodeEnv: Option<string>): (o: CookieOptions)
    ensures o.httpOnly == Some(true) && o.sameSite == Some(Strict) && o.path == Some("/")
    ensures o.maxAge == Some(259200000)
    ensures o.secure == Some(true) <==> IsProduction(nodeEnv)
    ensures o.secure.Some?
  {
    CookieOptions(
      maxAge := Some(TOKEN_COOKIE_MAX_AGE),
      httpOnly := Some(true),
      secure := Some(IsProduction(nodeEnv)),
      sameSite := Some(Strict),
      path := Some("/"))
  }

  /** One key of `{ ...defaults, ...overrides }`. */
  function SpreadKey<T>(default: Option<T>, slot: Slot<T>): Option<T>
  {
    match slot
    case Omitted => default
    case Given(v) => v
  }

  /** `{ ...defaults, ...overrides }`, where spreading `undefined` adds nothing. */
  function MergeCookieOptions(defaults: CookieOptions, overrides: Option<CookieOverrides>): (o: CookieOptions)
    ensures overrides.None? ==> o == defaults
    ensures overrides.Some? ==>
      var ov := overrides.value;
      && (ov.maxAge.Omitted? ==> o.maxAge == defaults.maxAge)
      && (ov.maxAge.Given? ==> o.maxAge == ov.maxAge.value)
      && (ov.httpOnly.Omitted? ==> o.httpOnly == defaults.httpOnly)
      && (ov.httpOnly.Given? ==> o.httpOnly == ov.httpOnly.value)
      && (ov.secure.Omitted? ==> o.secure == defaults.secure)
      && (ov.secure.Given? ==> o.secure == ov.secure.value)
      && (ov.sameSite.Omitted? ==> o.sameSite == defaults.sameSite)
      && (ov.sameSite.Given? ==> o.sameSite == ov.sameSite.value)
      && (ov.path.Omitted? ==> o.path == defaults.path)
      && (ov.path.Given? ==> o.path == ov.path.value)
  {
    match overrides
    case None => defaults
    case Some(ov) =>
      CookieOptions(
        maxAge := SpreadKey(defaults.maxAge, ov.maxAge),
        httpOnly := SpreadKey(defaults.httpOnly, ov.httpOnly),
        secure := SpreadKey(defaults.secure, ov.secure),
        sameSite := SpreadKey(defaults.sameSite, ov.sameSite),
        path := SpreadKey(defaults.path, ov.path))
  }

  /** Overrides that omit every key change nothing, and applying the same
      overrides twice is the same as applying them once. */
  lemma MergeLaws(defaults: CookieOptions, ov: CookieOverrides)
    ensures MergeCookieOptions(defaults, Some(CookieOverrides(Omitted, Omitted, Omitted, Omitted, Omitted))) == defaults
    ensures MergeCookieOptions(MergeCookieOptions(defaults, Some(ov)), Some(ov)) == MergeCookieOptions(defaults, Some(ov))
  {
  }

  /** The cookie options `SendToken` uses: an explicit `secure: undefined`
      override leaves the cookie without `secure` even in production. */
  lemma UndefinedOverrideClearsDefault(nodeEnv: Option<string>)
    ensures MergeCookieOptions(DefaultCookieOptions(nodeEnv),
      Some(CookieOverrides(Omitted, Omitted, Given(None), Omitted, Omitted))).secure == None
  {
  }

  /** `ApiResponse.success(res, data, message?, statusCode?)`. */
  method Success(res: Response, data: Data, message: Option<string>, statusCode: Option<int>)
    modifies res
    ensures res.statusCode == OrDefault(statusCode, 200)
    ensures res.body == Some(Body(true, Some(data), OrDefault(message, DEFAULT_SUCCESS_MESSAGE), None))
    ensures res.cookies == old(res.cookies)
  {
    res.Status(OrDefault(statusCode, 200));
    res.Json(Body(true, Some(data), OrDefault(message, DEFAULT_SUCCESS_MESSAGE), None));
  }

  /** `ApiResponse.error(res, message?, statusCode?, data?)`. */
  method Error(res: Response, message: Option<string>, statusCode: Option<int>, data: Option<Data>)
    modifies res
    ensures res.statusCode == OrDefault(statusCode, 500)
    ensures res.body == Some(Body(false, Some(OrDefault(data, JsonNull)), OrDefault(message, DEFAULT_ERROR_MESSAGE), None))
    ensures res.cookies == old(res.cookies)
  {
    res.Status(OrDefault(statusCode, 500));
    res.Json(Body(false, Some(OrDefault(data, JsonNull)), OrDefault(message, DEFAULT_ERROR_MESSAGE), None));
  }

  /** `ApiResponse.send(res, success, data, message, statusCode?)`. */
  method Send(res: Response, success: bool, data: Data, message: string, statusCode: Option<int>)
    modifies res
    ensures res.statusCode == OrDefault(statusCode, 200)
    ensures res.body == Some(Body(success, Some(data), message, None))
    ensures res.cookies == old(res.cookies)
  {
    res.Status(OrDefault(statusCode, 200));
    res.Json(Body(success, Some(data), message, None));
  }

  /** `ApiResponse.sendToken(res, token, data, message?, cookieOptions?)`:
      sets exactly one cookie, `token`, and answers 200 with `success: true`. */
  method SendToken(res: Response, token: string, data: Data, message: Option<string>,
                   cookieOptions: Option<CookieOverrides>, nodeEnv: Option<string>)
    modifies res
    ensures res.cookies == old(res.cookies) +
      [Cookie(TOKEN_COOKIE, token, MergeCookieOptions(DefaultCookieOptions(nodeEnv), cookieOptions))]
    ensures res.statusCode == 200
    ensures res.body == Some(Body(true, Some(data), OrDefault(message, DEFAULT_TOKEN_MESSAGE), None))
  {
    var options := MergeCookieOptions(DefaultCookieOptions(nodeEnv), cookieOptions);
    res.SetCookie(TOKEN_COOKIE, token, options);
    res.Status(200);
    res.Json(Body(true, Some(data), OrDefault(message, DEFAULT_TOKEN_MESSAGE), None));
  }
}
