/** The `register` and `login` handlers: early-return checks over the user
    collection, a password hasher and comparator, and the token generator.
    Every path ends in a fixed status and message, or forwards a thrown error
    to `next(err)` without writing a response. */
module AuthController {
  import opened Wrappers
  import opened Js
  import opened Users
  import opened Http
  import opened Jwt
  import ApiResponse

  const MISSING_FIELDS_MESSAGE := "All required fields must be provided"
  const USER_EXISTS_MESSAGE := "User already exists"
  const CREATED_MESSAGE := "Admin created successfully"
  const MISSING_CREDENTIALS_MESSAGE := "Email and password are required"
  const USER_NOT_FOUND_MESSAGE := "User not found"
  const INVALID_CREDENTIALS_MESSAGE := "Invalid credentials"

  /** `hashValue(password)` with the salt this call draws; `None` when it throws. */
  type Hasher = JsValue -> Option<string>
  /** `compareHashedValue(password, digest)`; `None` when it throws. */
  type Comparator = (JsValue, JsValue) -> Option<bool>

  datatype RegisterOutcome =
    | RegisterRejected(status: int, message: string)
    | Registered(user: User)
    | RegisterForwarded

  datatype LoginOutcome =
    | LoginRejected(status: int, message: string)
    | LoggedIn(token: string, user: User)
    | LoginForwarded

  /** The document `register` asks the collection to create: role `"buyer"`
      and the digest under `password`; `passwordHash` is left unset. */
  function NewBuyer(body: map<string, JsValue>, digest: string): (doc: User)
    ensures doc.role == Buyer && doc.password == Str(digest) && doc.passwordHash == Undefined
    ensures doc.email == Get(body, "email")
  {
    User(0, Get(body, "firstName"), Get(body, "lastName"), Get(body, "email"), Str(digest), Undefined, Buyer)
  }

  predicate HasRegistrationFields(body: map<string, JsValue>)
  {
    Truthy(Get(body, "email")) && Truthy(Get(body, "password")) &&
    Truthy(Get(body, "firstName")) && Truthy(Get(body, "lastName"))
  }

  predicate HasCredentials(body: map<string, JsValue>)
  {
    Truthy(Get(body, "email")) && Truthy(Get(body, "password"))
  }

  /** What `register` does with the collection in state `db`. */
  function RegisterSpec(db: Db, accepts: User -> bool, body: map<string, JsValue>, hash: Hasher): (o: RegisterOutcome)
    ensures o == RegisterRejected(400, MISSING_FIELDS_MESSAGE) <==> !HasRegistrationFields(body)
    ensures o == RegisterRejected(409, USER_EXISTS_MESSAGE) <==>
      HasRegistrationFields(body) && db.reachable && Get(body, "email") in db.users
    ensures o.Registered? <==>
      && HasRegistrationFields(body) && db.reachable && Get(body, "email") !in db.users
      && hash(Get(body, "password")).Some?
      && accepts(Stamped(db, NewBuyer(body, hash(Get(body, "password")).value)))
    ensures o.Registered? ==> o.user == Stamped(db, NewBuyer(body, hash(Get(body, "password")).value))
    ensures o.RegisterForwarded? <==>
      && HasRegistrationFields(body)
      && (|| !db.reachable
          || (&& Get(body, "email") !in db.users
              && (|| hash(Get(body, "password")).None?
                  || !accepts(Stamped(db, NewBuyer(body, hash(Get(body, "password")).value))))))
  {
    if !HasRegistrationFields(body) then RegisterRejected(400, MISSING_FIELDS_MESSAGE)
    else if !db.reachable then RegisterForwarded
    else if Get(body, "email") in db.users then RegisterRejected(409, USER_EXISTS_MESSAGE)
    else
      match hash(Get(body, "password"))
      case None => RegisterForwarded
      case Some(digest) =>
        var doc := NewBuyer(body, digest);
        if accepts(Stamped(db, doc)) then Registered(Stamped(db, doc)) else RegisterForwarded
  }

  /** The collection after `register`: only a successful registration changes it. */
  function AfterRegister(db: Db, o: RegisterOutcome): Db
  {
    if o.Registered? then Insert(db, o.user) else db
  }

  /** `register(req, res, next)`; returns whether `next(err)` was called. */
  method Register(store: UserStore, res: Response, body: map<string, JsValue>, hash: Hasher)
    returns (forwarded: bool)
    requires store.Valid()
    modifies store, res
    ensures store.Valid()
    ensures var o := RegisterSpec(old(store.State()), store.accepts, body, hash);
      && forwarded == o.RegisterForwarded?
      && store.State() == AfterRegister(old(store.State()), o)
      && res.cookies == old(res.cookies)
      && (o.RegisterForwarded? ==> res.statusCode == old(res.statusCode) && res.body == old(res.body))
      && (o.RegisterRejected? ==>
            res.statusCode == o.status && res.body == Some(Body(false, Some(JsonNull), o.message, None)))
      && (o.Registered? ==>
            res.statusCode == 201 && res.body == Some(Body(true, Some(UserDoc(o.user)), CREATED_MESSAGE, None)))
  {
    var firstName, lastName := Get(body, "firstName"), Get(body, "lastName");
    var email, password := Get(body, "email"), Get(body, "password");
    if !Truthy(email) || !Truthy(password) || !Truthy(firstName) || !Truthy(lastName) {
      ApiResponse.Error(res, Some(MISSING_FIELDS_MESSAGE), Some(400), None);
      return false;
    }
    var existing := store.FindOne(email);
    if existing.Failure? {
      return true;
    }
    if existing.value.Some? {
      ApiResponse.Error(res, Some(USER_EXISTS_MESSAGE), Some(409), None);
      return false;
    }
    var hashed := hash(password);
    if hashed.None? {
      return true;
    }
    var user := store.Create(User(0, firstName, lastName, email, Str(hashed.value), Undefined, Buyer));
    if user.None? {
      return true;
    }
    ApiResponse.Success(res, UserDoc(user.value), Some(CREATED_MESSAGE), Some(201));
    return false;
  }

  /** `Welcome back, ${user.firstName}`. */
  function Welcome(user: User): string
  {
    "Welcome back, " + Display(user.firstName)
  }

  /** What `login` does with the collection in state `db`. */
  function LoginSpec(db: Db, body: map<string, JsValue>, compare: Comparator, sign: Signer): (o: LoginOutcome)
    ensures o == LoginRejected(400, MISSING_CREDENTIALS_MESSAGE) <==> !HasCredentials(body)
    ensures o == LoginRejected(404, USER_NOT_FOUND_MESSAGE) <==>
      HasCredentials(body) && db.reachable && Get(body, "email") !in db.users
    ensures o == LoginRejected(401, INVALID_CREDENTIALS_MESSAGE) <==>
      && HasCredentials(body) && db.reachable && Get(body, "email") in db.users
      && compare(Get(body, "password"), db.users[Get(body, "email")].passwordHash) == Some(false)
    ensures o.LoggedIn? ==>
      && HasCredentials(body) && db.reachable && Get(body, "email") in db.users
      && o.user == db.users[Get(body, "email")]
      && compare(Get(body, "password"), o.user.passwordHash) == Some(true)
      && sign(TokenPayload(Num(o.user.id), o.user.role), JWT_SECRET, JWT_EXPIRATION) == Some(o.token)
    ensures o.LoginForwarded? <==>
      && HasCredentials(body)
      && (|| !db.reachable
          || (&& Get(body, "email") in db.users
              && var u := db.users[Get(body, "email")];
                 || compare(Get(body, "password"), u.passwordHash).None?
                 || (&& compare(Get(body, "password"), u.passwordHash) == Some(true)
                     && sign(TokenPayload(Num(u.id), u.role), JWT_SECRET, JWT_EXPIRATION).None?)))
  {
    if !HasCredentials(body) then LoginRejected(400, MISSING_CREDENTIALS_MESSAGE)
    else if !db.reachable then LoginForwarded
    else if Get(body, "email") !in db.users then LoginRejected(404, USER_NOT_FOUND_MESSAGE)
    else
      var user := db.users[Get(body, "email")];
      match compare(Get(body, "password"), user.passwordHash)
      case None => LoginForwarded
      case Some(isMatch) =>
        if !isMatch then LoginRejected(401, INVALID_CREDENTIALS_MESSAGE)
        else
          match GenerateToken(sign, Num(user.id), user.role)
          case None => LoginForwarded
          case Some(token) => LoggedIn(token, user)
  }

  /** `login(req, res, next)`; returns whether `next(err)` was called. The
      collection is only read: the method may modify nothing but `res`. */
  method Login(store: UserStore, res: Response, body: map<string, JsValue>,
               compare: Comparator, sign: Signer, nodeEnv: Option<string>)
    returns (forwarded: bool)
    modifies res
    ensures var o := LoginSpec(store.State(), body, compare, sign);
      && forwarded == o.LoginForwarded?
      && (o.LoginForwarded? ==>
            res.statusCode == old(res.statusCode) && res.body == old(res.body) && res.cookies == old(res.cookies))
      && (o.LoginRejected? ==>
            && res.statusCode == o.status && res.body == Some(Body(false, Some(JsonNull), o.message, None))
            && res.cookies == old(res.cookies))
      && (o.LoggedIn? ==>
            && res.statusCode == 200
            && res.body == Some(Body(true, Some(UserDoc(o.user)), Welcome(o.user), None))
            && res.cookies == old(res.cookies) +
                 [Cookie(ApiResponse.TOKEN_COOKIE, o.token, ApiResponse.DefaultCookieOptions(nodeEnv))])
  {
    var email, password := Get(body, "email"), Get(body, "password");
    if !Truthy(email) || !Truthy(password) {
      ApiResponse.Error(res, Some(MISSING_CREDENTIALS_MESSAGE), Some(400), None);
      return false;
    }
    var found := store.FindOne(email);
    if found.Failure? {
      return true;
    }
    if found.value.None? {
      ApiResponse.Error(res, Some(USER_NOT_FOUND_MESSAGE), Some(404), None);
      return false;
    }
    var user := found.value.value;
    var isMatch := compare(password, user.passwordHash);
    if isMatch.None? {
      return true;
    }
    if !isMatch.value {
      ApiResponse.Error(res, Some(INVALID_CREDENTIALS_MESSAGE), Some(401), None);
      return false;
    }
    var token := GenerateToken(sign, Num(user.id), user.role);
    if token.None? {
      return true;
    }
    ApiResponse.SendToken(res, token.value, UserDoc(user), Some(Welcome(user)), None, nodeEnv);
    return false;
  }

  /** A successful registration adds exactly one user, filed under the given
      email, with role `"buyer"` and the digest of the password (under
      `password`), and keeps every other user and the collection's invariant. */
  lemma RegisterAddsOneBuyer(db: Db, accepts: User -> bool, body: map<string, JsValue>, hash: Hasher)
    requires WellFormed(db)
    requires RegisterSpec(db, accepts, body, hash).Registered?
    ensures var db' := AfterRegister(db, RegisterSpec(db, accepts, body, hash));
      && WellFormed(db')
      && db'.users.Keys == db.users.Keys + {Get(body, "email")}
      && |db'.users| == |db.users| + 1
      && (forall e :: e in db.users ==> db'.users[e] == db.users[e])
      && db'.users[Get(body, "email")].role == Buyer
      && Some(db'.users[Get(body, "email")].password.s) == hash(Get(body, "password"))
      && db'.users[Get(body, "email")].passwordHash == Undefined
  {
    var o := RegisterSpec(db, accepts, body, hash);
    var doc := NewBuyer(body, hash(Get(body, "password")).value);
    InsertKeepsWellFormed(db, doc);
    assert AfterRegister(db, o) == Insert(db, doc);
  }

  /** Every outcome but a successful registration leaves the collection as it was. */
  lemma RegisterFailureKeepsStore(db: Db, accepts: User -> bool, body: map<string, JsValue>, hash: Hasher)
    requires !RegisterSpec(db, accepts, body, hash).Registered?
    ensures AfterRegister(db, RegisterSpec(db, accepts, body, hash)) == db
  {
  }

  /** Registering the same email a second time is refused with 409. */
  lemma RegisterTwiceConflicts(db: Db, accepts: User -> bool, body: map<string, JsValue>, hash1: Hasher, hash2: Hasher)
    requires RegisterSpec(db, accepts, body, hash1).Registered?
    ensures RegisterSpec(AfterRegister(db, RegisterSpec(db, accepts, body, hash1)), accepts, body, hash2)
      == RegisterRejected(409, USER_EXISTS_MESSAGE)
  {
    var o := RegisterSpec(db, accepts, body, hash1);
    assert o.user.email == Get(body, "email");
  }

  /** A user whose stored digest matches the password logs in, and the token
      is signed over exactly that user's `_id` and role. */
  lemma LoginSucceeds(db: Db, body: map<string, JsValue>, compare: Comparator, sign: Signer, token: string)
    requires HasCredentials(body) && db.reachable && Get(body, "email") in db.users
    requires compare(Get(body, "password"), db.users[Get(body, "email")].passwordHash) == Some(true)
    requires var u := db.users[Get(body, "email")];
      sign(TokenPayload(Num(u.id), u.role), JWT_SECRET, JWT_EXPIRATION) == Some(token)
    ensures LoginSpec(db, body, compare, sign) == LoggedIn(token, db.users[Get(body, "email")])
  {
  }

  /** Because `register` stores the digest under `password` while `login`
      compares against `passwordHash`, a freshly registered user can log in
      only if the comparator accepts `undefined` as a digest: the password
      that was registered plays no part. */
  lemma RegisteredUserLoginIgnoresDigest(db: Db, accepts: User -> bool, body: map<string, JsValue>, hash: Hasher,
                                          login: map<string, JsValue>, compare: Comparator, sign: Signer)
    requires RegisterSpec(db, accepts, body, hash).Registered?
    requires Get(login, "email") == Get(body, "email")
    ensures var db' := AfterRegister(db, RegisterSpec(db, accepts, body, hash));
      var o := LoginSpec(db', login, compare, sign);
      && (o.LoggedIn? ==> compare(Get(login, "password"), Undefined) == Some(true))
      && (HasCredentials(login) && compare(Get(login, "password"), Undefined) == Some(false) ==>
            o == LoginRejected(401, INVALID_CREDENTIALS_MESSAGE))
  {
    var o := RegisterSpec(db, accepts, body, hash);
    var db' := AfterRegister(db, o);
    assert db'.users[Get(body, "email")] == o.user;
    assert o.user.passwordHash == Undefined;
  }

  /** The registration reply says "Admin" although the stored role is `"buyer"`. */
  lemma RegisteredAsBuyerNotAdmin(db: Db, accepts: User -> bool, body: map<string, JsValue>, hash: Hasher)
    requires RegisterSpec(db, accepts, body, hash).Registered?
    ensures RegisterSpec(db, accepts, body, hash).user.role == Buyer
    ensures RegisterSpec(db, accepts, body, hash).user.role != Admin
  {
  }

  /** Under a collection that, like the user schema, requires `passwordHash`
      to be a string, `register` never stores anyone: once the fields are
      present, the database answers and the email is new, the document it
      builds (digest under `password`) is rejected and the error is forwarded. */
  lemma RegisterNeverSucceedsUnderSchema(db: Db, accepts: User -> bool, body: map<string, JsValue>, hash: Hasher)
    requires forall u :: accepts(u) ==> u.passwordHash.Str?
    ensures !RegisterSpec(db, accepts, body, hash).Registered?
    ensures HasRegistrationFields(body) && db.reachable && Get(body, "email") !in db.users ==>
      RegisterSpec(db, accepts, body, hash) == RegisterForwarded
  {
  }
}
