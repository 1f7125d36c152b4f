# Authentication and authorization core of opex-server, in Dafny

This project models the request authentication, role gating, registration,
login and response helpers of the opex-server marketplace backend (an Express
application written in TypeScript), and proves properties of that model.

- **`validateToken`** (`AuthMiddleware`). It takes the token from an
  `Authorization` header that starts with the case-sensitive prefix
  `"Bearer "`. The token is the second segment of `split(" ")`. When the
  header yields no non-empty token, the `token` cookie is used instead.
  The token is checked through `verifyToken`. On success, `{ uid, role }`
  is read from the decoded payload, attached to `req.user`, and `next()`
  is called. Otherwise the answer is a 401 with one of three messages:
  "Invalid token", "Authentication failed" or "Token verification failed".
- **`authorizeRoles(...roles)`** (`AuthMiddleware`). It continues exactly
  when a claim is attached and its role is one of `roles`. Otherwise it
  answers 403 with a fixed message.
- **`register` and `login`** (`AuthController`). They are chains of
  early-return checks over the user collection (`Users.UserStore`, a class
  with a map from email to user record). Each path ends in a fixed status
  and message, or it forwards a thrown error to `next(err)`. The error
  middleware (`ErrorMiddleware`) answers a forwarded error with 500
  "Something went wrong".
- **`ApiResponse.success`, `error`, `send` and `sendToken`** (`ApiResponse`).
  Each one writes a status and a `{ success, data, message }` envelope to
  an Express-like response object (`Http.Response`). `sendToken` also sets
  the `token` cookie. Its options are the defaults merged with the
  caller's overrides by object spread.

Collaborators are abstract. Each one is passed in as a function, and `None`
from any of them means that the call threw:

- `hash`: bcrypt hashing. The random salt is part of the function given for
  that call.
- `compare`: bcrypt comparison.
- `sign` and `verify`: the JSON Web Token library. They take the fixed
  fallback secret `"secret"` and the lifetime `"1d"`.
- The collection's acceptance of a document (`UserStore.accepts`): schema
  validation and storage.
- Whether the database is reachable (`UserStore.reachable`).

Request bodies and token payloads hold JavaScript primitive values
(`Js.JsValue`). Truthiness, property reads that give `undefined`, and
template-literal string conversion follow ECMAScript.

The model keeps these behaviours of the code as they are written:

- The middleware reads `decoded.uid`, but `generateToken` signs `userId`.
  So a token the server issued is admitted with `uid` undefined
  (`AuthFlows.LoginTokenAuthenticates`).
- `register` stores the digest under `password`, but `login` compares
  against `passwordHash`. So a freshly registered user can log in only if
  the comparator accepts `undefined` as a digest
  (`AuthController.RegisteredUserLoginIgnoresDigest`).
- `register` replies "Admin created successfully" but stores role `"buyer"`.

Three further facts about the code, which the model keeps:

- The middleware answers 401 with three distinct messages, and login
  distinguishes "User not found" (404) from "Invalid credentials" (401).
- `verifyToken` reports failure by throwing, not by returning a typed result.
- Verification does not check the role in the payload. An unknown role only
  makes the role gate deny.

## Model

| member | source | states |
|---|---|---|
| `Text.Split` | src/v1/middlewares/auth.middleware.ts:21 | `split` on a one-character separator yields at least one part, and no part contains the separator |
| `Text.JoinSplit` | src/v1/middlewares/auth.middleware.ts:21 | joining the parts of a split with the separator gives back the original string |
| `Text.SplitJoin` | src/v1/middlewares/auth.middleware.ts:21 | splitting separator-free parts that were joined with the separator gives back those parts |
| `Text.SplitWithoutSeparator` | src/v1/middlewares/auth.middleware.ts:21 | a string without the separator splits into itself alone |
| `Text.SplitAtFirstSeparator` | src/v1/middlewares/auth.middleware.ts:21 | the text before the first separator is the first part; the rest are the parts of the text after it |
| `Text.SplitHead` | src/v1/middlewares/auth.middleware.ts:21 | the first part is a separator-free prefix that ends at a separator or at the end of the string |
| `Text.FirstWordUnique` | src/v1/middlewares/auth.middleware.ts:21 | a string has exactly one such first word |
| `AuthMiddleware.BearerSplit` | src/v1/middlewares/auth.middleware.ts:20-21 | a header starting with `"Bearer "` splits into `"Bearer"` followed by the parts of the rest, so segment 1 is the first word after the prefix |
| `AuthMiddleware.BearerToken` | src/v1/middlewares/auth.middleware.ts:20-22 | the header yields a token iff it starts with exactly `"Bearer "`; the token is the text after the prefix up to the next space or the end (possibly empty) |
| `AuthMiddleware.BearerTokenOfToken` | src/v1/middlewares/auth.middleware.ts:20-21 | a space-free token sent as `"Bearer " + token` is read back whole |
| `AuthMiddleware.SelectToken` | src/v1/middlewares/auth.middleware.ts:17-27 | a non-empty header token wins; otherwise a non-empty cookie is used; some non-empty token results iff either source gives one |
| `AuthMiddleware.HeaderTakesPrecedence` | src/v1/middlewares/auth.middleware.ts:20-27 | when the header yields a non-empty token, the cookie has no influence on the decision |
| `AuthMiddleware.CookieFallback` | src/v1/middlewares/auth.middleware.ts:24-27 | when the header yields no non-empty token (absent, other scheme, `"Bearer  x"`), the decision is the one the cookie alone gives |
| `AuthMiddleware.Authenticate` | src/v1/middlewares/auth.middleware.ts:16-58 | "Invalid token" iff no non-empty token; "Authentication failed" with the error "Invalid or expired token" iff verification throws; "Token verification failed" iff it returns a falsy value; otherwise admitted with exactly `{uid: decoded.uid, role: decoded.role}` |
| `AuthMiddleware.ValidateToken` | src/v1/middlewares/auth.middleware.ts:11-59 | `next` is called iff the token is admitted, and then `req.user` is the projected claim and nothing is written to the response; otherwise the response is 401 `{success: false, message}`, plus `error` when verification threw, and `req.user` is unchanged |
| `AuthMiddleware.IncludesNamesRole` | src/v1/middlewares/auth.middleware.ts:64 | `roles.includes(v)` holds iff `v` is the name of a role in `roles` |
| `AuthMiddleware.Authorize` | src/v1/middlewares/auth.middleware.ts:61-64 | allow iff a claim is attached and its role names a role in `roles`; an empty role list denies everything |
| `AuthMiddleware.AuthorizeRoles` | src/v1/middlewares/auth.middleware.ts:61-71 | `next` is called iff `Authorize` allows; otherwise 403 with the fixed "Access denied, ..." message |
| `Users.RoleOf` | src/v1/models/user.model.ts:3 | a value names a role only as that role's string `"buyer"`, `"vendor"`, `"mod"` or `"admin"`, and every such string is recognised |
| `Users.NameInjective` | src/v1/models/user.model.ts:3 | distinct roles have distinct names |
| `Users.InsertKeepsWellFormed` | src/v1/controllers/auth.controller.ts:30-36 | creating a user under a new email adds exactly that key, keeps the other records, and keeps emails as keys and `_id`s unique |
| `Users.UserStore.FindOne` | src/v1/controllers/auth.controller.ts:24 | `findOne({email})` throws iff the database is unreachable; otherwise it finds a record iff one is filed under that email, and returns that record |
| `Users.UserStore.Create` | src/v1/controllers/auth.controller.ts:30-36 | `create` succeeds iff the database is reachable, the email is new and the document is accepted; it then stores the document under a fresh `_id`; otherwise the collection is unchanged |
| `Jwt.TokenPayload` | src/v1/utils/jwt.utils.ts:10-21 | the signed payload has exactly the keys `userId` and `role`; `GenerateToken` hands it to the signer with the secret `"secret"` and the lifetime `"1d"`, as `LoginSpec`'s contract states |
| `Jwt.VerifyToken` | src/v1/utils/jwt.utils.ts:23-31 | any library failure becomes one error "Invalid or expired token"; otherwise the library's result is returned unchanged |
| `Jwt.IssuedPayloadHasNoUid` | src/v1/utils/jwt.utils.ts:10-20 | an issued payload, with `iat` and `exp` added, reads `uid` as undefined and gives back `userId` and `role` |
| `ApiResponse.Success` | src/v1/classes/api.res.ts:17-28 | status defaults to 200; body `{success: true, data, message}`, with message defaulting to "Operation successful"; no cookie |
| `ApiResponse.Error` | src/v1/classes/api.res.ts:37-48 | status defaults to 500; body `{success: false, data, message}`, with data defaulting to null and message to "Something went wrong" |
| `ApiResponse.Send` | src/v1/classes/api.res.ts:58-70 | `success`, `data` and `message` are echoed unchanged; status defaults to 200 |
| `ApiResponse.SendToken` | src/v1/classes/api.res.ts:79-108 | exactly one cookie `token` with the given token and the merged options is added; status 200; body `{success: true, data, message}`, with message defaulting to "Authentication successful" |
| `ApiResponse.DefaultCookieOptions` | src/v1/classes/api.res.ts:92-97 | defaults are httpOnly true, sameSite strict, path `/`, maxAge 259200000, and secure true iff `NODE_ENV` is `"production"` |
| `ApiResponse.MergeCookieOptions` | src/v1/classes/api.res.ts:92-99 | without overrides the defaults are used; each key the caller gives, even as `undefined`, replaces the default; each key the caller omits keeps it |
| `ApiResponse.MergeLaws` | src/v1/classes/api.res.ts:98 | overrides that omit every key change nothing, and applying the same overrides twice equals applying them once |
| `ApiResponse.UndefinedOverrideClearsDefault` | src/v1/classes/api.res.ts:94-98 | an explicit `secure: undefined` leaves the cookie without `secure`, even in production |
| `AuthController.NewBuyer` | src/v1/controllers/auth.controller.ts:30-36 | the created document has role buyer, the digest under `password`, no `passwordHash`, and the request's email |
| `AuthController.RegisterSpec` | src/v1/controllers/auth.controller.ts:8-42 | 400 iff a required field is falsy; 409 iff the fields are present and the email is taken; registered iff the email is new, hashing succeeds and the collection accepts the document, and the stored user is that document; forwarded to `next(err)` iff the fields are present and `findOne` throws, or the email is new and `hashValue` or `create` throws |
| `AuthController.Register` | src/v1/controllers/auth.controller.ts:8-42 | the collection and the response become what `RegisterSpec` decides: 400/409 with `data: null`, 201 "Admin created successfully" with the user, or nothing written when an error is forwarded; the collection stays well formed |
| `AuthController.RegisterAddsOneBuyer` | src/v1/controllers/auth.controller.ts:29-38 | a successful registration adds exactly one user under the email, with role buyer and the hash (not the plaintext) of the password, and keeps every other user |
| `AuthController.RegisterFailureKeepsStore` | src/v1/controllers/auth.controller.ts:16-27 | every outcome except success leaves the collection unchanged |
| `AuthController.RegisterTwiceConflicts` | src/v1/controllers/auth.controller.ts:24-27 | registering the same email again is refused with 409 "User already exists" |
| `AuthController.RegisterNeverSucceedsUnderSchema` | src/v1/controllers/auth.controller.ts:30-36 | when the collection, like the schema (`passwordHash` required), accepts only documents with a string `passwordHash`, `register` never stores a user and forwards the error once the earlier checks pass |
| `AuthController.RegisteredAsBuyerNotAdmin` | src/v1/controllers/auth.controller.ts:35-38 | the user behind the "Admin created successfully" reply has role buyer, not admin |
| `AuthController.LoginSpec` | src/v1/controllers/auth.controller.ts:44-80 | 400 iff email or password is falsy; 404 iff the email is unknown; 401 iff the comparison with `passwordHash` says no; forwarded to `next(err)` iff the credentials are present and `findOne` throws, or the user is found and `compareHashedValue` throws, or it matches and `generateToken` throws; a login succeeds only for the stored user, after a matching comparison, with a token signed over exactly that user's `_id` and role |
| `AuthController.Login` | src/v1/controllers/auth.controller.ts:44-80 | the response is what `LoginSpec` decides: the error replies add no cookie; success sends the token cookie and "Welcome back, firstName"; a forwarded error writes nothing; the method may modify only the response, never the collection |
| `AuthController.LoginSucceeds` | src/v1/controllers/auth.controller.ts:56-76 | a user whose stored `passwordHash` matches the password logs in with the token signed over its `_id` and role |
| `AuthController.RegisteredUserLoginIgnoresDigest` | src/v1/controllers/auth.controller.ts:29-64 | after `register`, login as that user succeeds only if `compare(password, undefined)` holds, and is 401 when that comparison says no |
| `AuthFlows.LoginTokenAuthenticates` | src/v1/middlewares/auth.middleware.ts:39-48 | a token issued by login, sent as a bearer header or as the cookie, is admitted with `uid` undefined and the user's role; the role gate then allows exactly the listed roles |
| `ErrorMiddleware.Handle` | src/v1/middlewares/error.middleware.ts:9-21 | a forwarded error is answered with 500 `{success: false, data: null, message: "Something went wrong"}` |

## Left out

- Cryptography: bcrypt's salts and cost factor, and JWT signatures, secrets and expiry. These are abstract functions. Expiry is up to the `verify` function given, and the lemmas describe a token that `verify` accepts.
- Mongoose schema behaviour. Required fields and the role enum act only through the abstract `accepts` predicate, which can reject a document but not change it. `AuthController.RegisterNeverSucceedsUnderSchema` shows what a `passwordHash: required` check does to `register`.
- Strict mode is not modelled. Mongoose would drop the `password` key, which the schema does not declare. The model stores it, and `RegisterAddsOneBuyer` states that the digest is there.
- Email lowercasing (`lowercase: true`) and query casting are not modelled. Emails are compared exactly, so in the model `"A@b.com"` registers after `"a@b.com"`, where the source answers 409.
- `_id` is modelled as a number drawn from a counter rather than an ObjectId.
- Values are JavaScript primitives. Numbers are integers (no NaN, -0 or fractions). `Display` writes every digit, whereas ECMAScript writes numbers of magnitude 10^21 or more in exponent form (`"1e+21"`). Objects and arrays inside request bodies, token claims or `j:`-prefixed JSON cookies are not modelled.
- `ValidateToken`: JSON serialisation is not modelled. Express serialises the caught `Error` as `{}`. The model's `error` field carries the error's message.
- `ValidateToken`: `next()` is called inside the `try`. A synchronous throw from `next` would also give 401 "Authentication failed". The model treats `next` as not throwing.
- `ApiResponse.SendToken`: Express turns `maxAge` into an `Expires` attribute and serialises the cookie. This is not modelled; the cookie records the options handed to `res.cookie`.
- Express's refusal to write a second response, and header details such as `Content-Type`, are not modelled.
- Async/await: the handlers are modelled as sequential methods. Logging, configuration reading (only the fallback secret and lifetime are used), routing, CORS and body parsing, and process lifecycle are not part of this model.
