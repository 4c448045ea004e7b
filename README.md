# Access-code lifecycle of the CMBackend server, in Dafny

This project models the part of the CMBackend Express server that decides who
gets into the protected `/main` page:

- **issuing** an access code, after a PayPal payment (`/execute-payment`) or
  with no check at all (`/generate-test-code`): a code made of the base-36
  digits of `Math.random()` is saved as `{ code, expiration: now + 1 hour, role }`
  and returned;
- **verifying** a code (`/api/verify-code/:code` in `index.js`,
  `/verify-code/:code` in `server.js`): `findOne({ code })` and, when a record
  is found whose expiration is strictly after now, the session is logged in
  with that record's role (and, in `server.js`, its code). The collection is
  never changed, so a code can be used again and again until it expires;
- **gating** `/main` with `requireAuth` on `session.isLoggedIn`, and reporting
  the login state with `/verify-session` (`index.js` only);
- the CORS origin callback of `index.js`;
- the single-use login codes of `routes/auth.js`: the user whose `loginCode`
  is the code gets a one-hour token and the code is cleared to `null`.

Modules, one per source file plus two shared ones:

| module | file | models |
|---|---|---|
| `CodeGenerator` | `code_generator.dfy` | `Math.random().toString(36).substr(2, 7)` |
| `AccessCodes` | `access_codes.dfy` | the AccessCode record, `findOne`, the expiry test, issue/verify lemmas |
| `IndexApp` | `index_app.dfy` | `index.js`: class `App` (collection + session), CORS check |
| `ServerApp` | `server_app.dfy` | `server.js`: class `App` with the `session.user` shape |
| `AuthRoutes` | `auth_routes.dfy` | `routes/auth.js` over an array of users |

Each entry point is a class `App` whose fields are the AccessCode collection
(`codes`) and one client's session (`isLoggedIn` and `sessionRole` or `user`).
Its handlers are methods that state the new collection and session in terms of
the old ones. `Valid()` records what only verification can bring about: a
logged-in session carries a role (and, in `server.js`, a code) that some
record of the collection granted. The outside world enters as parameters: the
payment provider's verdict (`paymentSucceeded`), the random number as the
base-36 digits that `toString(36)` prints after "0." (`random`), and the clock in milliseconds
(`now`). `findOne` is modelled as it is specified: it may answer *any*
record holding the code, because nothing makes codes unique. The verify
methods return that answer as a ghost out-parameter.

What the lemmas add beyond single calls:

- a code is exactly the first seven base-36 digits printed after "0.", so
  two issues collide exactly when those digits agree (`GeneratedCodesCollideIff`);
- with unique codes, verification succeeds exactly when a live record holds
  the code (`AdmitsIffLive`); a freshly issued code verifies from its issue
  until, and not at, one hour later (`IssuedCodeVerifies`); and a code that
  verified once keeps verifying, with the same record, until its expiration
  (`VerifyIsRepeatable`);
- without unique codes a fresh, paid-for code can be refused at once, when an
  expired record already holds the same code (`CollisionMayRefuse`);
- a `routes/auth.js` login code held by one user works exactly once
  (`LoginCodeIsSingleUse`, `VerifyTwice`).

## Model

| member | source | states |
|---|---|---|
| `CodeGenerator.GenerateCode` | index.js:165 | a generated code has at most 7 characters, each in 0-9 or a-z |
| `CodeGenerator.Substr` | index.js:197 | `substr(start, length)` yields `min(length, len - start)` characters (none when start is past the end), each the source character at start + k |
| `CodeGenerator.GeneratedCodeIsDigitPrefix` | server.js:100 | the code is exactly the first (up to) seven base-36 digits that `toString(36)` prints after the "0." prefix |
| `CodeGenerator.GeneratedCodesCollideIff` | server.js:111 | two printed renderings give the same code if and only if their first seven printed digits agree |
| `AccessCodes.FindOne` | index.js:176 | `findOne({ code })` answers some record holding the code, or nothing exactly when no record holds it |
| `AccessCodes.AdmitsOnlyLive` | index.js:176-178 | whatever findOne answers, verification succeeds only for a live record holding the code, never for an unknown code, and always when every record holding the code is live |
| `AccessCodes.AdmitsIffLive` | server.js:120-122 | with unique codes, verification succeeds if and only if a record holds the code and now is strictly before its expiration |
| `AccessCodes.IssuedCodeVerifies` | index.js:174-202 | after issuing a code no record held, findOne answers exactly the new record, and it verifies at a time t if and only if t < issue time + 3600000 |
| `AccessCodes.IssuePreservesUnique` | index.js:197-200 | issuing a code no record holds keeps the collection's codes unique |
| `AccessCodes.VerifyIsRepeatable` | index.js:174-185 | verification consumes nothing: with unique codes, every later verification of a code that verified once finds the same record and succeeds exactly before its expiration |
| `AccessCodes.CollisionMayRefuse` | server.js:111-122 | when an expired record already holds the generated code, findOne may answer it, so the freshly issued code is refused at its issue time |
| `IndexApp.IndexOf` | index.js:28 | `indexOf` answers -1 exactly when the origin is not listed, otherwise the first position holding it |
| `IndexApp.CheckOrigin` | index.js:26-33 | an origin is allowed if and only if it is absent, empty or listed in `allowedOrigins`; otherwise it is rejected with the CORS policy message |
| `IndexApp.App.constructor` | index.js:117-123 | starts from a persisted collection and a fresh, logged-out session with no role |
| `IndexApp.App.ExecutePayment` | index.js:157-172 | on payment success appends exactly one record `{ code, now + 3600000, role }` and returns its code; on payment failure answers 500 and leaves the collection unchanged; the session is untouched |
| `IndexApp.App.GenerateTestCode` | index.js:195-202 | appends exactly one record `{ code, now + 3600000, role }` with the generated code and returns that code; nothing else changes |
| `IndexApp.App.VerifyCode` | index.js:174-185 | succeeds if and only if findOne found a record with now < expiration; then the session is logged in with the record's role and the answer carries that role; on failure the session is unchanged; the collection never changes |
| `IndexApp.App.VerifySession` | index.js:187-193 | reports logged in exactly when `isLoggedIn` is set, with the session's role, which some access code granted |
| `IndexApp.App.RequireAuth` | index.js:207-213 | lets the request through if and only if the session is logged in, otherwise 401 |
| `IndexApp.App.GetMain` | index.js:215-217 | `/main` answers the welcome page if and only if the session is logged in, otherwise 401 |
| `IndexApp.AdminCodeLifecycle` | index.js:174-213 | an "admin" test code issued at t0 into an empty collection verifies with role "admin" at t0 + 30 min and opens the gate, is refused at t0 + 61 min, and the refusal leaves the session logged in |
| `ServerApp.App.constructor` | server.js:53-59 | starts from a persisted collection and a fresh, logged-out session with no user |
| `ServerApp.App.ExecutePayment` | server.js:92-107 | on payment success appends exactly one record `{ code, now + 3600000, role }` and returns its code; on payment failure answers 500 and adds nothing |
| `ServerApp.App.GenerateTestCode` | server.js:109-116 | appends exactly one record `{ code, now + 3600000, role }` and returns the code; nothing else changes |
| `ServerApp.App.VerifyCode` | server.js:118-133 | succeeds if and only if findOne found a record with now < expiration; then `session.user = { role, code }` of that record and the session is logged in, and the answer carries the role; on failure session and collection are untouched |
| `ServerApp.App.RequireAuth` | server.js:135-141 | lets the request through if and only if the session is logged in, otherwise 401 |
| `ServerApp.App.GetMain` | server.js:143-146 | `/main` answers the welcome page if and only if the session is logged in, and then the session's user holds the code of some record |
| `ServerApp.VisitWithCode` | server.js:118-146 | a new visitor who passes verification reaches `/main`, a refused one gets 401; with unique codes the visitor passes if and only if a live record holds the code |
| `AuthRoutes.FindUserByLoginCode` | routes/auth.js:13 | `User.findOne({ loginCode })` answers the position of some user holding the code, or nothing exactly when no user holds it |
| `AuthRoutes.ClearRemovesOneHolder` | routes/auth.js:21-23 | clearing the matched user's login code removes exactly that user from the code's holders, so their number drops by one |
| `AuthRoutes.LoginCodeIsSingleUse` | routes/auth.js:13-23 | a code held by one user is held by no one after that user's verification |
| `AuthRoutes.VerifyCode` | routes/auth.js:9-29 | a token is issued if and only if the lookup succeeds, some user holds the code and the save succeeds; it is bound to that user's id for 3600 s, and only that user's login code is cleared; an unknown code answers 400 and changes nothing; a failed lookup or a failed save answers 500 and changes nothing |
| `AuthRoutes.VerifyTwice` | routes/auth.js:13-25 | presenting a code held by one user twice yields that user's token first and a 400 second |

## Left out

- The PayPal SDK (`/create-payment`, the execute call): a foreign service; its verdict is the `paymentSucceeded` parameter of `ExecutePayment`.
- `Math.random()` and its entropy: the random number enters as the digits `toString(36)` prints after "0."; nothing is claimed about how likely two codes are to collide.
- The rendering of `toString(36)`: ECMAScript leaves it to the engine, and an engine that prints a shortest round-trip form rounds the last printed digit. The model starts from the printed digits, so it does not relate them to the exact base-36 expansion of the number; two numbers whose exact first seven digits differ may still print the same code.
- Uniqueness of codes: the source does not enforce it, so the lemmas that need it take it as a hypothesis, and `CollisionMayRefuse` shows what happens without it.
- Failure of `newCode.save()` in the issue handlers: the source does not catch it (no answer is sent); the model assumes the save succeeds.
- Failure of `AccessCode.findOne` in the verify handlers (index.js:176, server.js:120): there is no `try`, so a rejected lookup goes unhandled, no answer is sent and the session is unchanged; the model assumes the lookup succeeds.
- `AuthRoutes.VerifyCode`: the code is a string; the JSON body may carry any value there. Without a code (undefined or null), Mongoose could match users whose login code was already cleared. An object read as a query operator, such as `{"$ne": null}`, could match any user who still holds a code, and that user's token would be issued without the code being known. The model captures neither.
- JWT signing and checking (`jsonwebtoken`, `middleware/auth.js`): a foreign cryptographic library; the token is the abstract pair of user id and lifetime.
- The S3/multer upload and the profile endpoints: input/output with no decisions.
- The MongoDB connection, the session store and the session cookie's one-hour lifetime: the session's own expiry is enforced by `express-session`, so a logged-in session stays logged in within the model.
- The CORS configuration of `server.js`: a fixed origin handed to the `cors` library, with no logic of its own.
- Several clients: one client's session is modelled beside the shared collection.
- Concurrency between requests and the awaits inside a handler: each handler is one atomic step.
- Integer width of times: `Date` values are modelled as unbounded integers of milliseconds.
