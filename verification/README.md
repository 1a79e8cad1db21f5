# Authentication subsystem of the gold-inventory backend, in Dafny

This project models the authentication core of a small Go web backend: account
registration with email verification, password login that issues a bearer token, and
the gate that guards the protected inventory routes. Every handler is a pure function of

* the user table (`UserStore.Store`, a map from email to name, bcrypt hash and verified flag),
* the decoded request,
* the current Unix time `now`,
* the outcome of each fallible collaborator it calls: JSON decoding (`Option`), bcrypt
  (`UserStore.Hasher`), the database (`insertFails`, `queryFails`, `updateFails`), the
  mail service (`sendOk`) and jwt-go (`Jwt.Library`).

Tokens (JSON Web Tokens, RFC 7519, signed HS256, i.e. HMAC-SHA256 of section 3.2 of
RFC 7518) are symbolic: `Jwt.Token(alg, Claims(email, exp), key)`. The library's
behaviour that the model relies on is the ghost predicate `Jwt.Lawful`:

* a signed token decodes back to itself;
* signing emits a non-empty string of base64url characters and `.` (the compact form);
* no string containing a space decodes, and neither does the empty string;
* a token is live strictly before `exp`, and dead strictly after a non-zero `exp`.

The exact comparison at `now == exp` belongs to jwt-go and stays open (`notExpired`).
Acceptance of a token is `Jwt.Accepts`: an HMAC algorithm, the configured secret as key,
and not expired. bcrypt's only assumed property is `UserStore.Sound`: a password matches
its own hash. The JWT secret is a non-empty configuration value (`Config.Secret`),
because start-up refuses an empty one (config/config.go:20-23).

Modules follow the source: `Auth` is controller/auth.go, `Middleware` is
middleware/authmiddleware.go. `Jwt`, `UserStore`, `Http`, `GoStrings` and `Config`
model the libraries and configuration those files use. `Flows` holds the properties
that span handlers, including the lifecycle of the user table over any sequence of
requests.

Only `AuthMiddleware` guards routes: routes/routes.go:19-20 wraps the `/protected`
subrouter in it. `Authenticate` is defined but never routed. It is modelled so that the
difference between the two gates is explicit (`Flows.GatesDisagree`). `Authenticate` hands
the whole header to the parser without stripping a prefix, so it accepts only a bare token
and always refuses `Bearer <token>`.

Behaviour worth knowing, proved here:

* Login does not read the verified flag, so an unverified user logs in at once
  (`Flows.NewUserLogsInUnverified`).
* A session token and a verification token have the same shape. So a login token
  verifies its user at `/verify` without any mail (`Flows.LoginTokenRedeemsVerification`),
  and the emailed verification token opens the protected routes for 72 hours
  (`Flows.VerificationTokenPassesGate`).
* Registration is not atomic: if the mail fails, the unverified row stays. With email as the table's key, a second
  registration with the same email then fails at the insert.
* Verification reports an absent user as 404, while login reports it as 401.

## Model

| member | source | states |
|---|---|---|
| `GoStrings.TrimPrefix` | middleware/authmiddleware.go:24-25 | with the prefix present the result is the rest after exactly one occurrence (prefix + result = input); without it the input is returned unchanged |
| `GoStrings.HasPrefixIffConcat` | middleware/authmiddleware.go:24 | the prefix test holds exactly when the header is the prefix followed by some string |
| `Jwt.Parse` | controller/auth.go:107-119 | parsing succeeds iff the string decodes to a token with an HMAC algorithm, signed with the configured secret and not expired; success always comes with `Valid` and the token's own claims; an undecodable string is malformed, a non-HMAC method is refused |
| `Jwt.ParseSigned` | middleware/authmiddleware.go:32-38 | an HMAC token signed with the secret parses back to its own claims, valid, at any time before its expiry |
| `Jwt.ParseRejectsForeignKey` | controller/auth.go:112-115 | a token signed under any other key is never accepted |
| `Jwt.ParseRejectsExpired` | middleware/authmiddleware.go:40-43 | a token with a non-zero expiry, checked after it, is refused (jwt-go reads an expiry of 0 as none) |
| `Jwt.ParseRejectsSpace` | controller/auth.go:263-271 | a string containing a space, such as a whole `Bearer` header, is malformed |
| `Auth.CreateToken` | controller/auth.go:32-48 | signs HS256 with the configured secret the claims email = the user's email and exp = now + 259200 s (72 h); fails exactly when signing fails, and then the string is empty |
| `Auth.CreateTokenParses` | controller/auth.go:33-42 | a token from CreateToken verifies, with the user's email and exp = now + 72 h, at any time before that expiry |
| `Auth.VerificationLink` | controller/auth.go:53 | the link is the fixed verify URL followed by the token, which is recoverable as the suffix |
| `Auth.Register` | controller/auth.go:157-197 | decode failure gives 400, bcrypt failure or insert failure (including an existing email) give 500, and all three leave the table unchanged with no token and no mail; the table changes only by one new row holding the bcrypt output (not the password) with verified = false; after a successful insert, a signing failure gives 500 "Failed to create verification token" with the row kept and no mail; otherwise exactly one mail goes to that user carrying the CreateToken result, and the reply is 200 if the send succeeds and 500 "Failed to send verification email" (row kept) if not; no token or mail is ever produced without the insert |
| `Auth.Login` | controller/auth.go:200-240 | 400 on a bad body, 500 on a lookup error, 401 "User not found" for an absent email, 401 "Invalid password" on a mismatch, 500 "Internal server error" when signing fails, all without a token; 200 exactly when the user exists, the password matches and signing works, returning the HS256 token with email = the given email and exp = now + 3600 s |
| `Auth.LoginIgnoresVerified` | controller/auth.go:209 | setting any user's verified flag to any value changes no login outcome |
| `Auth.VerifyEmail` | controller/auth.go:98-152 | an empty token gives 400 and a token that fails verification gives 401, both with the table unchanged; a valid token without a string email claim crashes; a lookup failure or absent user gives 404 "User not found" with the table unchanged; an update failure gives 500 "Error verifying email" with the table unchanged; 200 exactly when the claimed user exists and the writes succeed, and then exactly that user's row becomes verified and every other row is unchanged; "Invalid token claims" is never answered |
| `Auth.VerifyEmailIdempotent` | controller/auth.go:140-151 | redeeming the same token again on the resulting table yields the same table and the same response |
| `Auth.Authenticate` | controller/auth.go:253-277 | an empty header gives 401 "Missing token" without verification; otherwise the raw header, unstripped, is what gets verified; `next` runs once on the unchanged request iff it verifies, and every other path is 401 "Invalid token" |
| `Middleware.AuthMiddleware` | middleware/authmiddleware.go:14-55 | an empty header gives 401 "Token is required"; a header without the exact `Bearer ` prefix gives 401 "Invalid token format" and the verifier is not called; otherwise the verifier sees the header minus its first 7 characters, and a failure gives 401 "Invalid or expired token"; `next` runs exactly once on the unchanged request iff the prefix is there and the rest verifies; no rejection calls `next` and the claims branch is never taken |
| `Middleware.LowerCaseSchemeRejected` | middleware/authmiddleware.go:24-29 | the prefix check is case-sensitive: `bearer ` followed by anything is refused as badly formatted |
| `Middleware.PrefixTrimmedOnce` | middleware/authmiddleware.go:24-25 | only one prefix is trimmed: `Bearer Bearer t` hands `Bearer t` to the verifier |
| `Flows.LoginTokenPassesGate` | controller/auth.go:227-244 | `Bearer ` followed by a token from a successful login is forwarded, once and unchanged, at any time before it expires |
| `Flows.EmailedTokenVerifiesUser` | controller/auth.go:180-192 | when hashing, the insert and signing succeed, the token in the mailed link, redeemed before 72 h pass, verifies exactly the registered user |
| `Flows.NewUserLogsInUnverified` | controller/auth.go:208-224 | right after registration the row is unverified and login with the same password succeeds |
| `Flows.LoginTokenRedeemsVerification` | controller/auth.go:226-236 | a live login token also redeems at the verification endpoint and verifies its user |
| `Flows.VerificationTokenPassesGate` | controller/auth.go:180-181 | the verification token behind `Bearer ` passes the gate for its whole 72 hours |
| `Flows.GatesDisagree` | controller/auth.go:256-269 | for every live token s, AuthMiddleware forwards `Bearer s` and refuses bare s as badly formatted, while Authenticate forwards bare s and refuses `Bearer s` |
| `Flows.Step` | controller/auth.go:133-173 | one request never deletes a row, changes a name or hash, or un-verifies anyone; registration and login leave the set of verified users unchanged, and login leaves the table unchanged |
| `Flows.RunEvolves` | controller/auth.go:141-173 | over any sequence of requests, rows only grow, keep their name and hash, and stay verified once verified |
| `Flows.OnlyRedemptionVerifies` | controller/auth.go:141 | a sequence of requests without a redemption leaves the set of verified users exactly as it was |

## Left out

- Token bytes: base64url, JSON and the HMAC computation belong to jwt-go. They are replaced by the symbolic `Jwt.Token` and the assumptions in `Jwt.Lawful`.
- Expiry boundary: whether a token is live at `now == exp` is decided inside jwt-go and stays an abstract `notExpired`.
- Jwt.Parse: when a token has several faults, which error jwt-go reports first is not stated. All of them become the same 401 at every caller.
- Jwt.ParseRejectsSpace: the error kind `Malformed` is the model's label for any string with a space. jwt-go may report a signature error instead when the space lies only in the signature segment. Every caller turns all parse errors into the same 401.
- Other claims: `iat` and `nbf` are never issued and not modelled. A missing `exp` is not modelled; the model's claims always carry one. An `exp` of 0, which jwt-go reads as no expiry and which the login claims would omit, is given no expiry promise at all: `Jwt.Lawful` only says a non-zero `exp` dies after it passes.
- Login's response-encoding failure (controller/auth.go:245-249) is JSON encoding and not modelled. So is the Content-Type header set on success.
- The mail: the HTML body, sender and subject are not modelled, and the SendGrid client is a `sendOk` outcome. The mail is its recipient and link.
- URL query decoding of the `token` parameter is not modelled. The compact token alphabet is URL-safe.
- bcrypt: cost, salting and its password-length limit are hidden in a per-request `Hasher`. Only `Sound` is assumed.
- Email uniqueness: the table schema is not part of this model. An insert of an email that is already a key is taken to fail like any other insert error.
- Logging: log lines are not modelled.
- Concurrency: per-request concurrency and database write races are not modelled. Requests are served one after another in `Flows.Run`.
- Inventory CRUD (controller/emascontroller.go, model/emas.go) is outside this subsystem.
- Connection set-up (database/database.go), configuration loading (config/config.go), the server (main.go) and path routing (routes/routes.go) are not modelled. Only the facts that the secret is non-empty and that protected routes use AuthMiddleware are kept.
