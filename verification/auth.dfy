/**
 * The request handlers of the authentication controller: token issue, registration,
 * email verification, login and the (unrouted) `Authenticate` gate. Each handler is a
 * pure function of the user table, the decoded request, the current Unix time and the
 * outcomes of the collaborators it calls (JSON decoding, the database, bcrypt, jwt-go,
 * the mail service).
 */
module Auth {
  import opened Wrappers
  import opened Jwt
  import opened Http
  import opened UserStore
  import opened Config

  /** A registration body (`model.User`). */
  datatype User = User(name: string, email: string, password: string)

  /** A login body. */
  datatype Credentials = Credentials(email: string, password: string)

  /** Lifetime of a verification token: 72 hours, in seconds. */
  const VerificationLifetime := 72 * 3600

  /** Lifetime of a login session token: 60 minutes, in seconds. */
  const SessionLifetime := 60 * 60

  const VerifyUrlPrefix := "http://localhost:8080/verify?token="

  /** The HS256 token `CreateToken` signs for `email` at time `now`. */
  function VerificationToken(env: Env, email: string, now: int): Token {
    Token(HS256, Claims(Str(email), now + VerificationLifetime), env.secret)
  }

  /** The HS256 token `Login` signs for `email` at time `now`. */
  function SessionToken(env: Env, email: string, now: int): Token {
    Token(HS256, Claims(Str(email), now + SessionLifetime), env.secret)
  }

  /** Go's `(string, error)` result of `CreateToken`; `failed` stands for a non-nil error. */
  datatype Signed = Signed(token: string, failed: bool)

  /**
   * CreateToken: signs, with HS256 and the configured secret, the claims `email` = the
   * user's email and `exp` = now + 72 h; on a signing error the string is empty.
   */
  function CreateToken(env: Env, user: User, now: int): (r: Signed)
    ensures r.failed <==> env.jwt.sign(Token(HS256, Claims(Str(user.email), now + 259200), env.secret)).None?
    ensures r.failed ==> r.token == ""
    ensures !r.failed ==> env.jwt.sign(Token(HS256, Claims(Str(user.email), now + 259200), env.secret)) == Some(r.token)
  {
    match env.jwt.sign(VerificationToken(env, user.email, now))
    case None => Signed("", true)
    case Some(s) => Signed(s, false)
  }

  /** A token from CreateToken verifies, carrying the user's email, until it expires. */
  lemma CreateTokenParses(env: Env, user: User, now: int, later: int)
    requires Lawful(env.jwt)
    requires !CreateToken(env, user, now).failed
    requires later < now + VerificationLifetime
    ensures Parse(env.jwt, env.secret, CreateToken(env, user, now).token, later)
         == ParseOk(Claims(Str(user.email), now + VerificationLifetime), true)
  {
    ParseSigned(env.jwt, env.secret, VerificationToken(env, user.email, now), CreateToken(env, user, now).token, later);
  }

  /** The message handed to the mail service: recipient and verification link. */
  datatype Mail = Mail(to: string, link: string)

  /** The link of the verification mail; the token is everything after the fixed prefix. */
  function VerificationLink(token: string): (link: string)
    ensures |link| == |VerifyUrlPrefix| + |token|
    ensures link[..|VerifyUrlPrefix|] == VerifyUrlPrefix && link[|VerifyUrlPrefix|..] == token
  {
    VerifyUrlPrefix + token
  }

  /**
   * What Register did: the table afterwards, the response, the verification token it
   * created (if it got that far) and the mails it handed to the mail service.
   */
  datatype RegisterResult = RegisterResult(store: Store, response: Response, verificationToken: Option<string>, sent: seq<Mail>)

  /** The row Register inserts: name, bcrypt hash, and not verified. */
  function NewRow(user: User, hash: string): Row {
    Row(user.name, hash, false)
  }

  /**
   * Register: decode the body, hash the password, insert the unverified row, create the
   * verification token, send the mail. Each step that fails ends the request with an error,
   * and nothing done by an earlier step is undone. `insertFails` is a database error;
   * inserting an email that is already a key fails as well.
   */
  function Register(env: Env, hasher: Hasher, store: Store, body: Option<User>, insertFails: bool, sendOk: bool, now: int): (r: RegisterResult)
    // a body that does not decode: 400 and nothing else happens
    ensures body.None? ==> r == RegisterResult(store, Error("Invalid request payload", StatusBadRequest), None, [])
    // bcrypt fails: 500, table unchanged, no token, no mail
    ensures body.Some? && hasher.generate(body.value.password).None? ==>
      r == RegisterResult(store, Error("Internal server error during password encryption", StatusInternalServerError), None, [])
    // the insert fails: 500, table unchanged, no token, no mail
    ensures body.Some? && hasher.generate(body.value.password).Some? && (insertFails || body.value.email in store) ==>
      r == RegisterResult(store, Error("Internal server error during user insertion", StatusInternalServerError), None, [])
    // the only change ever made: one new unverified row holding the bcrypt output, not the password
    ensures r.store != store <==>
      body.Some? && hasher.generate(body.value.password).Some? && !insertFails && body.value.email !in store
    ensures r.store != store ==>
      r.store == store[body.value.email := Row(body.value.name, hasher.generate(body.value.password).value, false)]
    // a token is created only after the row is in, and a mail only carries that token, to that user
    ensures r.verificationToken.Some? ==> r.store != store
    ensures r.sent != [] ==>
      r.verificationToken.Some? && r.sent == [Mail(body.value.email, VerificationLink(r.verificationToken.value))]
    ensures r.verificationToken.Some? ==>
      && r.sent != []
      && !CreateToken(env, body.value, now).failed
      && r.verificationToken.value == CreateToken(env, body.value, now).token
    // after a successful insert: the token is created, and one mail carrying it goes to that user
    ensures body.Some? && hasher.generate(body.value.password).Some? && !insertFails && body.value.email !in store ==>
      if CreateToken(env, body.value, now).failed then
        r.response == Error("Failed to create verification token", StatusInternalServerError)
        && r.verificationToken.None? && r.sent == []
      else
        && r.verificationToken == Some(CreateToken(env, body.value, now).token)
        && r.sent == [Mail(body.value.email, VerificationLink(CreateToken(env, body.value, now).token))]
        && r.response.status == (if sendOk then StatusOK else StatusInternalServerError)
    // a failed send still leaves the unverified row behind
    ensures r.sent != [] && !sendOk ==>
      r.response == Error("Failed to send verification email", StatusInternalServerError) && r.store != store
    ensures r.response.status == StatusOK <==> r.sent != [] && sendOk
    ensures r.response.status == StatusOK ==> r.response.body == Message("User registered successfully. Please verify your email.")
    ensures r.response.status in {StatusOK, StatusBadRequest, StatusInternalServerError}
  {
    match body
    case None => RegisterResult(store, Error("Invalid request payload", StatusBadRequest), None, [])
    case Some(user) =>
      match hasher.generate(user.password)
      case None =>
        RegisterResult(store, Error("Internal server error during password encryption", StatusInternalServerError), None, [])
      case Some(hash) =>
        if insertFails || user.email in store then
          RegisterResult(store, Error("Internal server error during user insertion", StatusInternalServerError), None, [])
        else
          var inserted := store[user.email := NewRow(user, hash)];
          var signed := CreateToken(env, user, now);
          if signed.failed then
            RegisterResult(inserted, Error("Failed to create verification token", StatusInternalServerError), None, [])
          else
            var mail := Mail(user.email, VerificationLink(signed.token));
            if !sendOk then
              RegisterResult(inserted, Error("Failed to send verification email", StatusInternalServerError), Some(signed.token), [mail])
            else
              RegisterResult(inserted, Response(StatusOK, Message("User registered successfully. Please verify your email.")), Some(signed.token), [mail])
  }

  /**
   * Login: decode the credentials, look the email up, compare the password with the stored
   * hash and sign a session token. `queryFails` is a database error other than "no rows".
   * The verified flag is never read.
   */
  function Login(env: Env, hasher: Hasher, store: Store, body: Option<Credentials>, queryFails: bool, now: int): (r: Response)
    ensures body.None? ==> r == Error("Invalid request payload", StatusBadRequest)
    ensures body.Some? && queryFails ==> r == Error("Internal server error", StatusInternalServerError)
    ensures body.Some? && !queryFails && body.value.email !in store ==> r == Error("User not found", StatusUnauthorized)
    ensures (body.Some? && !queryFails && body.value.email in store
             && !hasher.compare(store[body.value.email].hash, body.value.password)) ==>
      r == Error("Invalid password", StatusUnauthorized)
    // success: exactly when the user exists, the password matches and signing works
    ensures r.status == StatusOK <==>
      && body.Some? && !queryFails && body.value.email in store
      && hasher.compare(store[body.value.email].hash, body.value.password)
      && env.jwt.sign(Token(HS256, Claims(Str(body.value.email), now + 3600), env.secret)).Some?
    ensures r.status == StatusOK ==>
      && r.body.LoginReply? && r.body.message == "Login successful"
      && env.jwt.sign(Token(HS256, Claims(Str(body.value.email), now + 3600), env.secret)) == Some(r.body.token)
    ensures (body.Some? && !queryFails && body.value.email in store
             && hasher.compare(store[body.value.email].hash, body.value.password)
             && env.jwt.sign(Token(HS256, Claims(Str(body.value.email), now + 3600), env.secret)).None?) ==>
      r == Error("Internal server error", StatusInternalServerError)
    // every failure is a plain error text: no token leaves on a failure path
    ensures r.status != StatusOK ==> r.body.Text? && r.status in {StatusBadRequest, StatusUnauthorized, StatusInternalServerError}
  {
    match body
    case None => Error("Invalid request payload", StatusBadRequest)
    case Some(creds) =>
      if queryFails then Error("Internal server error", StatusInternalServerError)
      else if creds.email !in store then Error("User not found", StatusUnauthorized)
      else if !hasher.compare(store[creds.email].hash, creds.password) then Error("Invalid password", StatusUnauthorized)
      else
        match env.jwt.sign(SessionToken(env, creds.email, now))
        case None => Error("Internal server error", StatusInternalServerError)
        case Some(token) => Response(StatusOK, LoginReply("Login successful", token))
  }

  /** Login never looks at the verified flag: flipping it changes no login outcome. */
  lemma LoginIgnoresVerified(env: Env, hasher: Hasher, store: Store, body: Option<Credentials>, queryFails: bool, now: int, email: string, flag: bool)
    requires email in store
    ensures Login(env, hasher, store[email := store[email].(verified := flag)], body, queryFails, now)
         == Login(env, hasher, store, body, queryFails, now)
  {
  }

  /** What a handler did: a table and a response, or a panic that aborts the request before any write. */
  datatype Outcome = Reply(store: Store, response: Response) | Crash

  /** The email a verification request redeems: a non-empty, valid token whose `email` claim is a string. */
  function RedeemedEmail(env: Env, tokenParam: string, now: int): Option<string> {
    if tokenParam == "" then None
    else
      var parsed := Parse(env.jwt, env.secret, tokenParam, now);
      if parsed.ParseOk? && parsed.claims.email.Str? then Some(parsed.claims.email.s) else None
  }

  /**
   * VerifyEmail: read the `token` query parameter, verify it, take the `email` claim
   * (a type assertion that panics when the claim is missing or not a string), check the
   * user exists and set its verified flag. `queryFails` and `updateFails` are database errors.
   */
  function VerifyEmail(env: Env, store: Store, tokenParam: string, queryFails: bool, updateFails: bool, now: int): (r: Outcome)
    ensures tokenParam == "" ==> r == Reply(store, Error("Token is missing", StatusBadRequest))
    ensures tokenParam != "" && Parse(env.jwt, env.secret, tokenParam, now).ParseFailed? ==>
      r == Reply(store, Error("Invalid token", StatusUnauthorized))
    // the panic: a valid token without a string email claim
    ensures r.Crash? <==>
      tokenParam != "" && Parse(env.jwt, env.secret, tokenParam, now).ParseOk?
      && !Parse(env.jwt, env.secret, tokenParam, now).claims.email.Str?
    ensures r.Reply? ==> r.response.body != Text("Invalid token claims")
    // an absent user, or a failed lookup, is reported as not found
    ensures r.Reply? && r.response.status == StatusNotFound <==>
      RedeemedEmail(env, tokenParam, now).Some? && (queryFails || RedeemedEmail(env, tokenParam, now).value !in store)
    ensures RedeemedEmail(env, tokenParam, now).Some? && (queryFails || RedeemedEmail(env, tokenParam, now).value !in store) ==>
      r == Reply(store, Error("User not found", StatusNotFound))
    // success flips exactly the claimed user's flag
    ensures r.Reply? && r.response.status == StatusOK <==>
      RedeemedEmail(env, tokenParam, now).Some? && !queryFails && !updateFails && RedeemedEmail(env, tokenParam, now).value in store
    ensures r.Reply? && r.response.status == StatusOK ==>
      r.response.body == Message("Email successfully verified")
      && MarkedVerified(store, r.store, RedeemedEmail(env, tokenParam, now).value)
    ensures (RedeemedEmail(env, tokenParam, now).Some? && !queryFails
             && RedeemedEmail(env, tokenParam, now).value in store && updateFails) ==>
      r == Reply(store, Error("Error verifying email", StatusInternalServerError))
    ensures r.Reply? && r.response.status != StatusOK ==> r.store == store
  {
    if tokenParam == "" then Reply(store, Error("Token is missing", StatusBadRequest))
    else
      var parsed := Parse(env.jwt, env.secret, tokenParam, now);
      if parsed.ParseFailed? || !parsed.valid then Reply(store, Error("Invalid token", StatusUnauthorized))
      // jwt.Parse always yields map claims, and `valid` was checked above: this branch is dead
      else if !parsed.valid then Reply(store, Error("Invalid token claims", StatusUnauthorized))
      else
        match parsed.claims.email
        case Str(email) =>
          if queryFails || email !in store then Reply(store, Error("User not found", StatusNotFound))
          else if updateFails then Reply(store, Error("Error verifying email", StatusInternalServerError))
          else Reply(store[email := store[email].(verified := true)], Response(StatusOK, Message("Email successfully verified")))
        case _ => Crash
  }

  /**
   * Redemption is idempotent: with no database faults, redeeming the same token again on
   * the table the first redemption left gives the same table and the same response.
   */
  lemma VerifyEmailIdempotent(env: Env, store: Store, tokenParam: string, now: int)
    requires VerifyEmail(env, store, tokenParam, false, false, now).Reply?
    ensures VerifyEmail(env, VerifyEmail(env, store, tokenParam, false, false, now).store, tokenParam, false, false, now)
         == VerifyEmail(env, store, tokenParam, false, false, now)
  {
    var first := VerifyEmail(env, store, tokenParam, false, false, now);
    if first.response.status == StatusOK {
      var email := RedeemedEmail(env, tokenParam, now).value;
      var again := first.store[email := first.store[email].(verified := true)];
      assert again == first.store;
    }
  }

  /**
   * Authenticate, the gate that no route uses: it hands the whole Authorization header to
   * the verifier, with no `Bearer ` stripping, and calls `next` once when it verifies.
   */
  function Authenticate(env: Env, next: Request -> Response, req: Request, now: int): (r: GateTrace)
    ensures req.authorization == "" ==> r == GateTrace(Error("Missing token", StatusUnauthorized), None, [])
    ensures req.authorization != "" ==> r.verifierInput == Some(req.authorization)
    ensures r.forwarded == [] || r.forwarded == [req]
    ensures r.forwarded == [req] <==> req.authorization != "" && Parse(env.jwt, env.secret, req.authorization, now).ParseOk?
    ensures r.forwarded == [req] ==> r.response == next(req)
    ensures r.forwarded == [] ==> r.response.status == StatusUnauthorized
    ensures req.authorization != "" && r.forwarded == [] ==> r.response == Error("Invalid token", StatusUnauthorized)
  {
    var header := req.authorization;
    if header == "" then GateTrace(Error("Missing token", StatusUnauthorized), None, [])
    else
      var parsed := Parse(env.jwt, env.secret, header, now);
      if parsed.ParseFailed? || !parsed.valid then GateTrace(Error("Invalid token", StatusUnauthorized), Some(header), [])
      else GateTrace(next(req), Some(header), [req])
  }
}
