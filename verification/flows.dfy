/**
 * Properties that span several handlers: the tokens each handler issues and what the
 * other handlers and the two gates make of them, and the lifecycle of the user table
 * over any sequence of requests.
 */
module Flows {
  import opened Wrappers
  import opened Jwt
  import opened Http
  import opened UserStore
  import opened Config
  import opened GoStrings
  import opened Auth
  import opened Middleware

  /** The token a successful Login returned. */
  function LoginToken(env: Env, hasher: Hasher, store: Store, creds: Credentials, now: int): string
    requires Login(env, hasher, store, Some(creds), false, now).status == StatusOK
  {
    Login(env, hasher, store, Some(creds), false, now).body.token
  }

  /**
   * The round trip the protected routes depend on: `Bearer ` followed by a token from
   * Login is forwarded, once and unchanged, for as long as the token is live.
   */
  lemma LoginTokenPassesGate(env: Env, hasher: Hasher, store: Store, creds: Credentials, now: int,
                             next: Request -> Response, req: Request, later: int)
    requires Lawful(env.jwt)
    requires Login(env, hasher, store, Some(creds), false, now).status == StatusOK
    requires req.authorization == "Bearer " + LoginToken(env, hasher, store, creds, now)
    requires later < now + SessionLifetime
    ensures AuthMiddleware(env, next, req, later).forwarded == [req]
    ensures AuthMiddleware(env, next, req, later).response == next(req)
  {
    var token := LoginToken(env, hasher, store, creds, now);
    ParseSigned(env.jwt, env.secret, SessionToken(env, creds.email, now), token, later);
    TrimPrefixOfConcat(BearerPrefix, token);
  }

  /**
   * The mail Register sends carries a token that, redeemed before it expires, verifies
   * exactly the registered user.
   */
  lemma EmailedTokenVerifiesUser(env: Env, hasher: Hasher, store: Store, user: User, sendOk: bool, now: int, later: int)
    requires Lawful(env.jwt)
    requires hasher.generate(user.password).Some? && user.email !in store
    requires env.jwt.sign(VerificationToken(env, user.email, now)).Some?
    requires later < now + VerificationLifetime
    ensures var reg := Register(env, hasher, store, Some(user), false, sendOk, now);
            var token := reg.sent[0].link[|VerifyUrlPrefix|..];
            var v := VerifyEmail(env, reg.store, token, false, false, later);
            && v.Reply? && v.response.status == StatusOK
            && MarkedVerified(reg.store, v.store, user.email)
            && v.store[user.email].verified
  {
    var reg := Register(env, hasher, store, Some(user), false, sendOk, now);
    var token := reg.sent[0].link[|VerifyUrlPrefix|..];
    assert token == CreateToken(env, user, now).token;
    CreateTokenParses(env, user, now, later);
    assert token != "" by {
      assert env.jwt.decode(token).Some?;
    }
    assert RedeemedEmail(env, token, later) == Some(user.email);
  }

  /**
   * A freshly registered user can log in with the same password at once, before any
   * verification: the new row is unverified and Login does not look at the flag.
   */
  lemma NewUserLogsInUnverified(env: Env, hasher: Hasher, store: Store, user: User, sendOk: bool, now: int, later: int)
    requires Sound(hasher)
    requires Register(env, hasher, store, Some(user), false, sendOk, now).store != store
    requires env.jwt.sign(SessionToken(env, user.email, later)).Some?
    ensures var reg := Register(env, hasher, store, Some(user), false, sendOk, now);
            && !reg.store[user.email].verified
            && Login(env, hasher, reg.store, Some(Credentials(user.email, user.password)), false, later).status == StatusOK
  {
    assert hasher.compare(hasher.generate(user.password).value, user.password);
  }

  /**
   * Session and verification tokens have the same shape, so a live login token also
   * redeems at the verification endpoint and verifies its user without any mail.
   */
  lemma LoginTokenRedeemsVerification(env: Env, hasher: Hasher, store: Store, creds: Credentials, now: int, later: int)
    requires Lawful(env.jwt)
    requires Login(env, hasher, store, Some(creds), false, now).status == StatusOK
    requires later < now + SessionLifetime
    ensures var v := VerifyEmail(env, store, LoginToken(env, hasher, store, creds, now), false, false, later);
            v.Reply? && v.response.status == StatusOK && v.store[creds.email].verified
  {
    var token := LoginToken(env, hasher, store, creds, now);
    ParseSigned(env.jwt, env.secret, SessionToken(env, creds.email, now), token, later);
    assert RedeemedEmail(env, token, later) == Some(creds.email);
  }

  /** A verification token, put behind `Bearer `, is accepted by the gate for its whole 72 hours. */
  lemma VerificationTokenPassesGate(env: Env, user: User, now: int, next: Request -> Response, req: Request, later: int)
    requires Lawful(env.jwt)
    requires !CreateToken(env, user, now).failed
    requires req.authorization == "Bearer " + CreateToken(env, user, now).token
    requires later < now + VerificationLifetime
    ensures AuthMiddleware(env, next, req, later).forwarded == [req]
  {
    CreateTokenParses(env, user, now, later);
    TrimPrefixOfConcat(BearerPrefix, CreateToken(env, user, now).token);
  }

  /**
   * The two gates disagree on every live token `s`: AuthMiddleware forwards `Bearer s`
   * and refuses the bare `s`; Authenticate forwards the bare `s` and refuses `Bearer s`.
   */
  lemma GatesDisagree(env: Env, next: Request -> Response, req: Request, t: Token, s: string, now: int)
    requires Lawful(env.jwt)
    requires env.jwt.sign(t) == Some(s)
    requires IsHmac(t.alg) && t.key == env.secret && now < t.claims.exp
    ensures var bearer := req.(authorization := "Bearer " + s);
            && AuthMiddleware(env, next, bearer, now).forwarded == [bearer]
            && Authenticate(env, next, bearer, now).response == Error("Invalid token", StatusUnauthorized)
    ensures var bare := req.(authorization := s);
            && Authenticate(env, next, bare, now).forwarded == [bare]
            && AuthMiddleware(env, next, bare, now).response == Error("Invalid token format", StatusUnauthorized)
  {
    ParseSigned(env.jwt, env.secret, t, s, now);
    TrimPrefixOfConcat(BearerPrefix, s);
    assert ("Bearer " + s)[6] == ' ';
    ParseRejectsSpace(env.jwt, env.secret, "Bearer " + s, now, 6);
    assert IsCompact(s);
    if |s| >= |BearerPrefix| {
      assert IsCompactChar(s[6]);
      assert s[..|BearerPrefix|][6] != BearerPrefix[6];
    }
  }

  /** One request to one of the three table-touching handlers, with its collaborator outcomes. */
  datatype Event =
    | RegisterCall(hasher: Hasher, user: Option<User>, insertFails: bool, sendOk: bool, at: int)
    | LoginCall(hasher: Hasher, creds: Option<Credentials>, queryFails: bool, at: int)
    | VerifyCall(tokenParam: string, queryFails: bool, updateFails: bool, at: int)

  /**
   * The table after one request. A panicking verification aborts before writing, so the
   * table is kept. Rows only ever grow, keep their name and hash, and stay verified; only
   * a redemption can verify anyone.
   */
  function Step(env: Env, store: Store, e: Event): (r: Store)
    ensures Evolves(store, r)
    ensures !e.VerifyCall? ==> VerifiedUsers(r) == VerifiedUsers(store)
    ensures e.LoginCall? ==> r == store
  {
    match e
    case RegisterCall(hasher, user, insertFails, sendOk, at) =>
      var r := Register(env, hasher, store, user, insertFails, sendOk, at).store;
      assert VerifiedUsers(r) == VerifiedUsers(store) by {
        if r != store {
          var email := user.value.email;
          assert email !in store && !r[email].verified;
          assert forall k :: k in r && k != email ==> k in store && r[k] == store[k];
        }
      }
      r
    case LoginCall(_, _, _, _) => store
    case VerifyCall(tokenParam, queryFails, updateFails, at) =>
      match VerifyEmail(env, store, tokenParam, queryFails, updateFails, at)
      case Reply(r, _) => r
      case Crash => store
  }

  /** The table after a sequence of requests, served one after another. */
  function Run(env: Env, store: Store, events: seq<Event>): Store
    decreases |events|
  {
    if events == [] then store else Run(env, Step(env, store, events[0]), events[1..])
  }

  /** Over any run, no user disappears, no name or hash changes, and nobody loses verification. */
  lemma {:induction false} RunEvolves(env: Env, store: Store, events: seq<Event>)
    ensures Evolves(store, Run(env, store, events))
    decreases |events|
  {
    if events != [] {
      var next := Step(env, store, events[0]);
      RunEvolves(env, next, events[1..]);
      EvolvesTransitive(store, next, Run(env, next, events[1..]));
    }
  }

  /** Without a redemption among the requests, the set of verified users stays exactly the same. */
  lemma {:induction false} OnlyRedemptionVerifies(env: Env, store: Store, events: seq<Event>)
    requires forall i :: 0 <= i < |events| ==> !events[i].VerifyCall?
    ensures VerifiedUsers(Run(env, store, events)) == VerifiedUsers(store)
    decreases |events|
  {
    if events != [] {
      var next := Step(env, store, events[0]);
      OnlyRedemptionVerifies(env, next, events[1..]);
    }
  }
}
