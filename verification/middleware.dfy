/**
 * AuthMiddleware, the gate every protected route is wrapped in: the Authorization
 * header must start with exactly `Bearer `; what follows is verified, and only a
 * verified request reaches the wrapped handler.
 */
module Middleware {
  import opened Wrappers
  import opened Jwt
  import opened Http
  import opened Config
  import opened GoStrings

  /** The bearer scheme prefix, case-sensitive, with its single trailing space. */
  const BearerPrefix := "Bearer "

  function AuthMiddleware(env: Env, next: Request -> Response, req: Request, now: int): (r: GateTrace)
    // no header: rejected before anything else
    ensures req.authorization == "" ==> r == GateTrace(Error("Token is required", StatusUnauthorized), None, [])
    // a header without the exact prefix is rejected without calling the verifier
    ensures req.authorization != "" && !HasPrefix(req.authorization, "Bearer ") ==>
      r == GateTrace(Error("Invalid token format", StatusUnauthorized), None, [])
    // with the prefix, the verifier sees the header minus its first seven characters
    ensures HasPrefix(req.authorization, "Bearer ") ==>
      r.verifierInput == Some(req.authorization[7..]) && "Bearer " + r.verifierInput.value == req.authorization
    ensures HasPrefix(req.authorization, "Bearer ") && Parse(env.jwt, env.secret, req.authorization[7..], now).ParseFailed? ==>
      r.response == Error("Invalid or expired token", StatusUnauthorized)
    // `next` runs once, on the unchanged request, exactly when the prefix is there and the rest verifies
    ensures r.forwarded == [] || r.forwarded == [req]
    ensures r.forwarded == [req] <==>
      HasPrefix(req.authorization, "Bearer ") && Parse(env.jwt, env.secret, req.authorization[7..], now).ParseOk?
    ensures r.forwarded == [req] ==> r.response == next(req)
    // every rejection is a 401, and the claims branch is never taken
    ensures r.forwarded == [] ==> r.response.status == StatusUnauthorized
    ensures r.forwarded == [] ==> r.response != Error("Invalid token claims", StatusUnauthorized)
  {
    var header := req.authorization;
    if header == "" then GateTrace(Error("Token is required", StatusUnauthorized), None, [])
    else if !HasPrefix(header, BearerPrefix) then GateTrace(Error("Invalid token format", StatusUnauthorized), None, [])
    else
      var tokenString := TrimPrefix(header, BearerPrefix);
      var parsed := Parse(env.jwt, env.secret, tokenString, now);
      if parsed.ParseFailed? then GateTrace(Error("Invalid or expired token", StatusUnauthorized), Some(tokenString), [])
      else if parsed.valid then GateTrace(next(req), Some(tokenString), [req])
      else GateTrace(Error("Invalid token claims", StatusUnauthorized), Some(tokenString), [])
  }

  /** The prefix test is case-sensitive: a lower-case scheme is refused as badly formatted, whatever follows. */
  lemma LowerCaseSchemeRejected(env: Env, next: Request -> Response, req: Request, now: int, t: string)
    requires req.authorization == "bearer " + t
    ensures AuthMiddleware(env, next, req, now).response == Error("Invalid token format", StatusUnauthorized)
  {
    assert req.authorization[0] != BearerPrefix[0];
  }

  /** Only one prefix is trimmed: `Bearer Bearer t` hands `Bearer t` to the verifier. */
  lemma PrefixTrimmedOnce(env: Env, next: Request -> Response, req: Request, now: int, t: string)
    requires req.authorization == "Bearer Bearer " + t
    ensures AuthMiddleware(env, next, req, now).verifierInput == Some("Bearer " + t)
  {
    assert req.authorization == "Bearer " + ("Bearer " + t);
    TrimPrefixOfConcat(BearerPrefix, "Bearer " + t);
  }
}
