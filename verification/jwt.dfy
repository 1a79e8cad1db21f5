/**
 * A symbolic model of the JSON Web Tokens (RFC 7519) the subsystem issues and checks.
 * A token is its header algorithm, its claim set and the key its signature was computed
 * with; the bytes (base64url, JSON, HMAC-SHA256 of section 3.2 of RFC 7518) are not modelled.
 * The jwt-go library becomes a `Library` value of three functions; the facts this model
 * relies on about it are collected in `Lawful`.
 */
module Jwt {
  import opened Wrappers

  /** The `alg` header values jwt-go knows. */
  datatype Alg = HS256 | HS384 | HS512 | RS256 | ES256 | PS256 | NoneAlg

  /** jwt-go's `*jwt.SigningMethodHMAC` covers exactly the three HS algorithms. */
  predicate IsHmac(a: Alg) {
    a == HS256 || a == HS384 || a == HS512
  }

  /** The value of the `email` claim in a decoded claim map. */
  datatype ClaimValue = Absent | Str(s: string) | NonString

  /** The claims this subsystem reads: `email` and the expiry `exp` (Unix seconds, section 4.1.4 of RFC 7519). */
  datatype Claims = Claims(email: ClaimValue, exp: int)

  /** A token: header algorithm, claims, and the key its signature was made with. */
  datatype Token = Token(alg: Alg, claims: Claims, key: string)

  /**
   * jwt-go as seen by this subsystem: `sign` is `SignedString` (it may fail), `decode`
   * splits and decodes a compact token without checking anything, and `notExpired(exp, now)`
   * is its expiry comparison, whose exact boundary is left open.
   */
  datatype Library = Library(
    sign: Token -> Option<string>,
    decode: string -> Option<Token>,
    notExpired: (int, int) -> bool)

  /** Characters of the compact serialisation: the base64url alphabet and the '.' separator. */
  predicate IsCompactChar(c: char) {
    ('A' <= c <= 'Z') || ('a' <= c <= 'z') || ('0' <= c <= '9') || c == '-' || c == '_' || c == '.'
  }

  predicate IsCompact(s: string) {
    forall i :: 0 <= i < |s| ==> IsCompactChar(s[i])
  }

  /**
   * What the model assumes of jwt-go: a signed token decodes back to itself; signing emits a
   * non-empty compact string; nothing containing a space decodes, nor does the empty string; a token is live strictly before its expiry and dead strictly after,
   * except that jwt-go reads an `exp` of 0 as "no expiry" and so promises nothing for it.
   */
  ghost predicate Lawful(lib: Library) {
    && (forall t :: lib.sign(t).Some? ==> lib.decode(lib.sign(t).value) == Some(t))
    && (forall t :: lib.sign(t).Some? ==> lib.sign(t).value != "" && IsCompact(lib.sign(t).value))
    && (forall s, i :: lib.decode(s).Some? && 0 <= i < |s| ==> s[i] != ' ')
    && lib.decode("").None?
    && (forall exp, now :: now < exp ==> lib.notExpired(exp, now))
    && (forall exp, now :: exp != 0 && exp < now ==> !lib.notExpired(exp, now))
  }

  /** Why `jwt.Parse` returned an error. At the HTTP boundary all of them become 401. */
  datatype ParseError = Malformed | UnexpectedSigningMethod | SignatureInvalid | Expired

  /** The result of `jwt.Parse`: an error, or the claims together with `token.Valid`. */
  datatype Parsed = ParseFailed(error: ParseError) | ParseOk(claims: Claims, valid: bool)

  /** The acceptance rule: an HMAC algorithm, signed with the configured secret, not expired. */
  predicate Accepts(lib: Library, secret: string, t: Token, now: int) {
    IsHmac(t.alg) && t.key == secret && lib.notExpired(t.claims.exp, now)
  }

  /**
   * `jwt.Parse(s, keyFunc)` with the key function every handler passes: it refuses a
   * non-HMAC method and otherwise hands back the configured secret, against which the
   * signature and then the expiry are checked.
   */
  function Parse(lib: Library, secret: string, s: string, now: int): (r: Parsed)
    ensures r.ParseOk? <==> lib.decode(s).Some? && Accepts(lib, secret, lib.decode(s).value, now)
    ensures r.ParseOk? ==> r.valid && r.claims == lib.decode(s).value.claims
    ensures lib.decode(s).None? ==> r == ParseFailed(Malformed)
    ensures lib.decode(s).Some? && !IsHmac(lib.decode(s).value.alg) ==> r == ParseFailed(UnexpectedSigningMethod)
  {
    match lib.decode(s)
    case None => ParseFailed(Malformed)
    case Some(t) =>
      if !IsHmac(t.alg) then ParseFailed(UnexpectedSigningMethod)
      else if t.key != secret then ParseFailed(SignatureInvalid)
      else if !lib.notExpired(t.claims.exp, now) then ParseFailed(Expired)
      else ParseOk(t.claims, true)
  }

  /** Round trip: an HMAC token signed with the secret parses to its own claims before it expires. */
  lemma ParseSigned(lib: Library, secret: string, t: Token, s: string, now: int)
    requires Lawful(lib)
    requires lib.sign(t) == Some(s)
    requires IsHmac(t.alg) && t.key == secret
    requires now < t.claims.exp
    ensures Parse(lib, secret, s, now) == ParseOk(t.claims, true)
  {
    assert lib.decode(lib.sign(t).value) == Some(t);
  }

  /** Signature integrity: a token signed under one key never parses under another. */
  lemma ParseRejectsForeignKey(lib: Library, secret: string, t: Token, s: string, now: int)
    requires Lawful(lib)
    requires lib.sign(t) == Some(s)
    requires t.key != secret
    ensures Parse(lib, secret, s, now).ParseFailed?
  {
    assert lib.decode(lib.sign(t).value) == Some(t);
  }

  /** A token with a (non-zero) expiry, checked strictly after it, is refused. */
  lemma ParseRejectsExpired(lib: Library, secret: string, t: Token, s: string, now: int)
    requires Lawful(lib)
    requires lib.sign(t) == Some(s)
    requires t.claims.exp != 0 && t.claims.exp < now
    ensures Parse(lib, secret, s, now).ParseFailed?
  {
    assert lib.decode(lib.sign(t).value) == Some(t);
  }

  /** A string with a space in it (such as a whole `Bearer ...` header) never parses. */
  lemma ParseRejectsSpace(lib: Library, secret: string, s: string, now: int, i: int)
    requires Lawful(lib)
    requires 0 <= i < |s| && s[i] == ' '
    ensures Parse(lib, secret, s, now) == ParseFailed(Malformed)
  {
    if lib.decode(s).Some? {
      assert false;
    }
  }
}
