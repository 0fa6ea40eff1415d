/** The cryptography the services rely on, as uninterpreted functions:
    bcrypt hashing and comparison, SHA-256, and JSON Web Token signing and
    verification (HMAC SHA-256, section 3.2 of RFC 7518). */
module Security {
  import opened Base

  /** `hash` is bcrypt with cost 10 (its random salt is part of the
      function), `compare` is `bcrypt.compare(raw, hash)`, `sha256` is the
      hex SHA-256 digest. */
  datatype Crypto = Crypto(hash: string -> string, compare: (string, string) -> bool, sha256: string -> string)

  /** The claims a verified token carries; `userId` may be missing. */
  datatype Claims = Claims(userId: Option<string>)

  /** `sign` issues a 15-minute token for a user id; `verify` returns the
      claims of a genuine, unexpired token and `None` for every failure
      (malformed, forged or expired tokens are indistinguishable). */
  datatype Jwt = Jwt(sign: string -> string, verify: string -> Option<Claims>)

  /** A verified token names a user: `payload && payload.userId` is truthy. */
  function VerifiedUserId(jwt: Jwt, token: string): (r: Option<string>)
    ensures r.Some? <==> (jwt.verify(token).Some? && jwt.verify(token).value.userId.Some? && jwt.verify(token).value.userId.value != "")
    ensures r.Some? ==> jwt.verify(token) == Some(Claims(r))
  {
    match jwt.verify(token)
    case None => None
    case Some(claims) =>
      if claims.userId.Some? && claims.userId.value != "" then claims.userId else None
  }

  /** The token signed for `userId` is a non-empty string that verifies
      back to `userId`: what a correct signer and verifier guarantee. */
  predicate SignVerifies(jwt: Jwt, userId: string) {
    userId != "" && jwt.sign(userId) != "" && jwt.verify(jwt.sign(userId)) == Some(Claims(Some(userId)))
  }
}
