/**
 * JSON Web Tokens as the server uses them: `jwt.sign({ id }, secret,
 * { expiresIn: '8h' })` at login and `jwt.verify(token, secret, cb)` in the
 * access gate. Signing and verification are function values the model does
 * not look into; a token is the string `sign` produces from the claims.
 */
module Jwt {
  import opened Wrappers

  /** `expiresIn: '8h'`, in the seconds JWT timestamps count. */
  const Lifetime: int := 8 * 60 * 60

  /** The payload: the admin's id, the issue time and the expiry, in seconds. */
  datatype Claims = Claims(id: string, iat: int, exp: int)

  /** (secret, claims) to a compact token. */
  type Signer = (string, Claims) -> string

  /** (secret, token, now) to the decoded claims, or None when verification fails. */
  type Verifier = (string, string, int) -> Option<Claims>

  /** The claims `jwt.sign({ id }, secret, { expiresIn: '8h' })` puts in the token issued at `now`. */
  function IssueClaims(id: string, now: int): (c: Claims)
    ensures c.id == id && c.iat == now
    ensures c.exp - c.iat == 8 * 3600
  {
    Claims(id, now, now + Lifetime)
  }

  /**
   * The verifier accepts what the signer produced with the same secret, with
   * exactly the signed claims, while the current time is before `exp`, and
   * rejects it from `exp` on.
   */
  ghost predicate Faithful(sign: Signer, verify: Verifier) {
    forall secret, c, now :: verify(secret, sign(secret, c), now) == (if now < c.exp then Some(c) else None)
  }

  /** A compact JWS token is never empty and has no space in it (base64url parts joined by dots). */
  ghost predicate Compact(sign: Signer) {
    forall secret, c :: sign(secret, c) != [] && ' ' !in sign(secret, c)
  }
}
