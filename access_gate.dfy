/**
 * `authMiddleware` in server.js: the stateless decision, per request, over
 * the `Authorization` header, the server's secret and the current time.
 */
module AccessGate {
  import opened Wrappers
  import opened Text
  import opened Jwt
  import opened Records

  /** 401 when no token was presented, 403 when it did not verify, otherwise pass on with the decoded payload as `req.user`. */
  datatype Decision = Unauthorized | Forbidden | Allow(user: Claims)

  /**
   * `authHeader && authHeader.split(' ')[1]`, kept only when it is truthy:
   * the second space-separated word of the header. The first word (the
   * scheme) is not looked at.
   */
  function BearerToken(header: Option<string>): (t: Option<string>)
    ensures t.Some? ==> t.value != [] && ' ' !in t.value
    ensures t.Some? <==> header.Some? && |Split(header.value, ' ')| >= 2 && Split(header.value, ' ')[1] != []
    ensures t.Some? ==> t.value == Split(header.value, ' ')[1]
  {
    match header
    case None => None
    case Some(h) =>
      var words := Split(h, ' ');
      if |words| >= 2 && words[1] != [] then Some(words[1]) else None
  }

  /** The gate: no token is 401, a token that does not verify is 403, otherwise allow with the verified claims. */
  function Gate(verify: Verifier, secret: string, header: Option<string>, now: int): (d: Decision)
    ensures d == Unauthorized <==> BearerToken(header) == None
    ensures d == Forbidden <==> BearerToken(header).Some? && verify(secret, BearerToken(header).value, now) == None
    ensures d.Allow? ==> BearerToken(header).Some? && verify(secret, BearerToken(header).value, now) == Some(d.user)
  {
    match BearerToken(header)
    case None => Unauthorized
    case Some(token) =>
      match verify(secret, token, now)
      case None => Forbidden
      case Some(user) => Allow(user)
  }

  /** What the gate answers when it does not pass the request on (`res.sendStatus`). */
  function Rejection(d: Decision): (r: Response)
    requires !d.Allow?
    ensures r.status == (if d == Unauthorized then 401 else 403)
  {
    if d == Unauthorized then Response(401, StatusText("Unauthorized"))
    else Response(403, StatusText("Forbidden"))
  }

  /** Any header of two or more words hands over its second word, whatever the others say. */
  lemma SecondWordIsToken(words: seq<string>)
    requires |words| >= 2 && words[1] != []
    requires forall i :: 0 <= i < |words| ==> ' ' !in words[i]
    ensures BearerToken(Some(Join(words, ' '))) == Some(words[1])
  {
    SplitJoin(words, ' ');
  }

  /** In particular a header "<scheme> <token>" hands over the token. */
  lemma TwoWordHeader(scheme: string, token: string)
    requires ' ' !in scheme && ' ' !in token && token != []
    ensures BearerToken(Some(scheme + " " + token)) == Some(token)
  {
    SecondWordIsToken([scheme, token]);
    assert Join([scheme, token], ' ') == scheme + " " + token;
  }

  /** The scheme word is never checked: any first word gives the same decision as "Bearer". */
  lemma SchemeNotChecked(verify: Verifier, secret: string, scheme: string, token: string, now: int)
    requires ' ' !in scheme && ' ' !in token
    ensures Gate(verify, secret, Some(scheme + " " + token), now) == Gate(verify, secret, Some("Bearer " + token), now)
  {
    if token != [] {
      TwoWordHeader(scheme, token);
      TwoWordHeader("Bearer", token);
      assert "Bearer " + token == "Bearer" + " " + token;
    } else {
      SplitAtSeparator(scheme, ' ', []);
      SplitAtSeparator("Bearer", ' ', []);
      assert scheme + " " + token == scheme + [' '] + [];
      assert "Bearer " + token == "Bearer" + [' '] + [];
    }
  }

  /** A header of one word (say just "Bearer") carries no token: 401. */
  lemma OneWordHeaderUnauthorized(verify: Verifier, secret: string, header: string, now: int)
    requires ' ' !in header
    ensures Gate(verify, secret, Some(header), now) == Unauthorized
  {
    SplitNoSeparator(header, ' ');
  }

  /**
   * A token issued at login opens the gate, with its claims as `req.user`,
   * for eight hours after issue, and is answered 403 from its expiry on.
   */
  lemma IssuedTokenLifetime(sign: Signer, verify: Verifier, secret: string, id: string, issuedAt: int, now: int)
    requires Faithful(sign, verify) && Compact(sign)
    ensures var header := Some("Bearer " + sign(secret, IssueClaims(id, issuedAt)));
      Gate(verify, secret, header, now) == if now < issuedAt + 8 * 3600 then Allow(IssueClaims(id, issuedAt)) else Forbidden
  {
    var token := sign(secret, IssueClaims(id, issuedAt));
    TwoWordHeader("Bearer", token);
    assert "Bearer " + token == "Bearer" + " " + token;
    assert verify(secret, token, now) == if now < issuedAt + Lifetime then Some(IssueClaims(id, issuedAt)) else None;
  }
}
