/** The `authenticate` middleware: find an access token on the request,
    verify it, and either reject the request with 401 or hand `{id, email}` on
    to the next handler. */
module Gate {
  import opened Common
  import opened Jwt

  /** The parts of an incoming request the gate reads: parsed cookies, and
      headers under their lower-cased names. */
  datatype Request = Request(cookies: map<string, string>, headers: map<string, string>)

  /** What the gate stores in `req.user`. */
  datatype AuthUser = AuthUser(id: nat, email: string)

  /** `next()` with `req.user` set, or the JSON error the gate sends. */
  datatype GateOutcome = Next(user: AuthUser) | Reject(status: nat, error: string, message: string)

  const BearerPrefix := "Bearer "

  function Lookup(m: map<string, string>, k: string): Option<string> {
    if k in m then Some(m[k]) else None
  }

  /** The token taken from an `Authorization` header: what follows the exact
      prefix `Bearer `, if the header has that prefix. */
  function BearerToken(header: Option<string>): (r: Option<string>)
    ensures r.Some? <==> header.Some? && StartsWith(header.value, BearerPrefix)
    ensures r.Some? ==> header.value == BearerPrefix + r.value
  {
    if header.Some? && StartsWith(header.value, BearerPrefix) then Some(header.value[7..]) else None
  }

  /** The token the gate goes on to verify, if it finds a non-empty one. A
      non-empty `accessToken` cookie wins; the header is read only otherwise. */
  function ExtractToken(req: Request): (r: Option<string>)
    ensures r.Some? ==> r.value != ""
    ensures Truthy(Lookup(req.cookies, AccessCookie)) ==> r == Lookup(req.cookies, AccessCookie)
    ensures !Truthy(Lookup(req.cookies, AccessCookie)) ==>
              (r.Some? <==> Truthy(BearerToken(Lookup(req.headers, "authorization"))))
    ensures !Truthy(Lookup(req.cookies, AccessCookie)) && r.Some? ==>
              Lookup(req.headers, "authorization") == Some(BearerPrefix + r.value)
  {
    var cookie := Lookup(req.cookies, AccessCookie);
    if Truthy(cookie) then cookie
    else
      var bearer := BearerToken(Lookup(req.headers, "authorization"));
      if Truthy(bearer) then bearer else None
  }

  const TokenNotFound := Reject(401, "Unauthorized", "Access token not found")
  const TokenInvalid := Reject(401, "Unauthorized", "Invalid or expired access token")

  /** The middleware. `now` is the verifier's clock, in seconds. Token
      verification reports every failure as null, so both failures are the
      generic 401 and the handler's catch branches are never reached. */
  method Authenticate(req: Request, signer: Signer, env: Env, now: int) returns (outcome: GateOutcome)
    ensures ExtractToken(req).None? ==> outcome == TokenNotFound
    ensures ExtractToken(req).Some? ==>
              (VerifyAccessToken(signer, env, ExtractToken(req).value, now).None? ==> outcome == TokenInvalid)
    ensures ExtractToken(req).Some? ==>
              (VerifyAccessToken(signer, env, ExtractToken(req).value, now).Some? ==>
                 var c := VerifyAccessToken(signer, env, ExtractToken(req).value, now).value;
                 outcome == Next(AuthUser(c.userId, c.email)))
  {
    var token := Lookup(req.cookies, AccessCookie);
    if !Truthy(token) {
      var authHeader := Lookup(req.headers, "authorization");
      if authHeader.Some? && StartsWith(authHeader.value, BearerPrefix) {
        token := Some(authHeader.value[7..]);
      }
    }
    if !Truthy(token) {
      return TokenNotFound;
    }
    var decoded := VerifyAccessToken(signer, env, token.value, now);
    if decoded.None? {
      return TokenInvalid;
    }
    outcome := Next(AuthUser(decoded.value.userId, decoded.value.email));
  }

  /** A request the gate lets through carries, in the place it looked first, a
      token signed with the access secret that is still live; the user it
      passes on is that token's subject. */
  lemma {:induction false} AdmittedOnlyWithLiveAccessToken(req: Request, signer: Signer, env: Env, now: int, u: AuthUser)
    requires ExtractToken(req).Some?
    requires VerifyAccessToken(signer, env, ExtractToken(req).value, now) == Some(Claims(u.id, u.email))
    ensures exists exp :: now < exp &&
              signer.decode(ExtractToken(req).value) == Some(Token(Claims(u.id, u.email), AccessSecret(env), exp))
  {
    var t := signer.decode(ExtractToken(req).value).value;
    assert t == Token(Claims(u.id, u.email), AccessSecret(env), t.exp);
  }

  /** A present but invalid cookie token is rejected even when the header
      carries a token that would verify: the header is never consulted. */
  lemma CookieShadowsHeader(req: Request, signer: Signer, env: Env, now: int)
    requires Truthy(Lookup(req.cookies, AccessCookie))
    requires VerifyAccessToken(signer, env, req.cookies[AccessCookie], now).None?
    ensures ExtractToken(req) == Some(req.cookies[AccessCookie])
    ensures VerifyAccessToken(signer, env, ExtractToken(req).value, now).None?
  {
  }

  /** With no cookie, `Authorization: Bearer <token>` for a live access token
      is admitted as that token's subject. */
  lemma {:induction false} BearerHeaderAdmitted(signer: Signer, env: Env, c: Claims, issued: int, now: int, headers: map<string, string>)
    requires Sound(signer)
    requires now < issued + AccessTokenTtl
    requires GenerateAccessToken(signer, env, c, issued) != ""
    requires "authorization" in headers && headers["authorization"] == BearerPrefix + GenerateAccessToken(signer, env, c, issued)
    ensures ExtractToken(Request(map[], headers)) == Some(GenerateAccessToken(signer, env, c, issued))
    ensures VerifyAccessToken(signer, env, GenerateAccessToken(signer, env, c, issued), now) == Some(c)
  {
    var tok := GenerateAccessToken(signer, env, c, issued);
    assert (BearerPrefix + tok)[..7] == BearerPrefix;
    assert (BearerPrefix + tok)[7..] == tok;
    AccessTokenLifetime(signer, env, c, issued, now);
  }
}
