/** Issuing and checking the access and refresh tokens, and writing them to
    (or clearing them from) the response's cookies.

    The `jsonwebtoken` library is a parameter: a `Signer` turns a token into
    its compact text and reads the text back. What a compact text carries is
    modelled as the claims, the secret its signature verifies under, and the
    expiry (`exp`, in seconds). */
module Jwt {
  import opened Common
  import opened Http

  const DefaultAccessSecret := "your-jwt-secret-change-this"
  const DefaultRefreshSecret := "your-refresh-secret-change-this"

  /** `expiresIn: '15m'` and `expiresIn: '7d'`, in seconds. */
  const AccessTokenTtl := 15 * 60
  const RefreshTokenTtl := 7 * 24 * 60 * 60

  const AccessCookie := "accessToken"
  const RefreshCookie := "refreshToken"

  /** Cookie lifetimes, in milliseconds. */
  const AccessCookieMaxAge := 15 * 60 * 1000
  const RefreshCookieMaxAge := 7 * 24 * 60 * 60 * 1000

  datatype Claims = Claims(userId: nat, email: string)

  datatype Token = Token(claims: Claims, secret: string, exp: int)

  datatype Signer = Signer(encode: Token -> string, decode: string -> Option<Token>)

  /** A signer whose verification recovers exactly what was signed. */
  ghost predicate Sound(signer: Signer) {
    forall t :: signer.decode(signer.encode(t)) == Some(t)
  }

  /** `process.env.JWT_SECRET || 'your-jwt-secret-change-this'` */
  function AccessSecret(env: Env): (r: string)
    ensures r != ""
    ensures Truthy(env.jwtSecret) ==> r == env.jwtSecret.value
    ensures !Truthy(env.jwtSecret) ==> r == DefaultAccessSecret
  {
    if Truthy(env.jwtSecret) then env.jwtSecret.value else DefaultAccessSecret
  }

  /** `process.env.JWT_REFRESH_SECRET || 'your-refresh-secret-change-this'` */
  function RefreshSecret(env: Env): (r: string)
    ensures r != ""
    ensures Truthy(env.jwtRefreshSecret) ==> r == env.jwtRefreshSecret.value
    ensures !Truthy(env.jwtRefreshSecret) ==> r == DefaultRefreshSecret
  {
    if Truthy(env.jwtRefreshSecret) then env.jwtRefreshSecret.value else DefaultRefreshSecret
  }

  /** `jwt.sign(payload, secret, { expiresIn })` at time `now` (seconds). */
  function Sign(signer: Signer, claims: Claims, secret: string, now: int, ttl: nat): string {
    signer.encode(Token(claims, secret, now + ttl))
  }

  /** `jwt.verify(text, secret)` wrapped so that every failure gives null. A
      result is only ever the claims of a text signed under `secret` that has
      not expired at `now`. */
  function Verify(signer: Signer, text: string, secret: string, now: int): (r: Option<Claims>)
    ensures r.Some? <==> (signer.decode(text).Some? && signer.decode(text).value.secret == secret
                          && now < signer.decode(text).value.exp)
    ensures r.Some? ==> r.value == signer.decode(text).value.claims
  {
    match signer.decode(text)
    case None => None
    case Some(t) => if t.secret == secret && now < t.exp then Some(t.claims) else None
  }

  /** An access token carries the claims, is signed under the access secret
      and expires 15 minutes after `now`. */
  function GenerateAccessToken(signer: Signer, env: Env, claims: Claims, now: int): (r: string)
    ensures Sound(signer) ==> signer.decode(r) == Some(Token(claims, AccessSecret(env), now + AccessTokenTtl))
  {
    Sign(signer, claims, AccessSecret(env), now, AccessTokenTtl)
  }

  /** A refresh token carries the claims, is signed under the refresh secret
      and expires 7 days after `now`. */
  function GenerateRefreshToken(signer: Signer, env: Env, claims: Claims, now: int): (r: string)
    ensures Sound(signer) ==> signer.decode(r) == Some(Token(claims, RefreshSecret(env), now + RefreshTokenTtl))
  {
    Sign(signer, claims, RefreshSecret(env), now, RefreshTokenTtl)
  }

  /** Only an unexpired token signed under the access secret is accepted. */
  function VerifyAccessToken(signer: Signer, env: Env, text: string, now: int): (r: Option<Claims>)
    ensures r.Some? <==> (signer.decode(text).Some? && signer.decode(text).value.secret == AccessSecret(env)
                          && now < signer.decode(text).value.exp)
    ensures r.Some? ==> r.value == signer.decode(text).value.claims
  {
    Verify(signer, text, AccessSecret(env), now)
  }

  /** Only an unexpired token signed under the refresh secret is accepted. */
  function VerifyRefreshToken(signer: Signer, env: Env, text: string, now: int): (r: Option<Claims>)
    ensures r.Some? <==> (signer.decode(text).Some? && signer.decode(text).value.secret == RefreshSecret(env)
                          && now < signer.decode(text).value.exp)
    ensures r.Some? ==> r.value == signer.decode(text).value.claims
  {
    Verify(signer, text, RefreshSecret(env), now)
  }

  /** An access token verifies, to its own claims, for exactly 15 minutes. */
  lemma AccessTokenLifetime(signer: Signer, env: Env, claims: Claims, issued: int, now: int)
    requires Sound(signer)
    ensures VerifyAccessToken(signer, env, GenerateAccessToken(signer, env, claims, issued), now)
            == if now < issued + 900 then Some(claims) else None
  {
  }

  /** A refresh token verifies, to its own claims, for exactly 7 days. */
  lemma RefreshTokenLifetime(signer: Signer, env: Env, claims: Claims, issued: int, now: int)
    requires Sound(signer)
    ensures VerifyRefreshToken(signer, env, GenerateRefreshToken(signer, env, claims, issued), now)
            == if now < issued + 604800 then Some(claims) else None
  {
  }

  /** Without configured secrets the two defaults differ. */
  lemma DefaultSecretsDiffer(env: Env)
    requires !Truthy(env.jwtSecret) && !Truthy(env.jwtRefreshSecret)
    ensures AccessSecret(env) != RefreshSecret(env)
  {
    assert AccessSecret(env)[5] != RefreshSecret(env)[5];
  }

  /** When the two secrets differ, neither verifier accepts the other kind of
      token, whatever the time. */
  lemma TokensNotInterchangeable(signer: Signer, env: Env, claims: Claims, issued: int, now: int)
    requires Sound(signer)
    requires AccessSecret(env) != RefreshSecret(env)
    ensures VerifyRefreshToken(signer, env, GenerateAccessToken(signer, env, claims, issued), now).None?
    ensures VerifyAccessToken(signer, env, GenerateRefreshToken(signer, env, claims, issued), now).None?
  {
  }

  /** The shared cookie options with the given `maxAge`. */
  function TokenCookieOptions(env: Env, maxAge: int): (o: CookieOptions)
    ensures o.httpOnly && o.sameSite == "strict" && o.maxAge == maxAge
    ensures o.secure <==> env.nodeEnv == Some("production")
  {
    CookieOptions(httpOnly := true, secure := env.nodeEnv == Some("production"), sameSite := "strict", maxAge := maxAge)
  }

  /** The two directives `setTokenCookies` writes. */
  function TokenCookies(env: Env, accessToken: string, refreshToken: string): map<string, CookieOp> {
    map[AccessCookie := SetCookie(accessToken, TokenCookieOptions(env, AccessCookieMaxAge)),
        RefreshCookie := SetCookie(refreshToken, TokenCookieOptions(env, RefreshCookieMaxAge))]
  }

  /** The two directives `clearTokenCookies` writes. */
  function ClearedCookies(): map<string, CookieOp> {
    map[AccessCookie := ClearCookie, RefreshCookie := ClearCookie]
  }

  method SetTokenCookies(res: Response, env: Env, accessToken: string, refreshToken: string)
    modifies res
    ensures res.cookies == old(res.cookies) + TokenCookies(env, accessToken, refreshToken)
  {
    res.cookies := res.cookies[AccessCookie := SetCookie(accessToken, TokenCookieOptions(env, AccessCookieMaxAge))];
    res.cookies := res.cookies[RefreshCookie := SetCookie(refreshToken, TokenCookieOptions(env, RefreshCookieMaxAge))];
  }

  method ClearTokenCookies(res: Response)
    modifies res
    ensures res.cookies == old(res.cookies) + ClearedCookies()
  {
    res.cookies := res.cookies[AccessCookie := ClearCookie];
    res.cookies := res.cookies[RefreshCookie := ClearCookie];
  }

  /** Each cookie lives in the browser exactly as long as its token verifies. */
  lemma CookieLifetimesMatchTokens(env: Env, a: string, r: string)
    ensures TokenCookies(env, a, r)[AccessCookie].options.maxAge == 1000 * AccessTokenTtl
    ensures TokenCookies(env, a, r)[RefreshCookie].options.maxAge == 1000 * RefreshTokenTtl
    ensures TokenCookies(env, a, r)[AccessCookie].options.secure == TokenCookies(env, a, r)[RefreshCookie].options.secure
  {
  }

  /** Setting the token cookies installs both tokens and leaves every other
      cookie of the browser as it was. */
  lemma SetInstallsBothTokens(jar: map<string, string>, env: Env, a: string, r: string)
    ensures ApplyToJar(jar, TokenCookies(env, a, r)) == jar[AccessCookie := a][RefreshCookie := r]
  {
    var got, want := ApplyToJar(jar, TokenCookies(env, a, r)), jar[AccessCookie := a][RefreshCookie := r];
    assert got.Keys == want.Keys;
  }

  /** Clearing removes exactly the two token cookies from the browser. */
  lemma ClearRemovesExactlyTokens(jar: map<string, string>)
    ensures ApplyToJar(jar, ClearedCookies()) == jar - {AccessCookie, RefreshCookie}
  {
    var got, want := ApplyToJar(jar, ClearedCookies()), jar - {AccessCookie, RefreshCookie};
    assert got.Keys == want.Keys;
  }
}
