/** The JSON Web Token issuer used by the users service (RFC 7519): an access token and a
    refresh token carrying the same `sub`/`email`/`role` claims, signed with separate secrets
    and given separate lifetimes. Signing and signature checking are abstract: a token records
    the secret it was signed with, and verification succeeds exactly when the secret matches
    and the `exp` claim (section 4.1.4 of RFC 7519) is still in the future. */
module TokenIssuer {
  import opened Outcomes

  type UserId = nat

  /** The claims the service signs: `sub` (section 4.1.2 of RFC 7519) is the user id. */
  datatype Payload = Payload(sub: UserId, email: string, role: string)

  datatype TimeUnit = Seconds | Minutes | Hours | Days

  /** An expiration setting such as `15m` or `30d`. */
  datatype Duration = Duration(amount: nat, unit: TimeUnit) {
    function InSeconds(): (s: nat)
      ensures amount > 0 ==> s >= amount
      ensures unit == Seconds ==> s == amount
      ensures unit == Minutes ==> s == 60 * amount
      ensures unit == Hours ==> s == 3600 * amount
      ensures unit == Days ==> s == 86400 * amount
    {
      match unit
      case Seconds => amount
      case Minutes => amount * 60
      case Hours => amount * 3600
      case Days => amount * 86400
    }
  }

  /** Each unit is the next smaller one scaled: a minute is 60 seconds, an hour 60 minutes,
      a day 24 hours. */
  lemma UnitsScale(amount: nat)
    ensures Duration(amount, Minutes).InSeconds() == Duration(60 * amount, Seconds).InSeconds()
    ensures Duration(amount, Hours).InSeconds() == Duration(60 * amount, Minutes).InSeconds()
    ensures Duration(amount, Days).InSeconds() == Duration(24 * amount, Hours).InSeconds()
  {
  }

  /** Default of `JWT_ACCESS_EXPIRATION`. */
  const DefaultAccessExpiration := Duration(15, Minutes)
  /** Default of `JWT_REFRESH_EXPIRATION`. */
  const DefaultRefreshExpiration := Duration(30, Days)

  /** The configuration the service reads: both secrets, and the optional expiration settings. */
  datatype JwtConfig = JwtConfig(
    accessSecret: string,
    refreshSecret: string,
    accessExpiration: Option<Duration>,
    refreshExpiration: Option<Duration>)

  /** A signed token: its claims, the secret it was signed with, `iat` and `exp` (seconds). */
  datatype Jwt = Jwt(payload: Payload, secret: string, issuedAt: int, expiresAt: int)

  datatype TokenPair = TokenPair(accessToken: Jwt, refreshToken: Jwt)

  /** `jwtService.signAsync(payload, {secret, expiresIn})` at clock `now` (seconds). */
  function Sign(payload: Payload, secret: string, expiresIn: Duration, now: int): (t: Jwt)
    ensures t.payload == payload && t.secret == secret
    ensures t.expiresAt - t.issuedAt == expiresIn.InSeconds() && t.issuedAt == now
  {
    Jwt(payload, secret, now, now + expiresIn.InSeconds())
  }

  /** `jwtService.verify(token, {secret})` at clock `now`: the claims, or nothing when the
      signature does not match the secret or the token has expired. */
  function Verify(token: Jwt, secret: string, now: int): (r: Option<Payload>)
    ensures r.Some? <==> token.secret == secret && now < token.expiresAt
    ensures r.Some? ==> r.value == token.payload
  {
    if token.secret == secret && now < token.expiresAt then Some(token.payload) else None
  }

  function AccessLifetime(config: JwtConfig): Duration {
    config.accessExpiration.GetOr(DefaultAccessExpiration)
  }

  function RefreshLifetime(config: JwtConfig): Duration {
    config.refreshExpiration.GetOr(DefaultRefreshExpiration)
  }

  /** `generateTokens`: the same payload signed twice, once per secret and lifetime. */
  function GenerateTokens(config: JwtConfig, payload: Payload, now: int): (pair: TokenPair)
    ensures pair.accessToken.payload == payload && pair.refreshToken.payload == payload
    ensures pair.accessToken.secret == config.accessSecret
    ensures pair.refreshToken.secret == config.refreshSecret
    ensures pair.accessToken.expiresAt == now + AccessLifetime(config).InSeconds()
    ensures pair.refreshToken.expiresAt == now + RefreshLifetime(config).InSeconds()
  {
    TokenPair(
      Sign(payload, config.accessSecret, AccessLifetime(config), now),
      Sign(payload, config.refreshSecret, RefreshLifetime(config), now))
  }

  /** Without overrides the access token lives 15 minutes and the refresh token 30 days. */
  lemma DefaultLifetimes(config: JwtConfig, payload: Payload, now: int)
    requires config.accessExpiration.None? && config.refreshExpiration.None?
    ensures GenerateTokens(config, payload, now).accessToken.expiresAt == now + 900
    ensures GenerateTokens(config, payload, now).refreshToken.expiresAt == now + 2592000
  {
  }

  /** Verify after sign: until it expires, the refresh token verifies under the refresh
      secret and gives back the signed claims. */
  lemma RefreshVerifiesAfterSign(config: JwtConfig, payload: Payload, now: int, later: int)
    requires now <= later < now + RefreshLifetime(config).InSeconds()
    ensures Verify(GenerateTokens(config, payload, now).refreshToken, config.refreshSecret, later) == Some(payload)
  {
  }

  /** With distinct secrets, an access token never passes the refresh verification. */
  lemma AccessTokenRejectedAsRefresh(config: JwtConfig, payload: Payload, now: int, later: int)
    requires config.accessSecret != config.refreshSecret
    ensures Verify(GenerateTokens(config, payload, now).accessToken, config.refreshSecret, later).None?
  {
  }
}
