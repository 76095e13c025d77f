/** The token claims the login and refresh flows issue and check. Signing,
    encoding and signature checking are not modelled: a token is represented
    by its claims, and a decode failure (bad signature, malformed text,
    expired `exp`) by `None`. Times are seconds on one clock. */
module Security {
  import opened Common
  import opened Config

  const AccessType := "access"
  const RefreshType := "refresh"

  /** The payload of a token as `jwt.decode` returns it; `sub` and `type`
      may be missing from a payload the application did not issue. */
  datatype Claims = Claims(sub: Option<string>, tokenType: Option<string>, exp: int)

  /** `create_access_token`: the lifetime is the given delta when it is
      truthy (present and non-zero), else the configured minutes. */
  function CreateAccessToken(sub: string, now: int, settings: Settings, expiresDelta: Option<int>): (c: Claims)
    ensures c.sub == Some(sub) && c.tokenType == Some(AccessType)
    ensures expiresDelta.None? || expiresDelta == Some(0) ==>
      c.exp == now + settings.accessTokenExpireMinutes * 60
    ensures expiresDelta.Some? && expiresDelta.value != 0 ==> c.exp == now + expiresDelta.value
  {
    var lifetime := if expiresDelta.Some? && expiresDelta.value != 0 then expiresDelta.value
                    else settings.accessTokenExpireMinutes * 60;
    Claims(Some(sub), Some(AccessType), now + lifetime)
  }

  /** `create_refresh_token`: valid for the configured number of days. */
  function CreateRefreshToken(sub: string, now: int, settings: Settings): (c: Claims)
    ensures c.sub == Some(sub) && c.tokenType == Some(RefreshType)
    ensures c.exp == now + settings.refreshTokenExpireDays * 24 * 60 * 60
  {
    Claims(Some(sub), Some(RefreshType), now + settings.refreshTokenExpireDays * 86400)
  }

  /** `verify_token`: the subject of a decoded payload of the expected type. */
  function VerifyToken(decoded: Option<Claims>, tokenType: string): (r: Option<string>)
    ensures r.Some? <==>
      decoded.Some? && decoded.value.tokenType == Some(tokenType) && decoded.value.sub.Some?
    ensures r.Some? ==> r == decoded.value.sub
  {
    match decoded
    case None => None
    case Some(c) =>
      if c.tokenType != Some(tokenType) then None
      else c.sub
  }

  /** A token verifies for its own type with its own subject, and never for
      the other type: an access token is not accepted as a refresh token nor
      the other way round. */
  lemma TokenTypesSeparate(sub: string, now: int, settings: Settings, delta: Option<int>)
    ensures VerifyToken(Some(CreateAccessToken(sub, now, settings, delta)), AccessType) == Some(sub)
    ensures VerifyToken(Some(CreateRefreshToken(sub, now, settings)), RefreshType) == Some(sub)
    ensures VerifyToken(Some(CreateAccessToken(sub, now, settings, delta)), RefreshType).None?
    ensures VerifyToken(Some(CreateRefreshToken(sub, now, settings)), AccessType).None?
  {
  }

  /** With the default settings an access token lives 15 minutes and a
      refresh token 7 days. */
  lemma DefaultLifetimes(sub: string, now: int, databaseUrl: string, secretKey: string, gstKey: string)
    ensures var s := DefaultSettings(databaseUrl, secretKey, gstKey);
      && CreateAccessToken(sub, now, s, None).exp == now + 900
      && CreateRefreshToken(sub, now, s).exp == now + 604800
  {
  }
}
