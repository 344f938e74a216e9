/**
 * What both cookie carriers of the cookies package share: the settings they
 * are given, the two cookie names, and the shape of every cookie they write
 * (HttpOnly, path "/", valid for fourteen days).
 */
module Cookies {
  import opened Http

  /** `CookieSettings`: a name and the value to store under it. */
  datatype CookieSettings = CookieSettings(name: string, value: string)

  /** `MultipleCookieSettings`: settings written in order. */
  type MultipleCookieSettings = seq<CookieSettings>

  const AccessTokenKey := "access-token"
  const RefreshTokenKey := "refresh-token"

  /** `time.Hour * 24 * 14`, in seconds. */
  const CookieLifetime := 14 * 24 * 60 * 60

  /** The cookie both carriers build around a name and a value at time `now`. */
  function HttpOnlyCookie(name: string, value: string, now: int): Cookie
  {
    Cookie(name, value, true, "/", now + CookieLifetime)
  }

  /** The settings `GenerateCookiesFromTokens` builds: access first, then refresh. */
  function TokenCookieSettings(accessToken: string, refreshToken: string): MultipleCookieSettings
  {
    [CookieSettings(AccessTokenKey, accessToken), CookieSettings(RefreshTokenKey, refreshToken)]
  }

  /** The expiry is fourteen days after the time of writing. */
  lemma CookieExpiresInFourteenDays(name: string, value: string, now: int)
    ensures HttpOnlyCookie(name, value, now).expires - now == 1209600
    ensures HttpOnlyCookie(name, value, now).httpOnly && HttpOnlyCookie(name, value, now).path == "/"
  {
  }
}
