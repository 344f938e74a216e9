/**
 * The plaintext cookie carrier (src/cookies/cookie_setters.go): every
 * setting becomes one HttpOnly cookie holding its value as given
 * (the sanitisation `http.SetCookie` applies is left out).
 */
module PlainCookies {
  import opened Http
  import opened Cookies

  /** The cookies written for `css`, one per setting, in order. */
  function HttpOnlyCookies(now: int, css: MultipleCookieSettings): (written: seq<Cookie>)
    ensures |written| == |css|
    ensures forall i :: 0 <= i < |css| ==> written[i] == HttpOnlyCookie(css[i].name, css[i].value, now)
  {
    if css == [] then []
    else
      var init := HttpOnlyCookies(now, css[..|css| - 1]);
      assert forall i :: 0 <= i < |css| - 1 ==> css[..|css| - 1][i] == css[i];
      init + [HttpOnlyCookie(css[|css| - 1].name, css[|css| - 1].value, now)]
  }

  /**
   * The pair is written as exactly two cookies, access then refresh, holding
   * the tokens as given (sanitisation left out); `("", "")` writes two empty cookies, which is how
   * credentials are cleared.
   */
  lemma TokenPairWritten(now: int, accessToken: string, refreshToken: string)
    ensures HttpOnlyCookies(now, TokenCookieSettings(accessToken, refreshToken)) ==
      [HttpOnlyCookie(AccessTokenKey, accessToken, now), HttpOnlyCookie(RefreshTokenKey, refreshToken, now)]
  {
  }

  /** `CookieSettings.SetUpHttpOnly`: appends one cookie with the name and value as given. */
  method SetUpHttpOnly(now: int, cs: CookieSettings, w: ResponseWriter)
    modifies w
    ensures w.cookies == old(w.cookies) + [HttpOnlyCookie(cs.name, cs.value, now)]
    ensures w.status == old(w.status) && w.body == old(w.body)
  {
    w.SetCookie(HttpOnlyCookie(cs.name, cs.value, now));
  }

  /** `MultipleCookieSettings.SetUpHttpOnly`: one cookie per setting, in order, nothing else. */
  method SetUpAllHttpOnly(now: int, css: MultipleCookieSettings, w: ResponseWriter)
    modifies w
    ensures w.cookies == old(w.cookies) + HttpOnlyCookies(now, css)
    ensures w.status == old(w.status) && w.body == old(w.body)
  {
    for i := 0 to |css|
      invariant w.cookies == old(w.cookies) + HttpOnlyCookies(now, css[..i])
      invariant w.status == old(w.status) && w.body == old(w.body)
    {
      SetUpHttpOnly(now, css[i], w);
      assert css[..i + 1][..i] == css[..i];
    }
    assert css[..|css|] == css;
  }

  /** `GenerateCookiesFromTokens`: exactly the access cookie, then the refresh cookie. */
  method GenerateCookiesFromTokens(now: int, w: ResponseWriter, accessToken: string, refreshToken: string)
    modifies w
    ensures w.cookies == old(w.cookies) +
      [HttpOnlyCookie(AccessTokenKey, accessToken, now), HttpOnlyCookie(RefreshTokenKey, refreshToken, now)]
    ensures w.status == old(w.status) && w.body == old(w.body)
  {
    SetUpAllHttpOnly(now, TokenCookieSettings(accessToken, refreshToken), w);
    TokenPairWritten(now, accessToken, refreshToken);
  }
}
