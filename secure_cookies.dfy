/**
 * The encoded cookie carrier (src/cookies/cookies.go). Every value goes
 * through an authenticated cookie codec keyed by the cookie's name: writing
 * stores only what the codec produced, and reading gives back only what the
 * codec accepts, "" otherwise.
 */
module SecureCookies {
  import opened Wrappers
  import opened Http
  import opened Cookies

  /**
   * The secure-cookie codec: `encode(name, value)` and `decode(name, text)`,
   * each of which may fail.
   */
  datatype Codec = Codec(encode: (string, string) -> Option<string>, decode: (string, string) -> Option<string>)

  /** A codec whose decode, under the same name, undoes its encode. */
  ghost predicate DecodeInvertsEncode(codec: Codec)
  {
    forall name, value :: codec.encode(name, value).Some? ==>
      codec.decode(name, codec.encode(name, value).value) == Some(value)
  }

  /**
   * `GetCookieValue`: the decoded value of the first cookie called `name`, or
   * "" when there is no such cookie or the codec rejects its text.
   */
  function GetCookieValue(codec: Codec, r: Request, name: string): (v: string)
    ensures CookieValue(r, name).None? ==> v == ""
    ensures CookieValue(r, name).Some? && codec.decode(name, CookieValue(r, name).value).None? ==> v == ""
    ensures v != "" ==> CookieValue(r, name).Some? && codec.decode(name, CookieValue(r, name).value) == Some(v)
    ensures CookieValue(r, name).Some? && codec.decode(name, CookieValue(r, name).value).Some? ==>
      v == codec.decode(name, CookieValue(r, name).value).value
  {
    match CookieValue(r, name)
    case None => ""
    case Some(raw) =>
      match codec.decode(name, raw)
      case Some(value) => value
      case None => ""
  }

  /** The access token: the "access-token" cookie, decoded under that same name, or "". */
  function GetAccessToken(codec: Codec, r: Request): (v: string)
    ensures CookieValue(r, AccessTokenKey).None? ==> v == ""
    ensures CookieValue(r, AccessTokenKey).Some? ==>
      var decoded := codec.decode(AccessTokenKey, CookieValue(r, AccessTokenKey).value);
      v == if decoded.Some? then decoded.value else ""
  {
    GetCookieValue(codec, r, AccessTokenKey)
  }

  /** The refresh token: the "refresh-token" cookie, decoded under that same name, or "". */
  function GetRefreshToken(codec: Codec, r: Request): (v: string)
    ensures CookieValue(r, RefreshTokenKey).None? ==> v == ""
    ensures CookieValue(r, RefreshTokenKey).Some? ==>
      var decoded := codec.decode(RefreshTokenKey, CookieValue(r, RefreshTokenKey).value);
      v == if decoded.Some? then decoded.value else ""
  {
    GetCookieValue(codec, r, RefreshTokenKey)
  }

  /**
   * `EncodeCookieValue`: the codec's encoding of the value under the cookie's
   * own name, so that the same name decodes it again.
   */
  function EncodeCookieValue(codec: Codec, cs: CookieSettings): (encoded: Option<string>)
    ensures encoded.None? <==> codec.encode(cs.name, cs.value).None?
    ensures DecodeInvertsEncode(codec) && encoded.Some? ==> codec.decode(cs.name, encoded.value) == Some(cs.value)
  {
    codec.encode(cs.name, cs.value)
  }

  /**
   * What `CookieSettings.SetUpHttpOnly` writes: nothing when encoding fails,
   * otherwise one HttpOnly cookie under the setting's name holding the
   * encoded value.
   */
  function EncodedCookie(codec: Codec, now: int, cs: CookieSettings): (written: seq<Cookie>)
    ensures |written| <= 1
    ensures written == [] <==> EncodeCookieValue(codec, cs).None?
    ensures written != [] ==>
      written[0] == HttpOnlyCookie(cs.name, EncodeCookieValue(codec, cs).value, now)
  {
    match EncodeCookieValue(codec, cs)
    case None => []
    case Some(encoded) => [HttpOnlyCookie(cs.name, encoded, now)]
  }

  /** What `MultipleCookieSettings.SetUpHttpOnly` writes: each setting's cookie, in order. */
  function EncodedCookies(codec: Codec, now: int, css: MultipleCookieSettings): (written: seq<Cookie>)
    ensures |written| <= |css|
  {
    if css == [] then []
    else EncodedCookies(codec, now, css[..|css| - 1]) + EncodedCookie(codec, now, css[|css| - 1])
  }

  /** The cookies written for an access/refresh pair: access first, each skipped if its encoding fails. */
  function TokenCookies(codec: Codec, now: int, accessToken: string, refreshToken: string): (written: seq<Cookie>)
    ensures written ==
      EncodedCookie(codec, now, CookieSettings(AccessTokenKey, accessToken)) +
      EncodedCookie(codec, now, CookieSettings(RefreshTokenKey, refreshToken))
  {
    var css := TokenCookieSettings(accessToken, refreshToken);
    assert css[..|css| - 1] == [css[0]];
    assert [css[0]][..0] == [];
    assert EncodedCookies(codec, now, [css[0]]) == EncodedCookie(codec, now, css[0]);
    EncodedCookies(codec, now, css)
  }

  /**
   * Every written cookie is HttpOnly on path "/" and holds an encoding the
   * codec produced for its name; one cookie per setting when every encoding
   * succeeds, none when every encoding fails.
   */
  lemma {:induction false} EncodedCookiesAreEncoded(codec: Codec, now: int, css: MultipleCookieSettings)
    ensures (forall i :: 0 <= i < |css| ==> codec.encode(css[i].name, css[i].value).Some?) ==>
      |EncodedCookies(codec, now, css)| == |css|
    ensures (forall i :: 0 <= i < |css| ==> codec.encode(css[i].name, css[i].value).None?) ==>
      EncodedCookies(codec, now, css) == []
    ensures forall c :: c in EncodedCookies(codec, now, css) ==>
      c.httpOnly && c.path == "/" && c.expires == now + CookieLifetime &&
      exists i :: 0 <= i < |css| && css[i].name == c.name && codec.encode(c.name, css[i].value) == Some(c.value)
  {
    if css != [] {
      var init := css[..|css| - 1];
      EncodedCookiesAreEncoded(codec, now, init);
      assert forall i :: 0 <= i < |init| ==> init[i] == css[i];
      forall c | c in EncodedCookies(codec, now, css)
        ensures exists i :: 0 <= i < |css| && css[i].name == c.name && codec.encode(c.name, css[i].value) == Some(c.value)
      {
        if c in EncodedCookies(codec, now, init) {
          var i :| 0 <= i < |init| && init[i].name == c.name && codec.encode(c.name, init[i].value) == Some(c.value);
          assert css[i] == init[i];
        } else {
          assert css[|css| - 1].name == c.name;
        }
      }
    }
  }

  /** No settings write nothing; one setting writes exactly its own `EncodedCookie`. */
  lemma EncodedCookiesSingle(codec: Codec, now: int, cs: CookieSettings)
    ensures EncodedCookies(codec, now, []) == []
    ensures EncodedCookies(codec, now, [cs]) == EncodedCookie(codec, now, cs)
  {
    assert [cs][..0] == [];
  }

  /** Regrouping a three-part concatenation. */
  lemma ConcatRegroup<T>(whole: seq<T>, front: seq<T>, back: seq<T>, x: seq<T>, y: seq<T>, t: seq<T>)
    requires whole == front + t && front == x + y && back == y + t
    ensures whole == x + back
  {
  }

  /** One more setting appends its own cookie, if any, after the others'. */
  lemma EncodedCookiesSnoc(codec: Codec, now: int, css: MultipleCookieSettings, cs: CookieSettings)
    ensures EncodedCookies(codec, now, css + [cs]) == EncodedCookies(codec, now, css) + EncodedCookie(codec, now, cs)
  {
    assert (css + [cs])[..|css|] == css;
  }

  /**
   * The settings are written in order and each independently of the others:
   * the cookies for `a + b` are those for `a` followed by those for `b`.
   */
  lemma {:induction false} EncodedCookiesAppend(codec: Codec, now: int, a: MultipleCookieSettings, b: MultipleCookieSettings)
    ensures EncodedCookies(codec, now, a + b) == EncodedCookies(codec, now, a) + EncodedCookies(codec, now, b)
  {
    if b == [] {
      assert a + b == a;
    } else {
      var init, last := b[..|b| - 1], b[|b| - 1];
      var x, y, t := EncodedCookies(codec, now, a), EncodedCookies(codec, now, init), EncodedCookie(codec, now, last);
      assert EncodedCookies(codec, now, a + b) == EncodedCookies(codec, now, a + init) + t by {
        assert a + b == (a + init) + [last];
        EncodedCookiesSnoc(codec, now, a + init, last);
      }
      assert EncodedCookies(codec, now, b) == y + t by {
        assert b == init + [last];
        EncodedCookiesSnoc(codec, now, init, last);
      }
      assert EncodedCookies(codec, now, a + init) == x + y by {
        EncodedCookiesAppend(codec, now, a, init);
      }
      ConcatRegroup(EncodedCookies(codec, now, a + b), EncodedCookies(codec, now, a + init), EncodedCookies(codec, now, b), x, y, t);
    }
  }

  /**
   * Read after write: with a codec whose decode undoes its encode, a client
   * holding the cookies written for a pair reads back exactly that pair;
   * a cookie whose encoding failed reads as "".
   */
  lemma ReadAfterWrite(codec: Codec, now: int, accessToken: string, refreshToken: string)
    requires DecodeInvertsEncode(codec)
    ensures var r := RequestCarrying(TokenCookies(codec, now, accessToken, refreshToken));
      GetAccessToken(codec, r) == (if codec.encode(AccessTokenKey, accessToken).Some? then accessToken else "") &&
      GetRefreshToken(codec, r) == (if codec.encode(RefreshTokenKey, refreshToken).Some? then refreshToken else "")
  {
    var a := EncodedCookie(codec, now, CookieSettings(AccessTokenKey, accessToken));
    var b := EncodedCookie(codec, now, CookieSettings(RefreshTokenKey, refreshToken));
    var sent := SentBack(a + b);
    assert |sent| == |a| + |b|;
    if a != [] {
      assert sent[0] == RequestCookie(AccessTokenKey, a[0].value);
      assert FindCookie(sent, AccessTokenKey) == 0;
    } else {
      assert forall j :: 0 <= j < |sent| ==> sent[j].name == RefreshTokenKey;
    }
    if b != [] {
      var k := |a|;
      assert sent[k] == RequestCookie(RefreshTokenKey, b[0].value);
      assert forall j :: 0 <= j < k ==> sent[j].name == AccessTokenKey;
      assert FindCookie(sent, RefreshTokenKey) == k;
    } else {
      assert forall j :: 0 <= j < |sent| ==> sent[j].name == AccessTokenKey;
    }
  }

  /** A cookie whose text the codec rejects reads as "", never as its raw text. */
  lemma RejectedCookieReadsEmpty(codec: Codec, name: string, raw: string, rest: seq<RequestCookie>)
    requires codec.decode(name, raw).None?
    ensures GetCookieValue(codec, Request(map[], [RequestCookie(name, raw)] + rest, ""), name) == ""
  {
    FirstCookieWins([], name, raw, rest);
  }

  /** `CookieSettings.SetUpHttpOnly`: writes the encoded cookie, or nothing if encoding fails. */
  method SetUpHttpOnly(codec: Codec, now: int, cs: CookieSettings, w: ResponseWriter)
    modifies w
    ensures w.cookies == old(w.cookies) + EncodedCookie(codec, now, cs)
    ensures w.status == old(w.status) && w.body == old(w.body)
  {
    var encodedValue := EncodeCookieValue(codec, cs);
    if encodedValue.None? {
      return;
    }
    w.SetCookie(HttpOnlyCookie(cs.name, encodedValue.value, now));
  }

  /** `MultipleCookieSettings.SetUpHttpOnly`: each setting in turn. */
  method SetUpAllHttpOnly(codec: Codec, now: int, css: MultipleCookieSettings, w: ResponseWriter)
    modifies w
    ensures w.cookies == old(w.cookies) + EncodedCookies(codec, now, css)
    ensures w.status == old(w.status) && w.body == old(w.body)
  {
    for i := 0 to |css|
      invariant w.cookies == old(w.cookies) + EncodedCookies(codec, now, css[..i])
      invariant w.status == old(w.status) && w.body == old(w.body)
    {
      SetUpHttpOnly(codec, now, css[i], w);
      assert css[..i + 1][..i] == css[..i];
    }
    assert css[..|css|] == css;
  }

  /** `GenerateCookiesFromTokens`: the access cookie, then the refresh cookie. */
  method GenerateCookiesFromTokens(codec: Codec, now: int, w: ResponseWriter, accessToken: string, refreshToken: string)
    modifies w
    ensures w.cookies == old(w.cookies) + TokenCookies(codec, now, accessToken, refreshToken)
    ensures w.status == old(w.status) && w.body == old(w.body)
  {
    SetUpAllHttpOnly(codec, now, TokenCookieSettings(accessToken, refreshToken), w);
  }
}
