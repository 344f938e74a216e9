/**
 * The parts of net/http the gateway touches: an inbound request (headers,
 * cookies, body) and the response writer that handlers and the middleware
 * write a status, cookies and JSON payloads to.
 */
module Http {
  import opened Wrappers
  import opened Domain

  /** A cookie as the client sends it back: a name and a value. */
  datatype RequestCookie = RequestCookie(name: string, value: string)

  /**
   * An inbound request. Headers are keyed by their canonical names and hold the
   * first value of each header; cookies are in the order of the Cookie header.
   */
  datatype Request = Request(headers: map<string, string>, cookies: seq<RequestCookie>, body: string)

  /** A Set-Cookie the response carries; `expires` is in Unix seconds. */
  datatype Cookie = Cookie(name: string, value: string, httpOnly: bool, path: string, expires: int)

  /** What a handler hands to the JSON helper. */
  datatype Payload =
    | Message(text: string)
    | TokenBody(tokens: TokenResponse)
    | ValidationFailure(errors: seq<FieldError>)
    | StringMap(entries: map<string, string>)

  const StatusOK: nat := 200
  const StatusBadRequest: nat := 400
  const StatusUnauthorized: nat := 401
  const StatusNotFound: nat := 404
  const StatusInternalServerError: nat := 500

  /** `Header.Get`: the header's value, or "" when the request does not carry it. */
  function HeaderGet(headers: map<string, string>, key: string): (v: string)
    ensures key !in headers ==> v == ""
    ensures key in headers ==> v == headers[key]
  {
    if key in headers then headers[key] else ""
  }

  /**
   * Position of the first cookie called `name`, or `|cookies|` when there is none.
   */
  function FindCookie(cookies: seq<RequestCookie>, name: string): (k: nat)
    ensures k <= |cookies|
    ensures forall j :: 0 <= j < k ==> cookies[j].name != name
    ensures k < |cookies| ==> cookies[k].name == name
  {
    if cookies == [] then 0
    else if cookies[0].name == name then 0
    else
      var k := FindCookie(cookies[1..], name);
      assert forall j :: 1 <= j <= k ==> cookies[j] == cookies[1..][j - 1];
      k + 1
  }

  /** `Request.Cookie(name)`: the value of the first cookie with that name, if any. */
  function CookieValue(r: Request, name: string): (v: Option<string>)
    ensures v.None? <==> forall j :: 0 <= j < |r.cookies| ==> r.cookies[j].name != name
    ensures v.Some? ==> exists k :: 0 <= k < |r.cookies| && r.cookies[k] == RequestCookie(name, v.value)
  {
    var k := FindCookie(r.cookies, name);
    if k < |r.cookies| then Some(r.cookies[k].value) else None
  }

  /** The cookies a client sends on its next request after receiving `issued`. */
  function SentBack(issued: seq<Cookie>): (cs: seq<RequestCookie>)
    ensures |cs| == |issued|
    ensures forall i :: 0 <= i < |issued| ==> cs[i] == RequestCookie(issued[i].name, issued[i].value)
  {
    seq(|issued|, i requires 0 <= i < |issued| => RequestCookie(issued[i].name, issued[i].value))
  }

  /** The next request of a client that holds exactly the cookies `issued`. */
  function RequestCarrying(issued: seq<Cookie>): Request
  {
    Request(map[], SentBack(issued), "")
  }

  /**
   * The status a response ends with: the first `WriteHeader` wins, and a
   * write of the body without one commits 200. `0` stands for "nothing
   * written yet".
   */
  function Settled(status: nat, code: nat): nat
  {
    if status == 0 then code else status
  }

  /** `http.ResponseWriter` as the gateway uses it. */
  class ResponseWriter {
    var status: nat
    var cookies: seq<Cookie>
    var body: seq<Payload>

    constructor ()
      ensures status == 0 && cookies == [] && body == []
    {
      status, cookies, body := 0, [], [];
    }

    /** `w.WriteHeader(code)`; a second call is ignored. */
    method WriteHeader(code: nat)
      modifies this
      ensures status == Settled(old(status), code)
      ensures cookies == old(cookies) && body == old(body)
    {
      if status == 0 {
        status := code;
      }
    }

    /** `http.SetCookie(w, c)`: appends one Set-Cookie header. */
    method SetCookie(c: Cookie)
      modifies this
      ensures cookies == old(cookies) + [c]
      ensures status == old(status) && body == old(body)
    {
      cookies := cookies + [c];
    }

    /** `helpers.JSON(w, r, v)`: writes `v` as the body, committing 200 if no status was set. */
    method Json(v: Payload)
      modifies this
      ensures body == old(body) + [v]
      ensures status == Settled(old(status), StatusOK)
      ensures cookies == old(cookies)
    {
      if status == 0 {
        status := StatusOK;
      }
      body := body + [v];
    }
  }

  /** A later cookie with the same name does not hide the first one. */
  lemma {:induction false} FirstCookieWins(cs: seq<RequestCookie>, name: string, v: string, rest: seq<RequestCookie>)
    requires forall j :: 0 <= j < |cs| ==> cs[j].name != name
    ensures CookieValue(Request(map[], cs + [RequestCookie(name, v)] + rest, ""), name) == Some(v)
  {
    var all := cs + [RequestCookie(name, v)] + rest;
    var k := FindCookie(all, name);
    assert all[|cs|].name == name;
    assert forall j :: 0 <= j < |cs| ==> all[j] == cs[j];
  }
}
