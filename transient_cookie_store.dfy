/**
 * `TransientCookieStore` as its own file defines it: the state and the nonce
 * are written as `Set-Cookie` headers under fixed names, and read back once
 * from the request's cookies, the cookie read being expired in place and
 * echoed in the response.
 */
module TransientCookieStore {
  import opened Wrappers
  import opened Servlet
  import SetCookie

  const StateKey: string := "com.auth0.state.updated"
  const NonceKey: string := "com.auth0.nonce.updated"

  /** Appends the one header `key=value; HttpOnly; SameSite=None; Secure` and does nothing else. */
  method Store(response: Response, key: string, value: Option<string>)
    modifies response
    ensures response.out == old(response.out) + [HeaderLine("Set-Cookie", SetCookie.HeaderText(key, value))]
  {
    var cookie := SetCookie.HeaderText(key, value);
    response.AddHeader("Set-Cookie", cookie);
  }

  method StoreState(response: Response, state: Option<string>)
    modifies response
    ensures response.out == old(response.out) + [HeaderLine("Set-Cookie", SetCookie.HeaderText(StateKey, state))]
  {
    Store(response, StateKey, state);
  }

  method StoreNonce(response: Response, nonce: Option<string>)
    modifies response
    ensures response.out == old(response.out) + [HeaderLine("Set-Cookie", SetCookie.HeaderText(NonceKey, nonce))]
  {
    Store(response, NonceKey, nonce);
  }

  /** Expires `cookie` (value "", max-age 0) and adds it to the response; a null cookie changes nothing. */
  method Delete(cookie: Cookie?, response: Response)
    modifies response, cookie
    ensures cookie == null ==> response.out == old(response.out)
    ensures cookie != null ==>
      && cookie.value == "" && cookie.maxAge == 0
      && response.out == old(response.out) + [CookieLine(cookie.name, "", 0)]
  {
    if cookie != null {
      cookie.maxAge := 0;
      cookie.value := "";
      response.AddCookie(cookie);
    }
  }

  /**
   * Returns the value of the first request cookie called `cookieName`, read
   * before that cookie is expired, and echoes the expired cookie once in the
   * response; no other cookie, not even a later one of the same name, is
   * touched. Without such a cookie it returns null and the response is as it was.
   */
  method GetOnce(cookieName: string, request: Request, response: Response) returns (v: Option<string>)
    modifies response, request.cookies
    ensures FirstNamed(request.cookies, cookieName).None? ==>
      v == None && response.out == old(response.out)
    ensures FirstNamed(request.cookies, cookieName).Some? ==>
      var c := request.cookies[FirstNamed(request.cookies, cookieName).value];
      && v == Some(old(c.value))
      && c.value == "" && c.maxAge == 0
      && response.out == old(response.out) + [CookieLine(cookieName, "", 0)]
    ensures forall c :: c in request.cookies && c.name != cookieName ==> unchanged(c)
    ensures FirstNamed(request.cookies, cookieName).Some? ==>
      forall j :: 0 <= j < |request.cookies| ==>
        request.cookies[j] == request.cookies[FirstNamed(request.cookies, cookieName).value] ||
        unchanged(request.cookies[j])
  {
    var found := FirstNamed(request.cookies, cookieName);
    var cookie: Cookie? := if found.Some? then request.cookies[found.value] else null;
    var cookieVal := if cookie == null then None else Some(cookie.value);
    Delete(cookie, response);
    v := cookieVal;
  }

  method GetState(request: Request, response: Response) returns (v: Option<string>)
    modifies response, request.cookies
    ensures FirstNamed(request.cookies, StateKey).None? ==> v == None && response.out == old(response.out)
    ensures FirstNamed(request.cookies, StateKey).Some? ==>
      var c := request.cookies[FirstNamed(request.cookies, StateKey).value];
      v == Some(old(c.value)) && c.value == "" && c.maxAge == 0 &&
      response.out == old(response.out) + [CookieLine(StateKey, "", 0)]
    ensures forall c :: c in request.cookies && c.name != StateKey ==> unchanged(c)
    ensures FirstNamed(request.cookies, StateKey).Some? ==>
      forall j :: 0 <= j < |request.cookies| ==>
        request.cookies[j] == request.cookies[FirstNamed(request.cookies, StateKey).value] ||
        unchanged(request.cookies[j])
  {
    v := GetOnce(StateKey, request, response);
  }

  method GetNonce(request: Request, response: Response) returns (v: Option<string>)
    modifies response, request.cookies
    ensures FirstNamed(request.cookies, NonceKey).None? ==> v == None && response.out == old(response.out)
    ensures FirstNamed(request.cookies, NonceKey).Some? ==>
      var c := request.cookies[FirstNamed(request.cookies, NonceKey).value];
      v == Some(old(c.value)) && c.value == "" && c.maxAge == 0 &&
      response.out == old(response.out) + [CookieLine(NonceKey, "", 0)]
    ensures forall c :: c in request.cookies && c.name != NonceKey ==> unchanged(c)
    ensures FirstNamed(request.cookies, NonceKey).Some? ==>
      forall j :: 0 <= j < |request.cookies| ==>
        request.cookies[j] == request.cookies[FirstNamed(request.cookies, NonceKey).value] ||
        unchanged(request.cookies[j])
  {
    v := GetOnce(NonceKey, request, response);
  }

  /**
   * The state and the nonce headers are read back by a browser under two
   * different names, whatever the values (when neither holds a `;`).
   */
  lemma StateAndNonceNeverCollide(state: Option<string>, nonce: Option<string>)
    requires ';' !in SetCookie.Render(state) && ';' !in SetCookie.Render(nonce)
    ensures SetCookie.Parse(SetCookie.HeaderText(StateKey, state)) ==
            Some(SetCookie.Fields(StateKey, SetCookie.TrimWsp(SetCookie.Render(state)), SetCookie.Attributes))
    ensures SetCookie.Parse(SetCookie.HeaderText(NonceKey, nonce)) ==
            Some(SetCookie.Fields(NonceKey, SetCookie.TrimWsp(SetCookie.Render(nonce)), SetCookie.Attributes))
    ensures StateKey != NonceKey
  {
    KeysArePlain();
    SetCookie.ParseHeaderText(StateKey, state);
    SetCookie.ParseHeaderText(NonceKey, nonce);
  }

  lemma KeysArePlain()
    ensures SetCookie.IsPlainCookieName(StateKey) && SetCookie.IsPlainCookieName(NonceKey)
    ensures StateKey != NonceKey
  {
    assert StateKey[10] != NonceKey[10];
  }
}
