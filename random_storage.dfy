/**
 * `RandomStorage`, the older cookie helper kept beside `TransientCookieStore`:
 * the same header format under the names `com.auth0.state` and
 * `com.auth0.nonce`, read by a loop that stops at the first cookie so named.
 */
module RandomStorage {
  import opened Wrappers
  import opened Servlet
  import SetCookie

  const SessionState: string := "com.auth0.state"
  const SessionNonce: string := "com.auth0.nonce"

  /**
   * Whether the first `com.auth0.state` cookie holds `state`, compared before
   * that cookie is expired and echoed in the response (match or not); false,
   * with the response untouched, when there is no such cookie.
   */
  method CheckSessionState(req: Request, response: Response, state: Option<string>) returns (isOk: bool)
    modifies response, req.cookies
    ensures FirstNamed(req.cookies, SessionState).None? ==>
      !isOk && response.out == old(response.out)
    ensures FirstNamed(req.cookies, SessionState).Some? ==>
      var c := req.cookies[FirstNamed(req.cookies, SessionState).value];
      && isOk == (state == Some(old(c.value)))
      && c.value == "" && c.maxAge == 0
      && response.out == old(response.out) + [CookieLine(SessionState, "", 0)]
    ensures forall c :: c in req.cookies && c.name != SessionState ==> unchanged(c)
    ensures FirstNamed(req.cookies, SessionState).Some? ==>
      forall j :: 0 <= j < |req.cookies| ==>
        req.cookies[j] == req.cookies[FirstNamed(req.cookies, SessionState).value] ||
        unchanged(req.cookies[j])
  {
    var i := 0;
    while i < |req.cookies|
      invariant 0 <= i <= |req.cookies|
      invariant forall j :: 0 <= j < i ==> req.cookies[j].name != SessionState
      invariant response.out == old(response.out)
      invariant forall c :: c in req.cookies ==> unchanged(c)
    {
      var cookie := req.cookies[i];
      if SessionState == cookie.name {
        var ok := state == Some(cookie.value);
        cookie.maxAge := 0;
        cookie.value := "";
        response.AddCookie(cookie);
        return ok;
      }
      i := i + 1;
    }
    return false;
  }

  /** Appends the one header `com.auth0.state=<state>; HttpOnly; SameSite=None; Secure`. */
  method SetSessionState(req: Request, response: Response, state: Option<string>)
    modifies response
    ensures response.out == old(response.out) + [HeaderLine("Set-Cookie", SetCookie.HeaderText(SessionState, state))]
  {
    var cookie := SetCookie.HeaderText(SessionState, state);
    response.AddHeader("Set-Cookie", cookie);
  }

  /** Appends the one header `com.auth0.nonce=<nonce>; HttpOnly; SameSite=None; Secure`. */
  method SetSessionNonce(req: Request, response: Response, nonce: Option<string>)
    modifies response
    ensures response.out == old(response.out) + [HeaderLine("Set-Cookie", SetCookie.HeaderText(SessionNonce, nonce))]
  {
    var cookie := SetCookie.HeaderText(SessionNonce, nonce);
    response.AddHeader("Set-Cookie", cookie);
  }

  /**
   * The original value of the first `com.auth0.nonce` cookie, which is then
   * expired and echoed in the response; null, with the response untouched,
   * when there is no such cookie.
   */
  method RemoveSessionNonce(req: Request, response: Response) returns (nonce: Option<string>)
    modifies response, req.cookies
    ensures FirstNamed(req.cookies, SessionNonce).None? ==>
      nonce == None && response.out == old(response.out)
    ensures FirstNamed(req.cookies, SessionNonce).Some? ==>
      var c := req.cookies[FirstNamed(req.cookies, SessionNonce).value];
      && nonce == Some(old(c.value))
      && c.value == "" && c.maxAge == 0
      && response.out == old(response.out) + [CookieLine(SessionNonce, "", 0)]
    ensures forall c :: c in req.cookies && c.name != SessionNonce ==> unchanged(c)
    ensures FirstNamed(req.cookies, SessionNonce).Some? ==>
      forall j :: 0 <= j < |req.cookies| ==>
        req.cookies[j] == req.cookies[FirstNamed(req.cookies, SessionNonce).value] ||
        unchanged(req.cookies[j])
  {
    var i := 0;
    while i < |req.cookies|
      invariant 0 <= i <= |req.cookies|
      invariant forall j :: 0 <= j < i ==> req.cookies[j].name != SessionNonce
      invariant response.out == old(response.out)
      invariant forall c :: c in req.cookies ==> unchanged(c)
    {
      var cookie := req.cookies[i];
      if SessionNonce == cookie.name {
        var nonceValue := cookie.value;
        cookie.maxAge := 0;
        cookie.value := "";
        response.AddCookie(cookie);
        return Some(nonceValue);
      }
      i := i + 1;
    }
    return None;
  }
}
