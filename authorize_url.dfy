/**
 * `AuthorizeUrl`: a single-use builder for the authorization request. Its
 * query parameters are kept as a map (how the underlying URL builder
 * encodes them is not modelled); `build` stores the state and nonce through
 * the transient store with a SameSite policy chosen from the response type.
 */
module Authorize {
  import opened Wrappers
  import opened CallbackStore
  import ResponseType

  const ScopeOpenId: string := "openid"

  const StateNonceMessage: string := "Please, use the dedicated methods for setting the 'nonce' and 'state' parameters."
  const ResponseTypeMessage: string := "Response type cannot be changed once set."
  const RedirectUriMessage: string := "Redirect URI cannot be changed once set."
  const ReuseMessage: string := "The AuthorizeUrl instance must not be reused."

  /** `IllegalArgumentException` and `IllegalStateException`, with their messages. */
  datatype ConfigError = IllegalArgument(message: string) | IllegalState(message: string)

  /** The names only the dedicated setters and the constructor may set. */
  predicate IsReserved(name: string)
  {
    name == "state" || name == "nonce" || name == "response_type" || name == "redirect_uri"
  }

  /** The exception `withParameter` throws for `name`: state and nonce are checked first, then the response type, then the redirect URI. */
  function ReservedNameError(name: string): (r: Option<ConfigError>)
    ensures r.None? <==> !IsReserved(name)
    ensures name == "state" || name == "nonce" ==> r == Some(IllegalArgument(StateNonceMessage))
    ensures name == "response_type" ==> r == Some(IllegalArgument(ResponseTypeMessage))
    ensures name == "redirect_uri" ==> r == Some(IllegalArgument(RedirectUriMessage))
  {
    if name == "state" || name == "nonce" then Some(IllegalArgument(StateNonceMessage))
    else if name == "response_type" then Some(IllegalArgument(ResponseTypeMessage))
    else if name == "redirect_uri" then Some(IllegalArgument(RedirectUriMessage))
    else None
  }

  /** `build`'s SameSite choice: `None` when the response type split on spaces names `id_token`, `Lax` otherwise. */
  function CookiePolicy(responseType: string): (p: SameSite)
    ensures p == SameSiteNone <==> "id_token" in ResponseType.JavaSplit(responseType, ' ')
    ensures p == SameSiteNone || p == SameSiteLax
  {
    if ResponseType.ContainsFormPost(responseType) then SameSiteNone else SameSiteLax
  }

  /**
   * The SameSite policy the cookies need: the provider answers with a
   * cross-site form POST exactly when `buildAuthorizeUrl` asks for
   * `response_mode=form_post`, and a browser sends only `SameSite=None`
   * cookies with such a POST.
   */
  function IntendedCookiePolicy(responseType: string): (p: SameSite)
    ensures p == SameSiteNone <==> ResponseType.RequestsFormPost(responseType)
    ensures p == SameSiteNone || p == SameSiteLax
  {
    if ResponseType.RequestsFormPost(responseType) then SameSiteNone else SameSiteLax
  }

  /**
   * `build`'s policy falls short of the intended one: the implicit flow
   * `token` is answered by form POST, yet its cookies are set `Lax`.
   */
  lemma TokenFlowPolicyMismatch()
    ensures ResponseType.RequestsFormPost("token")
    ensures CookiePolicy("token") == SameSiteLax && IntendedCookiePolicy("token") == SameSiteNone
  {
    ResponseType.GetResponseTypeOfJoin(["token"]);
    assert ' ' !in "token";
    assert ResponseType.JavaSplit("token", ' ') == ["token"];
  }

  /**
   * On a response type written the canonical way the intended policy only
   * widens `build`'s: both pick `None` for every response type naming
   * `id_token`, and they differ exactly on those naming `token` but not
   * `id_token`.
   */
  lemma IntendedPolicyWidensAsWritten(ws: seq<string>)
    requires |ws| > 0 && forall i :: 0 <= i < |ws| ==> ResponseType.IsPlainName(ws[i])
    ensures var rt := ResponseType.JoinWithSpace(ws);
      && (CookiePolicy(rt) == SameSiteNone ==> IntendedCookiePolicy(rt) == SameSiteNone)
      && (CookiePolicy(rt) != IntendedCookiePolicy(rt) <==> "token" in ws && "id_token" !in ws)
  {
    ResponseType.JavaSplitOfJoin(ws);
    ResponseType.GetResponseTypeOfJoin(ws);
  }

  /** The store calls a first `build` makes under `sameSite`: always the state, the nonce only when set, both under one policy and one legacy flag. */
  function BuildCalls(sameSite: SameSite, state: Option<string>, nonce: Option<string>, legacy: bool): (calls: seq<StoreCall>)
  {
    [Stored(StateSlot, state, sameSite, legacy)]
      + (if nonce.Some? then [Stored(NonceSlot, nonce, sameSite, legacy)] else [])
  }

  class AuthorizeUrl {
    const store: TransientStore
    const responseType: string
    ghost const redirectUrl: string
    var query: map<string, string>
    var legacySameSiteCookie: bool
    var nonce: Option<string>
    var state: Option<string>
    var used: bool

    /** The reserved parameters always agree with the constructor's arguments and the dedicated fields. */
    ghost predicate Valid()
      reads this
    {
      && Lookup(query, "redirect_uri") == Some(redirectUrl)
      && Lookup(query, "response_type") == Some(responseType)
      && Lookup(query, "state") == state
      && Lookup(query, "nonce") == nonce
    }

    /** Seeds the redirect URL, the response type and scope `openid`; legacy cookies are on by default. */
    constructor (store: TransientStore, redirectUrl: string, responseType: string)
      ensures Valid()
      ensures this.store == store && this.responseType == responseType && this.redirectUrl == redirectUrl
      ensures query == map["redirect_uri" := redirectUrl, "response_type" := responseType, "scope" := ScopeOpenId]
      ensures legacySameSiteCookie && state == None && nonce == None && !used
    {
      this.store := store;
      this.responseType := responseType;
      this.redirectUrl := redirectUrl;
      legacySameSiteCookie := true;
      query := map["redirect_uri" := redirectUrl, "response_type" := responseType, "scope" := ScopeOpenId];
      state := None;
      nonce := None;
      used := false;
    }

    method WithConnection(connection: string)
      requires Valid()
      modifies this
      ensures Valid()
      ensures query == old(query)["connection" := connection]
      ensures legacySameSiteCookie == old(legacySameSiteCookie) && state == old(state) && nonce == old(nonce) && used == old(used)
    {
      query := query["connection" := connection];
    }

    /** Changes the legacy-cookie flag and nothing else. */
    method WithLegacySameSiteCookie(legacySameSiteCookie: bool)
      requires Valid()
      modifies this
      ensures Valid()
      ensures this.legacySameSiteCookie == legacySameSiteCookie
      ensures query == old(query) && state == old(state) && nonce == old(nonce) && used == old(used)
    {
      this.legacySameSiteCookie := legacySameSiteCookie;
    }

    method WithAudience(audience: string)
      requires Valid()
      modifies this
      ensures Valid()
      ensures query == old(query)["audience" := audience]
      ensures legacySameSiteCookie == old(legacySameSiteCookie) && state == old(state) && nonce == old(nonce) && used == old(used)
    {
      query := query["audience" := audience];
    }

    /** Records the state for `build` and forwards it as the `state` parameter. */
    method WithState(state: string)
      requires Valid()
      modifies this
      ensures Valid()
      ensures this.state == Some(state) && query == old(query)["state" := state]
      ensures legacySameSiteCookie == old(legacySameSiteCookie) && nonce == old(nonce) && used == old(used)
    {
      this.state := Some(state);
      query := query["state" := state];
    }

    /** Records the nonce for `build` and forwards it as the `nonce` parameter. */
    method WithNonce(nonce: string)
      requires Valid()
      modifies this
      ensures Valid()
      ensures this.nonce == Some(nonce) && query == old(query)["nonce" := nonce]
      ensures legacySameSiteCookie == old(legacySameSiteCookie) && state == old(state) && used == old(used)
    {
      this.nonce := Some(nonce);
      query := query["nonce" := nonce];
    }

    method WithScope(scope: string)
      requires Valid()
      modifies this
      ensures Valid()
      ensures query == old(query)["scope" := scope]
      ensures legacySameSiteCookie == old(legacySameSiteCookie) && state == old(state) && nonce == old(nonce) && used == old(used)
    {
      query := query["scope" := scope];
    }

    /**
     * Forwards any parameter except the reserved ones; for those it throws,
     * naming the dedicated path, and changes nothing.
     */
    method WithParameter(name: string, value: string) returns (thrown: Option<ConfigError>)
      requires Valid()
      modifies this
      ensures Valid()
      ensures thrown == ReservedNameError(name)
      ensures thrown.Some? ==> query == old(query)
      ensures thrown.None? ==> query == old(query)[name := value]
      ensures legacySameSiteCookie == old(legacySameSiteCookie) && state == old(state) && nonce == old(nonce) && used == old(used)
    {
      if name == "state" || name == "nonce" {
        return Some(IllegalArgument(StateNonceMessage));
      }
      if name == "response_type" {
        return Some(IllegalArgument(ResponseTypeMessage));
      }
      if name == "redirect_uri" {
        return Some(IllegalArgument(RedirectUriMessage));
      }
      query := query[name := value];
      return None;
    }

    /**
     * The first call marks the builder used, stores the state (null or not)
     * and, when set, the nonce, under the policy `CookiePolicy` picks and the
     * current legacy flag, and yields the query; every later call throws and
     * stores nothing.
     */
    method Build() returns (r: Result<map<string, string>, ConfigError>)
      requires Valid()
      modifies this, store
      ensures Valid() && used
      ensures query == old(query) && state == old(state) && nonce == old(nonce)
      ensures legacySameSiteCookie == old(legacySameSiteCookie)
      ensures store.jar == old(store.jar)
      ensures old(used) ==> r == Failure(IllegalState(ReuseMessage)) && store.calls == old(store.calls)
      ensures !old(used) ==>
        && r == Success(query)
        && store.calls == old(store.calls) + BuildCalls(CookiePolicy(responseType), state, nonce, legacySameSiteCookie)
    {
      if used {
        return Failure(IllegalState(ReuseMessage));
      }
      used := true;
      var sameSiteValue := if ResponseType.ContainsFormPost(responseType) then SameSiteNone else SameSiteLax;
      store.StoreState(state, sameSiteValue, legacySameSiteCookie);
      if nonce.Some? {
        store.StoreNonce(nonce, sameSiteValue, legacySameSiteCookie);
      }
      return Success(query);
    }
  }

  /**
   * What a first `build` stores: the state under the state slot, then the
   * nonce only when one is set; one policy and one legacy flag for both.
   */
  lemma BuildCallsShape(sameSite: SameSite, state: Option<string>, nonce: Option<string>, legacy: bool)
    ensures var calls := BuildCalls(sameSite, state, nonce, legacy);
      && |calls| == (if nonce.Some? then 2 else 1)
      && calls[0] == Stored(StateSlot, state, sameSite, legacy)
      && (nonce.Some? ==> calls[1] == Stored(NonceSlot, nonce, sameSite, legacy))
      && forall i :: 0 <= i < |calls| ==> calls[i].Stored? && calls[i].sameSite == sameSite && calls[i].legacy == legacy
  {
  }

  /** A builder is good for one URL: the first `build` succeeds, the second throws the reuse error. */
  method BuildTwice(redirectUrl: string, responseType: string) returns (first: Result<map<string, string>, ConfigError>, second: Result<map<string, string>, ConfigError>)
    ensures first.Success? && Lookup(first.value, "scope") == Some(ScopeOpenId)
    ensures second == Failure(IllegalState(ReuseMessage))
  {
    var store := new TransientStore(map[]);
    var url := new AuthorizeUrl(store, redirectUrl, responseType);
    first := url.Build();
    second := url.Build();
  }
}
