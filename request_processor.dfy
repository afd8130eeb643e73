/**
 * `RequestProcessor`: builds the authorize URL for the configured response
 * type, and processes the callback request in a fixed order (provider error,
 * state, front-channel tokens, presence, nonce, verification and code
 * exchange, merge). The ID-token verifier and the code exchange are oracles
 * of an `IdentityProvider`, which logs every call made to it.
 */
module Processor {
  import opened Wrappers
  import opened CallbackStore
  import opened ResponseType
  import Authorize

  /** `Tokens`: every field may be null. */
  datatype Tokens = Tokens(
    accessToken: Option<string>,
    idToken: Option<string>,
    refreshToken: Option<string>,
    tokenType: Option<string>,
    expiresIn: Option<int>)

  /** The error codes of `InvalidRequestException`, the provider's own code included. */
  datatype ErrorCode =
    | ProviderError(error: string)
    | InvalidState
    | MissingIdToken
    | MissingAccessToken
    | JwtVerificationError
    | ApiError

  /** What `process` throws. */
  datatype ProcessError =
    | InvalidRequest(code: ErrorCode, description: Option<string>)  // InvalidRequestException
    | IdentityVerification(code: ErrorCode, message: string)        // IdentityVerificationException
    | NumberFormat(text: string)  // Long.parseLong rejected expires_in; not caught by process
    | NullState                   // a state cookie but no state parameter: a NullPointerException

  const InvalidStateMessage: string := "The received state doesn't match the expected one."
  const MissingIdTokenMessage: string := "ID Token is missing from the response."
  const MissingAccessTokenMessage: string := "Access Token is missing from the response."
  const JwtVerificationMessage: string := "An error occurred while trying to verify the ID Token."
  const ApiErrorMessage: string := "An error occurred while exchanging the authorization code."

  /** The callback request: its parameters and the URL it was sent to. */
  datatype Callback = Callback(params: map<string, string>, url: string)

  /** The verifier's options as they stand when it is called. */
  datatype OptionsView = OptionsView(issuer: string, audience: string, maxAge: Option<int>, nonce: Option<string>)

  /** `IdTokenVerifier.Options`: static expectations plus the per-request nonce slot. */
  class VerifyOptions {
    const issuer: string
    const audience: string
    const maxAge: Option<int>
    var nonce: Option<string>

    constructor (issuer: string, audience: string, maxAge: Option<int>)
      ensures this.issuer == issuer && this.audience == audience && this.maxAge == maxAge && nonce == None
    {
      this.issuer := issuer;
      this.audience := audience;
      this.maxAge := maxAge;
      nonce := None;
    }

    function View(): (v: OptionsView)
      reads this
    {
      OptionsView(issuer, audience, maxAge, nonce)
    }
  }

  /** The identity provider's answers: whether the verifier accepts a token, and what the code exchange returns (`None` for an API failure). */
  datatype Oracles = Oracles(
    accepts: (string, OptionsView) -> bool,
    exchange: (Option<string>, string) -> Option<Tokens>)

  datatype ProviderCall =
    | VerifyCall(token: string, options: OptionsView)
    | ExchangeCall(code: Option<string>, redirectUri: string)

  /** The token verifier and the token endpoint, with a log of the calls made to them. */
  class IdentityProvider {
    const oracles: Oracles
    var calls: seq<ProviderCall>

    constructor (oracles: Oracles)
      ensures this.oracles == oracles && calls == []
    {
      this.oracles := oracles;
      calls := [];
    }

    /** `tokenVerifier.verify`: false stands for a `TokenValidationException`. */
    method Verify(token: string, options: OptionsView) returns (ok: bool)
      modifies this
      ensures ok == oracles.accepts(token, options)
      ensures calls == old(calls) + [VerifyCall(token, options)]
    {
      ok := oracles.accepts(token, options);
      calls := calls + [VerifyCall(token, options)];
    }

    /** `client.exchangeCode(code, redirectUri).execute()`: `None` stands for an `Auth0Exception`. */
    method ExchangeCode(code: Option<string>, redirectUri: string) returns (r: Option<Tokens>)
      modifies this
      ensures r == oracles.exchange(code, redirectUri)
      ensures calls == old(calls) + [ExchangeCall(code, redirectUri)]
    {
      r := oracles.exchange(code, redirectUri);
      calls := calls + [ExchangeCall(code, redirectUri)];
    }
  }

  // ---------------------------------------------------------------------
  // Numbers as text: `Long.parseLong` for `expires_in`, `Integer.toString` for `max_age`.

  const MinLong: int := -0x8000_0000_0000_0000
  const MaxLong: int := 0x7FFF_FFFF_FFFF_FFFF

  predicate IsDigit(c: char)
  {
    '0' <= c <= '9'
  }

  predicate AllDigits(s: string)
  {
    forall i :: 0 <= i < |s| ==> IsDigit(s[i])
  }

  function DigitsValue(s: string): (n: nat)
    requires AllDigits(s)
    decreases |s|
  {
    if |s| == 0 then 0 else DigitsValue(s[..|s| - 1]) * 10 + (s[|s| - 1] as int - '0' as int)
  }

  /** `Long.parseLong` over ASCII digits: an optional sign, at least one digit, a value in 64 bits. */
  function ParseLong(s: string): (r: Option<int>)
    ensures r.Some? ==> MinLong <= r.value <= MaxLong
    ensures r.Some? ==> |s| > 0
    ensures |s| > 0 && AllDigits(s) && DigitsValue(s) <= MaxLong ==> r == Some(DigitsValue(s))
    ensures |s| > 0 && !IsDigit(s[0]) && s[0] != '-' && s[0] != '+' ==> r == None
  {
    if |s| == 0 then None
    else
      var digits := if s[0] == '-' || s[0] == '+' then s[1..] else s;
      if |digits| == 0 || !AllDigits(digits) then None
      else
        var v: int := if s[0] == '-' then 0 - DigitsValue(digits) else DigitsValue(digits);
        if MinLong <= v <= MaxLong then Some(v) else None
  }

  function NatString(n: nat): (s: string)
    ensures |s| > 0 && AllDigits(s) && DigitsValue(s) == n
    decreases n
  {
    var last := ['0' + (n % 10) as char];
    if n < 10 then last
    else
      var s := NatString(n / 10) + last;
      assert s[..|s| - 1] == NatString(n / 10);
      s
  }

  /** `Integer.toString`: a minus sign for negative numbers, then the decimal digits. */
  function DecimalString(n: int): (s: string)
  {
    if n < 0 then "-" + NatString(-n) else NatString(n)
  }

  /** Round trip: `Long.parseLong` reads back what `toString` writes, for every 64-bit value. */
  lemma ParseLongOfDecimalString(n: int)
    requires MinLong <= n <= MaxLong
    ensures ParseLong(DecimalString(n)) == Some(n)
  {
    var s := DecimalString(n);
    if n < 0 {
      assert s[1..] == NatString(-n);
    } else {
      var d := NatString(n);
      assert IsDigit(d[0]);
    }
  }

  // ---------------------------------------------------------------------
  // The steps of `process`, as functions of their inputs.

  /** `assertNoError`: an `error` parameter becomes an `InvalidRequestException` carrying it and `error_description`. */
  function ProviderErrorOf(params: map<string, string>): (r: Option<ProcessError>)
    ensures r.None? <==> "error" !in params
    ensures r.Some? ==> r.value == InvalidRequest(ProviderError(params["error"]), Lookup(params, "error_description"))
  {
    match Lookup(params, "error")
    case None => None
    case Some(error) => Some(InvalidRequest(ProviderError(error), Lookup(params, "error_description")))
  }

  /** The decision of `assertValidState`, given the request's `state` parameter and the stored state. */
  function StateCheck(stateFromRequest: Option<string>, actualState: Option<string>): (r: Option<ProcessError>)
    ensures r.None? <==> actualState.Some? && stateFromRequest == actualState
    ensures actualState.None? ==> r == Some(InvalidRequest(InvalidState, Some(InvalidStateMessage)))
    ensures actualState.Some? && stateFromRequest.None? ==> r == Some(NullState)
    ensures actualState.Some? && stateFromRequest.Some? && stateFromRequest != actualState ==>
      r == Some(InvalidRequest(InvalidState, Some(InvalidStateMessage)))
  {
    if actualState.None? then Some(InvalidRequest(InvalidState, Some(InvalidStateMessage)))
    else if stateFromRequest.None? then Some(NullState)
    else if stateFromRequest.value != actualState.value then Some(InvalidRequest(InvalidState, Some(InvalidStateMessage)))
    else None
  }

  /** `getFrontChannelTokens`: the tokens carried by the callback itself; never a refresh token. */
  function FrontChannelTokens(params: map<string, string>): (r: Result<Tokens, ProcessError>)
    ensures r.Success? ==> r.value.refreshToken == None
    ensures r.Success? ==> r.value.accessToken == Lookup(params, "access_token")
    ensures r.Success? ==> r.value.idToken == Lookup(params, "id_token")
    ensures r.Success? ==> r.value.tokenType == Lookup(params, "token_type")
    ensures r.Success? ==> r.value.expiresIn == (if "expires_in" in params then ParseLong(params["expires_in"]) else None)
    ensures r.Failure? <==> "expires_in" in params && ParseLong(params["expires_in"]).None?
    ensures r.Failure? ==> r.error == NumberFormat(params["expires_in"])
  {
    var expiresIn: Result<Option<int>, ProcessError> :=
      match Lookup(params, "expires_in")
      case None => Success(None)
      case Some(text) =>
        match ParseLong(text)
        case None => Failure(NumberFormat(text))
        case Some(n) => Success(Some(n));
    match expiresIn
    case Failure(e) => Failure(e)
    case Success(e) =>
      Success(Tokens(Lookup(params, "access_token"), Lookup(params, "id_token"), None, Lookup(params, "token_type"), e))
  }

  /** The flow-dependent presence checks: the ID token first, then the access token. */
  function PresenceCheck(types: seq<string>, front: Tokens): (r: Option<ProcessError>)
    ensures r.None? <==> ("id_token" in types ==> front.idToken.Some?) && ("token" in types ==> front.accessToken.Some?)
  {
    if "id_token" in types && front.idToken.None? then Some(InvalidRequest(MissingIdToken, Some(MissingIdTokenMessage)))
    else if "token" in types && front.accessToken.None? then Some(InvalidRequest(MissingAccessToken, Some(MissingAccessTokenMessage)))
    else None
  }

  /** `mergeTokens`. */
  function MergeTokens(front: Tokens, exchanged: Option<Tokens>): (r: Tokens)
    ensures exchanged.None? ==> r == front
    ensures exchanged.Some? ==> r.refreshToken == exchanged.value.refreshToken
    ensures r.accessToken.Some? <==> front.accessToken.Some? || (exchanged.Some? && exchanged.value.accessToken.Some?)
    ensures r.idToken.Some? <==> front.idToken.Some? || (exchanged.Some? && exchanged.value.idToken.Some?)
  {
    match exchanged
    case None => front
    case Some(ex) =>
      var fromExchange := ex.accessToken.Some?;
      Tokens(
        if fromExchange then ex.accessToken else front.accessToken,
        if front.idToken.Some? then front.idToken else ex.idToken,
        ex.refreshToken,
        if fromExchange then ex.tokenType else front.tokenType,
        if fromExchange then ex.expiresIn else front.expiresIn)
  }

  /** The outcome of `getVerifiedTokens` and the provider calls it made, in order. */
  datatype Verified = Verified(result: Result<Tokens, ProcessError>, calls: seq<ProviderCall>)

  function JwtFailure(): (e: ProcessError)
  {
    IdentityVerification(JwtVerificationError, JwtVerificationMessage)
  }

  function ApiFailure(): (e: ProcessError)
  {
    IdentityVerification(ApiError, ApiErrorMessage)
  }

  /** What `getVerifiedTokens` does, given the oracles' answers. */
  function VerifiedTokens(types: seq<string>, front: Tokens, req: Callback, options: OptionsView, oracles: Oracles): (v: Verified)
    requires "id_token" in types ==> front.idToken.Some?
    ensures |v.calls| <= 3
    ensures v.result.Success? && front.idToken.Some? ==> v.result.value.idToken == front.idToken
    ensures v.result.Success? ==>
      v.result.value == MergeTokens(front, if "code" in types then oracles.exchange(Lookup(req.params, "code"), req.url) else None)
  {
    var code := Lookup(req.params, "code");
    var frontCalls := if "id_token" in types then [VerifyCall(front.idToken.value, options)] else [];
    if "id_token" in types && !oracles.accepts(front.idToken.value, options) then
      Verified(Failure(JwtFailure()), frontCalls)
    else if "code" !in types then
      Verified(Success(MergeTokens(front, None)), frontCalls)
    else
      var exchangeCalls := frontCalls + [ExchangeCall(code, req.url)];
      match oracles.exchange(code, req.url)
      case None => Verified(Failure(ApiFailure()), exchangeCalls)
      case Some(ex) =>
        if "id_token" !in types && ex.idToken.Some? then
          var calls := exchangeCalls + [VerifyCall(ex.idToken.value, options)];
          if oracles.accepts(ex.idToken.value, options) then Verified(Success(MergeTokens(front, Some(ex))), calls)
          else Verified(Failure(JwtFailure()), calls)
        else Verified(Success(MergeTokens(front, Some(ex))), exchangeCalls)
  }

  /** One run of `process`: its outcome, the store and provider calls it made, and the verifier's nonce afterwards. */
  datatype Run = Run(result: Result<Tokens, ProcessError>, storeCalls: seq<StoreCall>, providerCalls: seq<ProviderCall>, nonce: Option<string>)

  /**
   * What `process` does with a callback request, given the transient values
   * the request carries (`jar`), the verifier options and the provider.
   */
  function ProcessRun(responseType: string, legacy: bool, req: Callback, jar: map<Slot, string>, options: OptionsView, oracles: Oracles): (run: Run)
    ensures |run.storeCalls| <= 2 && (run.storeCalls == [] <==> "error" in req.params)
  {
    match ProviderErrorOf(req.params)
    case Some(e) => Run(Failure(e), [], [], options.nonce)
    case None =>
      var stateCalls := [Consumed(StateSlot, legacy)];
      match StateCheck(Lookup(req.params, "state"), Lookup(jar, StateSlot))
      case Some(e) => Run(Failure(e), stateCalls, [], options.nonce)
      case None =>
        match FrontChannelTokens(req.params)
        case Failure(e) => Run(Failure(e), stateCalls, [], options.nonce)
        case Success(front) =>
          var types := GetResponseType(responseType);
          match PresenceCheck(types, front)
          case Some(e) => Run(Failure(e), stateCalls, [], options.nonce)
          case None =>
            var nonce := if NonceSlot in jar then Some(jar[NonceSlot]) else options.nonce;
            var v := VerifiedTokens(types, front, req, options.(nonce := nonce), oracles);
            Run(v.result, stateCalls + [Consumed(NonceSlot, legacy)], v.calls, nonce)
  }

  /** The slots a sequence of store calls expires. */
  function ConsumedSlots(calls: seq<StoreCall>): (slots: set<Slot>)
  {
    if calls == [] then {}
    else (if calls[0].Consumed? then {calls[0].slot} else {}) + ConsumedSlots(calls[1..])
  }

  /** The query `buildAuthorizeUrl` gives the builder before the caller adds more. */
  function AuthorizeQuery(responseType: string, redirectUri: string, state: string, nonce: Option<string>, maxAge: Option<int>): (q: map<string, string>)
  {
    var types := GetResponseType(responseType);
    var base := map["redirect_uri" := redirectUri, "response_type" := responseType, "scope" := Authorize.ScopeOpenId, "state" := state];
    var withNonce := if "id_token" in types && nonce.Some? then base["nonce" := nonce.value] else base;
    var withMode := if RequestsFormPost(responseType) then withNonce["response_mode" := "form_post"] else withNonce;
    if maxAge.Some? then withMode["max_age" := DecimalString(maxAge.value)] else withMode
  }

  class RequestProcessor {
    const provider: IdentityProvider
    const responseType: string
    const verifyOptions: VerifyOptions
    const legacySameSiteCookie: bool

    constructor (provider: IdentityProvider, responseType: string, verifyOptions: VerifyOptions, legacySameSiteCookie: bool)
      ensures this.provider == provider && this.responseType == responseType
      ensures this.verifyOptions == verifyOptions && this.legacySameSiteCookie == legacySameSiteCookie
    {
      this.provider := provider;
      this.responseType := responseType;
      this.verifyOptions := verifyOptions;
      this.legacySameSiteCookie := legacySameSiteCookie;
    }

    /** `getResponseType`. */
    function ResponseTypes(): (types: seq<string>)
    {
      GetResponseType(responseType)
    }

    /**
     * A fresh builder with the state and the legacy flag set, the nonce only
     * for flows returning an ID token, `response_mode=form_post` for flows
     * returning tokens in the front channel, and `max_age` when configured.
     */
    method BuildAuthorizeUrl(store: TransientStore, redirectUri: string, state: string, nonce: Option<string>)
      returns (creator: Authorize.AuthorizeUrl)
      ensures fresh(creator) && creator.Valid() && !creator.used
      ensures creator.store == store && creator.responseType == responseType
      ensures creator.query == AuthorizeQuery(responseType, redirectUri, state, nonce, verifyOptions.maxAge)
      ensures creator.state == Some(state)
      ensures creator.nonce == (if "id_token" in ResponseTypes() then nonce else None)
      ensures creator.legacySameSiteCookie == legacySameSiteCookie
    {
      creator := new Authorize.AuthorizeUrl(store, redirectUri, responseType);
      creator.WithState(state);
      creator.WithLegacySameSiteCookie(legacySameSiteCookie);
      var responseTypeList := ResponseTypes();
      if "id_token" in responseTypeList && nonce.Some? {
        creator.WithNonce(nonce.value);
      }
      if "token" in responseTypeList || "id_token" in responseTypeList {
        var thrown := creator.WithParameter("response_mode", "form_post");
      }
      if verifyOptions.maxAge.Some? {
        var thrown := creator.WithParameter("max_age", DecimalString(verifyOptions.maxAge.value));
      }
    }

    /** `process`: the outcome, the calls and the nonce are those of `ProcessRun`. */
    method Process(req: Callback, store: TransientStore) returns (r: Result<Tokens, ProcessError>)
      modifies store, verifyOptions, provider
      ensures var run := ProcessRun(responseType, legacySameSiteCookie, req, old(store.jar), old(verifyOptions.View()), provider.oracles);
        && r == run.result
        && store.calls == old(store.calls) + run.storeCalls
        && store.jar == old(store.jar) - ConsumedSlots(run.storeCalls)
        && provider.calls == old(provider.calls) + run.providerCalls
        && verifyOptions.nonce == run.nonce
    {
      ghost var jar, options := store.jar, verifyOptions.View();
      var error := ProviderErrorOf(req.params);
      if error.Some? {
        return Failure(error.value);
      }
      ghost var stateCalls := [Consumed(StateSlot, legacySameSiteCookie)];
      assert ConsumedSlots(stateCalls) == {StateSlot} by {
        assert stateCalls[1..] == [];
      }
      var stateError := AssertValidState(req, store);
      assert store.jar == jar - ConsumedSlots(stateCalls);
      if stateError.Some? {
        return Failure(stateError.value);
      }
      var front := FrontChannelTokens(req.params);
      if front.Failure? {
        return Failure(front.error);
      }
      var frontChannelTokens := front.value;
      var responseTypeList := ResponseTypes();
      if "id_token" in responseTypeList && frontChannelTokens.idToken.None? {
        return Failure(InvalidRequest(MissingIdToken, Some(MissingIdTokenMessage)));
      }
      if "token" in responseTypeList && frontChannelTokens.accessToken.None? {
        return Failure(InvalidRequest(MissingAccessToken, Some(MissingAccessTokenMessage)));
      }
      assert PresenceCheck(responseTypeList, frontChannelTokens).None?;
      ghost var allCalls := stateCalls + [Consumed(NonceSlot, legacySameSiteCookie)];
      assert ConsumedSlots(allCalls) == {StateSlot, NonceSlot} by {
        assert allCalls[1..] == [Consumed(NonceSlot, legacySameSiteCookie)];
        assert allCalls[1..][1..] == [];
      }
      var nonce := store.GetNonce(legacySameSiteCookie);
      assert store.jar == jar - ConsumedSlots(allCalls);
      if nonce.Some? {
        verifyOptions.nonce := nonce;
      }
      assert verifyOptions.View() == options.(nonce := if NonceSlot in jar then Some(jar[NonceSlot]) else options.nonce);
      r := GetVerifiedTokens(req, frontChannelTokens, responseTypeList);
    }

    /** `assertValidState`: consumes the stored state, then compares it with the request's. */
    method AssertValidState(req: Callback, store: TransientStore) returns (thrown: Option<ProcessError>)
      modifies store
      ensures thrown == StateCheck(Lookup(req.params, "state"), Lookup(old(store.jar), StateSlot))
      ensures store.jar == old(store.jar) - {StateSlot}
      ensures store.calls == old(store.calls) + [Consumed(StateSlot, legacySameSiteCookie)]
    {
      var stateFromRequest := Lookup(req.params, "state");
      var actualState := store.GetState(legacySameSiteCookie);
      if actualState.None? {
        return Some(InvalidRequest(InvalidState, Some(InvalidStateMessage)));
      }
      if stateFromRequest.None? {
        return Some(NullState);
      }
      if stateFromRequest.value != actualState.value {
        return Some(InvalidRequest(InvalidState, Some(InvalidStateMessage)));
      }
      return None;
    }

    /** `getVerifiedTokens`: the outcome and calls are those of `VerifiedTokens`, under the options as they now stand. */
    method GetVerifiedTokens(req: Callback, frontChannelTokens: Tokens, responseTypeList: seq<string>)
      returns (r: Result<Tokens, ProcessError>)
      requires "id_token" in responseTypeList ==> frontChannelTokens.idToken.Some?
      modifies provider
      ensures var v := VerifiedTokens(responseTypeList, frontChannelTokens, req, verifyOptions.View(), provider.oracles);
        r == v.result && provider.calls == old(provider.calls) + v.calls
    {
      var authorizationCode := Lookup(req.params, "code");
      var codeExchangeTokens: Option<Tokens> := None;
      if "id_token" in responseTypeList {
        var ok := provider.Verify(frontChannelTokens.idToken.value, verifyOptions.View());
        if !ok {
          return Failure(JwtFailure());
        }
      }
      if "code" in responseTypeList {
        var redirectUri := req.url;
        codeExchangeTokens := provider.ExchangeCode(authorizationCode, redirectUri);
        if codeExchangeTokens.None? {
          return Failure(ApiFailure());
        }
        if "id_token" !in responseTypeList {
          var idTokenFromCodeExchange := codeExchangeTokens.value.idToken;
          if idTokenFromCodeExchange.Some? {
            var ok := provider.Verify(idTokenFromCodeExchange.value, verifyOptions.View());
            if !ok {
              return Failure(JwtFailure());
            }
          }
        }
      }
      return Success(MergeTokens(frontChannelTokens, codeExchangeTokens));
    }
  }
}
