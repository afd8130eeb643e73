/**
 * The login round trip: the cookies `build` sets travel through the
 * browser (`Apply`, then `Sent` for the callback) to the callback that
 * `process` handles. A callback returning the state the login stored passes
 * the state check when the browser sends the state cookie back, and, once
 * its tokens are present, verifies against the nonce the login stored; the
 * same callback replayed after processing is rejected.
 */
module LoginRoundTrip {
  import opened Wrappers
  import opened CallbackStore
  import opened ResponseType
  import opened Processor
  import opened ProcessorProperties
  import Authorize

  /** After a login's `build` under `sameSite`, the browser holds its state and, when one was set, its nonce, both under that policy. */
  lemma {:induction false} LoginStoresStateAndNonce(sameSite: SameSite, state: string, nonce: Option<string>, legacy: bool, held: map<Slot, Held>)
    ensures var after := Apply(held, Authorize.BuildCalls(sameSite, Some(state), nonce, legacy));
      && Lookup(after, StateSlot) == Some(Held(state, sameSite))
      && Lookup(after, NonceSlot) == (if nonce.Some? then Some(Held(nonce.value, sameSite)) else Lookup(held, NonceSlot))
  {
    var calls := Authorize.BuildCalls(sameSite, Some(state), nonce, legacy);
    Authorize.BuildCallsShape(sameSite, Some(state), nonce, legacy);
    if nonce.Some? {
      LastStoreWins(held, calls, 0, state);
      LastStoreWins(held, calls, 1, nonce.value);
    } else {
      LastStoreWins(held, calls, 0, state);
      ApplyUntouched(held, calls, NonceSlot);
    }
  }

  /** Once the state check passes, `process` can no longer fail on the state. */
  lemma StateCheckedOnce(responseType: string, legacy: bool, req: Callback, jar: map<Slot, string>, options: OptionsView, oracles: Oracles)
    requires "error" !in req.params
    requires StateCheck(Lookup(req.params, "state"), Lookup(jar, StateSlot)).None?
    ensures var r := ProcessRun(responseType, legacy, req, jar, options, oracles).result;
      r != Failure(InvalidRequest(InvalidState, Some(InvalidStateMessage))) && r != Failure(NullState)
  {
    if PassesChecks(responseType, req, jar) {
      FailureClassification(responseType, legacy, req, jar, options, oracles);
    }
  }

  /**
   * The cookies a callback carries after a login under `sameSite`, when the
   * callback comes back the way `buildAuthorizeUrl` asked for: a form POST
   * exactly when it requested `response_mode=form_post`.
   */
  function CallbackCookies(responseType: string, sameSite: SameSite, state: string, nonce: Option<string>, legacy: bool, held: map<Slot, Held>): (jar: map<Slot, string>)
  {
    Sent(Apply(held, Authorize.BuildCalls(sameSite, Some(state), nonce, legacy)), RequestsFormPost(responseType))
  }

  /** Under `sameSite`, the callback carries the login's state, and its nonce when one was set, exactly when the browser sends cookies of that policy back. */
  lemma {:induction false} CallbackCarriesLogin(responseType: string, sameSite: SameSite, state: string, nonce: Option<string>, legacy: bool, held: map<Slot, Held>)
    ensures var jar := CallbackCookies(responseType, sameSite, state, nonce, legacy, held);
      var sent := sameSite == SameSiteNone || (sameSite == SameSiteLax && !RequestsFormPost(responseType));
      && (Lookup(jar, StateSlot) == if sent then Some(state) else None)
      && (nonce.Some? ==> Lookup(jar, NonceSlot) == if sent then nonce else None)
  {
    LoginStoresStateAndNonce(sameSite, state, nonce, legacy, held);
  }

  /**
   * With the intended cookie policy, a callback carrying the state its login
   * stored passes the state check; when it also passes the token checks, the
   * verifier checks the ID token against the nonce the login stored.
   */
  lemma CallbackAfterLogin(responseType: string, legacy: bool, state: string, nonce: Option<string>, held: map<Slot, Held>, req: Callback, options: OptionsView, oracles: Oracles)
    requires "error" !in req.params && Lookup(req.params, "state") == Some(state)
    ensures var callbackJar := CallbackCookies(responseType, Authorize.IntendedCookiePolicy(responseType), state, nonce, legacy, held);
      var run := ProcessRun(responseType, legacy, req, callbackJar, options, oracles);
      && run.result != Failure(InvalidRequest(InvalidState, Some(InvalidStateMessage)))
      && run.result != Failure(NullState)
      && (PassesChecks(responseType, req, callbackJar) && nonce.Some? ==>
            run.nonce == nonce
            && forall i :: 0 <= i < |run.providerCalls| && run.providerCalls[i].VerifyCall? ==>
                 run.providerCalls[i].options.nonce == nonce)
  {
    var sameSite := Authorize.IntendedCookiePolicy(responseType);
    var callbackJar := CallbackCookies(responseType, sameSite, state, nonce, legacy, held);
    CallbackCarriesLogin(responseType, sameSite, state, nonce, legacy, held);
    StateCheckedOnce(responseType, legacy, req, callbackJar, options, oracles);
    NonceReadOnlyAfterChecks(responseType, legacy, req, callbackJar, options, oracles);
    VerifierSeesInjectedNonce(responseType, legacy, req, callbackJar, options, oracles);
  }

  /**
   * With the policy `build` uses as written, a flow answered by form POST
   * whose cookies were set `Lax` (the implicit flow `token`, by
   * `Authorize.TokenFlowPolicyMismatch`) loses its state cookie on the way
   * back, so its genuine callback is rejected for its state.
   */
  lemma FormPostCallbackLosesLaxState(responseType: string, legacy: bool, state: string, nonce: Option<string>, held: map<Slot, Held>, req: Callback, options: OptionsView, oracles: Oracles)
    requires "error" !in req.params && Lookup(req.params, "state") == Some(state)
    requires RequestsFormPost(responseType) && Authorize.CookiePolicy(responseType) == SameSiteLax
    ensures var callbackJar := CallbackCookies(responseType, Authorize.CookiePolicy(responseType), state, nonce, legacy, held);
      var run := ProcessRun(responseType, legacy, req, callbackJar, options, oracles);
      && run.result == Failure(InvalidRequest(InvalidState, Some(InvalidStateMessage)))
      && run.providerCalls == []
  {
    var callbackJar := CallbackCookies(responseType, SameSiteLax, state, nonce, legacy, held);
    CallbackCarriesLogin(responseType, SameSiteLax, state, nonce, legacy, held);
    StateMismatchStopsProcessing(responseType, legacy, req, callbackJar, options, oracles);
  }

  /** A callback whose state differs from the one its login stored is rejected before any token is looked at, whatever the policy. */
  lemma ForgedCallbackRejected(responseType: string, legacy: bool, sameSite: SameSite, state: string, nonce: Option<string>, held: map<Slot, Held>, req: Callback, options: OptionsView, oracles: Oracles)
    requires "error" !in req.params && Lookup(req.params, "state") != Some(state)
    ensures var callbackJar := CallbackCookies(responseType, sameSite, state, nonce, legacy, held);
      var run := ProcessRun(responseType, legacy, req, callbackJar, options, oracles);
      && run.result == (if "state" in req.params || StateSlot !in callbackJar then Failure(InvalidRequest(InvalidState, Some(InvalidStateMessage))) else Failure(NullState))
      && run.providerCalls == []
  {
    CallbackCarriesLogin(responseType, sameSite, state, nonce, legacy, held);
  }

  /**
   * Replay: whatever the first callback's outcome (short of a provider
   * error), the cookies left in the browser no longer hold a state, so any
   * later callback, by GET or POST, is rejected with `INVALID_STATE_ERROR`.
   */
  lemma ReplayRejected(responseType: string, legacy: bool, req: Callback, held: map<Slot, Held>, formPost: bool, options: OptionsView, oracles: Oracles,
                       replay: Callback, formPost2: bool, options2: OptionsView)
    requires "error" !in req.params && "error" !in replay.params
    ensures var run := ProcessRun(responseType, legacy, req, Sent(held, formPost), options, oracles);
      var again := ProcessRun(responseType, legacy, replay, Sent(Apply(held, run.storeCalls), formPost2), options2, oracles);
      && again.result == Failure(InvalidRequest(InvalidState, Some(InvalidStateMessage)))
      && again.providerCalls == []
  {
    var run := ProcessRun(responseType, legacy, req, Sent(held, formPost), options, oracles);
    StateConsumedExactlyOnce(responseType, legacy, req, Sent(held, formPost), options, oracles);
    LastConsumeClears(held, run.storeCalls, 0);
    StateMismatchStopsProcessing(responseType, legacy, replay, Sent(Apply(held, run.storeCalls), formPost2), options2, oracles);
  }

  /**
   * A whole login as the classes run it: `buildAuthorizeUrl` and `build`
   * write the login response, the browser applies it and sends back what
   * the callback's method allows, and `process` handles the callback
   * carrying the stored state. The URL holds the state; the callback is
   * rejected for its state exactly when `build`'s policy withholds the state
   * cookie from a form-post callback.
   */
  method LoginThenCallback(processor: RequestProcessor, redirectUri: string, state: string, nonce: Option<string>, held: map<Slot, Held>, req: Callback)
    returns (url: Result<map<string, string>, Authorize.ConfigError>, r: Result<Tokens, ProcessError>)
    requires "error" !in req.params && Lookup(req.params, "state") == Some(state)
    modifies processor.verifyOptions, processor.provider
    ensures url.Success? && Lookup(url.value, "state") == Some(state)
    ensures !(RequestsFormPost(processor.responseType) && Authorize.CookiePolicy(processor.responseType) == SameSiteLax) ==>
      r != Failure(InvalidRequest(InvalidState, Some(InvalidStateMessage))) && r != Failure(NullState)
    ensures RequestsFormPost(processor.responseType) && Authorize.CookiePolicy(processor.responseType) == SameSiteLax ==>
      r == Failure(InvalidRequest(InvalidState, Some(InvalidStateMessage)))
  {
    var login := new TransientStore(map[]);
    var creator := processor.BuildAuthorizeUrl(login, redirectUri, state, nonce);
    AuthorizeQueryAlwaysCarries(processor.responseType, redirectUri, state, nonce, processor.verifyOptions.maxAge);
    url := creator.Build();
    var policy := Authorize.CookiePolicy(processor.responseType);
    assert login.calls == Authorize.BuildCalls(policy, Some(state), creator.nonce, processor.legacySameSiteCookie);
    var sent := CallbackCookies(processor.responseType, policy, state, creator.nonce, processor.legacySameSiteCookie, held);
    var callback := new TransientStore(sent);
    CallbackCarriesLogin(processor.responseType, policy, state, creator.nonce, processor.legacySameSiteCookie, held);
    if RequestsFormPost(processor.responseType) && policy == SameSiteLax {
      StateMismatchStopsProcessing(processor.responseType, processor.legacySameSiteCookie, req, sent,
                                   processor.verifyOptions.View(), processor.provider.oracles);
    } else {
      StateCheckedOnce(processor.responseType, processor.legacySameSiteCookie, req, sent,
                       processor.verifyOptions.View(), processor.provider.oracles);
    }
    r := processor.Process(req, callback);
  }

  /** `process` run twice on the same callback: the second run finds the state consumed and rejects it. */
  method ProcessTwice(processor: RequestProcessor, req: Callback, store: TransientStore)
    returns (first: Result<Tokens, ProcessError>, second: Result<Tokens, ProcessError>)
    requires "error" !in req.params
    modifies store, processor.verifyOptions, processor.provider
    ensures second == Failure(InvalidRequest(InvalidState, Some(InvalidStateMessage)))
  {
    StateConsumedExactlyOnce(processor.responseType, processor.legacySameSiteCookie, req, store.jar,
                             processor.verifyOptions.View(), processor.provider.oracles);
    first := processor.Process(req, store);
    assert StateSlot !in store.jar;
    second := processor.Process(req, store);
  }
}
