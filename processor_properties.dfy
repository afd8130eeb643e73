/**
 * What `process` promises, proved of `ProcessRun`, the function its
 * implementation is verified against: the order of the checks, the
 * exactly-once consumption of the state, where the nonce goes, which tokens
 * are verified and when the code is exchanged, how failures are classified,
 * and which source each merged token comes from.
 */
module ProcessorProperties {
  import opened Wrappers
  import opened CallbackStore
  import opened ResponseType
  import opened Processor

  /** A callback that passes the error, state, parsing and presence checks, the point at which the nonce is read. */
  predicate PassesChecks(responseType: string, req: Callback, jar: map<Slot, string>)
  {
    && "error" !in req.params
    && StateCheck(Lookup(req.params, "state"), Lookup(jar, StateSlot)).None?
    && FrontChannelTokens(req.params).Success?
    && PresenceCheck(GetResponseType(responseType), FrontChannelTokens(req.params).value).None?
  }

  /** The verifier options in force once the nonce step has run. */
  function OptionsAfterNonce(options: OptionsView, jar: map<Slot, string>): (o: OptionsView)
  {
    options.(nonce := if NonceSlot in jar then Some(jar[NonceSlot]) else options.nonce)
  }

  /** An `error` parameter ends processing with the provider's error before any cookie is read or the provider called. */
  lemma ProviderErrorComesFirst(responseType: string, legacy: bool, req: Callback, jar: map<Slot, string>, options: OptionsView, oracles: Oracles)
    requires "error" in req.params
    ensures var run := ProcessRun(responseType, legacy, req, jar, options, oracles);
      && run.result == Failure(InvalidRequest(ProviderError(req.params["error"]), Lookup(req.params, "error_description")))
      && run.storeCalls == [] && run.providerCalls == [] && run.nonce == options.nonce
  {
  }

  /**
   * Without a provider error the state is the first thing read, and it is
   * read exactly once; the only other read is the nonce, after it.
   */
  lemma StateConsumedExactlyOnce(responseType: string, legacy: bool, req: Callback, jar: map<Slot, string>, options: OptionsView, oracles: Oracles)
    requires "error" !in req.params
    ensures var calls := ProcessRun(responseType, legacy, req, jar, options, oracles).storeCalls;
      && (calls == [Consumed(StateSlot, legacy)] || calls == [Consumed(StateSlot, legacy), Consumed(NonceSlot, legacy)])
  {
  }

  /**
   * A missing stored state, or one the request's `state` differs from, ends
   * processing with `INVALID_STATE_ERROR`: only the state was consumed,
   * nothing was verified or exchanged, and the nonce was left as it was.
   */
  lemma StateMismatchStopsProcessing(responseType: string, legacy: bool, req: Callback, jar: map<Slot, string>, options: OptionsView, oracles: Oracles)
    requires "error" !in req.params
    requires StateSlot !in jar || ("state" in req.params && req.params["state"] != jar[StateSlot])
    ensures var run := ProcessRun(responseType, legacy, req, jar, options, oracles);
      && run.result == Failure(InvalidRequest(InvalidState, Some(InvalidStateMessage)))
      && run.storeCalls == [Consumed(StateSlot, legacy)]
      && run.providerCalls == [] && run.nonce == options.nonce
  {
  }

  /**
   * The state is checked before any token is looked at: when the check
   * fails, two requests that agree on `error` and `state` are processed
   * identically, whatever tokens, code or URL they carry.
   */
  lemma StateFailureIgnoresTokens(responseType: string, legacy: bool, req1: Callback, req2: Callback, jar: map<Slot, string>, options: OptionsView, oracles: Oracles)
    requires Lookup(req1.params, "error") == Lookup(req2.params, "error")
    requires Lookup(req1.params, "error_description") == Lookup(req2.params, "error_description")
    requires Lookup(req1.params, "state") == Lookup(req2.params, "state")
    requires StateCheck(Lookup(req1.params, "state"), Lookup(jar, StateSlot)).Some?
    ensures ProcessRun(responseType, legacy, req1, jar, options, oracles) == ProcessRun(responseType, legacy, req2, jar, options, oracles)
  {
  }

  /**
   * The presence checks: a flow returning an ID token fails with
   * `MISSING_ID_TOKEN` when the callback has none (checked first); failing
   * that, a flow returning an access token fails with `MISSING_ACCESS_TOKEN`
   * when it has none. Either way the nonce is not read and the provider not called.
   */
  lemma PresenceChecksInOrder(responseType: string, legacy: bool, req: Callback, jar: map<Slot, string>, options: OptionsView, oracles: Oracles)
    requires "error" !in req.params
    requires StateCheck(Lookup(req.params, "state"), Lookup(jar, StateSlot)).None?
    requires FrontChannelTokens(req.params).Success?
    ensures var types, front := GetResponseType(responseType), FrontChannelTokens(req.params).value;
      var run := ProcessRun(responseType, legacy, req, jar, options, oracles);
      && ("id_token" in types && front.idToken.None? ==>
            run.result == Failure(InvalidRequest(MissingIdToken, Some(MissingIdTokenMessage))))
      && (("id_token" !in types || front.idToken.Some?) && "token" in types && front.accessToken.None? ==>
            run.result == Failure(InvalidRequest(MissingAccessToken, Some(MissingAccessTokenMessage))))
      && (PresenceCheck(types, front).Some? ==>
            run.storeCalls == [Consumed(StateSlot, legacy)] && run.providerCalls == [] && run.nonce == options.nonce)
  {
  }

  /**
   * The nonce is read exactly when every earlier check passed; a stored
   * nonce then replaces the verifier's, and an absent one leaves it as it was.
   */
  lemma NonceReadOnlyAfterChecks(responseType: string, legacy: bool, req: Callback, jar: map<Slot, string>, options: OptionsView, oracles: Oracles)
    ensures var run := ProcessRun(responseType, legacy, req, jar, options, oracles);
      && (Consumed(NonceSlot, legacy) in run.storeCalls <==> PassesChecks(responseType, req, jar))
      && run.nonce == (if PassesChecks(responseType, req, jar) && NonceSlot in jar then Some(jar[NonceSlot]) else options.nonce)
  {
  }

  /** Once the checks pass, `process` consumes the nonce and hands over to `getVerifiedTokens` with the injected nonce. */
  lemma RunAfterChecks(responseType: string, legacy: bool, req: Callback, jar: map<Slot, string>, options: OptionsView, oracles: Oracles)
    requires PassesChecks(responseType, req, jar)
    ensures "id_token" in GetResponseType(responseType) ==> FrontChannelTokens(req.params).value.idToken.Some?
    ensures var v := VerifiedTokens(GetResponseType(responseType), FrontChannelTokens(req.params).value, req, OptionsAfterNonce(options, jar), oracles);
      ProcessRun(responseType, legacy, req, jar, options, oracles)
        == Run(v.result, [Consumed(StateSlot, legacy), Consumed(NonceSlot, legacy)], v.calls, OptionsAfterNonce(options, jar).nonce)
  {
  }

  /**
   * A successful run returns `mergeTokens` of the front-channel tokens and,
   * when the flow names `code`, the tokens the exchange returned.
   */
  lemma SuccessMergesExchange(responseType: string, legacy: bool, req: Callback, jar: map<Slot, string>, options: OptionsView, oracles: Oracles)
    ensures var run := ProcessRun(responseType, legacy, req, jar, options, oracles);
      run.result.Success? ==>
        && PassesChecks(responseType, req, jar)
        && run.result.value == MergeTokens(FrontChannelTokens(req.params).value,
             if "code" in GetResponseType(responseType) then oracles.exchange(Lookup(req.params, "code"), req.url) else None)
  {
    if PassesChecks(responseType, req, jar) {
      RunAfterChecks(responseType, legacy, req, jar, options, oracles);
    }
  }

  /** `getVerifiedTokens` passes the options it was given to every verification. */
  lemma VerificationsUseGivenOptions(types: seq<string>, front: Tokens, req: Callback, options: OptionsView, oracles: Oracles)
    requires "id_token" in types ==> front.idToken.Some?
    ensures var calls := VerifiedTokens(types, front, req, options, oracles).calls;
      forall i :: 0 <= i < |calls| && calls[i].VerifyCall? ==> calls[i].options == options
  {
  }

  /** Every verification sees the options with the injected nonce. */
  lemma VerifierSeesInjectedNonce(responseType: string, legacy: bool, req: Callback, jar: map<Slot, string>, options: OptionsView, oracles: Oracles)
    ensures var run := ProcessRun(responseType, legacy, req, jar, options, oracles);
      forall i :: 0 <= i < |run.providerCalls| && run.providerCalls[i].VerifyCall? ==>
        run.providerCalls[i].options == OptionsAfterNonce(options, jar)
  {
    if PassesChecks(responseType, req, jar) {
      RunAfterChecks(responseType, legacy, req, jar, options, oracles);
      VerificationsUseGivenOptions(GetResponseType(responseType), FrontChannelTokens(req.params).value, req, OptionsAfterNonce(options, jar), oracles);
    }
  }

  /**
   * Dispatch in `getVerifiedTokens`, as a property of the provider calls it
   * made: the front-channel ID token is verified, first, exactly when the
   * types name `id_token`; the code is exchanged (with the `code` parameter
   * and the request URL) exactly when they name `code` and any front-channel
   * verification succeeded; the exchanged ID token is verified, right after
   * the exchange, exactly when the types name `code` but not `id_token` and
   * the exchange returned one; there is at most one verification, and it
   * uses the given options and the token just named.
   */
  predicate DispatchedAs(calls: seq<ProviderCall>, types: seq<string>, front: Tokens, req: Callback, options: OptionsView, oracles: Oracles)
    requires "id_token" in types ==> front.idToken.Some?
  {
    var exchanged := oracles.exchange(Lookup(req.params, "code"), req.url);
    && ("id_token" in types <==> |calls| > 0 && calls[0].VerifyCall? && Some(calls[0].token) == front.idToken)
    && ((exists i :: 0 <= i < |calls| && calls[i].ExchangeCall?) <==>
          "code" in types && ("id_token" in types ==> oracles.accepts(front.idToken.value, options)))
    && (forall i :: 0 <= i < |calls| && calls[i].ExchangeCall? ==> calls[i] == ExchangeCall(Lookup(req.params, "code"), req.url))
    && ((exists i :: 1 <= i < |calls| && calls[i].VerifyCall? && calls[i - 1].ExchangeCall?) <==>
          "code" in types && "id_token" !in types && exchanged.Some? && exchanged.value.idToken.Some?)
    && (forall i, j :: 0 <= i < |calls| && 0 <= j < |calls| && calls[i].VerifyCall? && calls[j].VerifyCall? ==> i == j)
    && (forall i :: 0 <= i < |calls| && calls[i].VerifyCall? ==>
          calls[i].options == options &&
          if "id_token" in types then i == 0 && Some(calls[i].token) == front.idToken
          else i == 1 && calls[0].ExchangeCall? && exchanged.Some? && exchanged.value.idToken == Some(calls[i].token))
  }

  /** `getVerifiedTokens` dispatches on the response type as `DispatchedAs` describes. */
  lemma VerifiedTokensDispatch(types: seq<string>, front: Tokens, req: Callback, options: OptionsView, oracles: Oracles)
    requires "id_token" in types ==> front.idToken.Some?
    ensures DispatchedAs(VerifiedTokens(types, front, req, options, oracles).calls, types, front, req, options, oracles)
  {
    var calls := VerifiedTokens(types, front, req, options, oracles).calls;
    var code := Lookup(req.params, "code");
    var frontCalls := if "id_token" in types then [VerifyCall(front.idToken.value, options)] else [];
    if "id_token" in types && !oracles.accepts(front.idToken.value, options) {
      assert calls == frontCalls;
    } else if "code" !in types {
      assert calls == frontCalls;
    } else {
      assert calls[|frontCalls|] == ExchangeCall(code, req.url);
      match oracles.exchange(code, req.url)
      case None =>
        assert calls == frontCalls + [ExchangeCall(code, req.url)];
      case Some(ex) =>
        if "id_token" !in types && ex.idToken.Some? {
          assert calls == [ExchangeCall(code, req.url), VerifyCall(ex.idToken.value, options)];
          assert calls[1].VerifyCall? && calls[0].ExchangeCall?;
        } else {
          assert calls == frontCalls + [ExchangeCall(code, req.url)];
        }
    }
  }

  /**
   * Failures of `getVerifiedTokens` are classified by their cause: a rejected
   * verification is `JWT_VERIFICATION_ERROR`, a failed exchange `API_ERROR`,
   * and nothing else fails.
   */
  lemma VerifiedTokensFailures(types: seq<string>, front: Tokens, req: Callback, options: OptionsView, oracles: Oracles)
    requires "id_token" in types ==> front.idToken.Some?
    ensures var v := VerifiedTokens(types, front, req, options, oracles);
      && (v.result == Failure(JwtFailure()) <==>
            exists i :: 0 <= i < |v.calls| && v.calls[i].VerifyCall? && !oracles.accepts(v.calls[i].token, v.calls[i].options))
      && (v.result == Failure(ApiFailure()) <==>
            exists i :: 0 <= i < |v.calls| && v.calls[i].ExchangeCall? && oracles.exchange(v.calls[i].code, v.calls[i].redirectUri).None?)
      && (v.result.Failure? ==> v.result == Failure(JwtFailure()) || v.result == Failure(ApiFailure()))
  {
    var v := VerifiedTokens(types, front, req, options, oracles);
    var code := Lookup(req.params, "code");
    var frontCalls := if "id_token" in types then [VerifyCall(front.idToken.value, options)] else [];
    assert JwtFailure() != ApiFailure();
    if "id_token" in types && !oracles.accepts(front.idToken.value, options) {
      assert v.calls == frontCalls && !oracles.accepts(v.calls[0].token, v.calls[0].options);
    } else if "code" !in types {
      assert v.calls == frontCalls;
    } else {
      match oracles.exchange(code, req.url)
      case None =>
        assert v.calls == frontCalls + [ExchangeCall(code, req.url)];
        assert v.calls[|frontCalls|] == ExchangeCall(code, req.url);
      case Some(ex) =>
        if "id_token" !in types && ex.idToken.Some? {
          assert v.calls == [ExchangeCall(code, req.url), VerifyCall(ex.idToken.value, options)];
          assert v.calls[1].token == ex.idToken.value && v.calls[1].options == options;
          if !oracles.accepts(ex.idToken.value, options) {
            assert v.result == Failure(JwtFailure());
          } else {
            assert v.result.Success?;
          }
        } else {
          assert v.calls == frontCalls + [ExchangeCall(code, req.url)];
        }
    }
  }

  /** The dispatch of `process`, once its checks pass, with the options carrying the injected nonce. */
  lemma DispatchOnResponseType(responseType: string, legacy: bool, req: Callback, jar: map<Slot, string>, options: OptionsView, oracles: Oracles)
    requires PassesChecks(responseType, req, jar)
    ensures DispatchedAs(ProcessRun(responseType, legacy, req, jar, options, oracles).providerCalls,
      GetResponseType(responseType), FrontChannelTokens(req.params).value, req, OptionsAfterNonce(options, jar), oracles)
  {
    var types, front, opts := GetResponseType(responseType), FrontChannelTokens(req.params).value, OptionsAfterNonce(options, jar);
    RunAfterChecks(responseType, legacy, req, jar, options, oracles);
    var calls := VerifiedTokens(types, front, req, opts, oracles).calls;
    assert ProcessRun(responseType, legacy, req, jar, options, oracles).providerCalls == calls;
    VerifiedTokensDispatch(types, front, req, opts, oracles);
  }

  /** After the checks, `process` fails only with a JWT or API failure, and each exactly when its cause occurred. */
  lemma FailureClassification(responseType: string, legacy: bool, req: Callback, jar: map<Slot, string>, options: OptionsView, oracles: Oracles)
    requires PassesChecks(responseType, req, jar)
    ensures var run := ProcessRun(responseType, legacy, req, jar, options, oracles);
      var calls := run.providerCalls;
      && (run.result == Failure(JwtFailure()) <==>
            exists i :: 0 <= i < |calls| && calls[i].VerifyCall? && !oracles.accepts(calls[i].token, calls[i].options))
      && (run.result == Failure(ApiFailure()) <==>
            exists i :: 0 <= i < |calls| && calls[i].ExchangeCall? && oracles.exchange(calls[i].code, calls[i].redirectUri).None?)
      && (run.result.Failure? ==> run.result == Failure(JwtFailure()) || run.result == Failure(ApiFailure()))
  {
    RunAfterChecks(responseType, legacy, req, jar, options, oracles);
    VerifiedTokensFailures(GetResponseType(responseType), FrontChannelTokens(req.params).value, req, OptionsAfterNonce(options, jar), oracles);
  }

  /** In the hybrid flow a rejected front-channel ID token means the code is never exchanged. */
  lemma RejectedHybridTokenIsNotExchanged(responseType: string, legacy: bool, req: Callback, jar: map<Slot, string>, options: OptionsView, oracles: Oracles)
    requires PassesChecks(responseType, req, jar)
    requires "id_token" in GetResponseType(responseType) && "code" in GetResponseType(responseType)
    requires !oracles.accepts(FrontChannelTokens(req.params).value.idToken.value, OptionsAfterNonce(options, jar))
    ensures var run := ProcessRun(responseType, legacy, req, jar, options, oracles);
      run.result == Failure(JwtFailure()) && |run.providerCalls| == 1 && run.providerCalls[0].VerifyCall?
  {
    RunAfterChecks(responseType, legacy, req, jar, options, oracles);
  }

  /** Without a code exchange, a successful run returns the front-channel tokens unchanged, so never a refresh token. */
  lemma NoExchangeReturnsFrontChannel(responseType: string, legacy: bool, req: Callback, jar: map<Slot, string>, options: OptionsView, oracles: Oracles)
    requires "code" !in GetResponseType(responseType)
    ensures var run := ProcessRun(responseType, legacy, req, jar, options, oracles);
      run.result.Success? ==>
        && FrontChannelTokens(req.params).Success?
        && run.result.value == FrontChannelTokens(req.params).value
        && run.result.value.refreshToken == None
  {
  }

  /** The access token, its type and its lifetime, which `mergeTokens` moves together. */
  function AccessGroup(t: Tokens): (Option<string>, Option<string>, Option<int>)
  {
    (t.accessToken, t.tokenType, t.expiresIn)
  }

  /**
   * Merge precedence: the access group comes whole from the exchange when it
   * has an access token and whole from the front channel otherwise; the ID
   * token prefers the front channel; the refresh token is the exchange's.
   * No token either side has is lost.
   */
  lemma MergePrecedence(front: Tokens, ex: Tokens)
    ensures var m := MergeTokens(front, Some(ex));
      && AccessGroup(m) == (if ex.accessToken.Some? then AccessGroup(ex) else AccessGroup(front))
      && m.idToken == (if front.idToken.Some? then front.idToken else ex.idToken)
      && m.refreshToken == ex.refreshToken
      && (m.accessToken.Some? <==> front.accessToken.Some? || ex.accessToken.Some?)
      && (m.idToken.Some? <==> front.idToken.Some? || ex.idToken.Some?)
  {
  }

  /** Merging with no exchange, or with an identical exchange, changes nothing. */
  lemma MergeIdentities(t: Tokens)
    ensures MergeTokens(t, None) == t
    ensures MergeTokens(t, Some(t)) == t
  {
  }

  /** The code flow's response type, as `getResponseType` reads it. */
  lemma CodeFlowResponseType()
    ensures GetResponseType("code") == ["code"]
  {
    assert IsPlainName("code");
    assert JoinWithSpace(["code"]) == "code";
    GetResponseTypeOfJoin(["code"]);
  }

  /** The hybrid flow's response type, as `getResponseType` reads it. */
  lemma HybridFlowResponseType()
    ensures GetResponseType("code id_token") == ["code", "id_token"]
  {
    assert IsPlainName("code") && IsPlainName("id_token");
    assert JoinWithSpace(["code", "id_token"]) == "code id_token";
    GetResponseTypeOfJoin(["code", "id_token"]);
  }

  /** The implicit flow's response type, as `getResponseType` reads it. */
  lemma ImplicitFlowResponseType()
    ensures GetResponseType("id_token token") == ["id_token", "token"]
  {
    assert IsPlainName("id_token") && IsPlainName("token");
    assert JoinWithSpace(["id_token", "token"]) == "id_token token";
    GetResponseTypeOfJoin(["id_token", "token"]);
  }

  /**
   * The code flow (response type "code", see `CodeFlowResponseType`): a callback
   * passing the checks, with an exchange returning tokens whose ID token is
   * accepted, yields the exchanged access, ID and refresh tokens when the
   * callback itself carried no ID token.
   */
  lemma CodeFlowUsesExchangedTokens(responseType: string, legacy: bool, req: Callback, jar: map<Slot, string>, options: OptionsView, oracles: Oracles, ex: Tokens)
    requires GetResponseType(responseType) == ["code"]
    requires PassesChecks(responseType, req, jar)
    requires "id_token" !in req.params
    requires oracles.exchange(Lookup(req.params, "code"), req.url) == Some(ex)
    requires ex.accessToken.Some? && ex.idToken.Some?
    requires oracles.accepts(ex.idToken.value, OptionsAfterNonce(options, jar))
    ensures var run := ProcessRun(responseType, legacy, req, jar, options, oracles);
      && run.result.Success?
      && run.result.value.accessToken == ex.accessToken
      && run.result.value.idToken == ex.idToken
      && run.result.value.refreshToken == ex.refreshToken
  {
    var front, opts := FrontChannelTokens(req.params).value, OptionsAfterNonce(options, jar);
    assert front.idToken == None;
    RunAfterChecks(responseType, legacy, req, jar, options, oracles);
    var v := VerifiedTokens(["code"], front, req, opts, oracles);
    assert v.result == Success(MergeTokens(front, Some(ex)));
  }

  /**
   * The hybrid flow (response type "code id_token"): once the front-channel
   * ID token is accepted and the exchange succeeds, the result keeps the
   * front-channel ID token, whatever the exchange returned, and takes the
   * refresh token, and any access token, from the exchange, after one
   * verification and one exchange.
   */
  lemma HybridFlowKeepsFrontChannelIdToken(responseType: string, legacy: bool, req: Callback, jar: map<Slot, string>, options: OptionsView, oracles: Oracles, ex: Tokens)
    requires GetResponseType(responseType) == ["code", "id_token"]
    requires PassesChecks(responseType, req, jar)
    requires "id_token" in req.params && oracles.accepts(req.params["id_token"], OptionsAfterNonce(options, jar))
    requires oracles.exchange(Lookup(req.params, "code"), req.url) == Some(ex)
    ensures var run := ProcessRun(responseType, legacy, req, jar, options, oracles);
      && run.result.Success?
      && run.result.value.idToken == Some(req.params["id_token"])
      && run.result.value.refreshToken == ex.refreshToken
      && (ex.accessToken.Some? ==> run.result.value.accessToken == ex.accessToken)
      && run.providerCalls == [VerifyCall(req.params["id_token"], OptionsAfterNonce(options, jar)), ExchangeCall(Lookup(req.params, "code"), req.url)]
  {
    var front, opts := FrontChannelTokens(req.params).value, OptionsAfterNonce(options, jar);
    assert front.idToken == Some(req.params["id_token"]);
    RunAfterChecks(responseType, legacy, req, jar, options, oracles);
    var v := VerifiedTokens(["code", "id_token"], front, req, opts, oracles);
    assert v.result == Success(MergeTokens(front, Some(ex)));
  }

  /**
   * The implicit flow (response type "id_token token"): a callback passing
   * the checks whose ID token is accepted yields both front-channel tokens
   * and no refresh token, after exactly one verification.
   */
  lemma ImplicitFlowSucceeds(responseType: string, legacy: bool, req: Callback, jar: map<Slot, string>, options: OptionsView, oracles: Oracles)
    requires GetResponseType(responseType) == ["id_token", "token"]
    requires PassesChecks(responseType, req, jar)
    requires "id_token" in req.params && oracles.accepts(req.params["id_token"], OptionsAfterNonce(options, jar))
    ensures var run := ProcessRun(responseType, legacy, req, jar, options, oracles);
      && run.result.Success?
      && run.result.value.accessToken.Some? && run.result.value.idToken.Some?
      && run.result.value.refreshToken == None
      && run.providerCalls == [VerifyCall(req.params["id_token"], OptionsAfterNonce(options, jar))]
  {
    var front, opts := FrontChannelTokens(req.params).value, OptionsAfterNonce(options, jar);
    RunAfterChecks(responseType, legacy, req, jar, options, oracles);
    var v := VerifiedTokens(["id_token", "token"], front, req, opts, oracles);
    assert v.result == Success(front);
  }

  /** The names `buildAuthorizeUrl` always sets differ from the ones it may add. */
  lemma QueryNamesDistinct()
    ensures "redirect_uri" != "nonce" && "redirect_uri" != "response_mode" && "redirect_uri" != "max_age"
    ensures "response_type" != "nonce" && "response_type" != "response_mode" && "response_type" != "max_age"
    ensures "scope" != "nonce" && "scope" != "response_mode" && "scope" != "max_age"
    ensures "state" != "nonce" && "state" != "response_mode" && "state" != "max_age"
    ensures "nonce" != "response_mode" && "nonce" != "max_age" && "response_mode" != "max_age"
  {
    assert "scope"[0] != "nonce"[0] && "state"[0] != "nonce"[0];
    assert "response_type"[9] != "response_mode"[9];
  }

  /** The query `buildAuthorizeUrl` starts from always carries the redirect URI, response type, `openid` scope and state. */
  lemma AuthorizeQueryAlwaysCarries(responseType: string, redirectUri: string, state: string, nonce: Option<string>, maxAge: Option<int>)
    ensures var q := AuthorizeQuery(responseType, redirectUri, state, nonce, maxAge);
      && Lookup(q, "redirect_uri") == Some(redirectUri)
      && Lookup(q, "response_type") == Some(responseType)
      && Lookup(q, "scope") == Some(Authorize.ScopeOpenId)
      && Lookup(q, "state") == Some(state)
      && q.Keys <= {"redirect_uri", "response_type", "scope", "state", "nonce", "response_mode", "max_age"}
  {
    var types := GetResponseType(responseType);
    var base := map["redirect_uri" := redirectUri, "response_type" := responseType, "scope" := Authorize.ScopeOpenId, "state" := state];
    var withNonce := if "id_token" in types && nonce.Some? then base["nonce" := nonce.value] else base;
    var withMode := if RequestsFormPost(responseType) then withNonce["response_mode" := "form_post"] else withNonce;
    var q := if maxAge.Some? then withMode["max_age" := DecimalString(maxAge.value)] else withMode;
    assert q == AuthorizeQuery(responseType, redirectUri, state, nonce, maxAge);
    QueryNamesDistinct();
    assert withNonce.Keys <= base.Keys + {"nonce"};
    assert withMode.Keys <= withNonce.Keys + {"response_mode"};
    assert q.Keys <= withMode.Keys + {"max_age"};
    assert base["redirect_uri"] == redirectUri && base["response_type"] == responseType;
    assert base["scope"] == Authorize.ScopeOpenId && base["state"] == state;
  }

  /**
   * The optional parameters of that query: the nonce exactly when the flow
   * returns an ID token and a nonce was given; `response_mode=form_post`
   * exactly when the flow returns any token on the front channel; `max_age`
   * exactly when the verifier has one, written so that it reads back as the
   * same number.
   */
  lemma AuthorizeQueryOptional(responseType: string, redirectUri: string, state: string, nonce: Option<string>, maxAge: Option<int>)
    requires maxAge.Some? ==> MinLong <= maxAge.value <= MaxLong
    ensures var q, types := AuthorizeQuery(responseType, redirectUri, state, nonce, maxAge), GetResponseType(responseType);
      && ("nonce" in q <==> "id_token" in types && nonce.Some?)
      && ("nonce" in q ==> q["nonce"] == nonce.value)
      && ("response_mode" in q <==> RequestsFormPost(responseType))
      && ("response_mode" in q ==> q["response_mode"] == "form_post")
      && ("max_age" in q <==> maxAge.Some?)
      && ("max_age" in q ==> ParseLong(q["max_age"]) == maxAge)
  {
    var types := GetResponseType(responseType);
    var base := map["redirect_uri" := redirectUri, "response_type" := responseType, "scope" := Authorize.ScopeOpenId, "state" := state];
    var withNonce := if "id_token" in types && nonce.Some? then base["nonce" := nonce.value] else base;
    var withMode := if RequestsFormPost(responseType) then withNonce["response_mode" := "form_post"] else withNonce;
    var q := if maxAge.Some? then withMode["max_age" := DecimalString(maxAge.value)] else withMode;
    assert q == AuthorizeQuery(responseType, redirectUri, state, nonce, maxAge);
    QueryNamesDistinct();
    assert "nonce" !in base && "response_mode" !in withNonce && "max_age" !in withMode;
    if maxAge.Some? {
      ParseLongOfDecimalString(maxAge.value);
    }
  }
}
