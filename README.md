# Auth0 Java MVC callback processing, in Dafny

This project models the core of the Auth0 Java MVC library: the code that
sends a user to the Auth0 login page and then processes the callback.

- **Building the authorize URL.** `RequestProcessor.buildAuthorizeUrl` seeds an
  `AuthorizeUrl` with the redirect URI, response type, scope `openid`, state,
  nonce, `response_mode=form_post` and `max_age`. `AuthorizeUrl.build` is good
  for one call. It stores the state and the nonce as transient cookies with a
  SameSite policy chosen from the response type.
- **Processing the callback.** `RequestProcessor.process` takes these steps in order:
  - it rejects an `error` parameter;
  - it consumes the stored state and compares it with the request's;
  - it reads the front-channel tokens and checks that the flow's tokens are present;
  - it consumes the stored nonce and hands it to the ID-token verifier;
  - it verifies the front-channel ID token, exchanges the authorization code,
    verifies the exchanged ID token when needed, and merges the two token sets.
- **Transient cookie stores.** `TransientCookieStore` and the older
  `RandomStorage` write `Set-Cookie` headers. They read a cookie once and then
  expire it in place.

The model is split by source file:

| file | module | models |
|---|---|---|
| `wrappers.dfy` | `Wrappers` | Java `null` (`Option`), a thrown exception (`Result`), `Map.get` |
| `strings.dfy` | `Strings` | `String.indexOf` |
| `servlet.dfy` | `Servlet` | servlet `Cookie`, `HttpServletRequest` cookies, `HttpServletResponse` output |
| `set_cookie.dfy` | `SetCookie` | the `Set-Cookie` header both stores write, and a browser's reading of it (section 5.2 of RFC 6265) |
| `transient_cookie_store.dfy` | `TransientCookieStore` | `TransientCookieStore.java` as written |
| `random_storage.dfy` | `RandomStorage` | `RandomStorage.java`, with its loops |
| `response_type.dfy` | `ResponseType` | `getResponseType` (`trim().split("\\s+")`) and `containsFormPost` (`split(" ")`) |
| `callback_store.dfy` | `CallbackStore` | the store API as `AuthorizeUrl` and `RequestProcessor` call it, and the browser applying its calls |
| `authorize_url.dfy` | `Authorize` | `AuthorizeUrl.java` |
| `request_processor.dfy` | `Processor` | `RequestProcessor.java`: the class, and `ProcessRun`, the function `process` is proved equal to |
| `processor_properties.dfy` | `ProcessorProperties` | what `process` and `buildAuthorizeUrl` promise, proved of the functions |
| `login_round_trip.dfy` | `LoginRoundTrip` | a login followed by its callback, and a replayed callback |

Modelling choices:

- **Classes.** Classes are kept where the source updates state in place:
  - the builder's fields and its `used` flag;
  - the verifier options' nonce;
  - the request's cookies and the response's output.

  Every state-changing method is proved to equal a pure function of the old
  state (`Process` equals `ProcessRun`, `GetVerifiedTokens` equals
  `VerifiedTokens`, `BuildAuthorizeUrl` equals `AuthorizeQuery`). The
  properties are lemmas about those functions.
- **The provider.** The ID-token verifier and the Auth0 Authentication API are
  one object, `IdentityProvider`. It answers through two oracle functions
  (accept this token under these options; exchange this code at this redirect
  URI) and logs each call in order. This lets the lemmas state which calls
  `process` makes and in what order.
- **Nulls and exceptions.** Java `null` is `Option.None`. Each exception is a
  `ProcessError` value:
  - `InvalidRequestException` is `InvalidRequest(code, description)`;
  - `IdentityVerificationException` is `IdentityVerification(code, message)`;
  - `IllegalArgumentException` and `IllegalStateException` are `ConfigError`;
  - the two exceptions `process` does not catch are kept separate:
    `NumberFormat` (a malformed `expires_in`) and `NullState` (see below).
- **Numbers.** `Long.parseLong` for `expires_in` and `Integer.toString` for
  `max_age` are modelled on ASCII digits, with the 64-bit range check.

Where the code differs from the library's documented behaviour, the model follows the code:

- **A second read returns "".** The concrete `TransientCookieStore.getOnce`
  expires the cookie it reads by setting its value to `""` and its max-age to 0.
  The cookie stays in the request, so a second read in the same request
  returns `""` (`Some("")`), not null. `TransientCookieStore.GetOnce` states
  this. The abstract store `CallbackStore.TransientStore` that the callers use
  removes the value instead. This matches how the browser sees the response.
- **`NullPointerException` on a missing `state` parameter.**
  `assertValidState` calls `stateFromRequest.equals(...)`. A callback that has
  a stored state but no `state` parameter therefore throws a
  `NullPointerException`, not `INVALID_STATE_ERROR`. This is the
  `NullState` failure.
- **Uncaught `NumberFormatException`.** A malformed `expires_in` throws
  `NumberFormatException` out of `process`; it is not wrapped.
- **Two tokenisers, two conditions.** `build` chooses `SameSite=None` when
  `split(" ")` names `id_token`. `buildAuthorizeUrl` asks for
  `response_mode=form_post` when `getResponseType`, which trims and splits on
  any whitespace, names `token` or `id_token`.
  - On the tokenisers alone, the two agree on a response type written as
    single-space-separated names
    (`ResponseType.FormPostAgreesOnCanonicalResponseType`). They disagree
    otherwise: for `"id_token\n"` the processor sees `id_token` but
    `containsFormPost` does not
    (`ResponseType.FormPostDivergesOnTrailingNewline`).
  - The conditions differ on `token` without `id_token`: the provider answers
    with a cross-site form POST, but the cookies were set `Lax`, so the
    browser does not send the state back and the genuine callback is
    rejected. This is listed under "Findings". The classes keep the policy
    as written; the round-trip lemmas use the corrected policy
    `Authorize.IntendedCookiePolicy`.
- **The browser honours SameSite.** `CallbackStore.Apply` keeps each cookie's
  SameSite policy, and `CallbackStore.Sent` picks what the callback carries:
  `None` cookies always, `Lax` ones only on a top-level GET, `Strict` ones
  never on the provider's cross-site callback.
- **Callers use a store API that is not defined here.** `AuthorizeUrl.build`
  and `RequestProcessor` call `storeState`/`storeNonce` with a SameSite value
  and a legacy flag, and `getState`/`getNonce` returning `Optional`.
  `TransientCookieStore.java` defines only the two-argument store methods and
  the `String`-returning getters. The callers are modelled against
  `CallbackStore`, which records those calls. The file itself is modelled as
  written in `TransientCookieStore`.
- **Constructor arity.** `buildAuthorizeUrl` calls the `AuthorizeUrl`
  constructor with four arguments, but the constructor takes five (it also
  takes the request, which it stores and never uses). The model's constructor
  takes the store, the redirect URL and the response type.

## Model

| member | source | states |
|---|---|---|
| Servlet.FirstNamed | src/main/java/com/auth0/TransientCookieStore.java:55-59 | the position of the first cookie with the name, or none exactly when no cookie has it |
| SetCookie.HeaderText | src/main/java/com/auth0/TransientCookieStore.java:50 | the header text is the name, `=`, the rendered value (`null` for a null value) and the fixed attribute list, of exactly that length |
| SetCookie.ParseHeaderText | src/main/java/com/auth0/TransientCookieStore.java:49-52 | a browser reading the header `name=value; HttpOnly; SameSite=None; Secure` (section 5.2 of RFC 6265) gets back exactly the name, the value without leading or trailing spaces and tabs, and the attribute list, for a plain name and a value without `;` |
| SetCookie.ParsedFields | src/main/java/com/auth0/TransientCookieStore.java:49-52 | whatever header a browser reads, the name it yields is a plain cookie name, the value has no `;` and no spaces or tabs at its ends, and the attribute list is empty or starts at `;` |
| SetCookie.DistinctNamesStayDistinct | src/main/java/com/auth0/TransientCookieStore.java:49-52 | headers written under two different names are read back under two different names, whatever the values |
| TransientCookieStore.Store | src/main/java/com/auth0/TransientCookieStore.java:49-52 | appends exactly one `Set-Cookie` header with the formatted text and nothing else |
| TransientCookieStore.StoreState | src/main/java/com/auth0/TransientCookieStore.java:33-35 | the store under the name `com.auth0.state.updated` |
| TransientCookieStore.StoreNonce | src/main/java/com/auth0/TransientCookieStore.java:37-39 | the store under the name `com.auth0.nonce.updated` |
| TransientCookieStore.Delete | src/main/java/com/auth0/TransientCookieStore.java:68-74 | a null cookie changes nothing; otherwise the cookie's value becomes "" and its max-age 0, and it is added to the response once |
| TransientCookieStore.GetOnce | src/main/java/com/auth0/TransientCookieStore.java:54-66 | returns the value the first cookie with the name held before it was expired; that cookie becomes ""/0 and is echoed once; no other cookie changes; no such cookie gives null and an untouched response |
| TransientCookieStore.GetState | src/main/java/com/auth0/TransientCookieStore.java:41-43 | `getOnce` for the state cookie: the first such cookie's old value, that cookie expired and echoed, every other cookie (later ones of the same name included) untouched |
| TransientCookieStore.GetNonce | src/main/java/com/auth0/TransientCookieStore.java:45-47 | `getOnce` for the nonce cookie: the first such cookie's old value, that cookie expired and echoed, every other cookie (later ones of the same name included) untouched |
| TransientCookieStore.StateAndNonceNeverCollide | src/main/java/com/auth0/TransientCookieStore.java:15-16 | the state and nonce headers are read back under their own distinct names with their values |
| RandomStorage.CheckSessionState | src/main/java/com/auth0/RandomStorage.java:40-56 | true exactly when the first `com.auth0.state` cookie held the state; that cookie is expired and echoed whether or not it matched; false and nothing changed when there is none |
| RandomStorage.SetSessionState | src/main/java/com/auth0/RandomStorage.java:65-71 | appends the one `com.auth0.state` header |
| RandomStorage.SetSessionNonce | src/main/java/com/auth0/RandomStorage.java:80-84 | appends the one `com.auth0.nonce` header |
| RandomStorage.RemoveSessionNonce | src/main/java/com/auth0/RandomStorage.java:92-107 | the original value of the first `com.auth0.nonce` cookie, which is then expired and echoed; null and nothing changed when there is none |
| ResponseType.GetResponseType | src/main/java/com/auth0/RequestProcessor.java:175-177 | at least one name; the single name "" exactly when the response type is blank; otherwise only non-empty names without whitespace |
| ResponseType.GetResponseTypeOfJoin | src/main/java/com/auth0/RequestProcessor.java:175-177 | names joined with single spaces are split back into exactly those names |
| ResponseType.GetResponseTypeOfPadded | src/main/java/com/auth0/RequestProcessor.java:176 | names separated by any runs of `\s`, with any leading and trailing padding `trim` removes, are split back into exactly those names |
| ResponseType.ContainsFormPost | src/main/java/com/auth0/AuthorizeUrl.java:189-192 | `split(" ")` names `id_token`; its agreement with `getResponseType` is `FormPostAgreesOnCanonicalResponseType` |
| ResponseType.JavaSplitOfJoin | src/main/java/com/auth0/AuthorizeUrl.java:189-192 | `split(" ")` recovers exactly the names joined with single spaces |
| ResponseType.FormPostAgreesOnCanonicalResponseType | src/main/java/com/auth0/AuthorizeUrl.java:189-192 | on names joined with single spaces, `containsFormPost` holds exactly when `getResponseType` names `id_token` |
| ResponseType.FormPostDivergesOnTrailingNewline | src/main/java/com/auth0/AuthorizeUrl.java:189-192 | for "id_token\n" `getResponseType` names `id_token` but `containsFormPost` is false |
| CallbackStore.LastStoreWins | src/main/java/com/auth0/AuthorizeUrl.java:173-176 | after a response whose last call for a slot stores a value, the browser holds exactly that value under the SameSite policy it was stored with |
| CallbackStore.LastConsumeClears | src/main/java/com/auth0/RequestProcessor.java:212 | after a response whose last call for a slot reads and expires it, the browser no longer holds it |
| CallbackStore.Sent | src/main/java/com/auth0/AuthorizeUrl.java:172 | the callback carries a held cookie exactly when its policy is `None`, or `Lax` and the callback is not a form POST, with the held value |
| CallbackStore.TransientStore.StoreState | src/main/java/com/auth0/AuthorizeUrl.java:173 | logs one state store with its value, SameSite policy and legacy flag |
| CallbackStore.TransientStore.StoreNonce | src/main/java/com/auth0/AuthorizeUrl.java:175 | logs one nonce store with its value, SameSite policy and legacy flag |
| CallbackStore.TransientStore.GetState | src/main/java/com/auth0/RequestProcessor.java:212 | returns the state the request carried, if any; it is then gone, and one read is logged |
| CallbackStore.TransientStore.GetNonce | src/main/java/com/auth0/RequestProcessor.java:128-130 | returns the nonce the request carried, if any; it is then gone, and one read is logged |
| Authorize.ReservedNameError | src/main/java/com/auth0/AuthorizeUrl.java:135-144 | no error exactly for names other than state, nonce, response_type and redirect_uri; each reserved name gets its own message, state and nonce first |
| Authorize.CookiePolicy | src/main/java/com/auth0/AuthorizeUrl.java:172 | SameSite `None` exactly when the response type split on spaces names `id_token`, otherwise `Lax` |
| Authorize.IntendedCookiePolicy | src/main/java/com/auth0/RequestProcessor.java:93-95 | SameSite `None` exactly when `buildAuthorizeUrl` asks for `response_mode=form_post`, otherwise `Lax` |
| Authorize.TokenFlowPolicyMismatch | src/main/java/com/auth0/AuthorizeUrl.java:172 | for response type "token" form_post is requested, yet `build` sets the cookies `Lax` |
| Authorize.IntendedPolicyWidensAsWritten | src/main/java/com/auth0/AuthorizeUrl.java:189-192 | on canonical response types the intended policy is `None` whenever `build`'s is, and they differ exactly when `token` is named without `id_token` |
| Authorize.AuthorizeUrl.constructor | src/main/java/com/auth0/AuthorizeUrl.java:35-44 | the query holds the redirect URL, response type and scope `openid`; legacy cookies on; no state, no nonce, not used |
| Authorize.AuthorizeUrl.WithConnection | src/main/java/com/auth0/AuthorizeUrl.java:68-71 | adds `connection` and changes nothing else |
| Authorize.AuthorizeUrl.WithLegacySameSiteCookie | src/main/java/com/auth0/AuthorizeUrl.java:73-76 | sets the legacy flag and changes nothing else |
| Authorize.AuthorizeUrl.WithAudience | src/main/java/com/auth0/AuthorizeUrl.java:84-87 | adds `audience` and changes nothing else |
| Authorize.AuthorizeUrl.WithState | src/main/java/com/auth0/AuthorizeUrl.java:95-101 | records the state for `build` and sets the `state` parameter to it |
| Authorize.AuthorizeUrl.WithNonce | src/main/java/com/auth0/AuthorizeUrl.java:109-115 | records the nonce for `build` and sets the `nonce` parameter to it |
| Authorize.AuthorizeUrl.WithScope | src/main/java/com/auth0/AuthorizeUrl.java:123-126 | replaces `scope` and changes nothing else |
| Authorize.AuthorizeUrl.WithParameter | src/main/java/com/auth0/AuthorizeUrl.java:135-147 | throws the reserved-name error and changes nothing for a reserved name; otherwise sets the parameter; the reserved parameters always agree with the fields |
| Authorize.AuthorizeUrl.Build | src/main/java/com/auth0/AuthorizeUrl.java:156-187 | first call: marks used, stores the state, and the nonce when set, under `CookiePolicy` and the legacy flag, and yields the query; any later call throws the reuse error and stores nothing |
| Authorize.BuildCallsShape | src/main/java/com/auth0/AuthorizeUrl.java:172-176 | `build` stores the state first, the nonce second only when set, both with the same policy and legacy flag |
| Authorize.BuildTwice | src/main/java/com/auth0/AuthorizeUrl.java:156-160 | the first `build` succeeds with scope `openid`; the second throws the reuse error |
| Processor.ParseLong | src/main/java/com/auth0/RequestProcessor.java:186 | `Long.parseLong`: a value only for non-empty text; plain digits within the 64-bit range give their value; text starting with anything but a digit or sign gives none |
| Processor.ParseLongOfDecimalString | src/main/java/com/auth0/RequestProcessor.java:186 | `Long.parseLong` reads back every 64-bit value written in decimal |
| Processor.ProviderErrorOf | src/main/java/com/auth0/RequestProcessor.java:196-202 | a failure exactly when the request has `error`, carrying it and `error_description` |
| Processor.StateCheck | src/main/java/com/auth0/RequestProcessor.java:210-217 | passes exactly when a state was stored and the request's equals it; no stored state or a different one is `INVALID_STATE_ERROR`; a stored state with no parameter is the null dereference |
| Processor.FrontChannelTokens | src/main/java/com/auth0/RequestProcessor.java:185-188 | fails, with the number-format error on that text, exactly when `expires_in` is present and not a 64-bit integer; otherwise the access token, ID token and type parameters, the parsed expiry when present, and never a refresh token |
| Processor.PresenceCheck | src/main/java/com/auth0/RequestProcessor.java:120-125 | passes exactly when the flow's ID token and access token are present |
| Processor.MergeTokens | src/main/java/com/auth0/RequestProcessor.java:243-270 | no exchange gives the front channel; otherwise the refresh token comes from the exchange and an access or ID token is present exactly when either side has one (precedence in `MergePrecedence`) |
| Processor.VerifiedTokens | src/main/java/com/auth0/RequestProcessor.java:143-173 | at most three provider calls; a success is `mergeTokens` of the front-channel tokens and, when the flow names `code`, the exchanged tokens, so it keeps any front-channel ID token (dispatch in `VerifiedTokensDispatch`) |
| Processor.ProcessRun | src/main/java/com/auth0/RequestProcessor.java:113-133 | at most two store calls, none exactly when the callback carries `error` (its success value in `SuccessMergesExchange`, the order of the checks in the other `ProcessorProperties` lemmas) |
| Processor.AuthorizeQuery | src/main/java/com/auth0/RequestProcessor.java:84-98 | the query `buildAuthorizeUrl` seeds; its contents are `AuthorizeQueryAlwaysCarries` and `AuthorizeQueryOptional` |
| Processor.IdentityProvider.Verify | src/main/java/com/auth0/RequestProcessor.java:152 | answers with the verifier oracle and logs the call |
| Processor.IdentityProvider.ExchangeCode | src/main/java/com/auth0/RequestProcessor.java:228-233 | answers with the exchange oracle and logs the call |
| Processor.RequestProcessor.constructor | src/main/java/com/auth0/RequestProcessor.java:45-54 | keeps the provider, response type, verifier options and legacy flag |
| Processor.RequestProcessor.BuildAuthorizeUrl | src/main/java/com/auth0/RequestProcessor.java:84-100 | a fresh, unused builder whose query is `AuthorizeQuery`, with the state, the nonce only for flows returning an ID token, and the legacy flag |
| Processor.RequestProcessor.Process | src/main/java/com/auth0/RequestProcessor.java:113-133 | the outcome, store calls, provider calls and resulting verifier nonce are those of `ProcessRun` on the old state; the consumed cookies are gone |
| Processor.RequestProcessor.AssertValidState | src/main/java/com/auth0/RequestProcessor.java:210-217 | consumes the stored state, then decides as `StateCheck` |
| Processor.RequestProcessor.GetVerifiedTokens | src/main/java/com/auth0/RequestProcessor.java:143-173 | the outcome and provider calls are those of `VerifiedTokens` under the current options |
| ProcessorProperties.ProviderErrorComesFirst | src/main/java/com/auth0/RequestProcessor.java:113-115 | an `error` parameter fails with it before any cookie is read or the provider is called |
| ProcessorProperties.StateConsumedExactlyOnce | src/main/java/com/auth0/RequestProcessor.java:113-133 | without an error, the state is read first and exactly once; the only other read is the nonce, after it |
| ProcessorProperties.StateMismatchStopsProcessing | src/main/java/com/auth0/RequestProcessor.java:210-217 | a missing or different stored state fails with `INVALID_STATE_ERROR`: only the state consumed, no provider call, nonce unchanged |
| ProcessorProperties.StateFailureIgnoresTokens | src/main/java/com/auth0/RequestProcessor.java:114-117 | a failed state check gives the same run whatever tokens, code or URL the request carries |
| ProcessorProperties.PresenceChecksInOrder | src/main/java/com/auth0/RequestProcessor.java:120-125 | a missing ID token is reported before a missing access token; either way the nonce is not read and the provider not called |
| ProcessorProperties.NonceReadOnlyAfterChecks | src/main/java/com/auth0/RequestProcessor.java:127-130 | the nonce is read exactly when every check passed; a stored nonce then replaces the verifier's, an absent one leaves it |
| ProcessorProperties.RunAfterChecks | src/main/java/com/auth0/RequestProcessor.java:127-132 | once the checks pass, the run is the state read, the nonce read, then `getVerifiedTokens` under the injected nonce |
| ProcessorProperties.SuccessMergesExchange | src/main/java/com/auth0/RequestProcessor.java:132 | a successful run passed every check and returns `mergeTokens` of the front-channel tokens and, when the flow names `code`, what the exchange returned |
| ProcessorProperties.VerificationsUseGivenOptions | src/main/java/com/auth0/RequestProcessor.java:152 | every verification `getVerifiedTokens` makes uses the options it was given |
| ProcessorProperties.VerifierSeesInjectedNonce | src/main/java/com/auth0/RequestProcessor.java:127-132 | every verification in a run uses the options with the injected nonce |
| ProcessorProperties.VerifiedTokensDispatch | src/main/java/com/auth0/RequestProcessor.java:150-165 | front-channel ID token verified first exactly when the flow names `id_token`; code exchanged (with the `code` parameter and request URL) exactly when it names `code` and that verification passed; the ID token the exchange returned verified right after it exactly when `code` without `id_token` and one came back; at most one verification, under the given options, of the front-channel token in the first case and of the exchanged token in the other |
| ProcessorProperties.VerifiedTokensFailures | src/main/java/com/auth0/RequestProcessor.java:166-170 | `JWT_VERIFICATION_ERROR` exactly when a verification was rejected, `API_ERROR` exactly when the exchange failed, and no other failure |
| ProcessorProperties.DispatchOnResponseType | src/main/java/com/auth0/RequestProcessor.java:143-165 | every clause of the dispatch above, for the provider calls of the whole run once the checks pass, under the options carrying the injected nonce |
| ProcessorProperties.FailureClassification | src/main/java/com/auth0/RequestProcessor.java:166-170 | the failure classification above, for the whole run once the checks pass |
| ProcessorProperties.RejectedHybridTokenIsNotExchanged | src/main/java/com/auth0/RequestProcessor.java:150-157 | in the hybrid flow a rejected front-channel ID token fails after one call, with no exchange |
| ProcessorProperties.NoExchangeReturnsFrontChannel | src/main/java/com/auth0/RequestProcessor.java:244-246 | without `code` in the flow a success returns exactly the front-channel tokens, with no refresh token |
| ProcessorProperties.MergePrecedence | src/main/java/com/auth0/RequestProcessor.java:243-270 | access token, type and expiry come together from the exchange when it has an access token, else from the front channel; ID token prefers the front channel; refresh token from the exchange; no present token is lost |
| ProcessorProperties.MergeIdentities | src/main/java/com/auth0/RequestProcessor.java:243-270 | merging with no exchange or with an identical token set changes nothing |
| ProcessorProperties.CodeFlowResponseType | src/main/java/com/auth0/RequestProcessor.java:175-177 | "code" names exactly `code` |
| ProcessorProperties.HybridFlowResponseType | src/main/java/com/auth0/RequestProcessor.java:175-177 | "code id_token" names exactly `code`, `id_token` |
| ProcessorProperties.ImplicitFlowResponseType | src/main/java/com/auth0/RequestProcessor.java:175-177 | "id_token token" names exactly `id_token`, `token` |
| ProcessorProperties.CodeFlowUsesExchangedTokens | src/main/java/com/auth0/RequestProcessor.java:154-172 | code flow: an accepted exchange yields the exchanged access, ID and refresh tokens |
| ProcessorProperties.HybridFlowKeepsFrontChannelIdToken | src/main/java/com/auth0/RequestProcessor.java:150-172 | hybrid flow: the result keeps the front-channel ID token and takes the refresh token, and any access token, from the exchange, after one verification and one exchange |
| ProcessorProperties.ImplicitFlowSucceeds | src/main/java/com/auth0/RequestProcessor.java:150-153 | implicit flow: an accepted ID token yields the front-channel tokens, no refresh token, after one verification |
| ProcessorProperties.AuthorizeQueryAlwaysCarries | src/main/java/com/auth0/RequestProcessor.java:84-87 | the query always has the redirect URI, response type, scope `openid` and state, and only the known parameters |
| ProcessorProperties.AuthorizeQueryOptional | src/main/java/com/auth0/RequestProcessor.java:89-98 | nonce exactly for `id_token` flows given a nonce; `response_mode=form_post` exactly for `token`/`id_token` flows (`RequestsFormPost`); `max_age` exactly when configured, reading back as the same number |
| LoginRoundTrip.LoginStoresStateAndNonce | src/main/java/com/auth0/AuthorizeUrl.java:172-176 | after `build` the browser holds the state and, when set, the nonce, under the policy used; otherwise its old nonce |
| LoginRoundTrip.CallbackCarriesLogin | src/main/java/com/auth0/AuthorizeUrl.java:172-176 | the callback carries the login's state, and its nonce when set, exactly when the browser sends cookies of the policy used on that kind of callback |
| LoginRoundTrip.StateCheckedOnce | src/main/java/com/auth0/RequestProcessor.java:210-217 | once the state check passes, the run cannot fail on the state |
| LoginRoundTrip.CallbackAfterLogin | src/main/java/com/auth0/RequestProcessor.java:113-133 | with the intended cookie policy, a callback carrying the stored state passes the state check and, past the token checks, is verified against the stored nonce |
| LoginRoundTrip.FormPostCallbackLosesLaxState | src/main/java/com/auth0/AuthorizeUrl.java:172 | with `build`'s policy, a form-post flow whose cookies are `Lax` gets no state back and its genuine callback fails with `INVALID_STATE_ERROR` before any provider call |
| LoginRoundTrip.ForgedCallbackRejected | src/main/java/com/auth0/RequestProcessor.java:210-217 | a callback with a different state is rejected before any provider call, whatever the policy |
| LoginRoundTrip.ReplayRejected | src/main/java/com/auth0/RequestProcessor.java:210-216 | after one run the browser no longer holds the state, so any later callback, GET or POST, fails with `INVALID_STATE_ERROR` |
| LoginRoundTrip.LoginThenCallback | src/main/java/com/auth0/RequestProcessor.java:84-133 | a whole login through the classes: the URL has the state; the callback is rejected for its state exactly when `build`'s policy withholds the state cookie from a form-post callback |
| LoginRoundTrip.ProcessTwice | src/main/java/com/auth0/RequestProcessor.java:113-116 | processing the same callback twice on one store fails the second time with `INVALID_STATE_ERROR` |

## Findings

| source | as written | input that shows it | evidently intended | confidence | as-written member | corrected member |
|---|---|---|---|---|---|---|
| src/main/java/com/auth0/AuthorizeUrl.java:172 | `build` sets the state and nonce cookies `SameSite=None` only when `split(" ")` names `id_token` (lines 189-192), while `buildAuthorizeUrl` asks for `response_mode=form_post` when the response type names `token` or `id_token` (RequestProcessor.java:93-95) | response type `"token"`: the callback is a cross-site form POST, the state cookie is `Lax` and is not sent, so `process` fails with `INVALID_STATE_ERROR` (`LoginRoundTrip.FormPostCallbackLosesLaxState`) | `SameSite=None` whenever form_post is requested | medium, not executed | Authorize.TokenFlowPolicyMismatch | Authorize.IntendedCookiePolicy |

## Left out

- The network exchange (`AuthAPI.exchangeCode(...).execute()`) is an oracle. Its runtime exceptions other than `Auth0Exception` are not modelled.
- The ID-token verifier's checks (signature, issuer, audience, expiry, `max_age`) are an oracle over the token and the options.
- Of the verifier options only the issuer, audience, `max_age` and nonce are modelled.
- The source holds the verifier and the API client as two fields. The model merges them into one `IdentityProvider`.
- The `AuthorizeUrlBuilder` is modelled only as its parameter map. URL encoding, the domain and the client id it adds are not modelled; `build` yields the map.
- `secureRandomString` in both stores is left out. It draws on the system's randomness and nothing in the core calls it.
- `getCookies()` returning null is excluded by the types: the request always has a cookie sequence.
- Several values for one request parameter are not modelled: parameters are a map, as with `getParameter`.
- `Long.parseLong` is modelled on ASCII digits only. The other Unicode decimal digits it accepts are left out.
- How the store's four-argument `storeState`/`storeNonce` and its `Optional` getters render headers is not modelled: they are not defined in `TransientCookieStore.java`. This includes the legacy `_`-prefixed fallback cookie and the SameSite attribute text.
- `withState(null)` and `withNonce(null)` are left out: the setters take strings.
- The `request` argument of the `AuthorizeUrl` constructor is left out: it is stored and never read.
- `RequestProcessor.getClient` is left out: it is a getter.
- The `Validate.notNull` checks in the constructor are excluded by the types.
- Concurrent use of one `RequestProcessor` is not modelled.
- SetCookie.ParseHeaderText: a value with leading or trailing spaces or tabs is read back without them, as section 5.2 of RFC 6265 requires. The round trip is exact only for values without such whitespace (`SetCookie.TrimWspKeeps`).
- SetCookie.ParseHeaderText: the store accepts any state or nonce, but the round trip is stated only for a value without `;`. The header does not quote the value, so a browser cuts it at its first `;`.
- CallbackStore.Step: a store of a null value, as `build` makes when `withState` was never called, is taken to leave the browser without that cookie. The four-argument `storeState`/`storeNonce` that `AuthorizeUrl` calls is not part of this model. The two-argument store modelled in `TransientCookieStore` would write the text `null` instead.
- LoginRoundTrip.CallbackAfterLogin: it holds under the intended cookie policy. Under `build`'s policy as written it fails for form-post flows whose cookies are `Lax`; see "Findings".
- The browser's cookie choice is modelled by SameSite alone. Browsers that ignore `SameSite=None`, and the legacy fallback cookie meant for them, are not modelled.
