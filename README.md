# Glide Go SDK: OAuth2 session handling and request shaping, in Dafny

This project models the decision logic of the Glide Go SDK. The SDK is a client for a
provider of telecom verification APIs such as magic-link auth and phone-number
verification. The model covers:

- the magic-auth client's **client-credentials session cache**. A pinned session is
  returned as it is. Otherwise the cached session is reused while it is more than
  60 seconds from expiry and carries the `magic-auth` scope. Otherwise a new token is
  obtained through the client-credentials grant (RFC 6749 section 4.4.2) and replaces
  the cache.
- the payloads of the magic-auth calls: phone number or email, code or token.
- the number-verify **authorization-code flow**:
  - the guard order of `StartSession` and its token request (RFC 6749 section 4.1.3);
  - the phone-number fallback of `VerifyNumber`;
  - the authorization URL (RFC 6749 section 4.1.1, with `nonce`/`max_age` from
    OpenID Connect Core 1.0 section 3.1.2.1);
  - `For`, which builds a user client and starts its session.
- the shared utilities: phone-number normalisation, the status classification of
  `FetchX` (status 400 and above is an error) and the insufficient-session message.
- the top-level client: environment defaults, settings merge and construction-time
  validation.

The network, the clock, the random state/nonce generator, JSON decoding and the
environment are parameters:

- Every operation that fetches takes the `Exchange` the network answered with.
  It returns the `Request` it issued: `None` or `[]` means no request was made.
- JSON decoding is a `Decoder<T>` (`string -> Option<T>`).
- The time is a `now` in Unix seconds.
- The environment is a `map<string, string>`.

Stateful clients are classes with a `session: Option<Session>` field. Their methods
are tied to pure specification functions (`Acquire`, `AuthorizationCodeGrant`), and
the lemmas are stated about those functions.

Files: `wrappers.dfy` (Option, Result), `types.dfy` (pkg/types), `go_strings.dfy`
(`strings.Split`/`Join`), `utils.dfy` (pkg/utils), `services.dfy` (what the two
service files share), `magic_auth.dfy`, `number_verify.dfy`, `glide.dfy`.

## Model

| member | source | states |
|---|---|---|
| GoStrings.Split | pkg/services/magic_auth.go:178 | splitting the scope string on spaces gives at least one piece; no piece holds a space; joining the pieces with spaces gives the string back |
| GoStrings.SplitJoin | pkg/services/magic_auth.go:178 | split undoes join: a non-empty list of space-free scopes, joined and split again, is unchanged |
| GoStrings.SplitTwoScopes | pkg/services/magic_auth.go:178 | `"a b"` splits into `["a", "b"]` |
| Utils.Digits | pkg/utils/utils.go:37-38 | removing every character outside `[0-9]` leaves only digits, and each digit as often as in the input |
| Utils.FormatPhoneNumber | pkg/utils/utils.go:36-39 | the result is `"+"` followed only by decimal digits; after the `+` each digit occurs exactly as often as in the input and nothing else occurs, so the length is one plus the number of digits |
| Utils.DigitsConcat | pkg/utils/utils.go:36-39 | removing non-digits distributes over concatenation, so digits keep their order |
| Utils.FormatPhoneNumberConcat | pkg/utils/utils.go:36-39 | the normalised form of `a + b` is that of `a` followed by the digits of `b`: the order of the input's digits is kept |
| Utils.FormatPhoneNumberIdempotent | pkg/utils/utils.go:36-39 | normalising twice equals normalising once |
| Utils.InsufficientSessionError.Error | pkg/utils/utils.go:28-33 | the message when it is non-empty, otherwise "Session is required for this request"; never empty |
| Utils.FetchX | pkg/utils/utils.go:100-104 | a transport failure is returned as the error; a completed exchange is a response iff its status is below 400; a response carries the body and satisfies `OK()` (status below 400, utils.go:72-74); a status of 400 or more is a `FetchError` carrying the status and the full body |
| Services.SessionFromToken | pkg/services/magic_auth.go:175-179 | a session from a token response has the same access token, expiry `now + expires_in`, and as scopes the space-free pieces that join back into the scope string |
| Services.SessionFromTokenExample | pkg/services/magic_auth.go:175-179 | `{"abc", 3600, "a b"}` gives token "abc", expiry now + 3600 and scopes `["a", "b"]` |
| Services.ApiOutcome | pkg/services/magic_auth.go:65-72 | an API call fails with its fetch error wrapped in the call's context, or with a parse error for an undecodable body, and succeeds exactly when the status is below 400 and the body decodes; it then returns the decoded value |
| MagicAuth.GenerateNewSession | pkg/services/magic_auth.go:144-180 | no request is made iff the client id or secret is empty, and that case fails with the credentials error. The request is a POST to `<authBaseURL>/oauth2/token`: form-encoded, `grant_type=client_credentials`, `scope=magic-auth`, HTTP Basic over `id:secret`. A fetch error is returned wrapped as "failed to generate new session". A body that does not decode gives the bare decoding error. It succeeds iff the fetch succeeds and the body decodes, and then returns the session built from the token at `now` |
| MagicAuth.Acquire | pkg/services/magic_auth.go:125-142 | a pinned session is returned unchanged, with no request and the cache untouched. Otherwise a token request is made iff the cache is not reusable (strictly more than 60 s to expiry and the `magic-auth` scope) and both credentials are set. With no pinned session and no request, the call succeeds iff the cache is reusable, and returns the cached session. A failure leaves the cache exactly as it was, and a granted session replaces it wholesale and is the one returned |
| MagicAuth.RenewedSessionIsReused | pkg/services/magic_auth.go:130-141 | after a successful acquisition, a later call made while the new session is more than 60 s from expiry and has the scope makes no request and returns the same session |
| MagicAuth.WrongScopeIsRenewed | pkg/services/magic_auth.go:130-135 | a cached session without the `magic-auth` scope is never reused: with credentials set, a token request is made |
| MagicAuth.StartPayload | pkg/services/magic_auth.go:44-49 | the payload holds `phoneNumber` iff the phone number is non-empty, else `email`, with the props' values and no other key |
| MagicAuth.VerifyPayload | pkg/services/magic_auth.go:87-97 | as for the start payload, and it also holds `code` iff the code is non-empty, else `token`; no other key |
| MagicAuth.MagicAuthClient.constructor | pkg/services/magic_auth.go:28-32 | a new client holds the settings and no cached session |
| MagicAuth.MagicAuthClient.GetSession | pkg/services/magic_auth.go:125-142 | the request issued, the result and the new cache are those of `Acquire` on the old cache |
| MagicAuth.MagicAuthClient.StartAuth | pkg/services/magic_auth.go:34-75 | with the API base URL unset it fails before acquiring a session: no request, cache unchanged. Otherwise a session acquisition failure is returned as it is. On success the start payload is posted as JSON with the bearer token to `/magic-auth/verification/start`, after the token request if one was needed, and the result is the call's outcome |
| MagicAuth.MagicAuthClient.VerifyAuth | pkg/services/magic_auth.go:77-123 | the same order as `StartAuth`, posting the verify payload to `/magic-auth/verification/check` and decoding a boolean |
| NumberVerify.StartSessionGuard | pkg/services/number_verify.go:41-49 | the checks in order: authorization base URL unset, then a credential empty, then the code empty; none fails iff all are set |
| NumberVerify.AuthorizationCodeGrantAsWritten | pkg/services/number_verify.go:40-83 | as written, the call returns no error and installs no session exactly when the guards pass, the fetch succeeds and the token response does not decode |
| NumberVerify.ParseFailureIsSilent | pkg/services/number_verify.go:72-75 | a 200 response with an undecodable body yields a request, no error and no session |
| NumberVerify.AuthorizationCodeGrant | pkg/services/number_verify.go:40-83 | a failing guard makes no request and returns its error. Otherwise the request is a POST to `<authBaseURL>/oauth2/token`: `grant_type=authorization_code`, the stored code, the fixed `redirect_uri`, HTTP Basic over `id:secret`. A fetch error is wrapped as "failed to generate new session". Corrected: no error iff a session is installed, an undecodable body being a parse error. The installed session is the decoded token's at `now` |
| NumberVerify.GrantReadingsAgreeElsewhere | pkg/services/number_verify.go:72-75 | the as-written and the corrected exchange issue the same request and install the same session; their errors differ exactly when the corrected one reports the parse error that the as-written one drops |
| NumberVerify.ChoosePhoneNumber | pkg/services/number_verify.go:94-107 | the first argument when present and non-empty, else the stored number; the choice is empty (and refused) iff neither is available |
| NumberVerify.NumberVerifyUserClient.constructor | pkg/services/number_verify.go:32-38 | the client holds the settings, the code and the phone number, and no session |
| NumberVerify.NumberVerifyUserClient.StartSession | pkg/services/number_verify.go:40-83 | the request and the error are those of `AuthorizationCodeGrant`; the session becomes the installed one, and on any failure stays as it was |
| NumberVerify.NumberVerifyUserClient.VerifyNumber | pkg/services/number_verify.go:85-134 | the checks in order: no session, then API base URL unset, then no phone number; each fails with no request. A request is made iff all pass. It then posts `{phoneNumber: FormatPhoneNumber(choice)}` with the bearer token to `/number-verification/verify`, and its outcome is the result |
| NumberVerify.NumberVerifyClient.constructor | pkg/services/number_verify.go:140-142 | the client holds the settings |
| NumberVerify.NumberVerifyClient.GetAuthURL | pkg/services/number_verify.go:144-171 | errors if the authorization base URL is empty, then if the client id is empty, and succeeds iff both are set. The URL starts with `<authBaseURL>/oauth2/auth?`. Its query is `client_id`, `response_type=code`, `scope=openid`, the purpose, `state` (the caller's when given, else the fresh one), the fresh `nonce` and `max_age=0`. `redirect_uri` is added iff one is configured. No other parameter |
| NumberVerify.NumberVerifyClient.For | pkg/services/number_verify.go:173-180 | returns a fresh client iff starting its session reported no error; that client holds the settings, the code, the phone number and the started session; otherwise the start error is returned |
| Glide.GetEnvOrDefault | pkg/glide/glide.go:53-58 | the environment value whenever the key is present, even if empty; the default only for an absent key |
| Glide.EnvDefaults | pkg/glide/glide.go:21-29 | credentials and redirect URI come from the environment ("" when absent). Each base URL is the environment's value whenever its key is present, even if empty, and the production URL only when the key is absent. `UseEnv` is false |
| Glide.Merged | pkg/glide/glide.go:60-80 | each of client id, secret, redirect URI, auth and API base URL is the override's when non-empty, else the default's. `UseEnv` comes from the defaults. A merged client id or auth base URL is empty iff both inputs are |
| Glide.MergeEmptyOverride | pkg/glide/glide.go:60-80 | an override that sets nothing gives the defaults back |
| Glide.MergeIdempotent | pkg/glide/glide.go:60-80 | merging the same override twice equals merging it once |
| Glide.MergeSettings | pkg/glide/glide.go:60-80 | the field-by-field copy-and-overwrite yields `Merged(defaults, override)` |
| Glide.ConfigError | pkg/glide/glide.go:34-40 | "clientId is required" when the merged client id is empty, else "internal.authBaseUrl is unset" when the merged auth base URL is empty; no error iff both are set |
| Glide.ConfigErrorIgnoresSecret | pkg/glide/glide.go:34-40 | the client secret plays no part in construction-time validation |
| Glide.GlideClient.constructor | pkg/glide/glide.go:42-48 | every service client is built with the same settings, and the magic-auth client has no session yet |
| Glide.NewGlideClient | pkg/glide/glide.go:20-51 | the caller's settings are merged over the environment defaults; the error is the validation error; a client is returned iff there is none, and then it and all its services hold the merged settings, with `UseEnv` false |

## Findings

| source | as written | input that shows it | evidently intended | confidence | as-written member | corrected member |
|---|---|---|---|---|---|---|
| pkg/services/number_verify.go:72-75 | when the token response does not decode, the error built by `fmt.Errorf` is discarded. `StartSession` returns nil with no session, so `For` returns a client whose `VerifyNumber` fails with the session-required error | settings with id, secret and auth base URL set, code "code", a 200 response with body "not json" (`ParseFailureIsSilent`) | return the parse error, so that no error means a session was installed | high; not executed | NumberVerify.AuthorizationCodeGrantAsWritten | NumberVerify.AuthorizationCodeGrant |

`StartSession` and `For` use the corrected definition. Under it, a client returned by
`For` always holds a session.

## Notes on the code

- **Concurrency.** `getSession` takes no lock, so the model is sequential and claims
  nothing about concurrent callers.
- **Renewal margin.** The 60-second check applies only to the cached session. A
  pinned session and a freshly granted one (for example with `expires_in` of 0) are
  returned unchecked, and `Acquire` states exactly this.
- **Required scope.** The scope `magic-auth` is fixed in the code, both in the reuse
  check and in the grant request.
- **Credentials at construction.** `NewGlideClient` checks only the client id. The
  client secret is checked only by the two grants.
- **Redirect URI of the code exchange.** It is the fixed URL in the source, marked as
  a placeholder there, not the configured redirect URI.

## Left out

- The HTTP exchange inside `FetchX` (utils.go:78-98) is left out. This covers request
  creation, the header-copy loop, sending and reading the body. The network's answer
  is an `Exchange` parameter, and the issued request is returned.
- JSON is not modelled. Decoding is a `Decoder<T>` parameter. `json.Marshal` of a
  `map[string]string` cannot fail, so its error branches (magic_auth.go:51-54,
  99-102; number_verify.go:109-112) are not modelled.
- base64 and `url.Values.Encode` are not modelled. The Basic header holds the
  `id:secret` string before encoding. The authorization URL is its prefix plus the
  query as a map.
- `time.Now` is a `now` parameter. The source reads the clock twice (once for the
  reuse check, once for the expiry) and the model uses one instant for both.
- `uuid.New` becomes the `freshState` and `freshNonce` parameters.
- `os.Getenv`/`os.LookupEnv` read an environment map.
- Integers are unbounded. The source's `int64` sum `now + expires_in` could wrap
  around, and the model does not capture that.
- Error values are structured (`Msg`, `FetchFailed`, `DecodeFailed`) with the
  source's message texts and wrap contexts. The rendered text `"<context>: <cause>"`
  and the `Error()` formatting of `HTTPResponseError` and `FetchError` are not
  modelled.
- The `contains` helper used by `getSession` is not part of this model. It is taken
  to be list membership.
- The SimSwap and TelcoFinder clients (glide.go:44,46) are not part of this model,
  so `GlideClient` holds only the magic-auth and number-verify clients.
- `GetHello`, the debug output, and `FetchXResponse.JSON`/`Text` have no behaviour to
  verify.
- Sessions are values. In the source a `*Session` pointer is shared: `getSession`
  returns the cache's own object or the caller's pinned one. Nothing in the modelled
  code mutates a returned session, so the aliasing is not captured.
- Strings are sequences of characters. The UTF-8 byte level of Go strings is not
  modelled.
- The test helpers (redirect following, .env loading), the integration tests and
  the demo `main.go` are network and process work, and are left out.
