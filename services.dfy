/** What the two service clients of package `services` share: their error values,
    the token-endpoint request and response of RFC 6749, and the outcome of an
    authenticated JSON call to the API server. */
module Services {
  import opened Wrappers
  import opened Types
  import opened Utils
  import GoStrings

  /** A Go `error` value as the services build it. */
  datatype Error =
    | Msg(text: string)                                 // errors.New / fmt.Errorf with no wrapped cause
    | FetchFailed(context: string, cause: FetchFailure)  // fmt.Errorf("<context>: %w", fetchErr)
    | DecodeFailed(context: string)                      // a JSON error, wrapped as "<context>: %w" ("" when returned bare)

  const ApiBaseUrlUnset := "[GlideClient] internal.apiBaseUrl is unset"
  const AuthBaseUrlUnset := "[GlideClient] internal.authBaseUrl is unset"
  const CredentialsRequired := "[GlideClient] Client credentials are required to generate a new session"
  const GrantFetchContext := "failed to generate new session"
  const ParseContext := "[GlideClient] Failed to parse response"

  /** What `json.Unmarshal` makes of a body for a target of type T: a value, or
      None for an error. JSON itself is not modelled. */
  type Decoder<T> = string -> Option<T>

  /** The JSON body of a token response (RFC 6749 section 5.1). */
  datatype TokenResponse = TokenResponse(accessToken: string, expiresIn: int, scope: string)

  /** The session built from a token response received at Unix time `now`: the same
      token, expiry `now + expires_in`, and the space-delimited scope string
      (RFC 6749 section 3.3) as its list of scopes, which holds no space and joins
      back into the scope string. */
  function SessionFromToken(token: TokenResponse, now: int): (s: Session)
    ensures s.accessToken == token.accessToken
    ensures s.expiresAt == now + token.expiresIn
    ensures |s.scopes| >= 1 && GoStrings.Join(s.scopes, ' ') == token.scope
    ensures forall i :: 0 <= i < |s.scopes| ==> ' ' !in s.scopes[i]
  {
    Session(token.accessToken, now + token.expiresIn, GoStrings.Split(token.scope, ' '))
  }

  /** The token-response example: {"abc", 3600, "a b"} gives scopes ["a", "b"] and
      expiry now + 3600. */
  lemma SessionFromTokenExample(now: int)
    ensures SessionFromToken(TokenResponse("abc", 3600, "a b"), now) == Session("abc", now + 3600, ["a", "b"])
  {
    GoStrings.SplitTwoScopes();
  }

  /** A POST of form fields to the token endpoint, the client authenticated with
      HTTP Basic over "id:secret" (RFC 6749 section 2.3.1). */
  function TokenRequest(settings: GlideSdkSettings, form: map<string, string>): Request
  {
    Request(settings.internal.authBaseURL + "/oauth2/token", "POST", FormContentType,
            Basic(settings.clientID + ":" + settings.clientSecret), Form(form))
  }

  /** A POST of a JSON object to an API endpoint with the session's bearer token. */
  function ApiRequest(settings: GlideSdkSettings, path: string, session: Session, data: map<string, string>): Request
  {
    Request(settings.internal.apiBaseURL + path, "POST", JsonContentType, Bearer(session.accessToken), Json(data))
  }

  /** The outcome of an API call once its exchange is known: a fetch error wrapped
      with `fetchContext`, a decoding error wrapped with `parseContext`, or the
      decoded body of a response whose status was below 400. */
  function ApiOutcome<T>(reply: Exchange, decode: Decoder<T>, fetchContext: string, parseContext: string): (r: Result<T, Error>)
    ensures FetchX(reply).Failure? ==> r == Failure(FetchFailed(fetchContext, FetchX(reply).error))
    ensures r.Success? <==> reply.Completed? && reply.statusCode < 400 && decode(reply.body).Some?
    ensures r.Success? ==> r.value == decode(reply.body).value
    ensures r.Failure? && FetchX(reply).Success? ==> r.error == DecodeFailed(parseContext)
  {
    match FetchX(reply)
    case Failure(e) => Failure(FetchFailed(fetchContext, e))
    case Success(resp) =>
      match decode(resp.data)
      case None => Failure(DecodeFailed(parseContext))
      case Some(v) => Success(v)
  }
}
