/** The number-verification clients (pkg/services/number_verify.go): building the
    authorization URL (RFC 6749 section 4.1.1), exchanging the returned code for a
    session (RFC 6749 section 4.1.3), and verifying a phone number with it. */
module NumberVerify {
  import opened Wrappers
  import opened Types
  import opened Utils
  import opened Services

  const CodeRequired := "[GlideClient] Code is required to start a session"
  const SessionRequired := "[GlideClient] Session is required to verify a number"
  const PhoneNumberRequired := "[GlideClient] Phone number is required to verify a number"
  const ClientIdRequired := "[GlideClient] Client id is required to generate an auth url"
  const VerifyFetchContext := "failed to verify number"
  const VerifyPath := "/number-verification/verify"
  /** The redirect URI the code exchange sends, fixed in the source. */
  const FixedRedirectURI := "https://dev.gateway-x.io/dev-redirector/callback"
  const Purpose := "dpv:FraudPreventionAndDetection:number-verification"

  datatype NumberVerifyAuthUrlInput = NumberVerifyAuthUrlInput(state: Option<string>)

  datatype NumberVerifyFuncResponse = NumberVerifyFuncResponse(devicePhoneNumberVerified: bool)

  /** An authorization URL: the fixed prefix and the query parameters that
      `url.Values.Encode` appends to it (the encoding is not modelled). */
  datatype AuthUrl = AuthUrl(prefix: string, query: map<string, string>)

  /** The guards of `StartSession`, in their order: the authorization base URL,
      then both credentials, then the code. */
  function StartSessionGuard(settings: GlideSdkSettings, code: string): (e: Option<Error>)
    ensures e.None? <==> settings.internal.authBaseURL != "" && settings.clientID != "" && settings.clientSecret != "" && code != ""
    ensures settings.internal.authBaseURL == "" ==> e == Some(Msg(AuthBaseUrlUnset))
    ensures settings.internal.authBaseURL != "" && (settings.clientID == "" || settings.clientSecret == "") ==>
      e == Some(Msg(CredentialsRequired))
    ensures settings.internal.authBaseURL != "" && settings.clientID != "" && settings.clientSecret != "" && code == "" ==>
      e == Some(Msg(CodeRequired))
  {
    if settings.internal.authBaseURL == "" then Some(Msg(AuthBaseUrlUnset))
    else if settings.clientID == "" || settings.clientSecret == "" then Some(Msg(CredentialsRequired))
    else if code == "" then Some(Msg(CodeRequired))
    else None
  }

  /** The form of the authorization-code token request (RFC 6749 section 4.1.3). */
  function AuthorizationCodeForm(code: string): map<string, string>
  {
    map["grant_type" := "authorization_code", "code" := code, "redirect_uri" := FixedRedirectURI]
  }

  /** One `StartSession` call: the request issued, the error returned, and the
      session installed, if any. */
  datatype Started = Started(sent: Option<Request>, err: Option<Error>, installed: Option<Session>)

  /** `StartSession` exactly as written: a token response that does not decode is
      reported as no error, yet no session is installed. */
  function AuthorizationCodeGrantAsWritten(settings: GlideSdkSettings, code: string, now: int,
                                           reply: Exchange, decode: Decoder<TokenResponse>): (st: Started)
    ensures st.err.None? && st.installed.None? <==>
      StartSessionGuard(settings, code).None? && FetchX(reply).Success? && decode(reply.body).None?
  {
    match StartSessionGuard(settings, code)
    case Some(e) => Started(None, Some(e), None)
    case None =>
      var request := TokenRequest(settings, AuthorizationCodeForm(code));
      match FetchX(reply)
      case Failure(e) => Started(Some(request), Some(FetchFailed(GrantFetchContext, e)), None)
      case Success(resp) =>
        match decode(resp.data)
        case None => Started(Some(request), None, None)
        case Some(token) => Started(Some(request), None, Some(SessionFromToken(token, now)))
  }

  /** A 200 response whose body is not a token response: the code as written
      issues the request, yet returns no error and installs no session. */
  lemma ParseFailureIsSilent()
    ensures var settings := GlideSdkSettings("id", "secret", "", false, InternalSettings("https://auth", "https://api"));
      var st := AuthorizationCodeGrantAsWritten(settings, "code", 0, Completed(200, "not json"), _ => None);
      st.sent.Some? && st.err.None? && st.installed.None?
  {
  }

  /** `StartSession` with the parse error returned, as the discarded error value in
      the source intends. The guards fail before any request; otherwise one
      authorization-code request is issued; the call reports no error exactly when
      it installs the session built from the decoded token response. */
  function AuthorizationCodeGrant(settings: GlideSdkSettings, code: string, now: int,
                                  reply: Exchange, decode: Decoder<TokenResponse>): (st: Started)
    ensures st.sent.None? <==> StartSessionGuard(settings, code).Some?
    ensures st.sent.None? ==> st.err == StartSessionGuard(settings, code)
    ensures st.sent.Some? ==>
      && st.sent.value.url == settings.internal.authBaseURL + "/oauth2/token"
      && st.sent.value.verb == "POST"
      && st.sent.value.contentType == FormContentType
      && st.sent.value.authorization == Basic(settings.clientID + ":" + settings.clientSecret)
      && st.sent.value.body == Form(map["grant_type" := "authorization_code", "code" := code,
                                        "redirect_uri" := FixedRedirectURI])
    ensures st.err.None? <==> st.installed.Some?
    ensures st.sent.Some? && FetchX(reply).Failure? ==> st.err == Some(FetchFailed(GrantFetchContext, FetchX(reply).error))
    ensures st.sent.Some? && FetchX(reply).Success? && decode(reply.body).None? ==> st.err == Some(DecodeFailed(ParseContext))
    ensures st.installed.Some? ==>
      st.sent.Some? && FetchX(reply).Success? && decode(reply.body).Some?
      && st.installed.value == SessionFromToken(decode(reply.body).value, now)
  {
    match StartSessionGuard(settings, code)
    case Some(e) => Started(None, Some(e), None)
    case None =>
      var request := TokenRequest(settings, AuthorizationCodeForm(code));
      match FetchX(reply)
      case Failure(e) => Started(Some(request), Some(FetchFailed(GrantFetchContext, e)), None)
      case Success(resp) =>
        match decode(resp.data)
        case None => Started(Some(request), Some(DecodeFailed(ParseContext)), None)
        case Some(token) => Started(Some(request), None, Some(SessionFromToken(token, now)))
  }

  /** The two readings differ only on an undecodable token response: there the
      corrected one reports the error that the one as written drops. */
  lemma GrantReadingsAgreeElsewhere(settings: GlideSdkSettings, code: string, now: int,
                                    reply: Exchange, decode: Decoder<TokenResponse>)
    ensures var written := AuthorizationCodeGrantAsWritten(settings, code, now, reply, decode);
      var fixed := AuthorizationCodeGrant(settings, code, now, reply, decode);
      && written.sent == fixed.sent && written.installed == fixed.installed
      && (written.err != fixed.err <==> written.err.None? && fixed.err == Some(DecodeFailed(ParseContext)))
  {
  }

  /** The number `VerifyNumber` verifies: the first argument when present and
      non-empty, else the stored number, else "" (which is refused). */
  function ChoosePhoneNumber(number: seq<string>, stored: Option<string>): (p: string)
    ensures |number| > 0 && number[0] != "" ==> p == number[0]
    ensures (|number| == 0 || number[0] == "") && stored.Some? ==> p == stored.value
    ensures p == "" <==> (|number| == 0 || number[0] == "") && (stored.None? || stored.value == "")
  {
    if |number| > 0 && number[0] != "" then number[0]
    else if stored.Some? then stored.value
    else ""
  }

  /** `NumberVerifyUserClient`: one end user's authorization-code flow. */
  class NumberVerifyUserClient {
    const settings: GlideSdkSettings
    var session: Option<Session>
    const code: string
    const phoneNumber: Option<string>

    /** `NewNumberVerifyUserClient`: no session yet. */
    constructor (settings: GlideSdkSettings, params: NumberVerifyClientForParams)
      ensures this.settings == settings && code == params.code && phoneNumber == params.phoneNumber
      ensures session == None
    {
      this.settings := settings;
      code := params.code;
      phoneNumber := params.phoneNumber;
      session := None;
    }

    /** `StartSession`: exchanges the code for a session and installs it; any
        failure leaves the session as it was. */
    method StartSession(now: int, reply: Exchange, decode: Decoder<TokenResponse>)
      returns (sent: Option<Request>, err: Option<Error>)
      modifies this
      ensures var st := AuthorizationCodeGrant(settings, code, now, reply, decode);
        && sent == st.sent && err == st.err
        && session == (if st.installed.Some? then st.installed else old(session))
    {
      var guard := StartSessionGuard(settings, code);
      if guard.Some? {
        return None, guard;
      }
      var form: map<string, string> := map[];
      form := form["grant_type" := "authorization_code"];
      form := form["code" := code];
      form := form["redirect_uri" := FixedRedirectURI];
      sent := Some(TokenRequest(settings, form));
      var fetched := FetchX(reply);
      if fetched.Failure? {
        return sent, Some(FetchFailed(GrantFetchContext, fetched.error));
      }
      var token := decode(fetched.value.data);
      if token.None? {
        return sent, Some(DecodeFailed(ParseContext));
      }
      session := Some(SessionFromToken(token.value, now));
      err := None;
    }

    /** `VerifyNumber`: needs a session, then the API base URL, then a number; it
        posts the normalised number with the session's token. */
    method VerifyNumber(number: seq<string>, reply: Exchange, decode: Decoder<NumberVerifyFuncResponse>)
      returns (sent: Option<Request>, r: Result<NumberVerifyFuncResponse, Error>)
      ensures session.None? ==> sent.None? && r == Failure(Msg(SessionRequired))
      ensures session.Some? && settings.internal.apiBaseURL == "" ==> sent.None? && r == Failure(Msg(ApiBaseUrlUnset))
      ensures session.Some? && settings.internal.apiBaseURL != "" && ChoosePhoneNumber(number, phoneNumber) == "" ==>
        sent.None? && r == Failure(Msg(PhoneNumberRequired))
      ensures sent.Some? <==> session.Some? && settings.internal.apiBaseURL != "" && ChoosePhoneNumber(number, phoneNumber) != ""
      ensures sent.Some? ==>
        && sent.value == ApiRequest(settings, VerifyPath, session.value,
                                    map["phoneNumber" := FormatPhoneNumber(ChoosePhoneNumber(number, phoneNumber))])
        && r == ApiOutcome(reply, decode, VerifyFetchContext, ParseContext)
    {
      if session.None? {
        return None, Failure(Msg(SessionRequired));
      }
      if settings.internal.apiBaseURL == "" {
        return None, Failure(Msg(ApiBaseUrlUnset));
      }
      var chosen := ChoosePhoneNumber(number, phoneNumber);
      if chosen == "" {
        return None, Failure(Msg(PhoneNumberRequired));
      }
      sent := Some(ApiRequest(settings, VerifyPath, session.value, map["phoneNumber" := FormatPhoneNumber(chosen)]));
      r := ApiOutcome(reply, decode, VerifyFetchContext, ParseContext);
    }
  }

  /** `NumberVerifyClient`: the application-level entry point of the flow. */
  class NumberVerifyClient {
    const settings: GlideSdkSettings

    /** `NewNumberVerifyClient`. */
    constructor (settings: GlideSdkSettings)
      ensures this.settings == settings
    {
      this.settings := settings;
    }

    /** `GetAuthURL`: fails when the authorization base URL, then the client id, is
        unset. Otherwise the URL is the authorization endpoint with client id,
        `response_type=code`, the redirect URI only when one is configured,
        `scope=openid`, the purpose, the caller's state (else `freshState`), the
        nonce and `max_age=0` (OpenID Connect Core 1.0 section 3.1.2.1). */
    method GetAuthURL(opts: seq<NumberVerifyAuthUrlInput>, freshState: string, freshNonce: string)
      returns (r: Result<AuthUrl, Error>)
      ensures settings.internal.authBaseURL == "" ==> r == Failure(Msg(AuthBaseUrlUnset))
      ensures settings.internal.authBaseURL != "" && settings.clientID == "" ==> r == Failure(Msg(ClientIdRequired))
      ensures r.Success? <==> settings.internal.authBaseURL != "" && settings.clientID != ""
      ensures r.Success? ==>
        var q := r.value.query;
        && r.value.prefix == settings.internal.authBaseURL + "/oauth2/auth?"
        && q.Keys == {"client_id", "response_type", "scope", "purpose", "state", "nonce", "max_age"}
                     + (if settings.redirectURI != "" then {"redirect_uri"} else {})
        && q["client_id"] == settings.clientID
        && q["response_type"] == "code"
        && q["scope"] == "openid"
        && q["purpose"] == Purpose
        && q["state"] == (if |opts| > 0 && opts[0].state.Some? then opts[0].state.value else freshState)
        && q["nonce"] == freshNonce
        && q["max_age"] == "0"
        && ("redirect_uri" in q ==> q["redirect_uri"] == settings.redirectURI)
    {
      if settings.internal.authBaseURL == "" {
        return Failure(Msg(AuthBaseUrlUnset));
      }
      if settings.clientID == "" {
        return Failure(Msg(ClientIdRequired));
      }
      var state: string;
      if |opts| > 0 && opts[0].state.Some? {
        state := opts[0].state.value;
      } else {
        state := freshState;
      }
      var nonce := freshNonce;
      var params: map<string, string> := map[];
      params := params["client_id" := settings.clientID];
      params := params["response_type" := "code"];
      if settings.redirectURI != "" {
        params := params["redirect_uri" := settings.redirectURI];
      }
      params := params["scope" := "openid"];
      params := params["purpose" := Purpose];
      params := params["state" := state];
      params := params["nonce" := nonce];
      params := params["max_age" := "0"];
      r := Success(AuthUrl(settings.internal.authBaseURL + "/oauth2/auth?", params));
    }

    /** `For`: a user client for the code, returned exactly when its session started,
        and then holding that session; otherwise the start error. */
    method For(params: NumberVerifyClientForParams, now: int, reply: Exchange, decode: Decoder<TokenResponse>)
      returns (client: NumberVerifyUserClient?, sent: Option<Request>, err: Option<Error>)
      ensures var st := AuthorizationCodeGrant(settings, params.code, now, reply, decode);
        && sent == st.sent && err == st.err
        && (client != null <==> err.None?)
        && (client != null ==>
              && fresh(client)
              && client.settings == settings && client.code == params.code && client.phoneNumber == params.phoneNumber
              && client.session == st.installed && client.session.Some?)
    {
      var c := new NumberVerifyUserClient(settings, params);
      sent, err := c.StartSession(now, reply, decode);
      if err.Some? {
        return null, sent, err;
      }
      client := c;
    }
  }
}
