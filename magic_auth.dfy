/** The magic-auth client (pkg/services/magic_auth.go): a client-credentials
    session cache (RFC 6749 section 4.4) in front of the two magic-auth calls. */
module MagicAuth {
  import opened Wrappers
  import opened Types
  import opened Utils
  import opened Services

  /** A cached session is renewed once it is this many seconds from expiry. */
  const RenewalMargin := 60
  const MagicAuthScope := "magic-auth"
  const StartPath := "/magic-auth/verification/start"
  const CheckPath := "/magic-auth/verification/check"
  const StartFetchContext := "[GlideClient]: [magic-auth] FetchX failed for startAuth "
  const VerifyFetchContext := "[GlideClient]: [magic-auth] FetchX failed for VerifyAuth "
  const VerifyParseContext := "[GlideClient] Failed to parse response in VerifyAuth"

  datatype MagicAuthStartResponse = MagicAuthStartResponse(kind: string, authURL: string)

  /** The cached session may serve a call at Unix time `now`: it expires strictly
      later than one minute from now and carries the magic-auth scope. */
  predicate Reusable(cached: Option<Session>, now: int)
  {
    cached.Some? && cached.value.expiresAt > now + RenewalMargin && MagicAuthScope in cached.value.scopes
  }

  /** One attempt at a client-credentials grant: the request issued, if any, and
      the session obtained or the error. */
  datatype Grant = Grant(sent: Option<Request>, result: Result<Session, Error>)

  /** The form of the client-credentials token request (RFC 6749 section 4.4.2). */
  function ClientCredentialsForm(): map<string, string>
  {
    map["grant_type" := "client_credentials", "scope" := MagicAuthScope]
  }

  /** `generateNewSession` at Unix time `now`, the token endpoint answering `reply`.
      Without both credentials it fails before any request. Otherwise it issues one
      client-credentials request; a fetch error is returned wrapped, an undecodable
      body as the bare decoding error, and a decoded token response becomes the new
      session. */
  function GenerateNewSession(settings: GlideSdkSettings, now: int, reply: Exchange, decode: Decoder<TokenResponse>): (g: Grant)
    ensures g.sent.None? <==> settings.clientID == "" || settings.clientSecret == ""
    ensures g.sent.None? ==> g.result == Failure(Msg(CredentialsRequired))
    ensures g.sent.Some? ==>
      && g.sent.value.url == settings.internal.authBaseURL + "/oauth2/token"
      && g.sent.value.verb == "POST"
      && g.sent.value.contentType == FormContentType
      && g.sent.value.authorization == Basic(settings.clientID + ":" + settings.clientSecret)
      && g.sent.value.body == Form(map["grant_type" := "client_credentials", "scope" := "magic-auth"])
    ensures g.sent.Some? && FetchX(reply).Failure? ==> g.result == Failure(FetchFailed(GrantFetchContext, FetchX(reply).error))
    ensures g.sent.Some? && FetchX(reply).Success? && decode(reply.body).None? ==> g.result == Failure(DecodeFailed(""))
    ensures g.result.Success? <==> g.sent.Some? && FetchX(reply).Success? && decode(reply.body).Some?
    ensures g.result.Success? ==> g.result.value == SessionFromToken(decode(reply.body).value, now)
  {
    if settings.clientID == "" || settings.clientSecret == "" then
      Grant(None, Failure(Msg(CredentialsRequired)))
    else
      var request := TokenRequest(settings, ClientCredentialsForm());
      match FetchX(reply)
      case Failure(e) => Grant(Some(request), Failure(FetchFailed(GrantFetchContext, e)))
      case Success(resp) =>
        match decode(resp.data)
        case None => Grant(Some(request), Failure(DecodeFailed("")))
        case Some(token) => Grant(Some(request), Success(SessionFromToken(token, now)))
  }

  /** One `getSession` call: the request issued, the session or error returned, and
      the cache afterwards. */
  datatype Acquisition = Acquisition(sent: Option<Request>, result: Result<Session, Error>, cache: Option<Session>)

  /** `getSession` as a function of the cache before the call. A pinned session is
      returned as it is; otherwise a reusable cached session; otherwise a new grant
      is attempted. A token request is made exactly when there is no pinned
      session, the cache is not reusable and both credentials are set. A failure
      leaves the cache as it was; a granted session replaces it. */
  function Acquire(settings: GlideSdkSettings, cached: Option<Session>, pinned: Option<Session>, now: int,
                   reply: Exchange, decode: Decoder<TokenResponse>): (a: Acquisition)
    ensures pinned.Some? ==> a == Acquisition(None, Success(pinned.value), cached)
    ensures a.sent.Some? <==> pinned.None? && !Reusable(cached, now) && settings.clientID != "" && settings.clientSecret != ""
    ensures pinned.None? && a.sent.None? ==> (a.result.Success? <==> Reusable(cached, now))
    ensures pinned.None? && Reusable(cached, now) ==> a.result == Success(cached.value)
    ensures a.sent.Some? ==> a.sent == GenerateNewSession(settings, now, reply, decode).sent
    ensures pinned.None? && !Reusable(cached, now) ==> a.result == GenerateNewSession(settings, now, reply, decode).result
    ensures a.result.Failure? ==> a.cache == cached
    ensures pinned.None? && a.result.Success? ==> a.cache == Some(a.result.value)
  {
    if pinned.Some? then Acquisition(None, Success(pinned.value), cached)
    else if Reusable(cached, now) then Acquisition(None, Success(cached.value), cached)
    else
      var g := GenerateNewSession(settings, now, reply, decode);
      Acquisition(g.sent, g.result, if g.result.Success? then Some(g.result.value) else cached)
  }

  /** A session just granted is reused, with no request, by any later call made
      while it is still more than a minute from expiry. */
  lemma RenewedSessionIsReused(settings: GlideSdkSettings, cached: Option<Session>, now: int, later: int,
                               reply: Exchange, decode: Decoder<TokenResponse>, reply2: Exchange)
    requires Acquire(settings, cached, None, now, reply, decode).result.Success?
    requires var s := Acquire(settings, cached, None, now, reply, decode).result.value;
      s.expiresAt > later + RenewalMargin && MagicAuthScope in s.scopes
    ensures var a := Acquire(settings, cached, None, now, reply, decode);
      var b := Acquire(settings, a.cache, None, later, reply2, decode);
      b.sent.None? && b.result == a.result && b.cache == a.cache
  {
  }

  /** A cached session lacking the magic-auth scope is never reused, however far
      from expiry it is. */
  lemma WrongScopeIsRenewed(settings: GlideSdkSettings, s: Session, now: int, reply: Exchange, decode: Decoder<TokenResponse>)
    requires MagicAuthScope !in s.scopes
    requires settings.clientID != "" && settings.clientSecret != ""
    ensures Acquire(settings, Some(s), None, now, reply, decode).sent.Some?
  {
  }

  /** The payload of `StartAuth`: the phone number when one is given, else the email. */
  function StartPayload(props: MagicAuthStartProps): (data: map<string, string>)
    ensures "phoneNumber" in data <==> props.phoneNumber != ""
    ensures "email" in data <==> props.phoneNumber == ""
    ensures data.Keys <= {"phoneNumber", "email"}
    ensures "phoneNumber" in data ==> data["phoneNumber"] == props.phoneNumber
    ensures "email" in data ==> data["email"] == props.email
  {
    if props.phoneNumber != "" then map["phoneNumber" := props.phoneNumber]
    else map["email" := props.email]
  }

  /** The payload of `VerifyAuth`: the phone number or else the email, and the code
      when one is given, else the token. */
  function VerifyPayload(props: MagicAuthVerifyProps): (data: map<string, string>)
    ensures "phoneNumber" in data <==> props.phoneNumber != ""
    ensures "email" in data <==> props.phoneNumber == ""
    ensures "code" in data <==> props.code != ""
    ensures "token" in data <==> props.code == ""
    ensures data.Keys <= {"phoneNumber", "email", "code", "token"}
    ensures "phoneNumber" in data ==> data["phoneNumber"] == props.phoneNumber
    ensures "email" in data ==> data["email"] == props.email
    ensures "code" in data ==> data["code"] == props.code
    ensures "token" in data ==> data["token"] == props.token
  {
    (if props.phoneNumber != "" then map["phoneNumber" := props.phoneNumber] else map["email" := props.email])
    + (if props.code != "" then map["code" := props.code] else map["token" := props.token])
  }

  /** `MagicAuthClient`: the settings and the cached session. */
  class MagicAuthClient {
    const settings: GlideSdkSettings
    var session: Option<Session>

    /** `NewMagicAuthClient`: no session is cached yet. */
    constructor (settings: GlideSdkSettings)
      ensures this.settings == settings && session == None
    {
      this.settings := settings;
      session := None;
    }

    /** `getSession`: returns the pinned session, else the cached one while it is
        reusable, else grants a new one and caches it. */
    method GetSession(pinned: Option<Session>, now: int, reply: Exchange, decode: Decoder<TokenResponse>)
      returns (sent: Option<Request>, r: Result<Session, Error>)
      modifies this
      ensures var a := Acquire(settings, old(session), pinned, now, reply, decode);
        sent == a.sent && r == a.result && session == a.cache
    {
      if pinned.Some? {
        return None, Success(pinned.value);
      }
      if Reusable(session, now) {
        return None, Success(session.value);
      }
      var g := GenerateNewSession(settings, now, reply, decode);
      sent := g.sent;
      if g.result.Failure? {
        return sent, g.result;
      }
      session := Some(g.result.value);
      r := Success(g.result.value);
    }

    /** `StartAuth`: fails first when the API base URL is unset; then acquires a
        session (reporting its failure as it is); then posts the start payload with
        the session's token. */
    method StartAuth(props: MagicAuthStartProps, conf: ApiConfig, now: int,
                     tokenReply: Exchange, decodeToken: Decoder<TokenResponse>,
                     apiReply: Exchange, decodeStart: Decoder<MagicAuthStartResponse>)
      returns (sent: seq<Request>, r: Result<MagicAuthStartResponse, Error>)
      modifies this
      ensures settings.internal.apiBaseURL == "" ==>
        sent == [] && r == Failure(Msg(ApiBaseUrlUnset)) && session == old(session)
      ensures settings.internal.apiBaseURL != "" ==>
        var a := Acquire(settings, old(session), conf.session, now, tokenReply, decodeToken);
        && session == a.cache
        && (a.result.Failure? ==> sent == a.sent.ToSeq() && r == Failure(a.result.error))
        && (a.result.Success? ==>
              && sent == a.sent.ToSeq() + [ApiRequest(settings, StartPath, a.result.value, StartPayload(props))]
              && r == ApiOutcome(apiReply, decodeStart, StartFetchContext, ParseContext))
    {
      if settings.internal.apiBaseURL == "" {
        return [], Failure(Msg(ApiBaseUrlUnset));
      }
      var tokenSent, s := GetSession(conf.session, now, tokenReply, decodeToken);
      sent := tokenSent.ToSeq();
      if s.Failure? {
        return sent, Failure(s.error);
      }
      var data: map<string, string> := map[];
      if props.phoneNumber != "" {
        data := data["phoneNumber" := props.phoneNumber];
      } else {
        data := data["email" := props.email];
      }
      sent := sent + [ApiRequest(settings, StartPath, s.value, data)];
      r := ApiOutcome(apiReply, decodeStart, StartFetchContext, ParseContext);
    }

    /** `VerifyAuth`: the same order of checks as `StartAuth`, posting the verify
        payload and decoding a boolean. */
    method VerifyAuth(props: MagicAuthVerifyProps, conf: ApiConfig, now: int,
                      tokenReply: Exchange, decodeToken: Decoder<TokenResponse>,
                      apiReply: Exchange, decodeVerified: Decoder<bool>)
      returns (sent: seq<Request>, r: Result<bool, Error>)
      modifies this
      ensures settings.internal.apiBaseURL == "" ==>
        sent == [] && r == Failure(Msg(ApiBaseUrlUnset)) && session == old(session)
      ensures settings.internal.apiBaseURL != "" ==>
        var a := Acquire(settings, old(session), conf.session, now, tokenReply, decodeToken);
        && session == a.cache
        && (a.result.Failure? ==> sent == a.sent.ToSeq() && r == Failure(a.result.error))
        && (a.result.Success? ==>
              && sent == a.sent.ToSeq() + [ApiRequest(settings, CheckPath, a.result.value, VerifyPayload(props))]
              && r == ApiOutcome(apiReply, decodeVerified, VerifyFetchContext, VerifyParseContext))
    {
      if settings.internal.apiBaseURL == "" {
        return [], Failure(Msg(ApiBaseUrlUnset));
      }
      var tokenSent, s := GetSession(conf.session, now, tokenReply, decodeToken);
      sent := tokenSent.ToSeq();
      if s.Failure? {
        return sent, Failure(s.error);
      }
      var data: map<string, string> := map[];
      if props.phoneNumber != "" {
        data := data["phoneNumber" := props.phoneNumber];
      } else {
        data := data["email" := props.email];
      }
      if props.code != "" {
        data := data["code" := props.code];
      } else {
        data := data["token" := props.token];
      }
      assert data == VerifyPayload(props);
      sent := sent + [ApiRequest(settings, CheckPath, s.value, data)];
      r := ApiOutcome(apiReply, decodeVerified, VerifyFetchContext, VerifyParseContext);
    }
  }
}
