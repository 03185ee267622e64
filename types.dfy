/** The plain data records of the SDK (pkg/types/types.go). They carry no behaviour. */
module Types {
  import opened Wrappers

  /** Endpoint URLs of the authorization server and the resource (API) server. */
  datatype InternalSettings = InternalSettings(authBaseURL: string, apiBaseURL: string)

  /** Client identity and endpoints, shared read-only by every service client. */
  datatype GlideSdkSettings = GlideSdkSettings(
    clientID: string,
    clientSecret: string,
    redirectURI: string,
    useEnv: bool,
    internal: InternalSettings)

  /** A bearer token, its absolute expiry in Unix seconds and its granted scopes. */
  datatype Session = Session(accessToken: string, expiresAt: int, scopes: seq<string>)

  /** Per-call options: a session the caller pins for this call, if any. */
  datatype ApiConfig = ApiConfig(session: Option<Session>)

  /** The three identifier kinds that satisfy the Go marker interface `UserIdentifier`. */
  datatype UserIdentifier =
    | PhoneIdentifier(phoneNumber: string)
    | IpIdentifier(ipAddress: string)
    | UserIdIdentifier(userID: string)

  datatype MagicAuthStartProps = MagicAuthStartProps(email: string, phoneNumber: string)

  datatype MagicAuthVerifyProps = MagicAuthVerifyProps(
    email: string,
    phoneNumber: string,
    code: string,
    token: string)

  /** The authorization code of a finished user redirect, and the user's phone number if known. */
  datatype NumberVerifyClientForParams = NumberVerifyClientForParams(code: string, phoneNumber: Option<string>)
}
