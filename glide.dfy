/** The top-level client (pkg/glide/glide.go): defaults from the environment,
    merged with the caller's settings, validated, and handed to every service
    client. */
module Glide {
  import opened Wrappers
  import opened Types
  import MagicAuth
  import NumberVerify

  const ProductionAuthBaseURL := "https://oidc.gateway-x.io"
  const ProductionApiBaseURL := "https://api.gateway-x.io"
  const ClientIdMissing := "clientId is required"
  const AuthBaseUrlMissing := "internal.authBaseUrl is unset"

  /** `os.Getenv` over the environment `env`: "" for an absent key. */
  function Getenv(env: map<string, string>, key: string): string
  {
    if key in env then env[key] else ""
  }

  /** `getEnvOrDefault`: the environment's value whenever the key is present, even
      when that value is empty; the default only for an absent key. */
  function GetEnvOrDefault(env: map<string, string>, key: string, defaultValue: string): (v: string)
    ensures key in env ==> v == env[key]
    ensures key !in env ==> v == defaultValue
  {
    if key in env then env[key] else defaultValue
  }

  /** The defaults `NewGlideClient` starts from: credentials and redirect URI from
      the environment ("" when absent), the base URLs from the environment or else
      the production URLs, and `UseEnv` false. */
  function EnvDefaults(env: map<string, string>): (d: GlideSdkSettings)
    ensures d.clientID == Getenv(env, "GLIDE_CLIENT_ID")
    ensures d.clientSecret == Getenv(env, "GLIDE_CLIENT_SECRET")
    ensures d.redirectURI == Getenv(env, "GLIDE_REDIRECT_URI")
    ensures d.internal.authBaseURL == GetEnvOrDefault(env, "GLIDE_AUTH_BASE_URL", ProductionAuthBaseURL)
    ensures d.internal.apiBaseURL == GetEnvOrDefault(env, "GLIDE_API_BASE_URL", ProductionApiBaseURL)
    ensures !d.useEnv
  {
    GlideSdkSettings(
      Getenv(env, "GLIDE_CLIENT_ID"),
      Getenv(env, "GLIDE_CLIENT_SECRET"),
      Getenv(env, "GLIDE_REDIRECT_URI"),
      false,
      InternalSettings(
        GetEnvOrDefault(env, "GLIDE_AUTH_BASE_URL", ProductionAuthBaseURL),
        GetEnvOrDefault(env, "GLIDE_API_BASE_URL", ProductionApiBaseURL)))
  }

  /** A field after a merge: the override's value when it is set, else the default's. */
  function Pick(overrideValue: string, defaultValue: string): string
  {
    if overrideValue != "" then overrideValue else defaultValue
  }

  /** `mergeSettings` as a value: every string field is taken from the override
      when the override sets it and from the defaults otherwise, so a merged field
      is empty only when both are; `UseEnv` always comes from the defaults. */
  function Merged(defaults: GlideSdkSettings, override: GlideSdkSettings): (m: GlideSdkSettings)
    ensures m.clientID == (if override.clientID != "" then override.clientID else defaults.clientID)
    ensures m.clientSecret == (if override.clientSecret != "" then override.clientSecret else defaults.clientSecret)
    ensures m.redirectURI == (if override.redirectURI != "" then override.redirectURI else defaults.redirectURI)
    ensures m.internal.authBaseURL ==
      (if override.internal.authBaseURL != "" then override.internal.authBaseURL else defaults.internal.authBaseURL)
    ensures m.internal.apiBaseURL ==
      (if override.internal.apiBaseURL != "" then override.internal.apiBaseURL else defaults.internal.apiBaseURL)
    ensures m.useEnv == defaults.useEnv
    ensures m.clientID == "" <==> override.clientID == "" && defaults.clientID == ""
    ensures m.internal.authBaseURL == "" <==> override.internal.authBaseURL == "" && defaults.internal.authBaseURL == ""
  {
    GlideSdkSettings(
      Pick(override.clientID, defaults.clientID),
      Pick(override.clientSecret, defaults.clientSecret),
      Pick(override.redirectURI, defaults.redirectURI),
      defaults.useEnv,
      InternalSettings(
        Pick(override.internal.authBaseURL, defaults.internal.authBaseURL),
        Pick(override.internal.apiBaseURL, defaults.internal.apiBaseURL)))
  }

  /** Merging with an override that sets nothing gives the defaults back. */
  lemma MergeEmptyOverride(defaults: GlideSdkSettings, useEnv: bool)
    ensures Merged(defaults, GlideSdkSettings("", "", "", useEnv, InternalSettings("", ""))) == defaults
  {
  }

  /** Merging the same override a second time changes nothing. */
  lemma MergeIdempotent(defaults: GlideSdkSettings, override: GlideSdkSettings)
    ensures Merged(Merged(defaults, override), override) == Merged(defaults, override)
  {
  }

  /** `mergeSettings`: copies the defaults, then overwrites each field the override sets. */
  method MergeSettings(defaults: GlideSdkSettings, override: GlideSdkSettings) returns (result: GlideSdkSettings)
    ensures result == Merged(defaults, override)
  {
    result := defaults;
    if override.clientID != "" {
      result := result.(clientID := override.clientID);
    }
    if override.clientSecret != "" {
      result := result.(clientSecret := override.clientSecret);
    }
    if override.redirectURI != "" {
      result := result.(redirectURI := override.redirectURI);
    }
    if override.internal.authBaseURL != "" {
      result := result.(internal := result.internal.(authBaseURL := override.internal.authBaseURL));
    }
    if override.internal.apiBaseURL != "" {
      result := result.(internal := result.internal.(apiBaseURL := override.internal.apiBaseURL));
    }
  }

  /** The validation of `NewGlideClient` on the merged settings: the client id, then
      the authorization base URL; the client secret is not checked. */
  function ConfigError(merged: GlideSdkSettings): (e: Option<string>)
    ensures e.None? <==> merged.clientID != "" && merged.internal.authBaseURL != ""
    ensures merged.clientID == "" ==> e == Some(ClientIdMissing)
    ensures merged.clientID != "" && merged.internal.authBaseURL == "" ==> e == Some(AuthBaseUrlMissing)
  {
    if merged.clientID == "" then Some(ClientIdMissing)
    else if merged.internal.authBaseURL == "" then Some(AuthBaseUrlMissing)
    else None
  }

  /** The client secret plays no part in construction-time validation. */
  lemma ConfigErrorIgnoresSecret(merged: GlideSdkSettings, secret: string)
    ensures ConfigError(merged.(clientSecret := secret)) == ConfigError(merged)
  {
  }

  /** `GlideClient`: the merged settings and the service clients built from them. */
  class GlideClient {
    const settings: GlideSdkSettings
    const magicAuth: MagicAuth.MagicAuthClient
    const numberVerify: NumberVerify.NumberVerifyClient

    /** Every service client receives the same settings. */
    constructor (settings: GlideSdkSettings)
      ensures this.settings == settings
      ensures fresh(magicAuth) && magicAuth.settings == settings && magicAuth.session == None
      ensures fresh(numberVerify) && numberVerify.settings == settings
    {
      this.settings := settings;
      magicAuth := new MagicAuth.MagicAuthClient(settings);
      numberVerify := new NumberVerify.NumberVerifyClient(settings);
    }
  }

  /** `NewGlideClient` in the environment `env`: merges the caller's settings over the
      environment defaults, fails with the validation error, and otherwise builds a
      client whose services all hold the merged settings (with `UseEnv` false). */
  method NewGlideClient(settings: GlideSdkSettings, env: map<string, string>)
    returns (client: GlideClient?, err: Option<string>)
    ensures var merged := Merged(EnvDefaults(env), settings);
      && err == ConfigError(merged)
      && (client != null <==> err.None?)
      && (client != null ==>
            && fresh(client) && client.settings == merged && !client.settings.useEnv
            && client.magicAuth.settings == merged && client.magicAuth.session == None
            && client.numberVerify.settings == merged)
  {
    var defaults := EnvDefaults(env);
    var merged := MergeSettings(defaults, settings);
    if merged.clientID == "" {
      return null, Some(ClientIdMissing);
    }
    if merged.internal.authBaseURL == "" {
      return null, Some(AuthBaseUrlMissing);
    }
    client := new GlideClient(merged);
    err := None;
  }
}
