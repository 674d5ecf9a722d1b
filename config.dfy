/**
 * Authentication configuration: the shared constants, the server-only settings read
 * from the environment, their merge into one record, and the production switch.
 */
module AuthConfig {
  import opened Wrappers

  const SESSION_TOKEN_NAME: string := "session_token"
  const VERIFICATION_TOKEN_NAME: string := "verification_token"
  const VERIFICATION_ID_NAME: string := "verification_id"
  /** Seven days, in seconds. */
  const SESSION_EXPIRATION: int := 60 * 60 * 24 * 7
  /** Five minutes, in seconds. */
  const VERIFICATION_EXPIRATION: int := 60 * 5

  const DEFAULT_JWT_SECRET: string := "insecure-jwt-secret-for-development"
  const DEFAULT_EMAIL_FROM: string := "noreply@example.com"

  /** The process environment variables the configuration reads; `None` is an unset variable. */
  datatype Env = Env(
    nodeEnv: Option<string>,
    appEnv: Option<string>,
    jwtSecret: Option<string>,
    turnstileSecret: Option<string>,
    resendApiKey: Option<string>,
    emailFrom: Option<string>,
    turnstileSiteKey: Option<string>)

  /** `process.env.X || fallback`: an unset or empty variable gives the fallback. */
  function OrElse(v: Option<string>, fallback: string): string
  {
    if v.Some? && v.value != "" then v.value else fallback
  }

  /** `SERVER_AUTH_CONFIG.JWT_SECRET`; never empty, whatever the environment holds. */
  function JwtSecret(env: Env): (secret: string)
    ensures secret != ""
  {
    OrElse(env.jwtSecret, DEFAULT_JWT_SECRET)
  }

  lemma JwtSecretFallback(env: Env)
    ensures env.jwtSecret.None? || env.jwtSecret == Some("") ==> JwtSecret(env) == DEFAULT_JWT_SECRET
    ensures env.jwtSecret.Some? && env.jwtSecret.value != "" ==> JwtSecret(env) == env.jwtSecret.value
  {
  }

  /** `isProduction()`. */
  predicate IsProduction(env: Env)
  {
    env.nodeEnv == Some("production") || env.appEnv == Some("production")
  }

  /** `shouldUse2FA()`: two-factor login is switched on exactly in production. */
  predicate ShouldUse2FA(env: Env)
  {
    IsProduction(env)
  }

  lemma TwoFactorExactlyInProduction(env: Env)
    ensures ShouldUse2FA(env) <==> env.nodeEnv == Some("production") || env.appEnv == Some("production")
  {
  }

  /** The three cookie names never collide. */
  lemma CookieNamesDistinct()
    ensures SESSION_TOKEN_NAME != VERIFICATION_TOKEN_NAME
    ensures SESSION_TOKEN_NAME != VERIFICATION_ID_NAME
    ensures VERIFICATION_TOKEN_NAME != VERIFICATION_ID_NAME
  {
    assert |SESSION_TOKEN_NAME| == 13 && |VERIFICATION_TOKEN_NAME| == 18 && |VERIFICATION_ID_NAME| == 15;
  }

  /** A value of the configuration records: text or a number of seconds. */
  datatype ConfigValue = Text(text: string) | Seconds(seconds: int)

  const SHARED_KEYS: set<string> := {"SESSION_TOKEN_NAME", "VERIFICATION_TOKEN_NAME", "VERIFICATION_ID_NAME",
                                     "SESSION_EXPIRATION", "VERIFICATION_EXPIRATION", "TURNSTILE_SITE_KEY"}
  const SERVER_KEYS: set<string> := {"JWT_SECRET", "TURNSTILE_SECRET", "RESEND_API_KEY", "EMAIL_FROM"}

  /** `SHARED_AUTH_CONFIG`. */
  function SharedAuthConfig(env: Env): map<string, ConfigValue>
  {
    map[
      "SESSION_TOKEN_NAME" := Text(SESSION_TOKEN_NAME),
      "VERIFICATION_TOKEN_NAME" := Text(VERIFICATION_TOKEN_NAME),
      "VERIFICATION_ID_NAME" := Text(VERIFICATION_ID_NAME),
      "SESSION_EXPIRATION" := Seconds(SESSION_EXPIRATION),
      "VERIFICATION_EXPIRATION" := Seconds(VERIFICATION_EXPIRATION),
      "TURNSTILE_SITE_KEY" := Text(OrElse(env.turnstileSiteKey, ""))]
  }

  /** `SERVER_AUTH_CONFIG`. */
  function ServerAuthConfig(env: Env): map<string, ConfigValue>
  {
    map[
      "JWT_SECRET" := Text(JwtSecret(env)),
      "TURNSTILE_SECRET" := Text(OrElse(env.turnstileSecret, "")),
      "RESEND_API_KEY" := Text(OrElse(env.resendApiKey, "")),
      "EMAIL_FROM" := Text(OrElse(env.emailFrom, DEFAULT_EMAIL_FROM))]
  }

  /**
   * `AUTH_CONFIG = { ...SHARED_AUTH_CONFIG, ...(server ? SERVER_AUTH_CONFIG : {}) }`:
   * the shared settings always, the server settings only where `window` is undefined.
   */
  function MergedAuthConfig(env: Env, onServer: bool): (m: map<string, ConfigValue>)
    ensures m.Keys == SHARED_KEYS + (if onServer then SERVER_KEYS else {})
    ensures forall k :: k in SHARED_KEYS ==> m[k] == SharedAuthConfig(env)[k]
    ensures onServer ==> forall k :: k in SERVER_KEYS ==> m[k] == ServerAuthConfig(env)[k]
    ensures onServer ==> m["JWT_SECRET"] == Text(JwtSecret(env))
  {
    SharedAuthConfig(env) + (if onServer then ServerAuthConfig(env) else map[])
  }
}
