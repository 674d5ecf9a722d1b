/**
 * The token service over an abstract signer: a signed token is kept as the record of
 * what was signed (header algorithm, claims, issued-at, expiry and the key), and
 * verification checks the key, the algorithm and the expiry.
 */
module Jwt {
  import opened Wrappers
  import opened Purpose
  import opened AuthConfig

  /**
   * The claims of a token. Session tokens carry a role and no purpose, verification
   * tokens a purpose and no role; verification returns whatever was signed, so one
   * record with optional fields covers both.
   */
  datatype Payload = Payload(userId: int, email: string, name: Option<string>, role: Option<string>, kind: Option<CodeType>)

  function SessionPayload(userId: int, email: string, name: Option<string>, role: string): Payload
  {
    Payload(userId, email, name, Some(role), None)
  }

  function VerificationPayload(userId: int, email: string, name: Option<string>, kind: CodeType): Payload
  {
    Payload(userId, email, name, None, Some(kind))
  }

  /** What a compact JWS string stands for. */
  datatype Token = Token(alg: string, payload: Payload, issuedAt: int, expiresAt: int, key: string)

  /** A JavaScript string as this model tells them apart: a signed token, or any other text. */
  datatype Str = Signed(token: Token) | Plain(text: string)

  /** JavaScript truthiness of a string: only the empty string is falsy. */
  predicate Truthy(s: Str)
  {
    s.Signed? || s.text != ""
  }

  /** The single error every failed verification turns into. */
  datatype TokenError = InvalidOrExpired

  const INVALID_TOKEN_MESSAGE: string := "Token inválido ou expirado"

  function Message(e: TokenError): string
  {
    INVALID_TOKEN_MESSAGE
  }

  /** `Math.floor(Date.now() / 1000)`; Dafny's division by a positive constant rounds down. */
  function EpochSeconds(nowMs: int): int
  {
    nowMs / 1000
  }

  /** `new SignJWT(payload).setProtectedHeader({alg: "HS256"}).setIssuedAt().setExpirationTime(...)`. */
  function Sign(payload: Payload, lifetime: int, nowMs: int, env: Env): Token
  {
    Token("HS256", payload, EpochSeconds(nowMs), EpochSeconds(nowMs) + lifetime, JwtSecret(env))
  }

  /** `createSessionToken`. */
  function CreateSessionToken(payload: Payload, nowMs: int, env: Env): Token
  {
    Sign(payload, SESSION_EXPIRATION, nowMs, env)
  }

  /** `createVerificationToken`. */
  function CreateVerificationToken(payload: Payload, nowMs: int, env: Env): Token
  {
    Sign(payload, VERIFICATION_EXPIRATION, nowMs, env)
  }

  /**
   * `verifyToken`: the payload of a token signed with HS256 under the configured secret
   * whose expiry is still ahead; one error for anything else (the signer rejects a token
   * once `exp <= now` in whole seconds).
   */
  function VerifyToken(s: Str, env: Env, nowMs: int): (r: Result<Payload, TokenError>)
    ensures r.Ok? <==> s.Signed? && s.token.key == JwtSecret(env) && s.token.alg == "HS256"
                       && EpochSeconds(nowMs) < s.token.expiresAt
    ensures r.Ok? ==> r.value == s.token.payload
    ensures r.Err? ==> r.error == InvalidOrExpired
  {
    if s.Signed? && s.token.alg == "HS256" && s.token.key == JwtSecret(env) && EpochSeconds(nowMs) < s.token.expiresAt
    then Ok(s.token.payload)
    else Err(InvalidOrExpired)
  }

  /** `verifySessionToken`: exactly `verifyToken`, with no check of what kind of token it is. */
  function VerifySessionToken(s: Str, env: Env, nowMs: int): Result<Payload, TokenError>
  {
    VerifyToken(s, env, nowMs)
  }

  /** `verifyVerificationToken`: exactly `verifyToken`, with no check of the purpose claim. */
  function VerifyVerificationToken(s: Str, env: Env, nowMs: int): Result<Payload, TokenError>
  {
    VerifyToken(s, env, nowMs)
  }

  /** A session token expires `SESSION_EXPIRATION` seconds after the second it was issued in. */
  lemma SessionTokenLifetime(payload: Payload, nowMs: int, env: Env)
    ensures var t := CreateSessionToken(payload, nowMs, env);
            t.alg == "HS256" && t.key == JwtSecret(env) && t.payload == payload
            && t.issuedAt == nowMs / 1000 && t.expiresAt == nowMs / 1000 + 604800
  {
  }

  /** Issued at the same instant, a verification token expires before a session token. */
  lemma VerificationExpiresFirst(p: Payload, q: Payload, nowMs: int, env: Env)
    ensures CreateVerificationToken(p, nowMs, env).expiresAt == nowMs / 1000 + 300
    ensures CreateVerificationToken(p, nowMs, env).expiresAt < CreateSessionToken(q, nowMs, env).expiresAt
  {
  }

  /** A token verified with the secret it was signed with, before it expires, gives back its claims. */
  lemma {:induction false} SignThenVerify(payload: Payload, lifetime: int, signedAt: int, checkedAt: int, env: Env)
    requires checkedAt / 1000 < signedAt / 1000 + lifetime
    ensures VerifyToken(Signed(Sign(payload, lifetime, signedAt, env)), env, checkedAt) == Ok(payload)
  {
  }

  /** From the second of its expiry on, the same token is refused. */
  lemma {:induction false} ExpiredTokenRefused(payload: Payload, lifetime: int, signedAt: int, checkedAt: int, env: Env)
    requires checkedAt / 1000 >= signedAt / 1000 + lifetime
    ensures VerifyToken(Signed(Sign(payload, lifetime, signedAt, env)), env, checkedAt) == Err(InvalidOrExpired)
  {
  }

  /**
   * An expired token and a token signed under another secret fail identically, and the
   * failure carries the message "Token inválido ou expirado".
   */
  lemma ExpiredAndForgedIndistinguishable(p: Payload, q: Payload, signedAt: int, checkedAt: int, env: Env, forger: Env)
    requires checkedAt / 1000 >= signedAt / 1000 + SESSION_EXPIRATION
    requires JwtSecret(forger) != JwtSecret(env)
    ensures VerifySessionToken(Signed(CreateSessionToken(p, signedAt, env)), env, checkedAt)
         == VerifySessionToken(Signed(CreateSessionToken(q, checkedAt, forger)), env, checkedAt)
    ensures Message(VerifySessionToken(Signed(CreateSessionToken(p, signedAt, env)), env, checkedAt).error)
         == "Token inválido ou expirado"
  {
  }

  /** Plain text, the empty string included, never verifies. */
  lemma PlainTextRefused(text: string, env: Env, nowMs: int)
    ensures VerifyToken(Plain(text), env, nowMs).Err?
  {
  }

  /**
   * The typed wrappers do not look at the claims: a verification token passes as a session
   * token (with no role), and a session token passes as a verification token (with no purpose).
   */
  lemma WrappersIgnoreTokenKind(u: int, e: string, n: Option<string>, role: string, kind: CodeType, nowMs: int, env: Env)
    ensures VerifySessionToken(Signed(CreateVerificationToken(VerificationPayload(u, e, n, kind), nowMs, env)), env, nowMs)
         == Ok(Payload(u, e, n, None, Some(kind)))
    ensures VerifyVerificationToken(Signed(CreateSessionToken(SessionPayload(u, e, n, role), nowMs, env)), env, nowMs)
         == Ok(Payload(u, e, n, Some(role), None))
  {
  }
}
