/**
 * What the route handlers share: the state one request acts on (the user table, the
 * code table, the browser's cookies and the e-mails sent), the request context (clock,
 * environment, random seed and the foreign services as functions), the JSON responses,
 * and the steps several handlers take in the same way.
 */
module Flow {
  import opened Wrappers
  import opened Purpose
  import opened Decimal
  import opened AuthConfig
  import opened Jwt
  import opened AuthUtils
  import opened Schemas
  import opened ServerCookies
  import opened Users

  /** The state a handler reads and writes. */
  datatype World = World(users: UserTable, codes: CodeTable, jar: Jar, outbox: seq<Mail>)

  predicate ValidWorld(w: World)
  {
    ValidUsers(w.users) && ValidCodes(w.codes)
  }

  /**
   * One request's surroundings: the environment, the clock, the value `Math.random()`
   * yields (scaled), whether the database answers, the role column's default, the zod
   * e-mail test, bcrypt's hash and compare, and the Turnstile service's verdict.
   */
  datatype Ctx = Ctx(
    env: Env,
    nowMs: int,
    seed: CodeSeed,
    dbUp: bool,
    defaultRole: string,
    validEmail: string -> bool,
    hash: string -> string,
    passwordMatches: (string, string) -> bool,
    siteverify: string -> bool)

  /** The public profile the handlers return. */
  datatype Profile = Profile(id: int, email: string, name: Option<string>, role: string)

  /** The JSON body of a response. */
  datatype Reply =
    | Failure(error: string)
    | InvalidData(error: string, details: seq<Issue>)
    | Notice(message: string)
    | VerificationRequired(message: string)
    | WithProfile(message: string, user: Profile)
    | CurrentUser(name: Option<string>, role: Option<string>)

  datatype Response = Response(status: int, reply: Reply)

  datatype Outcome = Outcome(resp: Response, world: World)

  const INTERNAL_ERROR: Response := Response(500, Failure("Erro interno do servidor"))
  const SECURITY_CHECK_FAILED: Response := Response(400, Failure("Verificação de segurança falhou"))
  const BAD_CREDENTIALS: Response := Response(401, Failure("Email ou senha incorretos"))
  const ACCOUNT_DISABLED: Response := Response(403, Failure("Conta desativada. Entre em contato com o suporte."))
  const CODE_SENT: string := "Código de verificação enviado"
  const INVALID_OR_EXPIRED_CODE: Response := Response(400, Failure("Código inválido ou expirado"))
  const USER_NOT_FOUND: Response := Response(404, Failure("Usuário não encontrado ou desativado"))

  /** How a handler writes cookies: `cookies().set`/`.delete` directly, or through the cookie helpers. */
  datatype CookieStyle = Direct | Helpers

  /** The attributes of a direct `cookies().set`: HTTP-only and `secure` in production, nothing else. */
  function DirectAttributes(env: Env, maxAge: int): (a: Attributes)
    ensures a.httpOnly && a.sameSite.None? && a.path.None? && a.maxAge == maxAge
    ensures a.secure <==> IsProduction(env)
  {
    Attributes(true, IsProduction(env), None, None, maxAge)
  }

  function WriteCookie(jar: Jar, env: Env, style: CookieStyle, name: string, value: Str, maxAge: int): (j: Jar)
    ensures GetCookie(j, name) == Some(value) && j[name].attrs.maxAge == maxAge && j[name].attrs.httpOnly
    ensures style == Helpers ==> j[name].attrs == SecureAttributes(env, maxAge)
    ensures style == Direct ==> j[name].attrs == DirectAttributes(env, maxAge)
    ensures forall n :: n != name ==> (n in j <==> n in jar) && (n in jar ==> j[n] == jar[n])
  {
    if style == Direct then Set(jar, name, Cookie(value, DirectAttributes(env, maxAge)))
    else SetSecureCookie(jar, env, name, value, maxAge)
  }

  /** Removing a cookie: `cookies().delete` directly, `clearCookie` through the helpers. */
  function RemoveCookie(jar: Jar, env: Env, style: CookieStyle, name: string): (j: Jar)
    ensures !Present(GetCookie(j, name))
    ensures Seen(j) == Seen(Delete(jar, name))
  {
    if style == Direct then Delete(jar, name) else ClearCookie(jar, env, name)
  }

  /** Clearing both verification cookies with `clearCookie`, as every failure path after the token checks does. */
  function ClearVerificationCookies(jar: Jar, env: Env): (j: Jar)
    ensures !Present(GetCookie(j, VERIFICATION_TOKEN_NAME)) && !Present(GetCookie(j, VERIFICATION_ID_NAME))
    ensures GetCookie(j, SESSION_TOKEN_NAME) == GetCookie(jar, SESSION_TOKEN_NAME)
  {
    CookieNamesDistinct();
    ClearCookie(ClearCookie(jar, env, VERIFICATION_TOKEN_NAME), env, VERIFICATION_ID_NAME)
  }

  /** `user.name || undefined`: a missing or empty name is left out of the claims. */
  function NameClaim(name: Option<string>): (n: Option<string>)
    ensures n.Some? <==> name.Some? && name.value != ""
    ensures n.Some? ==> n == name
  {
    if name.Some? && name.value != "" then name else None
  }

  function ProfileOf(u: User): Profile
  {
    Profile(u.userId, u.email, u.name, u.role)
  }

  /** The session token a handler issues for a user, from that user's record. */
  function SessionTokenFor(u: User, ctx: Ctx): Token
  {
    CreateSessionToken(SessionPayload(u.userId, u.email, NameClaim(u.name), u.role), ctx.nowMs, ctx.env)
  }

  function VerificationTokenFor(u: User, kind: CodeType, ctx: Ctx): Token
  {
    CreateVerificationToken(VerificationPayload(u.userId, u.email, NameClaim(u.name), kind), ctx.nowMs, ctx.env)
  }

  /**
   * `if (shouldUse2FA() && turnstileToken)`: the Turnstile verdict matters only with
   * two-factor login on and a non-empty token; otherwise the check is skipped.
   */
  predicate ChallengePasses(ctx: Ctx, token: Option<string>)
  {
    !(ShouldUse2FA(ctx.env) && token.Some? && token.value != "") || VerifyTurnstileToken(ctx.env, token.value, ctx.siteverify)
  }

  /** `parseInt(verificationId)`; a signed token is not a number. */
  function ParseId(v: Str): (r: Option<int>)
    ensures v.Plain? ==> r == ParseInt(v.text)
  {
    match v
    case Plain(text) => ParseInt(text)
    case Signed(_) => None
  }

  lemma ParseIdOfWrittenId(id: nat)
    ensures ParseId(Plain(NatToString(id))) == Some(id)
  {
    ParseIntOfNatToString(id);
  }

  /**
   * The start of a second step (two-factor login or password reset): a fresh code is
   * saved for the (user, purpose) pair, e-mailed to the user, and the verification token
   * and the code's id are written as cookies that live as long as the token.
   */
  function StartVerification(w: World, ctx: Ctx, u: User, kind: CodeType, style: CookieStyle): (w1: World)
    ensures w1.users == w.users
    ensures var (codes, id) := SaveVerificationCode(w.codes, u.userId, GenerateVerificationCode(ctx.seed), kind, ctx.nowMs);
            w1.codes == codes
            && GetCookie(w1.jar, VERIFICATION_ID_NAME) == Some(Plain(NatToString(id)))
            && ParseId(w1.jar[VERIFICATION_ID_NAME].value) == Some(id)
    ensures GetCookie(w1.jar, VERIFICATION_TOKEN_NAME) == Some(Signed(VerificationTokenFor(u, kind, ctx)))
    ensures w1.jar[VERIFICATION_TOKEN_NAME].attrs.maxAge == VERIFICATION_EXPIRATION
    ensures w1.jar[VERIFICATION_ID_NAME].attrs.maxAge == VERIFICATION_EXPIRATION
    ensures GetCookie(w1.jar, SESSION_TOKEN_NAME) == GetCookie(w.jar, SESSION_TOKEN_NAME)
    ensures w1.outbox == w.outbox + [SendVerificationEmail(ctx.env, u.email, GenerateVerificationCode(ctx.seed), kind)]
    ensures ValidWorld(w) ==> ValidWorld(w1)
  {
    var code := GenerateVerificationCode(ctx.seed);
    var (codes, id) := SaveVerificationCode(w.codes, u.userId, code, kind, ctx.nowMs);
    var mail := SendVerificationEmail(ctx.env, u.email, code, kind);
    var token := VerificationTokenFor(u, kind, ctx);
    CookieNamesDistinct();
    ParseIdOfWrittenId(id);
    var jar := WriteCookie(w.jar, ctx.env, style, VERIFICATION_TOKEN_NAME, Signed(token), VERIFICATION_EXPIRATION);
    var jar' := WriteCookie(jar, ctx.env, style, VERIFICATION_ID_NAME, Plain(NatToString(id)), VERIFICATION_EXPIRATION);
    World(w.users, codes, jar', w.outbox + [mail])
  }

  /** Two stores holding the same cookies with the same values and lifetimes; only `sameSite` and `path` may differ. */
  predicate SameValues(a: Jar, b: Jar)
  {
    a.Keys == b.Keys
    && forall n :: n in a ==> a[n].value == b[n].value && a[n].attrs.maxAge == b[n].attrs.maxAge
                              && a[n].attrs.httpOnly == b[n].attrs.httpOnly && a[n].attrs.secure == b[n].attrs.secure
  }

  lemma SameValuesSeen(a: Jar, b: Jar)
    requires SameValues(a, b)
    ensures Seen(a) == Seen(b)
  {
    assert forall n :: n in Seen(a) <==> n in Seen(b);
  }

  /** Writing one cookie directly or through the helper keeps two stores alike. */
  lemma WriteCookieStyles(a: Jar, b: Jar, env: Env, name: string, value: Str, maxAge: int)
    requires SameValues(a, b)
    ensures SameValues(WriteCookie(a, env, Direct, name, value, maxAge), WriteCookie(b, env, Helpers, name, value, maxAge))
  {
  }

  /** Whatever the style, the handlers see the same cookies after the same write. */
  lemma WriteCookieSeen(a: Jar, b: Jar, env: Env, s1: CookieStyle, s2: CookieStyle, name: string, value: Str, maxAge: int)
    requires Seen(a) == Seen(b)
    ensures Seen(WriteCookie(a, env, s1, name, value, maxAge)) == Seen(WriteCookie(b, env, s2, name, value, maxAge))
  {
    var a1 := WriteCookie(a, env, s1, name, value, maxAge);
    var b1 := WriteCookie(b, env, s2, name, value, maxAge);
    forall n ensures n in Seen(a1) <==> n in Seen(b1) {
      if n != name {
        assert n in Seen(a1) <==> n in Seen(a);
        assert n in Seen(b1) <==> n in Seen(b);
      }
    }
  }

  lemma RemoveCookieSeen(a: Jar, b: Jar, env: Env, s1: CookieStyle, s2: CookieStyle, name: string)
    requires Seen(a) == Seen(b)
    ensures Seen(RemoveCookie(a, env, s1, name)) == Seen(RemoveCookie(b, env, s2, name))
  {
    var a1 := Delete(a, name);
    var b1 := Delete(b, name);
    forall n ensures n in Seen(a1) <==> n in Seen(b1) {
      if n != name {
        assert n in Seen(a1) <==> n in Seen(a);
        assert n in Seen(b1) <==> n in Seen(b);
      }
    }
  }

  /** Starting verification with either cookie style writes the same tables, mail and cookie values. */
  lemma StartVerificationStyles(w: World, ctx: Ctx, u: User, kind: CodeType)
    ensures var a := StartVerification(w, ctx, u, kind, Direct);
            var b := StartVerification(w, ctx, u, kind, Helpers);
            a.users == b.users && a.codes == b.codes && a.outbox == b.outbox && SameValues(a.jar, b.jar)
  {
    var (codes, id) := SaveVerificationCode(w.codes, u.userId, GenerateVerificationCode(ctx.seed), kind, ctx.nowMs);
    var token := Signed(VerificationTokenFor(u, kind, ctx));
    var id' := Plain(NatToString(id));
    WriteCookieStyles(w.jar, w.jar, ctx.env, VERIFICATION_TOKEN_NAME, token, VERIFICATION_EXPIRATION);
    var a1 := WriteCookie(w.jar, ctx.env, Direct, VERIFICATION_TOKEN_NAME, token, VERIFICATION_EXPIRATION);
    var b1 := WriteCookie(w.jar, ctx.env, Helpers, VERIFICATION_TOKEN_NAME, token, VERIFICATION_EXPIRATION);
    WriteCookieStyles(a1, b1, ctx.env, VERIFICATION_ID_NAME, id', VERIFICATION_EXPIRATION);
  }

  /** The sent e-mails, as a mail-sending service would keep them. */
  class Mailer {
    var sent: seq<Mail>

    constructor (initial: seq<Mail>)
      ensures sent == initial
    {
      sent := initial;
    }

    method Send(m: Mail)
      modifies this
      ensures sent == old(sent) + [m]
    {
      sent := sent + [m];
    }
  }

  /** The world the four stateful objects hold. */
  function Snapshot(users: UserRepository, codes: CodeStore, jar: CookieJar, mailer: Mailer): World
    reads users, codes, jar, mailer
  {
    World(users.Model(), codes.Model(), jar.cookies, mailer.sent)
  }

  /** The imperative counterpart of `StartVerification`, over the objects. */
  method StartVerificationOn(ctx: Ctx, u: User, kind: CodeType, style: CookieStyle,
                             users: UserRepository, codes: CodeStore, jar: CookieJar, mailer: Mailer)
    modifies codes, jar, mailer
    ensures Snapshot(users, codes, jar, mailer) == StartVerification(old(Snapshot(users, codes, jar, mailer)), ctx, u, kind, style)
  {
    var code := GenerateVerificationCode(ctx.seed);
    var id := codes.Save(u.userId, code, kind, ctx.nowMs);
    mailer.Send(SendVerificationEmail(ctx.env, u.email, code, kind));
    var token := VerificationTokenFor(u, kind, ctx);
    WriteCookieOn(jar, ctx.env, style, VERIFICATION_TOKEN_NAME, Signed(token), VERIFICATION_EXPIRATION);
    WriteCookieOn(jar, ctx.env, style, VERIFICATION_ID_NAME, Plain(NatToString(id)), VERIFICATION_EXPIRATION);
  }

  method WriteCookieOn(jar: CookieJar, env: Env, style: CookieStyle, name: string, value: Str, maxAge: int)
    modifies jar
    ensures jar.cookies == WriteCookie(old(jar.cookies), env, style, name, value, maxAge)
  {
    if style == Direct {
      jar.Put(name, Cookie(value, DirectAttributes(env, maxAge)));
    } else {
      jar.SetSecure(env, name, value, maxAge);
    }
  }

  method RemoveCookieOn(jar: CookieJar, env: Env, style: CookieStyle, name: string)
    modifies jar
    ensures jar.cookies == RemoveCookie(old(jar.cookies), env, style, name)
  {
    if style == Direct {
      jar.Remove(name);
    } else {
      jar.Clear(env, name);
    }
  }

  method ClearVerificationCookiesOn(jar: CookieJar, env: Env)
    modifies jar
    ensures jar.cookies == ClearVerificationCookies(old(jar.cookies), env)
  {
    jar.Clear(env, VERIFICATION_TOKEN_NAME);
    jar.Clear(env, VERIFICATION_ID_NAME);
  }
}
