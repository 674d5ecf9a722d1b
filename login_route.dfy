/**
 * `POST /api/v1/auth/login`: validate, pass the Turnstile check, find the user, refuse
 * an inactive account or a wrong password, then either start two-factor verification
 * (production) or sign the user in with a session cookie. The older `/api/auth/login`
 * takes the same steps and differs only in how it writes cookies (the `style`).
 */
module LoginRoute {
  import opened Wrappers
  import opened Purpose
  import opened AuthConfig
  import opened Jwt
  import opened AuthUtils
  import opened Schemas
  import opened ServerCookies
  import opened Users
  import opened Flow

  const INVALID_LOGIN_DATA: string := "Dados de login inválidos"
  const LOGIN_OK: string := "Login bem-sucedido"

  /** The whole handler as one transition; `body` is `None` when the request is not JSON. */
  function Login(body: Option<Json<LoginInput>>, ctx: Ctx, w: World, style: CookieStyle): (o: Outcome)
    ensures o.resp.status in {200, 400, 401, 403, 500}
    ensures o.resp.status != 200 ==> o.world == w
    ensures o.world.users == w.users
    ensures ValidWorld(w) ==> ValidWorld(o.world)
    ensures o.resp.status == 200 <==>
              body.Some? && ParseLogin(body.value, ctx.validEmail).Ok?
              && ChallengePasses(ctx, ParseLogin(body.value, ctx.validEmail).value.turnstileToken) && ctx.dbUp
              && var data := ParseLogin(body.value, ctx.validEmail).value;
                 var u := FindByEmail(w.users.rows, data.email);
                 u.Some? && u.value.isActive && ctx.passwordMatches(data.password, u.value.passwordHash)
  {
    match body
    case None => Outcome(INTERNAL_ERROR, w)
    case Some(json) =>
      match ParseLogin(json, ctx.validEmail)
      case Err(issues) => Outcome(Response(400, InvalidData(INVALID_LOGIN_DATA, issues)), w)
      case Ok(data) =>
        if !ChallengePasses(ctx, data.turnstileToken) then Outcome(SECURITY_CHECK_FAILED, w)
        else if !ctx.dbUp then Outcome(INTERNAL_ERROR, w)
        else
          match FindByEmail(w.users.rows, data.email)
          case None => Outcome(BAD_CREDENTIALS, w)
          case Some(u) =>
            if !u.isActive then Outcome(ACCOUNT_DISABLED, w)
            else if !ctx.passwordMatches(data.password, u.passwordHash) then Outcome(BAD_CREDENTIALS, w)
            else if ShouldUse2FA(ctx.env) then
              Outcome(Response(200, VerificationRequired(CODE_SENT)), StartVerification(w, ctx, u, TwoFactor, style))
            else
              var token := SessionTokenFor(u, ctx);
              Outcome(Response(200, WithProfile(LOGIN_OK, ProfileOf(u))),
                      w.(jar := WriteCookie(w.jar, ctx.env, style, SESSION_TOKEN_NAME, Signed(token), SESSION_EXPIRATION)))
  }

  /** The handler over the shared objects. */
  method Post(body: Option<Json<LoginInput>>, ctx: Ctx, style: CookieStyle,
              users: UserRepository, codes: CodeStore, jar: CookieJar, mailer: Mailer) returns (resp: Response)
    modifies codes, jar, mailer
    ensures Outcome(resp, Snapshot(users, codes, jar, mailer)) == Login(body, ctx, old(Snapshot(users, codes, jar, mailer)), style)
  {
    if body.None? {
      return INTERNAL_ERROR;
    }
    var validation := ParseLogin(body.value, ctx.validEmail);
    if validation.Err? {
      return Response(400, InvalidData(INVALID_LOGIN_DATA, validation.error));
    }
    var data := validation.value;
    if !ChallengePasses(ctx, data.turnstileToken) {
      return SECURITY_CHECK_FAILED;
    }
    if !ctx.dbUp {
      return INTERNAL_ERROR;
    }
    var user := users.FindUniqueByEmail(data.email);
    if user.None? {
      return BAD_CREDENTIALS;
    }
    var u := user.value;
    if !u.isActive {
      return ACCOUNT_DISABLED;
    }
    if !ctx.passwordMatches(data.password, u.passwordHash) {
      return BAD_CREDENTIALS;
    }
    if ShouldUse2FA(ctx.env) {
      StartVerificationOn(ctx, u, TwoFactor, style, users, codes, jar, mailer);
      return Response(200, VerificationRequired(CODE_SENT));
    }
    var token := SessionTokenFor(u, ctx);
    WriteCookieOn(jar, ctx.env, style, SESSION_TOKEN_NAME, Signed(token), SESSION_EXPIRATION);
    resp := Response(200, WithProfile(LOGIN_OK, ProfileOf(u)));
  }

  /** An unknown e-mail and a wrong password get the very same answer, so accounts cannot be probed. */
  lemma UnknownEmailLooksLikeWrongPassword(email: string, password: string, token: Field, ctx: Ctx, w: World, w': World, style: CookieStyle)
    requires ctx.validEmail(email) && |password| >= 6 && !token.NotString? && ctx.dbUp
    requires FindByEmail(w.users.rows, email).None?
    requires var u := FindByEmail(w'.users.rows, email); u.Some? && u.value.isActive && !ctx.passwordMatches(password, u.value.passwordHash)
    ensures Login(Some(Fields(LoginInput(Given(email), Given(password), token))), ctx, w, style).resp
            == Login(Some(Fields(LoginInput(Given(email), Given(password), token))), ctx, w', style).resp
  {
  }

  /** An inactive account is refused with 403 before its password is even looked at. */
  lemma InactiveBeforePassword(email: string, password: string, ctx: Ctx, w: World, style: CookieStyle)
    requires ctx.validEmail(email) && |password| >= 6 && ctx.dbUp
    requires var u := FindByEmail(w.users.rows, email); u.Some? && !u.value.isActive
    ensures Login(Some(Fields(LoginInput(Given(email), Given(password), Missing))), ctx, w, style) == Outcome(ACCOUNT_DISABLED, w)
  {
  }

  /** Without a Turnstile token the challenge is skipped, even in production. */
  lemma MissingChallengeTokenSkipsCheck(ctx: Ctx)
    ensures ChallengePasses(ctx, None) && ChallengePasses(ctx, Some(""))
  {
  }

  /**
   * A successful two-factor login saves a code for the user, e-mails it, writes both
   * verification cookies for five minutes, and leaves the session cookie alone.
   */
  lemma TwoFactorLoginEffects(data: LoginData, body: Json<LoginInput>, ctx: Ctx, w: World, style: CookieStyle, u: User)
    requires ParseLogin(body, ctx.validEmail) == Ok(data) && ChallengePasses(ctx, data.turnstileToken) && ctx.dbUp
    requires FindByEmail(w.users.rows, data.email) == Some(u) && u.isActive && ctx.passwordMatches(data.password, u.passwordHash)
    requires ShouldUse2FA(ctx.env)
    ensures var o := Login(Some(body), ctx, w, style);
            var (codes, id) := SaveVerificationCode(w.codes, u.userId, GenerateVerificationCode(ctx.seed), TwoFactor, ctx.nowMs);
            && o.resp == Response(200, VerificationRequired(CODE_SENT))
            && o.world.codes == codes
            && GetCookie(o.world.jar, VERIFICATION_TOKEN_NAME) == Some(Signed(VerificationTokenFor(u, TwoFactor, ctx)))
            && ParseId(o.world.jar[VERIFICATION_ID_NAME].value) == Some(id)
            && o.world.jar[VERIFICATION_TOKEN_NAME].attrs.maxAge == VERIFICATION_EXPIRATION
            && o.world.jar[VERIFICATION_ID_NAME].attrs.maxAge == VERIFICATION_EXPIRATION
            && GetCookie(o.world.jar, SESSION_TOKEN_NAME) == GetCookie(w.jar, SESSION_TOKEN_NAME)
  {
  }

  /** Without two-factor login, success writes a week-long session cookie and touches no code. */
  lemma DirectLoginEffects(data: LoginData, body: Json<LoginInput>, ctx: Ctx, w: World, style: CookieStyle, u: User)
    requires ParseLogin(body, ctx.validEmail) == Ok(data) && ChallengePasses(ctx, data.turnstileToken) && ctx.dbUp
    requires FindByEmail(w.users.rows, data.email) == Some(u) && u.isActive && ctx.passwordMatches(data.password, u.passwordHash)
    requires !ShouldUse2FA(ctx.env)
    ensures var o := Login(Some(body), ctx, w, style);
            && o.resp == Response(200, WithProfile(LOGIN_OK, Profile(u.userId, u.email, u.name, u.role)))
            && o.world.codes == w.codes && o.world.outbox == w.outbox
            && GetCookie(o.world.jar, SESSION_TOKEN_NAME) == Some(Signed(SessionTokenFor(u, ctx)))
            && o.world.jar[SESSION_TOKEN_NAME].attrs.maxAge == SESSION_EXPIRATION
            && (style == Direct ==> o.world.jar[SESSION_TOKEN_NAME].attrs.sameSite.None? && o.world.jar[SESSION_TOKEN_NAME].attrs.path.None?)
  {
  }
}
