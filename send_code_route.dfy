/**
 * `POST /api/v1/auth/send-code`: the first step of a password reset. An unknown or
 * inactive e-mail gets a success-looking answer and nothing happens; an active user gets
 * a fresh password-reset code by e-mail and the two verification cookies.
 */
module SendCodeRoute {
  import opened Wrappers
  import opened Purpose
  import opened AuthConfig
  import opened Jwt
  import opened AuthUtils
  import opened Schemas
  import opened ServerCookies
  import opened Users
  import opened Flow

  const INVALID_DATA: string := "Dados inválidos"
  const MAYBE_SENT: Response := Response(200, Notice("Se o email existir, um código de redefinição será enviado"))
  const RESET_CODE_SENT: Response := Response(200, Notice("Código de redefinição enviado"))

  function SendCode(body: Option<Json<RequestResetInput>>, ctx: Ctx, w: World): (o: Outcome)
    ensures o.resp.status in {200, 400, 500}
    ensures o.resp != RESET_CODE_SENT ==> o.world == w
    ensures o.world.users == w.users
    ensures ValidWorld(w) ==> ValidWorld(o.world)
    ensures o.resp == RESET_CODE_SENT <==>
              body.Some? && ParseRequestReset(body.value, ctx.validEmail).Ok?
              && ChallengePasses(ctx, ParseRequestReset(body.value, ctx.validEmail).value.turnstileToken) && ctx.dbUp
              && var u := FindByEmail(w.users.rows, ParseRequestReset(body.value, ctx.validEmail).value.email);
                 u.Some? && u.value.isActive
  {
    match body
    case None => Outcome(INTERNAL_ERROR, w)
    case Some(json) =>
      match ParseRequestReset(json, ctx.validEmail)
      case Err(issues) => Outcome(Response(400, InvalidData(INVALID_DATA, issues)), w)
      case Ok(data) =>
        if !ChallengePasses(ctx, data.turnstileToken) then Outcome(SECURITY_CHECK_FAILED, w)
        else if !ctx.dbUp then Outcome(INTERNAL_ERROR, w)
        else
          var user := FindByEmail(w.users.rows, data.email);
          if user.None? || !user.value.isActive then Outcome(MAYBE_SENT, w)
          else Outcome(RESET_CODE_SENT, StartVerification(w, ctx, user.value, PasswordReset, Helpers))
  }

  method Post(body: Option<Json<RequestResetInput>>, ctx: Ctx,
              users: UserRepository, codes: CodeStore, jar: CookieJar, mailer: Mailer) returns (resp: Response)
    modifies codes, jar, mailer
    ensures Outcome(resp, Snapshot(users, codes, jar, mailer)) == SendCode(body, ctx, old(Snapshot(users, codes, jar, mailer)))
  {
    if body.None? {
      return INTERNAL_ERROR;
    }
    var validation := ParseRequestReset(body.value, ctx.validEmail);
    if validation.Err? {
      return Response(400, InvalidData(INVALID_DATA, validation.error));
    }
    var data := validation.value;
    if !ChallengePasses(ctx, data.turnstileToken) {
      return SECURITY_CHECK_FAILED;
    }
    if !ctx.dbUp {
      return INTERNAL_ERROR;
    }
    var user := users.FindUniqueByEmail(data.email);
    if user.None? || !user.value.isActive {
      return MAYBE_SENT;
    }
    StartVerificationOn(ctx, user.value, PasswordReset, Helpers, users, codes, jar, mailer);
    resp := RESET_CODE_SENT;
  }

  /**
   * Both answers carry status 200: only the wording tells an active account from an
   * unknown or inactive one, and the latter writes nothing.
   */
  lemma SameStatusEitherWay(body: Json<RequestResetInput>, data: RequestResetData, ctx: Ctx, w: World)
    requires ParseRequestReset(body, ctx.validEmail) == Ok(data) && ChallengePasses(ctx, data.turnstileToken) && ctx.dbUp
    ensures SendCode(Some(body), ctx, w).resp.status == 200
    ensures var u := FindByEmail(w.users.rows, data.email);
            u.None? || !u.value.isActive ==> SendCode(Some(body), ctx, w) == Outcome(MAYBE_SENT, w)
  {
  }

  /** A second request supersedes the first: the first code cannot be used any more, whatever the 2FA switch. */
  lemma NewCodeSupersedesOld(body: Json<RequestResetInput>, data: RequestResetData, ctx1: Ctx, ctx2: Ctx, w: World, u: User)
    requires ValidWorld(w)
    requires ParseRequestReset(body, ctx1.validEmail) == Ok(data) && ChallengePasses(ctx1, data.turnstileToken) && ctx1.dbUp
    requires ParseRequestReset(body, ctx2.validEmail) == Ok(data) && ChallengePasses(ctx2, data.turnstileToken) && ctx2.dbUp
    requires FindByEmail(w.users.rows, data.email) == Some(u) && u.isActive
    ensures var o1 := SendCode(Some(body), ctx1, w);
            var (_, id1) := SaveVerificationCode(w.codes, u.userId, GenerateVerificationCode(ctx1.seed), PasswordReset, ctx1.nowMs);
            var o2 := SendCode(Some(body), ctx2, o1.world);
            forall now :: !VerifyCode(o2.world.codes, Some(id1), GenerateVerificationCode(ctx1.seed), now).1
  {
    var c1 := GenerateVerificationCode(ctx1.seed);
    var (t1, id1) := SaveVerificationCode(w.codes, u.userId, c1, PasswordReset, ctx1.nowMs);
    var o1 := SendCode(Some(body), ctx1, w);
    assert o1.world.codes == t1 && o1.world.users == w.users;
    var o2 := SendCode(Some(body), ctx2, o1.world);
    assert o2.world.codes == SaveVerificationCode(t1, u.userId, GenerateVerificationCode(ctx2.seed), PasswordReset, ctx2.nowMs).0;
    forall now ensures !VerifyCode(o2.world.codes, Some(id1), c1, now).1 {
      Supersession(w.codes, u.userId, c1, GenerateVerificationCode(ctx2.seed), PasswordReset, ctx1.nowMs, ctx2.nowMs, now);
    }
  }

  /**
   * For an active user the request starts a password reset: a reset code row for the user,
   * the e-mail, and both verification cookies for 300 s, written by the helpers.
   */
  lemma ActiveUserGetsResetCode(body: Json<RequestResetInput>, data: RequestResetData, ctx: Ctx, w: World, u: User)
    requires ParseRequestReset(body, ctx.validEmail) == Ok(data) && ChallengePasses(ctx, data.turnstileToken) && ctx.dbUp
    requires FindByEmail(w.users.rows, data.email) == Some(u) && u.isActive
    ensures SendCode(Some(body), ctx, w) == Outcome(RESET_CODE_SENT, StartVerification(w, ctx, u, PasswordReset, Helpers))
  {
  }
}
