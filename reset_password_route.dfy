/**
 * `POST /api/v1/auth/reset-password`: the second step of a password reset. Like the
 * two-factor step it reads both verification cookies and consumes the code, but it also
 * demands a password-reset token, and on success it stores the new password's hash and
 * deletes the cookies without signing anyone in.
 */
module ResetPasswordRoute {
  import opened Wrappers
  import opened Purpose
  import opened AuthConfig
  import opened Jwt
  import opened AuthUtils
  import opened Schemas
  import opened ServerCookies
  import opened Users
  import opened Flow

  const INVALID_DATA: string := "Dados inválidos"
  const RESET_EXPIRED: Response := Response(401, Failure("Sessão de redefinição expirada ou inválida"))
  const PASSWORD_RESET_OK: Response := Response(200, Notice("Senha redefinida com sucesso"))

  /** The token passes: it verifies and its `type` is `PASSWORD_RESET`. */
  predicate ResetTokenOk(r: Result<Payload, TokenError>)
  {
    r.Ok? && r.value.kind == Some(PasswordReset)
  }

  function ResetPassword(body: Option<Json<ResetInput>>, ctx: Ctx, w: World): (o: Outcome)
    ensures o.resp.status in {200, 400, 401, 404, 500}
    ensures o.world.outbox == w.outbox
    ensures o.resp.status == 500 ==> o.world == w
    ensures o.resp.status != 200 ==> o.world.users == w.users
    ensures o.resp == RESET_EXPIRED ==> o.world.codes == w.codes
    ensures ValidWorld(w) ==> ValidWorld(o.world)
    ensures o.resp.status == 200 ==>
              o.resp == PASSWORD_RESET_OK
              && !Present(GetCookie(o.world.jar, VERIFICATION_TOKEN_NAME)) && !Present(GetCookie(o.world.jar, VERIFICATION_ID_NAME))
              && GetCookie(o.world.jar, SESSION_TOKEN_NAME) == GetCookie(w.jar, SESSION_TOKEN_NAME)
              && body.Some? && ParseReset(body.value).Ok?
              && var vt := GetCookie(w.jar, VERIFICATION_TOKEN_NAME);
                 var vid := GetCookie(w.jar, VERIFICATION_ID_NAME);
                 var data := ParseReset(body.value).value;
                 Present(vt) && Present(vid) && ResetTokenOk(VerifyVerificationToken(vt.value, ctx.env, ctx.nowMs))
                 && VerifyCode(w.codes, ParseId(vid.value), data.code, ctx.nowMs).1
                 && o.world.codes == VerifyCode(w.codes, ParseId(vid.value), data.code, ctx.nowMs).0
                 && var id := VerifyVerificationToken(vt.value, ctx.env, ctx.nowMs).value.userId;
                    o.world.users == UpdatePasswordHash(w.users, id, ctx.hash(data.password))
  {
    match body
    case None => Outcome(INTERNAL_ERROR, w)
    case Some(json) =>
      match ParseReset(json)
      case Err(issues) => Outcome(Response(400, InvalidData(INVALID_DATA, issues)), w)
      case Ok(data) =>
        var verificationToken := GetCookie(w.jar, VERIFICATION_TOKEN_NAME);
        var verificationId := GetCookie(w.jar, VERIFICATION_ID_NAME);
        if !Present(verificationToken) || !Present(verificationId) then Outcome(RESET_EXPIRED, w)
        else
          var tokenPayload := VerifyVerificationToken(verificationToken.value, ctx.env, ctx.nowMs);
          if !ResetTokenOk(tokenPayload) then Outcome(RESET_EXPIRED, w.(jar := ClearVerificationCookies(w.jar, ctx.env)))
          else if !ctx.dbUp then Outcome(INTERNAL_ERROR, w)
          else
            var (codes, isValidCode) := VerifyCode(w.codes, ParseId(verificationId.value), data.code, ctx.nowMs);
            if !isValidCode then Outcome(INVALID_OR_EXPIRED_CODE, w.(codes := codes))
            else
              var user := FindById(w.users.rows, tokenPayload.value.userId);
              if user.None? || !user.value.isActive then
                Outcome(USER_NOT_FOUND, w.(codes := codes, jar := ClearVerificationCookies(w.jar, ctx.env)))
              else
                var users := UpdatePasswordHash(w.users, user.value.userId, ctx.hash(data.password));
                CookieNamesDistinct();
                var jar := Delete(Delete(w.jar, VERIFICATION_TOKEN_NAME), VERIFICATION_ID_NAME);
                Outcome(PASSWORD_RESET_OK, World(users, codes, jar, w.outbox))
  }

  method Post(body: Option<Json<ResetInput>>, ctx: Ctx,
              users: UserRepository, codes: CodeStore, jar: CookieJar, mailer: Mailer) returns (resp: Response)
    modifies users, codes, jar
    ensures Outcome(resp, Snapshot(users, codes, jar, mailer)) == ResetPassword(body, ctx, old(Snapshot(users, codes, jar, mailer)))
  {
    if body.None? {
      return INTERNAL_ERROR;
    }
    var validation := ParseReset(body.value);
    if validation.Err? {
      return Response(400, InvalidData(INVALID_DATA, validation.error));
    }
    var data := validation.value;
    var verificationToken := jar.Get(VERIFICATION_TOKEN_NAME);
    var verificationId := jar.Get(VERIFICATION_ID_NAME);
    if !Present(verificationToken) || !Present(verificationId) {
      return RESET_EXPIRED;
    }
    var tokenPayload := VerifyVerificationToken(verificationToken.value, ctx.env, ctx.nowMs);
    if !ResetTokenOk(tokenPayload) {
      ClearVerificationCookiesOn(jar, ctx.env);
      return RESET_EXPIRED;
    }
    if !ctx.dbUp {
      return INTERNAL_ERROR;
    }
    var isValidCode := codes.Verify(ParseId(verificationId.value), data.code, ctx.nowMs);
    if !isValidCode {
      return INVALID_OR_EXPIRED_CODE;
    }
    var user := users.FindUniqueById(tokenPayload.value.userId);
    if user.None? || !user.value.isActive {
      ClearVerificationCookiesOn(jar, ctx.env);
      return USER_NOT_FOUND;
    }
    users.Update(user.value.userId, ctx.hash(data.password));
    jar.Remove(VERIFICATION_TOKEN_NAME);
    jar.Remove(VERIFICATION_ID_NAME);
    resp := PASSWORD_RESET_OK;
  }

  /** A two-factor token is refused (401, cookies cleared) even with the right code: the code row is left as it was. */
  lemma TwoFactorTokenRefused(body: Json<ResetInput>, ctx: Ctx, w: World, u: User, signedAt: int)
    requires ParseReset(body).Ok? && Present(GetCookie(w.jar, VERIFICATION_ID_NAME))
    requires GetCookie(w.jar, VERIFICATION_TOKEN_NAME) == Some(Signed(VerificationTokenFor(u, TwoFactor, ctx.(nowMs := signedAt))))
    ensures ResetPassword(Some(body), ctx, w) == Outcome(RESET_EXPIRED, w.(jar := ClearVerificationCookies(w.jar, ctx.env)))
  {
  }

  /** A wrong code changes no password and keeps both cookies and the code row. */
  lemma WrongCodeChangesNothing(body: Json<ResetInput>, ctx: Ctx, w: World, id: int)
    requires ParseReset(body).Ok? && ctx.dbUp
    requires var vt := GetCookie(w.jar, VERIFICATION_TOKEN_NAME);
             Present(vt) && ResetTokenOk(VerifyVerificationToken(vt.value, ctx.env, ctx.nowMs))
    requires var vid := GetCookie(w.jar, VERIFICATION_ID_NAME); Present(vid) && ParseId(vid.value) == Some(id)
    requires id in w.codes.rows && !Expired(w.codes.rows[id], ctx.nowMs)
    requires w.codes.rows[id].code != ParseReset(body).value.code
    ensures ResetPassword(Some(body), ctx, w) == Outcome(INVALID_OR_EXPIRED_CODE, w)
  {
  }

  /**
   * Every refused code, whether the id cookie does not parse, names no row, names an
   * expired row or holds another code: 400, no password changes, and the code table is
   * what `verifyCode` leaves, which is untouched for an unparsable or unknown id.
   */
  lemma RefusedCodeKeepsPassword(body: Json<ResetInput>, ctx: Ctx, w: World)
    requires ParseReset(body).Ok? && ctx.dbUp
    requires var vt := GetCookie(w.jar, VERIFICATION_TOKEN_NAME);
             Present(vt) && ResetTokenOk(VerifyVerificationToken(vt.value, ctx.env, ctx.nowMs))
    requires Present(GetCookie(w.jar, VERIFICATION_ID_NAME))
    requires !VerifyCode(w.codes, ParseId(w.jar[VERIFICATION_ID_NAME].value), ParseReset(body).value.code, ctx.nowMs).1
    ensures var id := ParseId(w.jar[VERIFICATION_ID_NAME].value);
            var o := ResetPassword(Some(body), ctx, w);
            o.resp == INVALID_OR_EXPIRED_CODE && o.world.users == w.users && o.world.jar == w.jar
            && o.world.codes == VerifyCode(w.codes, id, ParseReset(body).value.code, ctx.nowMs).0
            && (id.None? || id.value !in w.codes.rows ==> o.world == w)
  {
  }

  /** A token that fails verification (expired, forged, not a token) gives 401, both cookies cleared, nothing else written. */
  lemma FailedTokenClearsCookies(body: Json<ResetInput>, ctx: Ctx, w: World)
    requires ParseReset(body).Ok?
    requires Present(GetCookie(w.jar, VERIFICATION_TOKEN_NAME)) && Present(GetCookie(w.jar, VERIFICATION_ID_NAME))
    requires VerifyVerificationToken(w.jar[VERIFICATION_TOKEN_NAME].value, ctx.env, ctx.nowMs).Err?
    ensures ResetPassword(Some(body), ctx, w) == Outcome(RESET_EXPIRED, w.(jar := ClearVerificationCookies(w.jar, ctx.env)))
  {
  }

  /**
   * An accepted code whose token names a missing or inactive user gives 404: no password
   * changes, both cookies are cleared, and the code row is used up all the same.
   */
  lemma UnknownUserConsumesCode(body: Json<ResetInput>, ctx: Ctx, w: World, id: int)
    requires ParseReset(body).Ok? && ctx.dbUp
    requires var vt := GetCookie(w.jar, VERIFICATION_TOKEN_NAME);
             Present(vt) && ResetTokenOk(VerifyVerificationToken(vt.value, ctx.env, ctx.nowMs))
             && var u := FindById(w.users.rows, VerifyVerificationToken(vt.value, ctx.env, ctx.nowMs).value.userId);
                u.None? || !u.value.isActive
    requires var vid := GetCookie(w.jar, VERIFICATION_ID_NAME); Present(vid) && ParseId(vid.value) == Some(id)
    requires VerifyCode(w.codes, Some(id), ParseReset(body).value.code, ctx.nowMs).1
    ensures var o := ResetPassword(Some(body), ctx, w);
            o.resp == USER_NOT_FOUND && id !in o.world.codes.rows
            && o.world.jar == ClearVerificationCookies(w.jar, ctx.env) && o.world.users == w.users
  {
  }
}
