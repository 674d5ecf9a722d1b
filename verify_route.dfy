/**
 * `POST /api/v1/auth/verify`: the second step of a two-factor login. It reads the
 * verification token and code id from the cookies, checks the token, consumes the code,
 * re-reads the user and signs them in. The older `/api/auth/verify` takes the same steps,
 * writing the session cookie with `setSecureCookie` and emptying the verification cookies
 * with `clearCookie` instead of deleting them.
 */
module VerifyRoute {
  import opened Wrappers
  import opened Purpose
  import opened AuthConfig
  import opened Jwt
  import opened AuthUtils
  import opened Schemas
  import opened ServerCookies
  import opened Users
  import opened Flow

  const INVALID_CODE_DATA: string := "Código inválido"
  const VERIFICATION_EXPIRED: Response := Response(401, Failure("Sessão de verificação expirada ou inválida"))
  const VERIFIED: string := "Verificação bem-sucedida"

  /** The world after a successful verification: session cookie in, verification cookies out. */
  function SignedIn(w: World, codes: CodeTable, u: User, ctx: Ctx, style: CookieStyle): (w1: World)
    ensures w1.users == w.users && w1.codes == codes && w1.outbox == w.outbox
    ensures GetCookie(w1.jar, SESSION_TOKEN_NAME) == Some(Signed(SessionTokenFor(u, ctx)))
    ensures w1.jar[SESSION_TOKEN_NAME].attrs.maxAge == SESSION_EXPIRATION
    ensures !Present(GetCookie(w1.jar, VERIFICATION_TOKEN_NAME)) && !Present(GetCookie(w1.jar, VERIFICATION_ID_NAME))
  {
    CookieNamesDistinct();
    var jar := WriteCookie(w.jar, ctx.env, style, SESSION_TOKEN_NAME, Signed(SessionTokenFor(u, ctx)), SESSION_EXPIRATION);
    var jar' := RemoveCookie(RemoveCookie(jar, ctx.env, style, VERIFICATION_TOKEN_NAME), ctx.env, style, VERIFICATION_ID_NAME);
    assert jar'[SESSION_TOKEN_NAME] == jar[SESSION_TOKEN_NAME];
    w.(codes := codes, jar := jar')
  }

  function Verify(body: Option<Json<VerificationInput>>, ctx: Ctx, w: World, style: CookieStyle): (o: Outcome)
    ensures o.resp.status in {200, 400, 401, 404, 500}
    ensures o.world.users == w.users && o.world.outbox == w.outbox
    ensures o.resp.status == 500 ==> o.world == w
    ensures ValidWorld(w) ==> ValidWorld(o.world)
    ensures o.resp == VERIFICATION_EXPIRED ==> o.world.codes == w.codes
    ensures o.resp.status == 200 ==> o.resp.reply.WithProfile? && Present(GetCookie(o.world.jar, SESSION_TOKEN_NAME))
    ensures o.resp.status == 200 ==>
              body.Some? && ParseVerification(body.value).Ok?
              && var vid := GetCookie(w.jar, VERIFICATION_ID_NAME);
                 var vt := GetCookie(w.jar, VERIFICATION_TOKEN_NAME);
                 Present(vid) && Present(vt) && VerifyVerificationToken(vt.value, ctx.env, ctx.nowMs).Ok?
                 && VerifyCode(w.codes, ParseId(vid.value), ParseVerification(body.value).value.code, ctx.nowMs).1
                 && o.world.codes == VerifyCode(w.codes, ParseId(vid.value), ParseVerification(body.value).value.code, ctx.nowMs).0
  {
    match body
    case None => Outcome(INTERNAL_ERROR, w)
    case Some(json) =>
      match ParseVerification(json)
      case Err(issues) => Outcome(Response(400, InvalidData(INVALID_CODE_DATA, issues)), w)
      case Ok(data) =>
        var verificationToken := GetCookie(w.jar, VERIFICATION_TOKEN_NAME);
        var verificationId := GetCookie(w.jar, VERIFICATION_ID_NAME);
        if !Present(verificationToken) || !Present(verificationId) then Outcome(VERIFICATION_EXPIRED, w)
        else
          match VerifyVerificationToken(verificationToken.value, ctx.env, ctx.nowMs)
          case Err(_) => Outcome(VERIFICATION_EXPIRED, w.(jar := ClearVerificationCookies(w.jar, ctx.env)))
          case Ok(payload) =>
            if !ctx.dbUp then Outcome(INTERNAL_ERROR, w)
            else
              var (codes, isValidCode) := VerifyCode(w.codes, ParseId(verificationId.value), data.code, ctx.nowMs);
              if !isValidCode then Outcome(INVALID_OR_EXPIRED_CODE, w.(codes := codes))
              else
                match FindById(w.users.rows, payload.userId)
                case None => Outcome(USER_NOT_FOUND, w.(codes := codes, jar := ClearVerificationCookies(w.jar, ctx.env)))
                case Some(u) =>
                  if !u.isActive then Outcome(USER_NOT_FOUND, w.(codes := codes, jar := ClearVerificationCookies(w.jar, ctx.env)))
                  else Outcome(Response(200, WithProfile(VERIFIED, ProfileOf(u))), SignedIn(w, codes, u, ctx, style))
  }

  method Post(body: Option<Json<VerificationInput>>, ctx: Ctx, style: CookieStyle,
              users: UserRepository, codes: CodeStore, jar: CookieJar, mailer: Mailer) returns (resp: Response)
    modifies codes, jar
    ensures Outcome(resp, Snapshot(users, codes, jar, mailer)) == Verify(body, ctx, old(Snapshot(users, codes, jar, mailer)), style)
  {
    if body.None? {
      return INTERNAL_ERROR;
    }
    var validation := ParseVerification(body.value);
    if validation.Err? {
      return Response(400, InvalidData(INVALID_CODE_DATA, validation.error));
    }
    var code := validation.value.code;
    var verificationToken := jar.Get(VERIFICATION_TOKEN_NAME);
    var verificationId := jar.Get(VERIFICATION_ID_NAME);
    if !Present(verificationToken) || !Present(verificationId) {
      return VERIFICATION_EXPIRED;
    }
    var tokenPayload := VerifyVerificationToken(verificationToken.value, ctx.env, ctx.nowMs);
    if tokenPayload.Err? {
      ClearVerificationCookiesOn(jar, ctx.env);
      return VERIFICATION_EXPIRED;
    }
    if !ctx.dbUp {
      return INTERNAL_ERROR;
    }
    var isValidCode := codes.Verify(ParseId(verificationId.value), code, ctx.nowMs);
    if !isValidCode {
      return INVALID_OR_EXPIRED_CODE;
    }
    var user := users.FindUniqueById(tokenPayload.value.userId);
    if user.None? || !user.value.isActive {
      ClearVerificationCookiesOn(jar, ctx.env);
      return USER_NOT_FOUND;
    }
    var u := user.value;
    WriteCookieOn(jar, ctx.env, style, SESSION_TOKEN_NAME, Signed(SessionTokenFor(u, ctx)), SESSION_EXPIRATION);
    RemoveCookieOn(jar, ctx.env, style, VERIFICATION_TOKEN_NAME);
    RemoveCookieOn(jar, ctx.env, style, VERIFICATION_ID_NAME);
    resp := Response(200, WithProfile(VERIFIED, ProfileOf(u)));
  }

  /** With a verification cookie missing, the answer is 401 and nothing at all is written. */
  lemma MissingCookieWritesNothing(body: Json<VerificationInput>, ctx: Ctx, w: World, style: CookieStyle)
    requires ParseVerification(body).Ok?
    requires !Present(GetCookie(w.jar, VERIFICATION_TOKEN_NAME)) || !Present(GetCookie(w.jar, VERIFICATION_ID_NAME))
    ensures Verify(Some(body), ctx, w, style) == Outcome(VERIFICATION_EXPIRED, w)
  {
  }

  /** A wrong code is a 400 that keeps both cookies and the code row, so the user can try again. */
  lemma WrongCodeKeepsSession(body: Json<VerificationInput>, ctx: Ctx, w: World, style: CookieStyle, id: int)
    requires ParseVerification(body).Ok? && ctx.dbUp
    requires var vt := GetCookie(w.jar, VERIFICATION_TOKEN_NAME);
             Present(vt) && VerifyVerificationToken(vt.value, ctx.env, ctx.nowMs).Ok?
    requires var vid := GetCookie(w.jar, VERIFICATION_ID_NAME); Present(vid) && ParseId(vid.value) == Some(id)
    requires id in w.codes.rows && !Expired(w.codes.rows[id], ctx.nowMs)
    requires w.codes.rows[id].code != ParseVerification(body).value.code
    ensures Verify(Some(body), ctx, w, style) == Outcome(INVALID_OR_EXPIRED_CODE, w)
  {
  }

  /**
   * The code row is never compared with the token: a valid code of any user and purpose,
   * next to a live verification token of another user, signs that other user in. The
   * row is consumed before the user is looked up, so a 404 still uses the code up.
   */
  lemma CodeNotBoundToToken(body: Json<VerificationInput>, ctx: Ctx, w: World, style: CookieStyle, id: int, victim: User)
    requires ParseVerification(body).Ok? && ctx.dbUp
    requires var vt := GetCookie(w.jar, VERIFICATION_TOKEN_NAME);
             Present(vt) && VerifyVerificationToken(vt.value, ctx.env, ctx.nowMs).Ok?
             && VerifyVerificationToken(vt.value, ctx.env, ctx.nowMs).value.userId == victim.userId
    requires var vid := GetCookie(w.jar, VERIFICATION_ID_NAME); Present(vid) && ParseId(vid.value) == Some(id)
    requires id in w.codes.rows && !Expired(w.codes.rows[id], ctx.nowMs)
    requires w.codes.rows[id].code == ParseVerification(body).value.code
    requires FindById(w.users.rows, victim.userId) == Some(victim) && victim.isActive
    ensures var o := Verify(Some(body), ctx, w, style);
            o.resp == Response(200, WithProfile(VERIFIED, ProfileOf(victim)))
            && GetCookie(o.world.jar, SESSION_TOKEN_NAME) == Some(Signed(SessionTokenFor(victim, ctx)))
            && id !in o.world.codes.rows
  {
  }

  /** A password-reset token and code pass this two-factor step just as well: the purpose is never checked. */
  lemma ResetTokenAccepted(body: Json<VerificationInput>, ctx: Ctx, w: World, style: CookieStyle, u: User, signedAt: int, id: int)
    requires ParseVerification(body).Ok? && ctx.dbUp
    requires GetCookie(w.jar, VERIFICATION_TOKEN_NAME) == Some(Signed(VerificationTokenFor(u, PasswordReset, ctx.(nowMs := signedAt))))
    requires EpochSeconds(ctx.nowMs) < EpochSeconds(signedAt) + VERIFICATION_EXPIRATION
    requires var vid := GetCookie(w.jar, VERIFICATION_ID_NAME); Present(vid) && ParseId(vid.value) == Some(id)
    requires id in w.codes.rows && !Expired(w.codes.rows[id], ctx.nowMs) && w.codes.rows[id].kind == PasswordReset
    requires w.codes.rows[id].code == ParseVerification(body).value.code
    requires FindById(w.users.rows, u.userId) == Some(u) && u.isActive
    ensures Verify(Some(body), ctx, w, style).resp.status == 200
  {
  }

  /** A token that fails verification (expired, forged, not a token) gives 401 and both verification cookies are cleared. */
  lemma FailedTokenClearsCookies(body: Json<VerificationInput>, ctx: Ctx, w: World, style: CookieStyle)
    requires ParseVerification(body).Ok?
    requires Present(GetCookie(w.jar, VERIFICATION_TOKEN_NAME)) && Present(GetCookie(w.jar, VERIFICATION_ID_NAME))
    requires VerifyVerificationToken(w.jar[VERIFICATION_TOKEN_NAME].value, ctx.env, ctx.nowMs).Err?
    ensures Verify(Some(body), ctx, w, style) == Outcome(VERIFICATION_EXPIRED, w.(jar := ClearVerificationCookies(w.jar, ctx.env)))
  {
  }

  /**
   * An accepted code whose token names a missing or inactive user gives 404: both cookies
   * are cleared, and the code row is used up all the same.
   */
  lemma UnknownUserConsumesCode(body: Json<VerificationInput>, ctx: Ctx, w: World, style: CookieStyle, id: int)
    requires ParseVerification(body).Ok? && ctx.dbUp
    requires var vt := GetCookie(w.jar, VERIFICATION_TOKEN_NAME);
             Present(vt) && VerifyVerificationToken(vt.value, ctx.env, ctx.nowMs).Ok?
             && var u := FindById(w.users.rows, VerifyVerificationToken(vt.value, ctx.env, ctx.nowMs).value.userId);
                u.None? || !u.value.isActive
    requires var vid := GetCookie(w.jar, VERIFICATION_ID_NAME); Present(vid) && ParseId(vid.value) == Some(id)
    requires VerifyCode(w.codes, Some(id), ParseVerification(body).value.code, ctx.nowMs).1
    ensures var o := Verify(Some(body), ctx, w, style);
            o.resp == USER_NOT_FOUND && id !in o.world.codes.rows
            && o.world.jar == ClearVerificationCookies(w.jar, ctx.env) && o.world.users == w.users
  {
  }
}
