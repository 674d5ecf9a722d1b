/**
 * Properties of whole journeys through the handlers: signing in and being let through
 * the gate, the two-factor round trip and its replay, the password reset followed by a
 * login, and the gate's blindness to how a cookie was removed.
 */
module FlowProperties {
  import opened Wrappers
  import opened Purpose
  import opened AuthConfig
  import opened Jwt
  import opened AuthUtils
  import opened Schemas
  import opened ServerCookies
  import opened Users
  import opened Flow
  import opened AuthMiddleware
  import opened LoginRoute
  import opened VerifyRoute
  import opened SendCodeRoute
  import opened ResetPasswordRoute
  import opened LogoutRoute
  import opened UserRoute

  /** A verification token still live means its code, saved in the same request, is not yet expired. */
  lemma TokenWindowWithinCodeWindow(savedAt: int, checkedAt: int)
    requires EpochSeconds(checkedAt) < EpochSeconds(savedAt) + VERIFICATION_EXPIRATION
    ensures checkedAt <= savedAt + CODE_LIFETIME_MS
  {
    var s := savedAt / 1000;
    var c := checkedAt / 1000;
    assert s * 1000 <= savedAt;
    assert checkedAt < c * 1000 + 1000;
    assert c <= s + 299;
    assert c * 1000 + 1000 <= s * 1000 + 300000;
  }

  /** In a table with unique ids, the user found by e-mail is the one found by its id. */
  lemma FoundByEmailFoundById(t: UserTable, email: string, u: User)
    requires ValidUsers(t) && FindByEmail(t.rows, email) == Some(u)
    ensures FindById(t.rows, u.userId) == Some(u)
  {
    var k :| 0 <= k < |t.rows| && t.rows[k] == u;
    FindByIdOfMember(t.rows, k);
  }

  /** Two stores that look the same to a handler get the same gate decision, role check and profile answer. */
  lemma SeenDecides(a: Jar, b: Jar, pathname: string, paths: seq<string>, roles: seq<string>, env: Env, nowMs: int)
    requires Seen(a) == Seen(b)
    ensures Authorize(pathname, a, paths, env, nowMs) == Authorize(pathname, b, paths, env, nowMs)
    ensures CheckRole(a, roles, env, nowMs) == CheckRole(b, roles, env, nowMs)
    ensures GetUser(a, env, nowMs) == GetUser(b, env, nowMs)
  {
    assert Present(GetCookie(a, SESSION_TOKEN_NAME)) <==> SESSION_TOKEN_NAME in Seen(a);
    assert Present(GetCookie(b, SESSION_TOKEN_NAME)) <==> SESSION_TOKEN_NAME in Seen(b);
    if SESSION_TOKEN_NAME in Seen(a) {
      assert a[SESSION_TOKEN_NAME].value == Seen(a)[SESSION_TOKEN_NAME] == b[SESSION_TOKEN_NAME].value;
    }
  }

  /**
   * Without two-factor login, the session cookie a login writes lets the user through
   * the gate on every path, passes exactly the role checks naming the user's role, and
   * answers the profile request with the user's name and role, for the token's week.
   */
  lemma LoginThenAuthorized(body: Json<LoginInput>, data: LoginData, ctx: Ctx, w: World, style: CookieStyle, u: User,
                            later: int, pathname: string, paths: seq<string>, roles: seq<string>)
    requires ParseLogin(body, ctx.validEmail) == Ok(data) && ChallengePasses(ctx, data.turnstileToken) && ctx.dbUp
    requires FindByEmail(w.users.rows, data.email) == Some(u) && u.isActive && ctx.passwordMatches(data.password, u.passwordHash)
    requires !ShouldUse2FA(ctx.env)
    requires EpochSeconds(later) < EpochSeconds(ctx.nowMs) + SESSION_EXPIRATION
    ensures var jar := Login(Some(body), ctx, w, style).world.jar;
            && Authorize(pathname, jar, paths, ctx.env, later) == Next
            && (CheckRole(jar, roles, ctx.env, later) <==> u.role in roles)
            && GetUser(jar, ctx.env, later) == Response(200, CurrentUser(NameClaim(u.name), Some(u.role)))
  {
    var jar := Login(Some(body), ctx, w, style).world.jar;
    assert GetCookie(jar, SESSION_TOKEN_NAME) == Some(Signed(SessionTokenFor(u, ctx)));
  }

  /** After logging out, no protected path is let through and the profile request is refused. */
  lemma LogoutThenRedirected(ctx: Ctx, w: World, style: CookieStyle, pathname: string, paths: seq<string>, nowMs: int)
    requires !IsPublic(pathname, paths)
    ensures var jar := Logout(ctx, w, style).world.jar;
            Authorize(pathname, jar, paths, ctx.env, nowMs) == RedirectToLogin(pathname)
            && GetUser(jar, ctx.env, nowMs) == NOT_AUTHENTICATED
  {
  }

  /**
   * The cookies a started verification leaves: the id cookie names the row just saved,
   * and the token carries the user's id and the purpose, verifying for five minutes.
   */
  lemma StartedCookies(w: World, ctx: Ctx, u: User, kind: CodeType, style: CookieStyle, ctx2: Ctx)
    requires ctx2.env == ctx.env && EpochSeconds(ctx2.nowMs) < EpochSeconds(ctx.nowMs) + VERIFICATION_EXPIRATION
    ensures var w1 := StartVerification(w, ctx, u, kind, style);
            var (codes, id) := SaveVerificationCode(w.codes, u.userId, GenerateVerificationCode(ctx.seed), kind, ctx.nowMs);
            var vt := GetCookie(w1.jar, VERIFICATION_TOKEN_NAME);
            var vid := GetCookie(w1.jar, VERIFICATION_ID_NAME);
            && Present(vt) && Present(vid) && ParseId(vid.value) == Some(id)
            && VerifyVerificationToken(vt.value, ctx2.env, ctx2.nowMs).Ok?
            && VerifyVerificationToken(vt.value, ctx2.env, ctx2.nowMs).value.userId == u.userId
            && VerifyVerificationToken(vt.value, ctx2.env, ctx2.nowMs).value.kind == Some(kind)
            && VerifyCode(codes, Some(id), GenerateVerificationCode(ctx.seed), ctx2.nowMs).1
  {
    var w1 := StartVerification(w, ctx, u, kind, style);
    var (codes, id) := SaveVerificationCode(w.codes, u.userId, GenerateVerificationCode(ctx.seed), kind, ctx.nowMs);
    var vid := GetCookie(w1.jar, VERIFICATION_ID_NAME);
    assert ParseId(vid.value) == Some(id);
    assert Present(vid);
    TokenWindowWithinCodeWindow(ctx.nowMs, ctx2.nowMs);
  }

  /** The verification step with live cookies, a live token and the right code for an active user. */
  lemma VerifyAccepts(body: Json<VerificationInput>, ctx: Ctx, w: World, style: CookieStyle, id: int, u: User)
    requires ParseVerification(body).Ok? && ctx.dbUp
    requires var vt := GetCookie(w.jar, VERIFICATION_TOKEN_NAME);
             Present(vt) && VerifyVerificationToken(vt.value, ctx.env, ctx.nowMs).Ok?
             && VerifyVerificationToken(vt.value, ctx.env, ctx.nowMs).value.userId == u.userId
    requires var vid := GetCookie(w.jar, VERIFICATION_ID_NAME); Present(vid) && ParseId(vid.value) == Some(id)
    requires VerifyCode(w.codes, Some(id), ParseVerification(body).value.code, ctx.nowMs).1
    requires FindById(w.users.rows, u.userId) == Some(u) && u.isActive
    ensures Verify(Some(body), ctx, w, style)
         == Outcome(Response(200, WithProfile(VERIFIED, ProfileOf(u))),
                    SignedIn(w, VerifyCode(w.codes, Some(id), ParseVerification(body).value.code, ctx.nowMs).0, u, ctx, style))
  {
  }

  /** The verification step with live cookies naming a row that is gone. */
  lemma VerifyRefusesMissingRow(body: Json<VerificationInput>, ctx: Ctx, w: World, style: CookieStyle, id: int)
    requires ParseVerification(body).Ok? && ctx.dbUp
    requires var vt := GetCookie(w.jar, VERIFICATION_TOKEN_NAME);
             Present(vt) && VerifyVerificationToken(vt.value, ctx.env, ctx.nowMs).Ok?
    requires var vid := GetCookie(w.jar, VERIFICATION_ID_NAME); Present(vid) && ParseId(vid.value) == Some(id)
    requires id !in w.codes.rows
    ensures Verify(Some(body), ctx, w, style) == Outcome(INVALID_OR_EXPIRED_CODE, w)
  {
  }

  /**
   * The two-factor round trip: the code the login generates (the one e-mailed), sent back
   * while the verification token lives, signs the user in; sending it again with the same
   * cookies is refused, because the row was consumed.
   */
  lemma TwoFactorRoundTrip(body: Json<LoginInput>, data: LoginData, ctx: Ctx, w: World, style: CookieStyle, u: User,
                           ctx2: Ctx, ctx3: Ctx, style2: CookieStyle)
    requires ValidWorld(w)
    requires ParseLogin(body, ctx.validEmail) == Ok(data) && ChallengePasses(ctx, data.turnstileToken) && ctx.dbUp
    requires FindByEmail(w.users.rows, data.email) == Some(u) && u.isActive && ctx.passwordMatches(data.password, u.passwordHash)
    requires ShouldUse2FA(ctx.env)
    requires ctx2.env == ctx.env && ctx2.dbUp && EpochSeconds(ctx2.nowMs) < EpochSeconds(ctx.nowMs) + VERIFICATION_EXPIRATION
    requires ctx3.env == ctx.env && ctx3.dbUp && EpochSeconds(ctx3.nowMs) < EpochSeconds(ctx.nowMs) + VERIFICATION_EXPIRATION
    ensures var o1 := Login(Some(body), ctx, w, style);
            var code := Fields(VerificationInput(Given(GenerateVerificationCode(ctx.seed))));
            var o2 := Verify(Some(code), ctx2, o1.world, style2);
            && o1.world.outbox == w.outbox + [SendVerificationEmail(ctx.env, u.email, GenerateVerificationCode(ctx.seed), TwoFactor)]
            && o2.resp == Response(200, WithProfile(VERIFIED, ProfileOf(u)))
            && GetCookie(o2.world.jar, SESSION_TOKEN_NAME) == Some(Signed(SessionTokenFor(u, ctx2)))
            && Verify(Some(code), ctx3, o2.world.(jar := o1.world.jar), style2).resp == INVALID_OR_EXPIRED_CODE
  {
    var w1 := StartVerification(w, ctx, u, TwoFactor, style);
    assert Login(Some(body), ctx, w, style).world == w1;
    var c := GenerateVerificationCode(ctx.seed);
    var (codes, id) := SaveVerificationCode(w.codes, u.userId, c, TwoFactor, ctx.nowMs);
    StartedCookies(w, ctx, u, TwoFactor, style, ctx2);
    StartedCookies(w, ctx, u, TwoFactor, style, ctx3);
    FoundByEmailFoundById(w.users, data.email, u);
    var code := Fields(VerificationInput(Given(c)));
    assert ParseVerification(code).value.code == c;
    VerifyAccepts(code, ctx2, w1, style2, id, u);
    var codes2 := VerifyCode(codes, Some(id), c, ctx2.nowMs).0;
    var w2 := SignedIn(w1, codes2, u, ctx2, style2);
    assert id !in codes2.rows;
    VerifyRefusesMissingRow(code, ctx3, w2.(jar := w1.jar), style2, id);
  }

  /** The reset step with live cookies, a reset token and the right code for an active user. */
  lemma ResetAccepts(body: Json<ResetInput>, ctx: Ctx, w: World, id: int, u: User)
    requires ParseReset(body).Ok? && ctx.dbUp
    requires var vt := GetCookie(w.jar, VERIFICATION_TOKEN_NAME);
             Present(vt) && ResetTokenOk(VerifyVerificationToken(vt.value, ctx.env, ctx.nowMs))
             && VerifyVerificationToken(vt.value, ctx.env, ctx.nowMs).value.userId == u.userId
    requires var vid := GetCookie(w.jar, VERIFICATION_ID_NAME); Present(vid) && ParseId(vid.value) == Some(id)
    requires VerifyCode(w.codes, Some(id), ParseReset(body).value.code, ctx.nowMs).1
    requires FindById(w.users.rows, u.userId) == Some(u) && u.isActive
    ensures var o := ResetPassword(Some(body), ctx, w);
            o.resp == PASSWORD_RESET_OK && o.world.users == UpdatePasswordHash(w.users, u.userId, ctx.hash(ParseReset(body).value.password))
  {
  }

  /**
   * The reset journey: a reset code requested for an active account and sent back with a
   * new password while its token lives changes the password, after which a login succeeds
   * exactly with a password that matches the new hash.
   */
  lemma ResetThenLogin(rbody: Json<RequestResetInput>, rdata: RequestResetData, ctx: Ctx, w: World, u: User,
                       pbody: Json<ResetInput>, ctx2: Ctx, lbody: Json<LoginInput>, ldata: LoginData, ctx3: Ctx, style: CookieStyle)
    requires ValidWorld(w)
    requires ParseRequestReset(rbody, ctx.validEmail) == Ok(rdata) && ChallengePasses(ctx, rdata.turnstileToken) && ctx.dbUp
    requires FindByEmail(w.users.rows, rdata.email) == Some(u) && u.isActive
    requires ParseReset(pbody).Ok? && ParseReset(pbody).value.code == GenerateVerificationCode(ctx.seed)
    requires ctx2.env == ctx.env && ctx2.dbUp && EpochSeconds(ctx2.nowMs) < EpochSeconds(ctx.nowMs) + VERIFICATION_EXPIRATION
    requires ParseLogin(lbody, ctx3.validEmail) == Ok(ldata) && ldata.email == rdata.email
    requires ChallengePasses(ctx3, ldata.turnstileToken) && ctx3.dbUp
    ensures var o1 := SendCode(Some(rbody), ctx, w);
            var o2 := ResetPassword(Some(pbody), ctx2, o1.world);
            var hash := ctx2.hash(ParseReset(pbody).value.password);
            && o1.resp == RESET_CODE_SENT
            && o2.resp == PASSWORD_RESET_OK
            && (Login(Some(lbody), ctx3, o2.world, style).resp.status == 200 <==> ctx3.passwordMatches(ldata.password, hash))
  {
    var w1 := StartVerification(w, ctx, u, PasswordReset, Helpers);
    assert SendCode(Some(rbody), ctx, w) == Outcome(RESET_CODE_SENT, w1);
    var c := GenerateVerificationCode(ctx.seed);
    var (codes, id) := SaveVerificationCode(w.codes, u.userId, c, PasswordReset, ctx.nowMs);
    StartedCookies(w, ctx, u, PasswordReset, Helpers, ctx2);
    FoundByEmailFoundById(w.users, rdata.email, u);
    var hash := ctx2.hash(ParseReset(pbody).value.password);
    ResetAccepts(pbody, ctx2, w1, id, u);
    var users2 := UpdatePasswordHash(w.users, u.userId, hash);
    var k :| 0 <= k < |w.users.rows| && w.users.rows[k] == u;
    UpdateThenFind(w.users, k, hash, u.email);
    assert FindByEmail(users2.rows, ldata.email) == Some(u.(passwordHash := hash));
  }
}
