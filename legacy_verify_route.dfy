/**
 * `POST /api/auth/verify`, the older two-factor step: the steps of the current one, the
 * session cookie written by `setSecureCookie` and the verification cookies emptied by
 * `clearCookie` rather than deleted.
 */
module LegacyVerifyRoute {
  import opened Wrappers
  import opened AuthConfig
  import opened Jwt
  import opened AuthUtils
  import opened Schemas
  import opened ServerCookies
  import opened Users
  import opened Flow
  import VerifyRoute

  method Post(body: Option<Json<VerificationInput>>, ctx: Ctx,
              users: UserRepository, codes: CodeStore, jar: CookieJar, mailer: Mailer) returns (resp: Response)
    modifies codes, jar
    ensures Outcome(resp, Snapshot(users, codes, jar, mailer)) == VerifyRoute.Verify(body, ctx, old(Snapshot(users, codes, jar, mailer)), Helpers)
  {
    resp := VerifyRoute.Post(body, ctx, Helpers, users, codes, jar, mailer);
  }

  /**
   * Both endpoints give the same response and write the same tables; the cookie stores
   * they leave differ (an emptied cookie against a deleted one) but look the same to every handler.
   */
  lemma MatchesCurrentVerify(body: Option<Json<VerificationInput>>, ctx: Ctx, w: World)
    ensures var v1 := VerifyRoute.Verify(body, ctx, w, Direct);
            var old_ := VerifyRoute.Verify(body, ctx, w, Helpers);
            v1.resp == old_.resp && v1.world.users == old_.world.users && v1.world.codes == old_.world.codes
            && Seen(v1.world.jar) == Seen(old_.world.jar)
  {
    var v1 := VerifyRoute.Verify(body, ctx, w, Direct);
    var old_ := VerifyRoute.Verify(body, ctx, w, Helpers);
    if v1.resp.status == 200 {
      var data := ParseVerification(body.value).value;
      var vt := GetCookie(w.jar, VERIFICATION_TOKEN_NAME);
      var vid := GetCookie(w.jar, VERIFICATION_ID_NAME);
      var payload := VerifyVerificationToken(vt.value, ctx.env, ctx.nowMs).value;
      var (codes, _) := VerifyCode(w.codes, ParseId(vid.value), data.code, ctx.nowMs);
      var u := FindById(w.users.rows, payload.userId).value;
      var token := Signed(SessionTokenFor(u, ctx));
      WriteCookieSeen(w.jar, w.jar, ctx.env, Direct, Helpers, SESSION_TOKEN_NAME, token, SESSION_EXPIRATION);
      var a := WriteCookie(w.jar, ctx.env, Direct, SESSION_TOKEN_NAME, token, SESSION_EXPIRATION);
      var b := WriteCookie(w.jar, ctx.env, Helpers, SESSION_TOKEN_NAME, token, SESSION_EXPIRATION);
      RemoveCookieSeen(a, b, ctx.env, Direct, Helpers, VERIFICATION_TOKEN_NAME);
      RemoveCookieSeen(RemoveCookie(a, ctx.env, Direct, VERIFICATION_TOKEN_NAME), RemoveCookie(b, ctx.env, Helpers, VERIFICATION_TOKEN_NAME),
                       ctx.env, Direct, Helpers, VERIFICATION_ID_NAME);
    }
  }
}
