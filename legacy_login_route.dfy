/**
 * `POST /api/auth/login`, the older login endpoint: the steps of the current one, with
 * every cookie written by `setSecureCookie` (so also `sameSite: lax` and `path: /`).
 */
module LegacyLoginRoute {
  import opened Wrappers
  import opened AuthConfig
  import opened AuthUtils
  import opened Schemas
  import opened ServerCookies
  import opened Users
  import opened Flow
  import LoginRoute

  method Post(body: Option<Json<LoginInput>>, ctx: Ctx,
              users: UserRepository, codes: CodeStore, jar: CookieJar, mailer: Mailer) returns (resp: Response)
    modifies codes, jar, mailer
    ensures Outcome(resp, Snapshot(users, codes, jar, mailer)) == LoginRoute.Login(body, ctx, old(Snapshot(users, codes, jar, mailer)), Helpers)
  {
    resp := LoginRoute.Post(body, ctx, Helpers, users, codes, jar, mailer);
  }

  /**
   * Both endpoints give the same response and write the same tables, mail and cookie
   * values and lifetimes; only the cookies' `sameSite` and `path` attributes differ.
   */
  lemma MatchesCurrentLogin(body: Option<Json<LoginInput>>, ctx: Ctx, w: World)
    ensures var v1 := LoginRoute.Login(body, ctx, w, Direct);
            var old_ := LoginRoute.Login(body, ctx, w, Helpers);
            v1.resp == old_.resp && v1.world.users == old_.world.users && v1.world.codes == old_.world.codes
            && v1.world.outbox == old_.world.outbox && SameValues(v1.world.jar, old_.world.jar)
            && Seen(v1.world.jar) == Seen(old_.world.jar)
  {
    var v1 := LoginRoute.Login(body, ctx, w, Direct);
    var old_ := LoginRoute.Login(body, ctx, w, Helpers);
    if body.Some? && ParseLogin(body.value, ctx.validEmail).Ok? {
      var data := ParseLogin(body.value, ctx.validEmail).value;
      var u := FindByEmail(w.users.rows, data.email);
      if ChallengePasses(ctx, data.turnstileToken) && ctx.dbUp && u.Some? {
        StartVerificationStyles(w, ctx, u.value, Purpose.TwoFactor);
        WriteCookieStyles(w.jar, w.jar, ctx.env, SESSION_TOKEN_NAME, Jwt.Signed(SessionTokenFor(u.value, ctx)), SESSION_EXPIRATION);
      }
    }
    SameValuesSeen(v1.world.jar, old_.world.jar);
  }
}
