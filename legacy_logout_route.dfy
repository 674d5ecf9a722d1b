/** `POST /api/auth/logout`, the older logout: the session cookie is emptied with `clearCookie`. */
module LegacyLogoutRoute {
  import opened AuthConfig
  import opened AuthUtils
  import opened ServerCookies
  import opened Users
  import opened Flow
  import LogoutRoute

  method Post(ctx: Ctx, users: UserRepository, codes: CodeStore, jar: CookieJar, mailer: Mailer) returns (resp: Response)
    modifies jar
    ensures Outcome(resp, Snapshot(users, codes, jar, mailer)) == LogoutRoute.Logout(ctx, old(Snapshot(users, codes, jar, mailer)), Helpers)
  {
    resp := LogoutRoute.Post(ctx, Helpers, users, codes, jar, mailer);
  }

  /** The same answer as the current logout, and a store that looks the same to every handler. */
  lemma MatchesCurrentLogout(ctx: Ctx, w: World)
    ensures LogoutRoute.Logout(ctx, w, Direct).resp == LogoutRoute.Logout(ctx, w, Helpers).resp
    ensures Seen(LogoutRoute.Logout(ctx, w, Direct).world.jar) == Seen(LogoutRoute.Logout(ctx, w, Helpers).world.jar)
  {
    RemoveCookieSeen(w.jar, w.jar, ctx.env, Direct, Helpers, SESSION_TOKEN_NAME);
  }
}
