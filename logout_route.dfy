/**
 * `POST /api/v1/auth/logout` deletes the session cookie; the older `/api/auth/logout`
 * empties it with `clearCookie`. Either way the answer is the same.
 */
module LogoutRoute {
  import opened AuthConfig
  import opened Jwt
  import opened AuthUtils
  import opened ServerCookies
  import opened Users
  import opened Flow

  const LOGGED_OUT: Response := Response(200, Notice("Logout bem-sucedido"))

  function Logout(ctx: Ctx, w: World, style: CookieStyle): (o: Outcome)
    ensures o.resp == LOGGED_OUT
    ensures o.world.users == w.users && o.world.codes == w.codes && o.world.outbox == w.outbox
    ensures !Present(GetCookie(o.world.jar, SESSION_TOKEN_NAME))
    ensures GetCookie(o.world.jar, VERIFICATION_TOKEN_NAME) == GetCookie(w.jar, VERIFICATION_TOKEN_NAME)
    ensures GetCookie(o.world.jar, VERIFICATION_ID_NAME) == GetCookie(w.jar, VERIFICATION_ID_NAME)
    ensures style == Direct ==> SESSION_TOKEN_NAME !in o.world.jar
    ensures style == Helpers ==> SESSION_TOKEN_NAME in o.world.jar && o.world.jar[SESSION_TOKEN_NAME] == Cookie(Plain(""), SecureAttributes(ctx.env, -1))
  {
    CookieNamesDistinct();
    Outcome(LOGGED_OUT, w.(jar := RemoveCookie(w.jar, ctx.env, style, SESSION_TOKEN_NAME)))
  }

  method Post(ctx: Ctx, style: CookieStyle, users: UserRepository, codes: CodeStore, jar: CookieJar, mailer: Mailer)
    returns (resp: Response)
    modifies jar
    ensures Outcome(resp, Snapshot(users, codes, jar, mailer)) == Logout(ctx, old(Snapshot(users, codes, jar, mailer)), style)
  {
    RemoveCookieOn(jar, ctx.env, style, SESSION_TOKEN_NAME);
    resp := LOGGED_OUT;
  }

  /** Logging out twice is logging out once, with or without a session, in both variants. */
  lemma LogoutIdempotent(ctx: Ctx, w: World, style: CookieStyle)
    ensures Logout(ctx, Logout(ctx, w, style).world, style) == Logout(ctx, w, style)
  {
  }
}
