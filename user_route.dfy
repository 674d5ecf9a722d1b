/** `GET /api/v1/user`: the name and role the session token claims; nothing is written. */
module UserRoute {
  import opened Wrappers
  import opened AuthConfig
  import opened Jwt
  import opened ServerCookies
  import opened Flow

  const NOT_AUTHENTICATED: Response := Response(401, Failure("Não autenticado"))

  /** The handler; it only reads the request's cookies. */
  function GetUser(cookies: Jar, env: Env, nowMs: int): (r: Response)
    ensures !Present(GetCookie(cookies, SESSION_TOKEN_NAME)) ==> r == NOT_AUTHENTICATED
    ensures Present(GetCookie(cookies, SESSION_TOKEN_NAME)) ==>
              match VerifySessionToken(cookies[SESSION_TOKEN_NAME].value, env, nowMs)
              case Err(_) => r == Response(401, Failure(INVALID_TOKEN_MESSAGE))
              case Ok(p) => r == Response(200, CurrentUser(p.name, p.role))
  {
    var sessionToken := GetCookie(cookies, SESSION_TOKEN_NAME);
    if !Present(sessionToken) then NOT_AUTHENTICATED
    else
      match VerifySessionToken(sessionToken.value, env, nowMs)
      case Err(e) => Response(401, Failure(Message(e)))
      case Ok(userData) => Response(200, CurrentUser(userData.name, userData.role))
  }

  /** Only the token's claims reach the answer, never an id or an e-mail. */
  lemma AnswerIsNameAndRole(cookies: Jar, env: Env, nowMs: int, u: int, e: string, n: Option<string>, role: string, signedAt: int)
    requires GetCookie(cookies, SESSION_TOKEN_NAME) == Some(Signed(CreateSessionToken(SessionPayload(u, e, n, role), signedAt, env)))
    requires EpochSeconds(nowMs) < EpochSeconds(signedAt) + SESSION_EXPIRATION
    ensures GetUser(cookies, env, nowMs) == Response(200, CurrentUser(n, Some(role)))
  {
  }
}
