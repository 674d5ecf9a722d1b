/**
 * The access gate: a request to a public path passes; any other request passes only
 * with a session cookie whose token verifies, and is otherwise redirected to the login
 * page. `CheckRole` is the role-membership test on the same cookie.
 */
module AuthMiddleware {
  import opened Wrappers
  import opened AuthConfig
  import opened Jwt
  import opened ServerCookies

  /** The list used when the caller passes none: the four authentication pages. */
  const DEFAULT_PUBLIC_PATHS: seq<string> := ["/auth/login", "/auth/signup", "/auth/reset-password", "/auth/verify"]

  const LOGIN_PAGE: string := "/auth/login"

  /** One entry of the list: a raw prefix, except `/`, which stands for the home page alone. */
  predicate MatchesPublicPath(path: string, pathname: string)
  {
    (path != "/" && path <= pathname) || (path == "/" && pathname == "/")
  }

  /** `publicPaths.some(...)`. */
  function IsPublic(pathname: string, paths: seq<string>): (b: bool)
    ensures b <==> exists i :: 0 <= i < |paths| && MatchesPublicPath(paths[i], pathname)
  {
    if paths == [] then false
    else
      var rest := IsPublic(pathname, paths[1..]);
      assert forall i :: 1 <= i < |paths| ==> paths[i] == paths[1..][i - 1];
      MatchesPublicPath(paths[0], pathname) || rest
  }

  /**
   * What the gate answers: let the request through, or redirect it to the login page
   * carrying the requested path (kept as the raw pathname; its URL encoding is not modelled).
   */
  datatype Decision = Next | RedirectToLogin(redirect: string)

  /** `authMiddleware(request, publicPaths)`; `cookies` are the request's cookies. */
  function Authorize(pathname: string, cookies: Jar, paths: seq<string>, env: Env, nowMs: int): (d: Decision)
    ensures IsPublic(pathname, paths) ==> d == Next
    ensures !IsPublic(pathname, paths) && !Present(GetCookie(cookies, SESSION_TOKEN_NAME)) ==> d == RedirectToLogin(pathname)
    ensures d == Next <==> IsPublic(pathname, paths)
                           || (Present(GetCookie(cookies, SESSION_TOKEN_NAME))
                               && VerifySessionToken(cookies[SESSION_TOKEN_NAME].value, env, nowMs).Ok?)
    ensures d.RedirectToLogin? ==> d.redirect == pathname
  {
    if IsPublic(pathname, paths) then Next
    else
      var sessionToken := GetCookie(cookies, SESSION_TOKEN_NAME);
      if !Present(sessionToken) then RedirectToLogin(pathname)
      else if VerifySessionToken(sessionToken.value, env, nowMs).Ok? then Next
      else RedirectToLogin(pathname)
  }

  /** Under the default list, exactly the paths under the four authentication pages are public. */
  lemma PublicUnderDefaultList(pathname: string)
    ensures IsPublic(pathname, DEFAULT_PUBLIC_PATHS) <==>
              "/auth/login" <= pathname || "/auth/signup" <= pathname || "/auth/reset-password" <= pathname || "/auth/verify" <= pathname
  {
    if "/auth/login" <= pathname {
      assert MatchesPublicPath(DEFAULT_PUBLIC_PATHS[0], pathname);
    } else if "/auth/signup" <= pathname {
      assert MatchesPublicPath(DEFAULT_PUBLIC_PATHS[1], pathname);
    } else if "/auth/reset-password" <= pathname {
      assert MatchesPublicPath(DEFAULT_PUBLIC_PATHS[2], pathname);
    } else if "/auth/verify" <= pathname {
      assert MatchesPublicPath(DEFAULT_PUBLIC_PATHS[3], pathname);
    }
  }

  /**
   * `authMiddleware(request)` with the default list: the four authentication pages pass;
   * any other path needs a session cookie whose token verifies, or is sent to the login page.
   */
  function AuthorizeDefault(pathname: string, cookies: Jar, env: Env, nowMs: int): (d: Decision)
    ensures d == Next <==>
              "/auth/login" <= pathname || "/auth/signup" <= pathname || "/auth/reset-password" <= pathname || "/auth/verify" <= pathname
              || (Present(GetCookie(cookies, SESSION_TOKEN_NAME)) && VerifySessionToken(cookies[SESSION_TOKEN_NAME].value, env, nowMs).Ok?)
    ensures d != Next ==> d == RedirectToLogin(pathname)
  {
    PublicUnderDefaultList(pathname);
    Authorize(pathname, cookies, DEFAULT_PUBLIC_PATHS, env, nowMs)
  }

  /** Without a session the default list lets the login page through, but not the home page. */
  lemma DefaultListGatesHome(suffix: string, cookies: Jar, env: Env, nowMs: int)
    requires !Present(GetCookie(cookies, SESSION_TOKEN_NAME))
    ensures AuthorizeDefault("/auth/login" + suffix, cookies, env, nowMs) == Next
    ensures AuthorizeDefault("/", cookies, env, nowMs) == RedirectToLogin("/")
  {
    assert "/auth/login" <= "/auth/login" + suffix;
    assert |"/"| < |"/auth/login"| && |"/"| < |"/auth/signup"| && |"/"| < |"/auth/reset-password"| && |"/"| < |"/auth/verify"|;
  }

  /** `checkRole(request, allowedRoles)`: fails closed on a missing cookie or a token that does not verify. */
  function CheckRole(cookies: Jar, allowedRoles: seq<string>, env: Env, nowMs: int): (ok: bool)
    ensures !Present(GetCookie(cookies, SESSION_TOKEN_NAME)) ==> !ok
    ensures ok <==> Present(GetCookie(cookies, SESSION_TOKEN_NAME))
                    && VerifySessionToken(cookies[SESSION_TOKEN_NAME].value, env, nowMs).Ok?
                    && VerifySessionToken(cookies[SESSION_TOKEN_NAME].value, env, nowMs).value.role.Some?
                    && VerifySessionToken(cookies[SESSION_TOKEN_NAME].value, env, nowMs).value.role.value in allowedRoles
  {
    var sessionToken := GetCookie(cookies, SESSION_TOKEN_NAME);
    if !Present(sessionToken) then false
    else
      match VerifySessionToken(sessionToken.value, env, nowMs)
      case Err(_) => false
      case Ok(payload) => payload.role.Some? && payload.role.value in allowedRoles
  }

  /** `"/auth"` in the list makes `"/authx"` public too: prefix matching knows no path segments. */
  lemma PrefixIgnoresSegments()
    ensures IsPublic("/authx", ["/auth"])
  {
    assert MatchesPublicPath(["/auth"][0], "/authx");
  }

  /** A session token of a user passes the gate everywhere until it expires, and is refused after. */
  lemma SessionTokenPasses(pathname: string, cookies: Jar, paths: seq<string>, env: Env, p: Payload, signedAt: int, nowMs: int)
    requires SESSION_TOKEN_NAME in cookies && cookies[SESSION_TOKEN_NAME].value == Signed(CreateSessionToken(p, signedAt, env))
    ensures Authorize(pathname, cookies, paths, env, nowMs) == Next <==>
              IsPublic(pathname, paths) || EpochSeconds(nowMs) < EpochSeconds(signedAt) + SESSION_EXPIRATION
  {
  }

  /**
   * The gate does not tell token kinds apart: a verification token of a pending two-factor
   * login, placed in the session cookie, passes it until it expires.
   */
  lemma VerificationTokenPassesGate(pathname: string, cookies: Jar, paths: seq<string>, env: Env, p: Payload, signedAt: int, nowMs: int)
    requires SESSION_TOKEN_NAME in cookies && cookies[SESSION_TOKEN_NAME].value == Signed(CreateVerificationToken(p, signedAt, env))
    requires EpochSeconds(nowMs) < EpochSeconds(signedAt) + VERIFICATION_EXPIRATION
    ensures Authorize(pathname, cookies, paths, env, nowMs) == Next
  {
  }

  /** Such a token carries no role, so it never passes a role check. */
  lemma VerificationTokenFailsRoleCheck(cookies: Jar, roles: seq<string>, env: Env, u: int, e: string, n: Option<string>, kind: Purpose.CodeType, signedAt: int, nowMs: int)
    requires SESSION_TOKEN_NAME in cookies
    requires cookies[SESSION_TOKEN_NAME].value == Signed(CreateVerificationToken(VerificationPayload(u, e, n, kind), signedAt, env))
    ensures !CheckRole(cookies, roles, env, nowMs)
  {
  }
}
