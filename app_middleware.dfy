/** The application's gate: every request goes through the access gate with this list. */
module AppMiddleware {
  import opened AuthConfig
  import opened Jwt
  import opened ServerCookies
  import opened AuthMiddleware

  const PUBLIC_PATHS: seq<string> := ["/auth", "/api/v1/auth", "/", "/images", "/public"]

  /**
   * `middleware(request)`: the home page and everything under the four prefixes pass;
   * any other path needs a session cookie whose token verifies, or is sent to the login page.
   */
  function Middleware(pathname: string, cookies: Jar, env: Env, nowMs: int): (d: Decision)
    ensures d == Next <==>
              pathname == "/" || "/auth" <= pathname || "/api/v1/auth" <= pathname || "/images" <= pathname || "/public" <= pathname
              || (Present(GetCookie(cookies, SESSION_TOKEN_NAME)) && VerifySessionToken(cookies[SESSION_TOKEN_NAME].value, env, nowMs).Ok?)
    ensures d != Next ==> d == RedirectToLogin(pathname)
  {
    PublicUnderAppList(pathname);
    Authorize(pathname, cookies, PUBLIC_PATHS, env, nowMs)
  }

  /** A path is public under this list iff it is the home page or starts with one of the four prefixes. */
  lemma PublicUnderAppList(pathname: string)
    ensures IsPublic(pathname, PUBLIC_PATHS) <==>
              pathname == "/" || "/auth" <= pathname || "/api/v1/auth" <= pathname || "/images" <= pathname || "/public" <= pathname
  {
    if pathname == "/" {
      assert MatchesPublicPath(PUBLIC_PATHS[2], pathname);
    } else if "/auth" <= pathname {
      assert MatchesPublicPath(PUBLIC_PATHS[0], pathname);
    } else if "/api/v1/auth" <= pathname {
      assert MatchesPublicPath(PUBLIC_PATHS[1], pathname);
    } else if "/images" <= pathname {
      assert MatchesPublicPath(PUBLIC_PATHS[3], pathname);
    } else if "/public" <= pathname {
      assert MatchesPublicPath(PUBLIC_PATHS[4], pathname);
    }
  }

  /** The home page is public; `/explore` is not, since `/` only matches exactly. */
  lemma HomeExactOnly()
    ensures IsPublic("/", PUBLIC_PATHS)
    ensures !IsPublic("/explore", PUBLIC_PATHS)
  {
    PublicUnderAppList("/");
    PublicUnderAppList("/explore");
    assert "/explore"[1] == 'e';
  }

  /** Every `/api/v1/auth` endpoint passes without a session; `/api/v1/user` needs one. */
  lemma ApiPaths(suffix: string, cookies: Jar, env: Env, nowMs: int)
    requires !Present(GetCookie(cookies, SESSION_TOKEN_NAME))
    ensures Middleware("/api/v1/auth" + suffix, cookies, env, nowMs) == Next
    ensures Middleware("/api/v1/user", cookies, env, nowMs) == RedirectToLogin("/api/v1/user")
  {
    PublicUnderAppList("/api/v1/auth" + suffix);
    assert "/api/v1/auth" <= "/api/v1/auth" + suffix;
    PublicUnderAppList("/api/v1/user");
    var q := "/api/v1/user";
    assert "/auth"[2] != q[2] && "/images"[1] != q[1] && "/public"[1] != q[1] && "/api/v1/auth"[8] != q[8];
    assert !("/auth" <= q) && !("/images" <= q) && !("/public" <= q) && !("/api/v1/auth" <= q);
  }

  /**
   * The older `/api/auth/...` endpoints are not on the list: without a session, even the
   * old login endpoint is answered with a redirect to the login page, not with JSON.
   */
  lemma LegacyEndpointsGated(suffix: string, cookies: Jar, env: Env, nowMs: int)
    requires !Present(GetCookie(cookies, SESSION_TOKEN_NAME))
    ensures Middleware("/api/auth/" + suffix, cookies, env, nowMs) == RedirectToLogin("/api/auth/" + suffix)
  {
    var p := "/api/auth/" + suffix;
    PublicUnderAppList(p);
    assert "/auth"[2] != p[2] && "/images"[1] != p[1] && "/public"[1] != p[1] && "/api/v1/auth"[5] != p[5];
    assert !("/auth" <= p) && !("/images" <= p) && !("/public" <= p) && !("/api/v1/auth" <= p);
  }
}
