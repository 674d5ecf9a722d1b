/**
 * The response cookie store of a route handler (`cookies()` of the framework) and the
 * helpers that write HTTP-only cookies, expire them, and read them back.
 */
module ServerCookies {
  import opened Wrappers
  import opened AuthConfig
  import opened Jwt

  datatype Attributes = Attributes(httpOnly: bool, secure: bool, sameSite: Option<string>, path: Option<string>, maxAge: int)

  datatype Cookie = Cookie(value: Str, attrs: Attributes)

  /** The cookies by name, as the next request of the same browser would present them. */
  type Jar = map<string, Cookie>

  /** The attributes every helper-written cookie carries: HTTP-only, `lax`, the whole site. */
  function SecureAttributes(env: Env, maxAge: int): (a: Attributes)
    ensures a.httpOnly && a.sameSite == Some("lax") && a.path == Some("/")
    ensures a.secure <==> IsProduction(env)
    ensures a.maxAge == maxAge
  {
    Attributes(true, IsProduction(env), Some("lax"), Some("/"), maxAge)
  }

  /** `cookies().set(...)`: the named cookie is replaced, every other one kept. */
  function Set(jar: Jar, name: string, c: Cookie): (j: Jar)
    ensures name in j && j[name] == c
    ensures forall n :: n != name ==> (n in j <==> n in jar) && (n in jar ==> j[n] == jar[n])
  {
    jar[name := c]
  }

  /** `cookies().delete(name)`: the cookie is gone, every other one kept. */
  function Delete(jar: Jar, name: string): (j: Jar)
    ensures name !in j
    ensures forall n :: n != name ==> (n in j <==> n in jar) && (n in jar ==> j[n] == jar[n])
  {
    jar - {name}
  }

  /** `setSecureCookie(name, value, expiration)`. */
  function SetSecureCookie(jar: Jar, env: Env, name: string, value: Str, expiration: int): Jar
  {
    Set(jar, name, Cookie(value, SecureAttributes(env, expiration)))
  }

  /** `clearCookie(name)`: an empty value with `maxAge: -1`, under the same attributes as `setSecureCookie`. */
  function ClearCookie(jar: Jar, env: Env, name: string): Jar
  {
    Set(jar, name, Cookie(Plain(""), SecureAttributes(env, -1)))
  }

  /** `getCookie(name)`: the value, or `undefined` (`None`). */
  function GetCookie(jar: Jar, name: string): (v: Option<Str>)
    ensures v.Some? <==> name in jar
    ensures v.Some? ==> v.value == jar[name].value
  {
    if name in jar then Some(jar[name].value) else None
  }

  /** The value a handler's `if (!value)` test lets through: present and not the empty string. */
  predicate Present(v: Option<Str>)
  {
    v.Some? && Truthy(v.value)
  }

  /**
   * What the handlers can tell about a store: only the cookies that pass the `!value`
   * test, and their values. An emptied cookie and a removed one look the same.
   */
  function Seen(jar: Jar): (m: map<string, Str>)
    ensures forall n :: n in m <==> Present(GetCookie(jar, n))
    ensures forall n :: n in m ==> n in jar && m[n] == jar[n].value
  {
    map n | n in jar && Truthy(jar[n].value) :: jar[n].value
  }

  lemma GetAfterSetSecure(jar: Jar, env: Env, name: string, value: Str, expiration: int, other: string)
    ensures GetCookie(SetSecureCookie(jar, env, name, value, expiration), name) == Some(value)
    ensures other != name ==> GetCookie(SetSecureCookie(jar, env, name, value, expiration), other) == GetCookie(jar, other)
    ensures SetSecureCookie(jar, env, name, value, expiration)[name].attrs.httpOnly
  {
  }

  /** After clearing, the handlers' presence test fails: clearing and deleting look alike to them. */
  lemma ClearedIsAbsent(jar: Jar, env: Env, name: string)
    ensures !Present(GetCookie(ClearCookie(jar, env, name), name))
    ensures Seen(ClearCookie(jar, env, name)) == Seen(Delete(jar, name))
  {
  }

  /** Clearing twice is clearing once, and clearing writes the attributes setting writes, bar `maxAge`. */
  lemma ClearIdempotent(jar: Jar, env: Env, name: string, value: Str, expiration: int)
    ensures ClearCookie(ClearCookie(jar, env, name), env, name) == ClearCookie(jar, env, name)
    ensures ClearCookie(jar, env, name)[name].attrs == SetSecureCookie(jar, env, name, value, expiration)[name].attrs.(maxAge := -1)
  {
  }

  /** The cookie store object of one response. */
  class CookieJar {
    var cookies: Jar

    constructor (initial: Jar)
      ensures cookies == initial
    {
      cookies := initial;
    }

    /** `cookies().get(name)?.value`: the value of the named cookie, if the store holds one. */
    function Get(name: string): (v: Option<Str>)
      reads this
      ensures v.Some? <==> name in cookies
      ensures v.Some? ==> v.value == cookies[name].value
    {
      if name in cookies then Some(cookies[name].value) else None
    }

    method Put(name: string, c: Cookie)
      modifies this
      ensures cookies == Set(old(cookies), name, c)
    {
      cookies := cookies[name := c];
    }

    method Remove(name: string)
      modifies this
      ensures cookies == Delete(old(cookies), name)
    {
      cookies := cookies - {name};
    }

    method SetSecure(env: Env, name: string, value: Str, expiration: int)
      modifies this
      ensures cookies == SetSecureCookie(old(cookies), env, name, value, expiration)
    {
      Put(name, Cookie(value, Attributes(true, IsProduction(env), Some("lax"), Some("/"), expiration)));
    }

    method Clear(env: Env, name: string)
      modifies this
      ensures cookies == ClearCookie(old(cookies), env, name)
    {
      Put(name, Cookie(Plain(""), Attributes(true, IsProduction(env), Some("lax"), Some("/"), -1)));
    }
  }
}
