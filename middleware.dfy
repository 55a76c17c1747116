/**
 * The request gate in front of the admin pages: every path under `/admin`
 * except the login page itself needs a valid admin cookie, and a request
 * without one is redirected to the login page.  Whether a cookie is a valid
 * admin token (a signed JWT whose role is `admin`) is a parameter.
 */
module Middleware {
  import opened Common

  const ADMIN_PREFIX := "/admin"
  const LOGIN_PATH := "/admin/login"

  /** The parts of the request URL; a redirect clones it and changes the path only. */
  datatype Url = Url(origin: string, pathname: string, search: string, hash: string)

  datatype Decision = Next | Redirect(location: Url)

  /** `s.startsWith(p)` */
  predicate StartsWith(s: string, p: string) {
    |p| <= |s| && s[..|p|] == p
  }

  /** The paths that need the cookie. */
  predicate Guarded(pathname: string) {
    StartsWith(pathname, ADMIN_PREFIX) && pathname != LOGIN_PATH
  }

  /**
   * `middleware(request)` (middleware.js:17-29); `cookie` is the value of the
   * `admin_token` cookie when the request has one.
   */
  function Gate(url: Url, cookie: Option<string>, isAdminCookie: string -> bool): (d: Decision)
    ensures d.Redirect? ==> d.location.pathname == LOGIN_PATH
    ensures d.Redirect? ==> d.location.(pathname := url.pathname) == url
  {
    if Guarded(url.pathname) && !(cookie.Some? && isAdminCookie(cookie.value)) then
      Redirect(url.(pathname := LOGIN_PATH))
    else
      Next
  }

  /** A path outside `/admin` always passes, whatever the cookie. */
  lemma OutsideAdminPasses(url: Url, cookie: Option<string>, isAdminCookie: string -> bool)
    requires !StartsWith(url.pathname, ADMIN_PREFIX)
    ensures Gate(url, cookie, isAdminCookie) == Next
  {
  }

  /** The login page always passes, so a redirect never loops. */
  lemma LoginPasses(url: Url, cookie: Option<string>, isAdminCookie: string -> bool)
    ensures Gate(url.(pathname := LOGIN_PATH), cookie, isAdminCookie) == Next
  {
  }

  /**
   * A guarded path is let through exactly when the cookie is present and
   * valid, and otherwise sent to the login page of the same origin with the
   * same query and fragment.
   */
  lemma GuardedPath(url: Url, cookie: Option<string>, isAdminCookie: string -> bool)
    requires Guarded(url.pathname)
    ensures Gate(url, cookie, isAdminCookie) == Next <==> cookie.Some? && isAdminCookie(cookie.value)
    ensures Gate(url, cookie, isAdminCookie) != Next ==>
      Gate(url, cookie, isAdminCookie) == Redirect(Url(url.origin, LOGIN_PATH, url.search, url.hash))
  {
  }

  /** Following a redirect reaches a page the gate lets through. */
  lemma RedirectTargetPasses(url: Url, cookie: Option<string>, cookie': Option<string>, isAdminCookie: string -> bool)
    requires Gate(url, cookie, isAdminCookie).Redirect?
    ensures Gate(Gate(url, cookie, isAdminCookie).location, cookie', isAdminCookie) == Next
  {
  }

  /** Every path below `/admin/`, other than the login page, is guarded. */
  lemma BelowAdminGuarded(rest: string)
    requires rest != "login"
    ensures Guarded("/admin/" + rest)
  {
    var p := "/admin/" + rest;
    assert p[..|ADMIN_PREFIX|] == ADMIN_PREFIX;
    assert p[7..] == rest;
    assert LOGIN_PATH[7..] == "login";
  }
}
