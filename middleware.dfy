/** The request gate that runs before every page: public paths pass, other paths need a
    verified `auth-token` cookie, and a signed-in user is kept inside their role's area. */
module Middleware {
  import opened Wrappers
  import opened JsString
  import opened Types
  import opened Auth

  const LoginPath: string := "/auth/login"

  const PublicPaths: seq<string> := ["/auth/login", "/auth/register", "/"]

  /** The `rolePaths` table. */
  function RolePath(r: Role): string {
    match r
    case Patient => "/patient"
    case Doctor => "/doctor"
    case Admin => "/admin"
    case Pharmacist => "/pharmacist"
  }

  /** `rolePaths[payload.role]` as the gate uses it: a string that is not a role finds no
      entry, and the resulting `undefined` reads as the text "undefined" both in
      `startsWith` and in the concatenation of the redirect target. */
  function RolePathOf(role: string): (r: string)
    ensures ConformsRole(role) ==> r == RolePath(ParseRole(role).value)
    ensures !ConformsRole(role) ==> r == "undefined"
  {
    match ParseRole(role)
    case Some(x) => RolePath(x)
    case None => "undefined"
  }

  datatype Decision = Next | Redirect(target: string)

  /** `publicPaths.some((path) => pathname.startsWith(path))`. */
  predicate IsPublic(pathname: string) {
    exists i | 0 <= i < |PublicPaths| :: StartsWith(pathname, PublicPaths[i])
  }

  /** `middleware(request)` as written. */
  function Decide(pathname: string, cookies: map<string, Cookie>, key: string, nowMs: int): Decision {
    if IsPublic(pathname) then Next
    else if AuthCookie !in cookies then Redirect(LoginPath)
    else match VerifyToken(cookies[AuthCookie].value, key, nowMs)
      case None => Redirect(LoginPath)
      case Some(p) =>
        var home := RolePathOf(p.role);
        if !StartsWith(pathname, home) then Redirect(home + "/dashboard") else Next
  }

  /** Because "/" is one of the public prefixes, every path that starts with "/" (every path
      a browser can request) is let through before the cookie is looked at: the sign-in
      redirect and the role check are never reached. */
  lemma EveryRootedPathIsPublic(pathname: string, cookies: map<string, Cookie>, key: string, nowMs: int)
    requires StartsWith(pathname, "/")
    ensures IsPublic(pathname)
    ensures Decide(pathname, cookies, key, nowMs) == Next
  {
    assert StartsWith(pathname, PublicPaths[2]);
  }

  /** Outside the public prefixes, a request without the cookie is sent to sign in. */
  lemma NoCookieRedirectsToLogin(pathname: string, cookies: map<string, Cookie>, key: string, nowMs: int)
    requires !IsPublic(pathname) && AuthCookie !in cookies
    ensures Decide(pathname, cookies, key, nowMs) == Redirect(LoginPath)
  {
  }

  /** A cookie that does not verify is treated exactly like no cookie. */
  lemma BadTokenIsNoCookie(pathname: string, cookies: map<string, Cookie>, key: string, nowMs: int)
    requires AuthCookie in cookies && VerifyToken(cookies[AuthCookie].value, key, nowMs).None?
    ensures Decide(pathname, cookies, key, nowMs) == Decide(pathname, cookies - {AuthCookie}, key, nowMs)
  {
  }

  /** With a verified payload, a non-public path outside the role's prefix is redirected to
      that role's dashboard and every other non-public path proceeds. */
  lemma RoleGate(pathname: string, cookies: map<string, Cookie>, key: string, nowMs: int, p: UserPayload)
    requires !IsPublic(pathname)
    requires AuthCookie in cookies && VerifyToken(cookies[AuthCookie].value, key, nowMs) == Some(p)
    ensures Decide(pathname, cookies, key, nowMs) ==
      if StartsWith(pathname, RolePathOf(p.role)) then Next else Redirect(RolePathOf(p.role) + "/dashboard")
  {
  }

  /** `rolePaths` has an entry for each of the four roles, and no two share a prefix. */
  lemma RolePathsDistinct(a: Role, b: Role)
    ensures RolePath(a) == "/" + RoleName(a)
    ensures RolePath(a) == RolePath(b) ==> a == b
  {
  }

  /** The role check compares raw prefixes: "/patientX" counts as inside "/patient". */
  lemma RawPrefixCheck()
    ensures StartsWith("/patientX", RolePath(Patient))
    ensures StartsWith("/doctors", RolePath(Doctor))
  {
  }

  // ---- the matcher -------------------------------------------------------------------------

  /** `config.matcher`, `/((?!api|_next/static|_next/image|favicon.ico).*)`: a path the gate
      runs on starts with "/" and what follows does not start with one of the four excluded
      words (the "." of "favicon.ico" is a pattern wildcard, so it matches any character). */
  predicate Matched(pathname: string) {
    StartsWith(pathname, "/") &&
    var rest := pathname[1..];
    !StartsWith(rest, "api") && !StartsWith(rest, "_next/static") && !StartsWith(rest, "_next/image")
    && !(|rest| >= 11 && rest[..7] == "favicon" && rest[8..11] == "ico")
  }

  /** The excluded paths never reach the gate, whatever follows the excluded word. */
  lemma MatcherExclusions(rest: string, c: char)
    ensures !Matched("/api" + rest)
    ensures !Matched("/_next/static" + rest)
    ensures !Matched("/_next/image" + rest)
    ensures !Matched("/favicon" + [c] + "ico" + rest)
  {
    assert ("/api" + rest)[1..] == "api" + rest;
    assert ("/_next/static" + rest)[1..] == "_next/static" + rest;
    assert ("/_next/image" + rest)[1..] == "_next/image" + rest;
    var f := ("/favicon" + [c] + "ico" + rest)[1..];
    assert f == "favicon" + [c] + "ico" + rest;
    assert f[..7] == "favicon" && f[8..11] == "ico";
  }

  /** Every request the gate does run on is let through. */
  lemma MatchedPathsProceed(pathname: string, cookies: map<string, Cookie>, key: string, nowMs: int)
    requires Matched(pathname)
    ensures Decide(pathname, cookies, key, nowMs) == Next
  {
    EveryRootedPathIsPublic(pathname, cookies, key, nowMs);
  }

  // ---- the evidently intended gate ----------------------------------------------------------

  /** The public test the list evidently means: the home page "/" itself, and the sign-in and
      registration pages with whatever follows them. */
  predicate IsPublicIntended(pathname: string) {
    pathname == "/" || StartsWith(pathname, "/auth/login") || StartsWith(pathname, "/auth/register")
  }

  function DecideIntended(pathname: string, cookies: map<string, Cookie>, key: string, nowMs: int): Decision {
    if IsPublicIntended(pathname) then Next
    else if AuthCookie !in cookies then Redirect(LoginPath)
    else match VerifyToken(cookies[AuthCookie].value, key, nowMs)
      case None => Redirect(LoginPath)
      case Some(p) =>
        var home := RolePathOf(p.role);
        if !StartsWith(pathname, home) then Redirect(home + "/dashboard") else Next
  }

  /** As written, a signed-out request for the admin dashboard proceeds; with "/" matched
      exactly it is sent to sign in. */
  lemma RootPrefixCounterexample(cookies: map<string, Cookie>, key: string, nowMs: int)
    requires AuthCookie !in cookies
    ensures Decide("/admin/dashboard", cookies, key, nowMs) == Next
    ensures DecideIntended("/admin/dashboard", cookies, key, nowMs) == Redirect(LoginPath)
  {
    EveryRootedPathIsPublic("/admin/dashboard", cookies, key, nowMs);
    assert !StartsWith("/admin/dashboard", "/auth/login") by {
      assert "/admin/dashboard"[..11][2] != "/auth/login"[2];
    }
    assert !StartsWith("/admin/dashboard", "/auth/register") by {
      assert "/admin/dashboard"[..14][2] != "/auth/register"[2];
    }
  }

  /** The intended gate signs in every request that is not public and carries no valid token,
      and keeps a signed-in user inside their area: a path outside it is redirected to the
      role's dashboard. */
  lemma IntendedGate(pathname: string, cookies: map<string, Cookie>, key: string, nowMs: int)
    requires !IsPublicIntended(pathname)
    ensures var s := GetSession(cookies, key, nowMs);
      && (s.None? ==> DecideIntended(pathname, cookies, key, nowMs) == Redirect(LoginPath))
      && (s.Some? && !StartsWith(pathname, RolePathOf(s.value.role)) ==>
          DecideIntended(pathname, cookies, key, nowMs) == Redirect(RolePathOf(s.value.role) + "/dashboard"))
      && (s.Some? && StartsWith(pathname, RolePathOf(s.value.role)) ==>
          DecideIntended(pathname, cookies, key, nowMs) == Next)
  {
  }

  // ---- following a redirect ----------------------------------------------------------------

  /** A request path as the browser sends it: it begins with "/". */
  predicate Rooted(path: string) { StartsWith(path, "/") }

  /** The index just past the last "/" of a rooted path. */
  function DirEnd(path: string): (n: nat)
    requires Rooted(path)
    ensures 1 <= n <= |path| && path[n - 1] == '/'
    ensures forall i | n <= i < |path| :: path[i] != '/'
  {
    if path[|path| - 1] == '/' then |path| else DirEnd(path[..|path| - 1])
  }

  /** The request path up to and including its last "/". */
  function Directory(path: string): (d: string)
    requires Rooted(path)
    ensures Rooted(d) && StartsWith(path, d) && d[|d| - 1] == '/'
    ensures forall i | |d| <= i < |path| :: path[i] != '/'
  {
    path[..DirEnd(path)]
  }

  /** The path of `new URL(target, request.url)`: a target that begins with "/" replaces the
      request's path, and any other target replaces the path's last segment. The targets the
      gate builds hold no "." or ".." segments, so no normalisation is modelled. */
  function Resolve(target: string, base: string): (r: string)
    requires Rooted(base)
    ensures Rooted(r)
    ensures Rooted(target) ==> r == target
    ensures !Rooted(target) ==> r == Directory(base) + target
  {
    if Rooted(target) then target
    else
      var d := Directory(base);
      assert (d + target)[..1] == d[..1];
      d + target
  }

  /** The last "/" of a path is the one after which no "/" follows. */
  lemma DirEndUnique(path: string, n: nat)
    requires Rooted(path) && 1 <= n <= |path| && path[n - 1] == '/'
    requires forall i | n <= i < |path| :: path[i] != '/'
    ensures DirEnd(path) == n
  {
  }

  /** When the redirect ends in a final segment without "/", the directory of the resolved
      path is exactly the directory it was resolved against followed by the target's own
      directory part. */
  lemma DirectoryOfResolved(dir: string, target: string, k: nat)
    requires Rooted(dir) && dir[|dir| - 1] == '/'
    requires 1 <= k <= |target| && target[k - 1] == '/'
    requires forall i | k <= i < |target| :: target[i] != '/'
    ensures Rooted(dir + target) && Directory(dir + target) == dir + target[..k]
  {
    var p := dir + target;
    assert p[..1] == dir[..1];
    assert p[|dir| + k - 1] == '/';
    assert forall i | |dir| + k <= i < |p| :: p[i] == target[i - |dir|];
    DirEndUnique(p, |dir| + k);
    assert p[..|dir| + k] == dir + target[..k];
  }

  /** A rooted path that is not one of the intended public paths is no longer public once its
      last segment is replaced by "undefined/dashboard". */
  lemma UnknownTargetNotPublic(pathname: string)
    requires Rooted(pathname) && !IsPublicIntended(pathname)
    ensures !IsPublicIntended(Resolve(UnknownTarget, pathname))
  {
    var d := Directory(pathname);
    assert !Rooted(UnknownTarget) by { assert UnknownTarget[..1] == "u"; }
    var q := Resolve(UnknownTarget, pathname);
    TargetNotUnder(pathname, d, q, "/auth/login");
    TargetNotUnder(pathname, d, q, "/auth/register");
    assert |q| > 1;
  }

  /** The path "undefined/dashboard" resolves to does not start with one of the two public
      prefixes unless the request's path already did. */
  lemma TargetNotUnder(pathname: string, d: string, q: string, prefix: string)
    requires prefix == "/auth/login" || prefix == "/auth/register"
    requires Rooted(pathname) && d == Directory(pathname) && q == d + UnknownTarget
    requires !StartsWith(pathname, prefix)
    ensures !StartsWith(q, prefix)
  {
    assert q[..|d|] == d == pathname[..|d|];
    if |d| >= |prefix| {
      assert q[..|prefix|] == pathname[..|prefix|];
    } else if |d| == 1 || |d| == 6 {
      assert q[|d|] == 'u' != prefix[|d|];
    } else {
      assert q[|d| - 1] == '/' != prefix[|d| - 1];
    }
  }

  /** The redirect target of a token whose role has no entry in `rolePaths`. */
  const UnknownTarget: string := "undefined/dashboard"

  /** Following the intended gate's redirect, for a payload whose role is one of the four,
      leads to a request the gate lets through: the sign-in page is public and a role's
      dashboard lies inside the role's prefix. */
  lemma IntendedNoRedirectLoop(pathname: string, cookies: map<string, Cookie>, key: string, nowMs: int)
    requires Rooted(pathname)
    requires DecideIntended(pathname, cookies, key, nowMs).Redirect?
    requires GetSession(cookies, key, nowMs).Some? ==> ConformsRole(GetSession(cookies, key, nowMs).value.role)
    ensures var target := DecideIntended(pathname, cookies, key, nowMs).target;
      DecideIntended(Resolve(target, pathname), cookies, key, nowMs) == Next
  {
    var target := DecideIntended(pathname, cookies, key, nowMs).target;
    if target == LoginPath {
      assert Resolve(target, pathname) == target;
      assert StartsWith(target, "/auth/login");
    } else {
      var p := VerifyToken(cookies[AuthCookie].value, key, nowMs).value;
      var home := RolePathOf(p.role);
      assert target == home + "/dashboard";
      assert target[..1] == home[..1] == "/";
      assert Resolve(target, pathname) == target;
      assert target[..|home|] == home;
    }
  }

  /** A verified token whose role is not one of the four never lands: every non-public path is
      redirected to "undefined/dashboard", which resolves against the current path to another
      non-public path whose directory has grown by "undefined/", so following redirects
      never reaches a page (for "/admin/x": "/admin/undefined/dashboard", then
      "/admin/undefined/undefined/dashboard", and so on). */
  lemma UnknownRoleRedirectsForever(pathname: string, cookies: map<string, Cookie>, key: string, nowMs: int)
    requires Rooted(pathname) && !IsPublicIntended(pathname)
    requires GetSession(cookies, key, nowMs).Some? && !ConformsRole(GetSession(cookies, key, nowMs).value.role)
    ensures DecideIntended(pathname, cookies, key, nowMs) == Redirect(UnknownTarget)
    ensures var next := Resolve(UnknownTarget, pathname);
      && Rooted(next) && !IsPublicIntended(next)
      && Directory(next) == Directory(pathname) + "undefined/"
  {
    assert !StartsWith(pathname, "undefined") by {
      assert pathname[..1][0] == '/';
      if |pathname| >= 9 {
        assert pathname[..9][0] == '/' != "undefined"[0];
      }
    }
    IntendedGate(pathname, cookies, key, nowMs);
    assert RolePathOf(GetSession(cookies, key, nowMs).value.role) + "/dashboard" == UnknownTarget;
    UnknownTargetNotPublic(pathname);
    var d := Directory(pathname);
    assert d[..1] == pathname[..1];
    DirectoryOfResolved(d, UnknownTarget, 10);
    assert UnknownTarget[..10] == "undefined/";
  }
}
