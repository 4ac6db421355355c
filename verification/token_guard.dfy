/** The token-only route guard of the top-level middleware.ts: it protects
    the admin area with the session token alone and ignores role and company
    status. */
module TokenGuard {
  import opened Wrappers
  import opened Strings
  import opened Cookies
  import opened Routing

  /** The file's own `AUTH_TOKEN_COOKIE`. */
  const TokenCookie := "firebase-auth-token"

  const AdminLoginPath := "/admin/login"
  const AdminHomePath := "/admin"

  /** The prefixes `config.matcher` keeps away from this guard; unlike the
      role-aware guard, `guide/pending` is not among them. */
  const Excluded: seq<string> := ["api", "_next/static", "_next/image", "favicon.ico"]

  predicate InScope(path: string) {
    Matches(path, Excluded)
  }

  /** The body of `middleware`. Only `/admin`-prefixed paths are ever
      redirected, only to the admin login page or the admin home, and a
      request that reaches the admin area beyond its login page carries a
      token. */
  function Decide(path: string, jar: CookieStore): (d: Decision)
    ensures d.Redirect? ==> StartsWith(path, "/admin") && d.target in {AdminLoginPath, AdminHomePath}
    ensures StartsWith(path, "/admin") && path != AdminLoginPath ==> (d == Continue <==> Truthy(Get(jar, TokenCookie)))
  {
    var token := Get(jar, TokenCookie);
    var isAdminRoute := StartsWith(path, "/admin");
    var isLoginPage := path == AdminLoginPath;
    if isAdminRoute && !isLoginPage && !Truthy(token) then
      Redirect(AdminLoginPath)
    else if isLoginPage && Truthy(token) then
      Redirect(AdminHomePath)
    else
      Continue
  }

  /** The guard as deployed: requests outside `config.matcher` continue. */
  function Guard(path: string, jar: CookieStore): Decision {
    Screen(path, Excluded, Decide(path, jar))
  }

  /** The cookie this guard reads is the one the login action writes. */
  lemma SameTokenCookie()
    ensures TokenCookie == AuthTokenCookie
  {
  }

  /** An `/admin`-prefixed page other than the login page is sent to the
      login page without a non-empty token, and let through with one. */
  lemma AdminAreaNeedsToken(path: string, jar: CookieStore)
    requires StartsWith(path, "/admin") && path != AdminLoginPath
    ensures !Truthy(Get(jar, TokenCookie)) ==> Decide(path, jar) == Redirect(AdminLoginPath)
    ensures Truthy(Get(jar, TokenCookie)) ==> Decide(path, jar) == Continue
  {
  }

  /** The admin login page sends a visitor with a token to the admin home
      and shows itself to everyone else. */
  lemma AdminLoginPageRule(jar: CookieStore)
    ensures Truthy(Get(jar, TokenCookie)) ==> Decide(AdminLoginPath, jar) == Redirect(AdminHomePath)
    ensures !Truthy(Get(jar, TokenCookie)) ==> Decide(AdminLoginPath, jar) == Continue
  {
  }

  /** Every path outside the admin area continues, the guide pages included. */
  lemma OutsideAdminContinues(path: string, jar: CookieStore)
    requires !StartsWith(path, "/admin")
    ensures Guard(path, jar) == Continue
  {
  }

  /** The decision depends on the path and the token cookie only. */
  lemma ReadsTokenOnly(path: string, a: CookieStore, b: CookieStore)
    requires Get(a, TokenCookie) == Get(b, TokenCookie)
    ensures Guard(path, a) == Guard(path, b)
  {
  }

  /** A path whose text after the slash begins with an excluded prefix is
      never redirected. */
  lemma ExcludedPathsContinue(i: nat, rest: string, jar: CookieStore)
    requires i < |Excluded|
    ensures Guard("/" + Excluded[i] + rest, jar) == Continue
  {
    var path := "/" + Excluded[i] + rest;
    assert path[1..] == Excluded[i] + rest;
    assert StartsWith(path[1..], Excluded[i]);
  }

  /** The pending page is in this guard's scope, and it lets it through. */
  lemma PendingPageInScope(jar: CookieStore)
    ensures InScope("/guide/pending")
    ensures Guard("/guide/pending", jar) == Continue
  {
    var rest := "/guide/pending"[1..];
    DiffersAt(rest, Excluded[0], 0);
    DiffersAt(rest, Excluded[1], 0);
    DiffersAt(rest, Excluded[2], 0);
    DiffersAt(rest, Excluded[3], 0);
    DiffersAt("/guide/pending", "/admin", 1);
  }

  /** No request is redirected to its own path. */
  lemma NoSelfRedirect(path: string, jar: CookieStore)
    requires Decide(path, jar).Redirect?
    ensures Decide(path, jar).target != path
  {
  }

  /** After one redirect the guard lets the request through. */
  lemma RedirectsSettle(path: string, jar: CookieStore)
    requires Guard(path, jar).Redirect?
    ensures Guard(Guard(path, jar).target, jar) == Continue
  {
    var t := Guard(path, jar).target;
    if t == AdminLoginPath {
      assert !Truthy(Get(jar, TokenCookie));
    } else {
      assert Truthy(Get(jar, TokenCookie));
      assert StartsWith(AdminHomePath, "/admin");
    }
  }
}
