/** The role-aware route guard of src/middleware.ts: it reads the session
    token, the user's role and the company status from the cookies and either
    lets the request through or redirects it. */
module RoleGuard {
  import opened Wrappers
  import opened Strings
  import opened Cookies
  import opened Routing

  const AdminLoginPath := "/admin/login"
  const AdminHomePath := "/admin"
  const LoginPath := "/login"
  const PendingPath := "/guide/pending"
  const GuideHomePath := "/guide"
  const HomePath := "/home"

  /** The pages a signed-in user is sent away from. */
  const AuthRoutes: seq<string> := ["/login", "/register", "/register/user", "/register/agent"]

  /** The prefixes `config.matcher` keeps away from this guard. */
  const Excluded: seq<string> := ["api", "_next/static", "_next/image", "favicon.ico", "guide/pending"]

  /** Every path this guard can redirect to. */
  const Targets: set<string> := {AdminLoginPath, AdminHomePath, LoginPath, PendingPath, GuideHomePath, HomePath}

  predicate InScope(path: string) {
    Matches(path, Excluded)
  }

  /** Where a signed-in user on an auth page is sent, by role. */
  function HomeFor(role: Option<string>): (target: string)
    ensures target in {AdminHomePath, GuideHomePath, HomePath}
    ensures target == AdminHomePath <==> role == Some("admin")
    ensures target == GuideHomePath <==> role == Some("agent")
  {
    if role == Some("admin") then AdminHomePath
    else if role == Some("agent") then GuideHomePath
    else HomePath
  }

  /** The body of `middleware`: the rules in source order, first match wins.
      Every redirect goes to one of the guard's fixed targets, and only a
      request that carries a role or a token is redirected anywhere but to a
      login page. */
  function Decide(path: string, jar: CookieStore): (d: Decision)
    ensures d.Redirect? ==> d.target in Targets
    ensures d.Redirect? && d.target !in {AdminLoginPath, LoginPath} ==>
              Get(jar, UserRoleCookie).Some? || Truthy(Get(jar, AuthTokenCookie))
  {
    var token := Get(jar, AuthTokenCookie);
    var userRole := Get(jar, UserRoleCookie);
    var companyStatus := Get(jar, CompanyStatusCookie);
    var isAdminRoute := StartsWith(path, "/admin");
    var isAgentRoute := StartsWith(path, "/guide");
    var isAuthRoute := path in AuthRoutes;
    if isAdminRoute && path != AdminLoginPath && userRole != Some("admin") then
      Redirect(AdminLoginPath)
    else if path == AdminLoginPath && userRole == Some("admin") then
      Redirect(AdminHomePath)
    else if isAgentRoute && userRole != Some("agent") then
      Redirect(LoginPath)
    else if isAgentRoute && Truthy(companyStatus) && companyStatus != Some("active") then
      Redirect(PendingPath)
    else if isAuthRoute && Truthy(token) then
      Redirect(HomeFor(userRole))
    else
      Continue
  }

  /** The guard as deployed: requests outside `config.matcher` never reach
      `middleware` and always continue. */
  function Guard(path: string, jar: CookieStore): Decision {
    Screen(path, Excluded, Decide(path, jar))
  }

  // ---------------------------------------------------------------------
  // The rules one at a time

  /** Any `/admin`-prefixed page other than the admin login page needs the
      `admin` role, whatever the session token says. */
  lemma AdminAreaNeedsAdminRole(path: string, jar: CookieStore)
    requires StartsWith(path, "/admin") && path != AdminLoginPath
    requires Get(jar, UserRoleCookie) != Some("admin")
    ensures Decide(path, jar) == Redirect(AdminLoginPath)
  {
  }

  /** The admin login page sends an admin home and lets everyone else in. */
  lemma AdminLoginPageRule(jar: CookieStore)
    ensures Decide(AdminLoginPath, jar) == Redirect(AdminHomePath) <==> Get(jar, UserRoleCookie) == Some("admin")
    ensures Get(jar, UserRoleCookie) != Some("admin") ==> Decide(AdminLoginPath, jar) == Continue
  {
    assert StartsWith(AdminLoginPath, "/admin");
    assert !StartsWith(AdminLoginPath, "/guide") by { assert AdminLoginPath[1] != "/guide"[1]; }
  }

  /** A `/guide`-prefixed path (a string prefix, so `/guidebook` too) needs
      the `agent` role. */
  lemma GuideNeedsAgentRole(path: string, jar: CookieStore)
    requires StartsWith(path, "/guide")
    requires Get(jar, UserRoleCookie) != Some("agent")
    ensures Decide(path, jar) == Redirect(LoginPath)
  {
    assert !StartsWith(path, "/admin") by { assert path[1] == 'g'; }
  }

  lemma GuidebookIsGuarded(jar: CookieStore)
    requires Get(jar, UserRoleCookie) != Some("agent")
    ensures Decide("/guidebook", jar) == Redirect(LoginPath)
  {
    GuideNeedsAgentRole("/guidebook", jar);
  }

  /** An agent on a `/guide` path is held at the pending page exactly when a
      non-empty company status other than `active` is set. */
  lemma GuideCompanyStatus(path: string, jar: CookieStore)
    requires StartsWith(path, "/guide")
    requires Get(jar, UserRoleCookie) == Some("agent")
    ensures var status := Get(jar, CompanyStatusCookie);
            Decide(path, jar) == (if status.Some? && status.value != "" && status.value != "active"
                                  then Redirect(PendingPath) else Continue)
  {
    AreaTestsDisjoint(path);
  }

  /** A signed-in visitor of a login or registration page is sent to the
      home of their role; without a token the page is shown. */
  lemma AuthRoutesRedirectSignedIn(path: string, jar: CookieStore)
    requires path in AuthRoutes
    ensures Truthy(Get(jar, AuthTokenCookie)) ==> Decide(path, jar) == Redirect(HomeFor(Get(jar, UserRoleCookie)))
    ensures !Truthy(Get(jar, AuthTokenCookie)) ==> Decide(path, jar) == Continue
  {
    AreaTestsDisjoint(path);
  }

  // ---------------------------------------------------------------------
  // Rule order: the areas the rules test are disjoint

  /** The part of the site a path belongs to, as the rules test it. */
  datatype Area = AdminLoginPage | AdminArea | GuideArea | AuthPage | OtherPage

  /** No path is both an admin and a guide path, and no auth page is
      either. */
  lemma AreaTestsDisjoint(path: string)
    ensures StartsWith(path, "/admin") ==> !StartsWith(path, "/guide")
    ensures path in AuthRoutes ==> !StartsWith(path, "/admin") && !StartsWith(path, "/guide")
  {
    if StartsWith(path, "/admin") {
      DiffersAt(path, "/guide", 1);
    }
    if path in AuthRoutes {
      assert path[1] in "lr";
      DiffersAt(path, "/admin", 1);
      DiffersAt(path, "/guide", 1);
    }
  }

  /** The path tests of `middleware` partition all paths into areas. */
  function AreaOf(path: string): (a: Area)
    ensures a == AdminLoginPage <==> path == AdminLoginPath
    ensures a == AdminArea <==> StartsWith(path, "/admin") && path != AdminLoginPath
    ensures a == GuideArea <==> StartsWith(path, "/guide")
    ensures a == AuthPage <==> path in AuthRoutes
  {
    AreaTestsDisjoint(path);
    if path == AdminLoginPath then AdminLoginPage
    else if StartsWith(path, "/admin") then AdminArea
    else if StartsWith(path, "/guide") then GuideArea
    else if path in AuthRoutes then AuthPage
    else OtherPage
  }

  /** The access policy stated per area, with no order among the areas. */
  function Policy(area: Area, role: Option<string>, status: Option<string>, token: Option<string>): Decision {
    match area
    case AdminLoginPage => if role == Some("admin") then Redirect(AdminHomePath) else Continue
    case AdminArea => if role == Some("admin") then Continue else Redirect(AdminLoginPath)
    case GuideArea =>
      if role != Some("agent") then Redirect(LoginPath)
      else if Truthy(status) && status != Some("active") then Redirect(PendingPath)
      else Continue
    case AuthPage => if Truthy(token) then Redirect(HomeFor(role)) else Continue
    case OtherPage => Continue
  }

  /** The first-match rule chain decides as the per-area policy does, so the
      order of the rules only matters inside an area; a path of no area
      continues. */
  lemma DecideByArea(path: string, jar: CookieStore)
    ensures Decide(path, jar) == Policy(AreaOf(path), Get(jar, UserRoleCookie), Get(jar, CompanyStatusCookie), Get(jar, AuthTokenCookie))
  {
  }

  // ---------------------------------------------------------------------
  // Scope, self-redirects, and what the guard reads

  /** A path whose text after the slash begins with an excluded prefix is
      never redirected. */
  lemma ExcludedPathsContinue(i: nat, rest: string, jar: CookieStore)
    requires i < |Excluded|
    ensures Guard("/" + Excluded[i] + rest, jar) == Continue
  {
    var path := "/" + Excluded[i] + rest;
    assert path[1..] == Excluded[i] + rest;
    assert StartsWith(path[1..], Excluded[i]);
  }

  /** No in-scope request is redirected to its own path. */
  lemma NoSelfRedirect(path: string, jar: CookieStore)
    requires InScope(path)
    requires Decide(path, jar).Redirect?
    ensures Decide(path, jar).target != path
  {
    TargetsInScope();
    AreaTestsDisjoint(path);
    if StartsWith(path, "/guide") {
      DiffersAt(LoginPath, "/guide", 1);
    }
  }

  /** Without the `guide/pending` exclusion, an agent whose company is not yet
      active would be redirected from the pending page to itself. */
  lemma PendingExclusionPreventsLoop()
    ensures !InScope(PendingPath)
    ensures Decide(PendingPath, map[UserRoleCookie := "agent", CompanyStatusCookie := "pending"]) == Redirect(PendingPath)
  {
    TargetsInScope();
    assert StartsWith(PendingPath, "/guide");
    DiffersAt(PendingPath, "/admin", 1);
  }

  /** The decision depends on the path and on the token, role and company
      status cookies only. */
  lemma ReadsThreeCookies(path: string, a: CookieStore, b: CookieStore)
    requires Get(a, AuthTokenCookie) == Get(b, AuthTokenCookie)
    requires Get(a, UserRoleCookie) == Get(b, UserRoleCookie)
    requires Get(a, CompanyStatusCookie) == Get(b, CompanyStatusCookie)
    ensures Guard(path, a) == Guard(path, b)
  {
  }

  /** Following the guard's redirects with unchanged cookies reaches a page
      it lets through after at most `hops` redirects. */
  predicate SettlesWithin(path: string, jar: CookieStore, hops: nat)
    decreases hops
  {
    var d := Guard(path, jar);
    d.Continue? || (hops > 0 && SettlesWithin(d.target, jar, hops - 1))
  }

  /** What the guard decides at each of its own redirect targets. */
  lemma GuardAtTargets(jar: CookieStore)
    ensures var role := Get(jar, UserRoleCookie);
      && Guard(AdminLoginPath, jar) == (if role == Some("admin") then Redirect(AdminHomePath) else Continue)
      && Guard(AdminHomePath, jar) == (if role == Some("admin") then Continue else Redirect(AdminLoginPath))
      && Guard(LoginPath, jar) == (if Truthy(Get(jar, AuthTokenCookie)) then Redirect(HomeFor(role)) else Continue)
      && Guard(GuideHomePath, jar) ==
           (var status := Get(jar, CompanyStatusCookie);
            if role != Some("agent") then Redirect(LoginPath)
            else if Truthy(status) && status != Some("active") then Redirect(PendingPath)
            else Continue)
      && Guard(HomePath, jar) == Continue
      && Guard(PendingPath, jar) == Continue
  {
    TargetsInScope();
    DecideByArea(AdminLoginPath, jar);
    DecideByArea(AdminHomePath, jar);
    DecideByArea(LoginPath, jar);
    DecideByArea(GuideHomePath, jar);
    DecideByArea(HomePath, jar);
  }

  /** There is no redirect loop: every request settles within two redirects. */
  lemma RedirectsSettle(path: string, jar: CookieStore)
    ensures SettlesWithin(path, jar, 2)
  {
    GuardAtTargets(jar);
    var d := Guard(path, jar);
    if d.Redirect? {
      var role := Get(jar, UserRoleCookie);
      var t := d.target;
      assert t in Targets;
      if t == LoginPath {
        // Only a non-agent is sent to the login page, and its home is not
        // the guide area.
        assert role != Some("agent") by { DecideByArea(path, jar); }
        assert SettlesWithin(HomeFor(role), jar, 0);
      } else if t == GuideHomePath {
        assert SettlesWithin(PendingPath, jar, 0);
      }
    }
  }

  /** A path whose text after the slash starts neither `api`, `_`, `f`
      nor `guide/pending` is in the matcher's scope. */
  lemma InScopeByLeadingText(path: string)
    requires |path| >= 3 && path[0] == '/'
    requires path[1] != '_' && path[1] != 'f'
    requires path[1] == 'a' ==> path[2] != 'p'
    requires !StartsWith(path[1..], "guide/pending")
    ensures InScope(path)
  {
    var rest := path[1..];
    if rest[0] == 'a' {
      DiffersAt(rest, Excluded[0], 1);
    } else {
      DiffersAt(rest, Excluded[0], 0);
    }
    DiffersAt(rest, Excluded[1], 0);
    DiffersAt(rest, Excluded[2], 0);
    DiffersAt(rest, Excluded[3], 0);
  }

  /** Where each redirect target falls in the matcher and among the areas. */
  lemma TargetsInScope()
    ensures InScope(AdminLoginPath) && InScope(AdminHomePath) && InScope(LoginPath)
    ensures InScope(GuideHomePath) && InScope(HomePath) && !InScope(PendingPath)
    ensures AreaOf(AdminHomePath) == AdminArea && AreaOf(LoginPath) == AuthPage
    ensures AreaOf(GuideHomePath) == GuideArea && AreaOf(HomePath) == OtherPage
  {
    assert StartsWith(PendingPath[1..], Excluded[4]);
    DiffersAt(AdminLoginPath[1..], "guide/pending", 0);
    DiffersAt(AdminHomePath[1..], "guide/pending", 0);
    DiffersAt(LoginPath[1..], "guide/pending", 0);
    DiffersAt(GuideHomePath[1..], "guide/pending", 5);
    DiffersAt(HomePath[1..], "guide/pending", 0);
    InScopeByLeadingText(AdminLoginPath);
    InScopeByLeadingText(AdminHomePath);
    InScopeByLeadingText(LoginPath);
    InScopeByLeadingText(GuideHomePath);
    InScopeByLeadingText(HomePath);
    assert StartsWith(AdminHomePath, "/admin");
    assert StartsWith(GuideHomePath, "/guide");
    DiffersAt(HomePath, "/admin", 1);
    DiffersAt(HomePath, "/guide", 1);
  }
}
