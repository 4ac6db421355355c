/** The login and logout actions composed with the two route guards, and
    where the two guards disagree. */
module Session {
  import opened Wrappers
  import opened Strings
  import opened Cookies
  import opened Routing
  import opened Actions
  import RoleGuard
  import TokenGuard

  /** Every `/admin`-prefixed path is in the scope of both matchers. */
  lemma AdminPathsInScope(path: string)
    requires StartsWith(path, "/admin")
    ensures RoleGuard.InScope(path) && TokenGuard.InScope(path)
  {
    assert path[1] == 'a' && path[2] == 'd';
    DiffersAt(path[1..], "guide/pending", 0);
    RoleGuard.InScopeByLeadingText(path);
    DiffersAt(path[1..], TokenGuard.Excluded[0], 1);
    DiffersAt(path[1..], TokenGuard.Excluded[1], 0);
    DiffersAt(path[1..], TokenGuard.Excluded[2], 0);
    DiffersAt(path[1..], TokenGuard.Excluded[3], 0);
  }

  /** After a successful login every admin page beyond the login page is let
      through, by either guard. */
  lemma LoginOpensAdminArea(env: Env, jar: CookieStore, path: string)
    requires StartsWith(path, "/admin") && path != RoleGuard.AdminLoginPath
    ensures var after := AfterLogin(env, Some(EffectivePassword(env)), jar);
      RoleGuard.Guard(path, after) == Continue && TokenGuard.Guard(path, after) == Continue
  {
    SuccessfulLoginStore(env, jar);
    RoleGuard.AreaTestsDisjoint(path);
  }

  /** After a successful login the admin login page and the user login page
      both send the visitor to the admin home. */
  lemma LoginRedirectsLoginPages(env: Env, jar: CookieStore)
    ensures var after := AfterLogin(env, Some(EffectivePassword(env)), jar);
      && RoleGuard.Guard(RoleGuard.AdminLoginPath, after) == Redirect(RoleGuard.AdminHomePath)
      && RoleGuard.Guard(RoleGuard.LoginPath, after) == Redirect(RoleGuard.AdminHomePath)
      && TokenGuard.Guard(TokenGuard.AdminLoginPath, after) == Redirect(TokenGuard.AdminHomePath)
  {
    SuccessfulLoginStore(env, jar);
    RoleGuard.TargetsInScope();
    AdminPathsInScope(RoleGuard.AdminLoginPath);
    RoleGuard.AdminLoginPageRule(AfterLogin(env, Some(EffectivePassword(env)), jar));
    RoleGuard.AuthRoutesRedirectSignedIn(RoleGuard.LoginPath, AfterLogin(env, Some(EffectivePassword(env)), jar));
  }

  /** After logout every admin page beyond the login page is sent to the
      admin login page, by either guard. */
  lemma LogoutLocksAdminArea(jar: CookieStore, path: string)
    requires StartsWith(path, "/admin") && path != RoleGuard.AdminLoginPath
    ensures RoleGuard.Guard(path, AfterLogout(jar)) == Redirect(RoleGuard.AdminLoginPath)
    ensures TokenGuard.Guard(path, AfterLogout(jar)) == Redirect(TokenGuard.AdminLoginPath)
  {
    LogoutStore(jar);
    var after := AfterLogout(jar);
    assert Get(after, AuthTokenCookie) == None;
    assert Get(after, UserRoleCookie) == None;
    AdminPathsInScope(path);
  }

  /** On an admin page beyond the login page the guards agree exactly when
      holding a non-empty token and holding the admin role go together. */
  lemma GuardsAgreeOnAdminAreaIff(path: string, jar: CookieStore)
    requires StartsWith(path, "/admin") && path != RoleGuard.AdminLoginPath
    ensures RoleGuard.Guard(path, jar) == TokenGuard.Guard(path, jar)
            <==> (Truthy(Get(jar, AuthTokenCookie)) <==> Get(jar, UserRoleCookie) == Some("admin"))
  {
    AdminPathsInScope(path);
    RoleGuard.AreaTestsDisjoint(path);
  }

  /** On the admin login page the guards agree exactly when holding a
      non-empty token and holding the admin role go together: a token
      without the role is sent to the admin home by the token-only guard
      and shown the page by the role-aware one, and the role without a token
      the other way round. */
  lemma GuardsAgreeOnAdminLoginIff(jar: CookieStore)
    ensures RoleGuard.Guard(RoleGuard.AdminLoginPath, jar) == TokenGuard.Guard(TokenGuard.AdminLoginPath, jar)
            <==> (Truthy(Get(jar, AuthTokenCookie)) <==> Get(jar, UserRoleCookie) == Some("admin"))
  {
    RoleGuard.TargetsInScope();
    AdminPathsInScope(RoleGuard.AdminLoginPath);
    RoleGuard.AdminLoginPageRule(jar);
    TokenGuard.AdminLoginPageRule(jar);
  }

  /** Outside the admin area the token-only guard lets everything through,
      while the role-aware guard may redirect. */
  lemma GuardsAgreeOutsideAdminIff(path: string, jar: CookieStore)
    requires !StartsWith(path, "/admin")
    ensures RoleGuard.Guard(path, jar) == TokenGuard.Guard(path, jar) <==> RoleGuard.Guard(path, jar) == Continue
  {
    TokenGuard.OutsideAdminContinues(path, jar);
  }

  /** A non-empty token without a role reaches `/admin/dashboard` under the
      token-only guard but not under the role-aware one. */
  lemma DivergenceWitness()
    ensures var jar := map[AuthTokenCookie := "t"];
      && TokenGuard.Guard("/admin/dashboard", jar) == Continue
      && RoleGuard.Guard("/admin/dashboard", jar) == Redirect(RoleGuard.AdminLoginPath)
  {
    assert StartsWith("/admin/dashboard", "/admin");
    AdminPathsInScope("/admin/dashboard");
  }
}
