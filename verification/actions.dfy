/** The server actions of src/lib/actions.ts: the admin login, a password
    check that writes the session cookies, and the logout that deletes them. */
module Actions {
  import opened Wrappers
  import opened Cookies

  /** The fallback used when `ADMIN_PASSWORD` is unset or empty. */
  const DefaultAdminPassword := "Admin2025"
  /** "Wrong password." */
  const WrongPasswordMessage := "Yanl\U{0131}\U{015F} parol."
  const SessionTokenValue := "admin-logged-in"
  const AdminRole := "admin"
  /** One day, in seconds. */
  const OneDay := 60 * 60 * 24

  /** The process environment the action reads. */
  datatype Env = Env(adminPassword: Option<string>, nodeEnv: Option<string>)

  /** What `login` returns to the form, and the cookie writes it makes. */
  datatype LoginReply = LoginReply(error: Option<string>, writes: seq<CookieOp>)

  /** `process.env.ADMIN_PASSWORD || 'Admin2025'`: never empty, so the empty
      password never signs anyone in. */
  function EffectivePassword(env: Env): (p: string)
    ensures p != ""
    ensures p == DefaultAdminPassword || Some(p) == env.adminPassword
    ensures Truthy(env.adminPassword) ==> Some(p) == env.adminPassword
  {
    if Truthy(env.adminPassword) then env.adminPassword.value else DefaultAdminPassword
  }

  function SessionOptions(env: Env): CookieOptions {
    CookieOptions(httpOnly := true, secure := env.nodeEnv == Some("production"),
                  path := "/", sameSite := Lax, maxAge := OneDay)
  }

  function RoleOptions(): CookieOptions {
    CookieOptions(httpOnly := false, secure := false, path := "/", sameSite := Lax, maxAge := OneDay)
  }

  /** `login(prevState, formData)`: `password` is the form's `password`
      field, `None` when the form has none. The login succeeds exactly when
      the submitted password is the effective admin password; a failure
      writes nothing, a success writes the token and role cookies and no
      other. */
  function Login(env: Env, password: Option<string>): (r: LoginReply)
    ensures r.error.None? <==> password == Some(EffectivePassword(env))
    ensures r.error.Some? ==> r.error == Some(WrongPasswordMessage) && r.writes == []
    ensures r.error.None? ==> Names(r.writes) == {AuthTokenCookie, UserRoleCookie}
  {
    if password != Some(EffectivePassword(env)) then
      LoginReply(Some(WrongPasswordMessage), [])
    else
      var writes := [SetCookie(AuthTokenCookie, SessionTokenValue, SessionOptions(env)),
                     SetCookie(UserRoleCookie, AdminRole, RoleOptions())];
      assert writes[..1][..0] == [];
      assert Names(writes[..1]) == {AuthTokenCookie};
      LoginReply(None, writes)
  }

  /** `logout()`: the writes delete the token, role and company status
      cookies and nothing else. */
  function Logout(): (writes: seq<CookieOp>)
    ensures Names(writes) == {AuthTokenCookie, UserRoleCookie, CompanyStatusCookie}
    ensures forall i | 0 <= i < |writes| :: writes[i].DeleteCookie?
  {
    var writes := [DeleteCookie(AuthTokenCookie), DeleteCookie(UserRoleCookie), DeleteCookie(CompanyStatusCookie)];
    assert writes[..2][..1][..0] == [];
    assert Names(writes[..2][..1]) == {AuthTokenCookie};
    assert Names(writes[..2]) == {AuthTokenCookie, UserRoleCookie};
    writes
  }

  /** The browser's cookie store after a login attempt. */
  function AfterLogin(env: Env, password: Option<string>, jar: CookieStore): CookieStore {
    Apply(jar, Login(env, password).writes)
  }

  /** The browser's cookie store after logout. */
  function AfterLogout(jar: CookieStore): CookieStore {
    Apply(jar, Logout())
  }

  /** A wrong or missing password leaves the store as it was. */
  lemma FailedLoginKeepsStore(env: Env, password: Option<string>, jar: CookieStore)
    requires password != Some(EffectivePassword(env))
    ensures Login(env, password).error == Some(WrongPasswordMessage)
    ensures AfterLogin(env, password, jar) == jar
  {
  }

  /** A missing password field never signs in. */
  lemma MissingPasswordFails(env: Env, jar: CookieStore)
    ensures Login(env, None).error == Some(WrongPasswordMessage)
    ensures AfterLogin(env, None, jar) == jar
  {
  }

  /** Without a configured password, the literal fallback signs in and
      nothing else does. */
  lemma FallbackPassword(env: Env, password: Option<string>)
    requires !Truthy(env.adminPassword)
    ensures Login(env, password).error.None? <==> password == Some(DefaultAdminPassword)
  {
  }

  /** The two cookies a successful login writes, with their attributes. */
  lemma LoginCookieAttributes(env: Env)
    ensures var w := Login(env, Some(EffectivePassword(env))).writes;
      && |w| == 2
      && w[0].SetCookie? && w[0].name == AuthTokenCookie && w[0].value == "admin-logged-in"
      && w[0].options.httpOnly && w[0].options.path == "/" && w[0].options.sameSite == Lax
      && w[0].options.maxAge == 86400
      && (w[0].options.secure <==> env.nodeEnv == Some("production"))
      && w[1].SetCookie? && w[1].name == UserRoleCookie && w[1].value == "admin"
      && !w[1].options.httpOnly && w[1].options.path == "/" && w[1].options.sameSite == Lax
      && w[1].options.maxAge == 86400
  {
  }

  /** After a successful login the store holds the session token and the
      admin role, and every other cookie, the company status included, is as
      it was. */
  lemma SuccessfulLoginStore(env: Env, jar: CookieStore)
    ensures var after := AfterLogin(env, Some(EffectivePassword(env)), jar);
      && Get(after, AuthTokenCookie) == Some(SessionTokenValue)
      && Get(after, UserRoleCookie) == Some(AdminRole)
      && forall k | k != AuthTokenCookie && k != UserRoleCookie :: Get(after, k) == Get(jar, k)
  {
    var w := Login(env, Some(EffectivePassword(env))).writes;
    assert LastEffect(w, AuthTokenCookie) == Some(SessionTokenValue);
  }

  /** Logging in twice leaves the store logging in once leaves. */
  lemma LoginIdempotent(env: Env, password: Option<string>, jar: CookieStore)
    ensures AfterLogin(env, password, AfterLogin(env, password, jar)) == AfterLogin(env, password, jar)
  {
    ApplyIdempotent(jar, Login(env, password).writes);
  }

  /** Logout removes exactly the token, role and company status cookies. */
  lemma LogoutStore(jar: CookieStore)
    ensures AfterLogout(jar) == jar - {AuthTokenCookie, UserRoleCookie, CompanyStatusCookie}
  {
    var after := AfterLogout(jar);
    var expected := jar - {AuthTokenCookie, UserRoleCookie, CompanyStatusCookie};
    forall k
      ensures Get(after, k) == Get(expected, k)
    {
      if k in Names(Logout()) {
        assert Get(after, k) == LastEffect(Logout(), k) == None;
      }
    }
    StoreEquality(after, expected);
  }

  /** Logging out twice is logging out once. */
  lemma LogoutIdempotent(jar: CookieStore)
    ensures AfterLogout(AfterLogout(jar)) == AfterLogout(jar)
  {
    ApplyIdempotent(jar, Logout());
  }
}
