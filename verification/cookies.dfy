/** The browser cookie store as the route guards and the login actions see
    it: a map from cookie name to value, and the writes a response makes to
    it. */
module Cookies {
  import opened Wrappers

  /** Cookie name to cookie value. */
  type CookieStore = map<string, string>

  /** `AUTH_TOKEN_COOKIE` (src/lib/constants.ts). */
  const AuthTokenCookie := "firebase-auth-token"
  const UserRoleCookie := "user_role"
  const CompanyStatusCookie := "company_status"

  /** `cookies.get(name)?.value`. */
  function Get(jar: CookieStore, name: string): Option<string> {
    if name in jar then Some(jar[name]) else None
  }

  /** JavaScript truthiness of a string that may be `undefined`: it is
      present and not the empty string. */
  predicate Truthy(v: Option<string>) {
    v.Some? && v.value != ""
  }

  datatype SameSite = Lax | Strict | NoRestriction

  /** The attributes of a `Set-Cookie`; an attribute the source does not
      pass is `false` (not httpOnly, not secure). */
  datatype CookieOptions = CookieOptions(
    httpOnly: bool,
    secure: bool,
    path: string,
    sameSite: SameSite,
    maxAge: int)

  /** One write of a response to the cookie store: `cookies().set` or
      `cookies().delete`. */
  datatype CookieOp =
    | SetCookie(name: string, value: string, options: CookieOptions)
    | DeleteCookie(name: string)

  /** The value a single write leaves behind for its cookie. */
  function Effect(op: CookieOp): Option<string> {
    match op
    case SetCookie(_, v, _) => Some(v)
    case DeleteCookie(_) => None
  }

  /** The cookie names a list of writes touches. */
  function Names(ops: seq<CookieOp>): set<string>
    decreases |ops|
  {
    if |ops| == 0 then {} else Names(ops[..|ops| - 1]) + {ops[|ops| - 1].name}
  }

  /** The value the last write to `name` leaves behind, or `None` when no
      write touches `name`. */
  function LastEffect(ops: seq<CookieOp>, name: string): Option<string>
    decreases |ops|
  {
    if |ops| == 0 then None
    else if ops[|ops| - 1].name == name then Effect(ops[|ops| - 1])
    else LastEffect(ops[..|ops| - 1], name)
  }

  /** The store after a single write. */
  function Step(jar: CookieStore, op: CookieOp): CookieStore {
    match op
    case SetCookie(n, v, _) => jar[n := v]
    case DeleteCookie(n) => jar - {n}
  }

  /** The store after applying the writes in order. Cookies no write touches
      keep their value; every touched cookie ends as its last write left it. */
  function Apply(jar: CookieStore, ops: seq<CookieOp>): (r: CookieStore)
    ensures forall k | k !in Names(ops) :: Get(r, k) == Get(jar, k)
    ensures forall k | k in Names(ops) :: Get(r, k) == LastEffect(ops, k)
    decreases |ops|
  {
    if |ops| == 0 then jar else Step(Apply(jar, ops[..|ops| - 1]), ops[|ops| - 1])
  }

  /** Two stores that answer every lookup alike are the same store. */
  lemma StoreEquality(a: CookieStore, b: CookieStore)
    requires forall k :: Get(a, k) == Get(b, k)
    ensures a == b
  {
    forall k
      ensures (k in a <==> k in b) && (k in a ==> a[k] == b[k])
    {
      assert Get(a, k) == Get(b, k);
    }
  }

  /** Applying the same writes twice gives the store applying them once gives. */
  lemma ApplyIdempotent(jar: CookieStore, ops: seq<CookieOp>)
    ensures Apply(Apply(jar, ops), ops) == Apply(jar, ops)
  {
    var once := Apply(jar, ops);
    var twice := Apply(once, ops);
    forall k
      ensures Get(twice, k) == Get(once, k)
    {
      if k in Names(ops) {
        assert Get(twice, k) == LastEffect(ops, k);
      }
    }
    StoreEquality(twice, once);
  }
}
