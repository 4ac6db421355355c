/** What a Next.js middleware decides for a request, and the path matcher
    that scopes which requests reach it. */
module Routing {
  import opened Strings

  /** `NextResponse.next()` or `NextResponse.redirect(new URL(target, url))`. */
  datatype Decision = Continue | Redirect(target: string)

  /** A `config.matcher` of the form `/((?!p1|p2|...).*)`: the path begins
      with `/` and the text after that slash begins with none of the
      excluded prefixes. */
  predicate Matches(path: string, excluded: seq<string>) {
    && |path| >= 1
    && path[0] == '/'
    && forall i | 0 <= i < |excluded| :: !StartsWith(path[1..], excluded[i])
  }

  /** A middleware deployed behind a matcher: a request the matcher does
      not select never reaches the middleware and continues, and one it
      selects gets the middleware's decision `d`. */
  function Screen(path: string, excluded: seq<string>, d: Decision): (r: Decision)
    ensures !Matches(path, excluded) ==> r == Continue
    ensures Matches(path, excluded) ==> r == d
    ensures r.Redirect? ==> Matches(path, excluded) && r == d
  {
    if Matches(path, excluded) then d else Continue
  }
}
