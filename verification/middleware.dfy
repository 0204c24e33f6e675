/**
 * Route guard run before every page (src/middleware.ts).
 */
module Middleware {
  import opened Wrappers

  /** PUBLIC_PATHS. */
  const PublicPaths: seq<string> := ["/sign-in", "/sign-up", "/_next", "/favicon.ico"]

  const SignInPath := "/sign-in"

  /** isPublicPath(path): the path starts with one of the public prefixes. */
  function IsPublicPath(path: string): (r: bool)
    ensures r <==> exists i :: 0 <= i < |PublicPaths| && PublicPaths[i] <= path
  {
    AnyPrefix(PublicPaths, path)
  }

  function AnyPrefix(prefixes: seq<string>, path: string): (r: bool)
    ensures r <==> exists i :: 0 <= i < |prefixes| && prefixes[i] <= path
  {
    if prefixes == [] then false
    else prefixes[0] <= path || AnyPrefix(prefixes[1..], path)
  }

  /**
   * What the middleware answers: let the request through, or send the browser to the
   * sign-in page with the requested path in the `redirect` query parameter.
   */
  datatype Response = Next | Redirect(target: string, redirectParam: string)

  /** middleware(request): `accessTokenCookie` is the value of the `access_token` cookie, if sent. */
  function Guard(pathname: string, accessTokenCookie: Option<string>): (r: Response)
    ensures IsPublicPath(pathname) ==> r == Next
    ensures !IsPublicPath(pathname) ==>
      (r == Next <==> accessTokenCookie.Some? && accessTokenCookie.value != "")
    ensures r.Redirect? ==> r.target == SignInPath && r.redirectParam == pathname
  {
    if IsPublicPath(pathname) then Next
    else if accessTokenCookie.None? || accessTokenCookie.value == "" then Redirect(SignInPath, pathname)
    else Next
  }

  /** The page a redirect leads to is public, so following it is never redirected again. */
  lemma {:induction false} RedirectTargetIsPublic(pathname: string, accessTokenCookie: Option<string>)
    ensures var r := Guard(pathname, accessTokenCookie);
      r.Redirect? ==> Guard(r.target, None) == Next
  {
    assert PublicPaths[0] <= SignInPath;
  }

  /** A request carrying any non-empty access token is never redirected. */
  lemma TokenAlwaysPasses(pathname: string, token: string)
    requires token != ""
    ensures Guard(pathname, Some(token)) == Next
  {
  }

  /** Protection is by prefix only: "/sign-inx" and "/_nextjs" are public too. */
  lemma PrefixMatchIsLoose()
    ensures Guard("/sign-inx", None) == Next
    ensures Guard("/_next/static/app.js", None) == Next
  {
    assert PublicPaths[0] <= "/sign-inx";
    assert PublicPaths[2] <= "/_next/static/app.js";
  }

  /** Without a token the dashboard sends the browser to sign in, remembering where it was going. */
  lemma DashboardNeedsToken()
    ensures Guard("/business", None) == Redirect("/sign-in", "/business")
    ensures Guard("/business", Some("")) == Redirect("/sign-in", "/business")
  {
    var path := "/business";
    forall i | 0 <= i < |PublicPaths| ensures !(PublicPaths[i] <= path) {
      assert PublicPaths[i][1] != path[1];
    }
  }
}
