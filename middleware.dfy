/**
 * The request middleware: without a usable backend configuration every
 * request passes; otherwise the session is refreshed and a request for a
 * protected page without a signed-in user is redirected to sign-in, unless
 * it came from the sign-in page. As configured, the middleware runs only on
 * API listing routes, none of which is protected.
 */
module Middleware {
  import opened Common
  import opened Types
  import HomePage

  /** The parts of a request the middleware reads. */
  datatype Request = Request(pathname: string, query: Params, referer: Option<string>)

  /** A URL as the redirect builds it: a path and its search parameters. */
  datatype Url = Url(pathname: string, query: Params)

  /** What the backend's session check came to: the user and whether an
      error was reported, or an exception anywhere in creating the client,
      refreshing the session or reading the user. */
  datatype AuthCheck = Checked(user: Option<User>, failed: bool) | Threw

  /** `NextResponse.next()` untouched, the response carrying the refreshed
      session cookies, or a redirect. */
  datatype Response = PassThrough | WithSession | Redirect(to: Url)

  /** The pages that need a signed-in user. */
  function IsProtected(path: string): (r: bool)
    ensures r ==> StartsWith(path, "/dashboard") || StartsWith(path, "/listings")
    ensures StartsWith(path, "/dashboard") || StartsWith(path, "/listings/new") ==> r
  {
    StartsWith(path, "/dashboard") || StartsWith(path, "/listings/new") ||
    (StartsWith(path, "/listings") && Contains(path, "/edit"))
  }

  /** The referer shows the request came from the sign-in page. */
  predicate FromSignIn(referer: Option<string>) {
    Truthy(referer) && Contains(referer.value, "/auth/signin")
  }

  /** The sign-in URL: the request's URL with the path replaced and
      `redirect` set to the original path, other parameters kept. */
  function SignInUrl(req: Request): (u: Url)
    ensures u.pathname == "/auth/signin"
    ensures Get(u.query, "redirect") == Some(req.pathname)
    ensures forall k :: k != "redirect" ==> Get(u.query, k) == Get(req.query, k)
  {
    Url("/auth/signin", SetParam(req.query, "redirect", req.pathname))
  }

  /** `middleware(request)`. The configuration test is the home page's. */
  function Handle(url: Option<string>, key: Option<string>, req: Request, check: AuthCheck): (r: Response)
    ensures r.PassThrough? <==> !HomePage.IsSupabaseConfigured(url, key)
    ensures r.Redirect? <==>
      HomePage.IsSupabaseConfigured(url, key) && check.Checked? && IsProtected(req.pathname) &&
      (check.user.None? || check.failed) && !FromSignIn(req.referer)
    ensures r.Redirect? ==> r.to == SignInUrl(req)
  {
    if !HomePage.IsSupabaseConfigured(url, key) then PassThrough
    else if check.Threw? then WithSession
    else if IsProtected(req.pathname) && (check.user.None? || check.failed) && !FromSignIn(req.referer) then
      Redirect(SignInUrl(req))
    else WithSession
  }

  /** Without configuration (a value missing, or a placeholder), the request passes through untouched. */
  lemma UnconfiguredPasses(url: Option<string>, key: Option<string>, req: Request, check: AuthCheck)
    requires !Truthy(url) || !Truthy(key) || Contains(url.value, "your-project") || Contains(key.value, "your-key")
    ensures Handle(url, key, req, check) == PassThrough
  {
  }

  /** An exception in the backend calls falls through to the normal response. */
  lemma ThrowFallsThrough(url: Option<string>, key: Option<string>, req: Request)
    requires HomePage.IsSupabaseConfigured(url, key)
    ensures Handle(url, key, req, Threw) == WithSession
  {
  }

  /** The paths `'/api/listings/:path*'` matches: the route itself and anything below it. */
  predicate Matched(path: string) {
    path == "/api/listings" || StartsWith(path, "/api/listings/")
  }

  /** No matched path is protected ... */
  lemma {:induction false} MatchedIsNotProtected(path: string)
    requires Matched(path)
    ensures !IsProtected(path)
  {
    assert path[1] == 'a';
    assert "/dashboard"[1] == 'd' && "/listings/new"[1] == 'l' && "/listings"[1] == 'l';
  }

  /** ... so the middleware, as configured, never redirects. */
  lemma NeverRedirects(url: Option<string>, key: Option<string>, req: Request, check: AuthCheck)
    requires Matched(req.pathname)
    ensures !Handle(url, key, req, check).Redirect?
  {
    MatchedIsNotProtected(req.pathname);
  }

  /** The redirect is real for the pages meant to be protected: a dashboard
      request from nowhere without a user goes to sign-in. */
  lemma DashboardWouldRedirect(url: Option<string>, key: Option<string>, query: Params)
    requires HomePage.IsSupabaseConfigured(url, key)
    ensures Handle(url, key, Request("/dashboard", query, None), Checked(None, false)) ==
      Redirect(Url("/auth/signin", SetParam(query, "redirect", "/dashboard")))
  {
    assert StartsWith("/dashboard", "/dashboard");
  }
}
