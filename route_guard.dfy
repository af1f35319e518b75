/**
 * The route guard that runs before a page is served: a decision on whether
 * an `authToken` cookie is present and on the requested path, plus the path
 * matcher that decides which requests the guard sees at all.
 */
module RouteGuard {
  import opened Wrappers
  import opened Http

  /** Paths reachable without a token. */
  const PublicPaths: seq<string> := [LoginPath, RegisterPath, HomePath]

  datatype Decision = Next | Redirect(location: string)

  /** `middleware`: `authToken` is the cookie's value, if any. */
  function Guard(authToken: Option<string>, pathname: string): (d: Decision)
    ensures d == Redirect(LoginPath) <==> !Truthy(authToken) && pathname !in PublicPaths
    ensures d == Redirect(DashboardPath) <==> Truthy(authToken) && (pathname == LoginPath || pathname == RegisterPath)
    ensures d.Redirect? ==> d.location == LoginPath || d.location == DashboardPath
  {
    if !Truthy(authToken) && pathname !in PublicPaths then
      Redirect(LoginPath)
    else if Truthy(authToken) && pathname in PublicPaths && pathname != HomePath then
      Redirect(DashboardPath)
    else
      Next
  }

  /** The guard never redirects a request to the path it is already on. */
  lemma NoSelfRedirect(authToken: Option<string>, pathname: string)
    ensures Guard(authToken, pathname).Redirect? ==> Guard(authToken, pathname).location != pathname
  {
  }

  /**
   * A redirect settles in one hop: the guard lets the request it redirected
   * to through, so the guard alone can never loop.
   */
  lemma RedirectSettles(authToken: Option<string>, pathname: string)
    ensures var d := Guard(authToken, pathname);
      d.Redirect? ==> Guard(authToken, d.location) == Next
  {
  }

  /** The home page is always served, with or without a token. */
  lemma HomeAlwaysPasses(authToken: Option<string>)
    ensures Guard(authToken, HomePath) == Next
  {
  }

  /**
   * The alternatives of the matcher's negative lookahead, after the leading
   * `/`. A `.` in them is the regular-expression wildcard.
   */
  const Excluded: seq<string> := ["api", "_next/static", "_next/image", "favicon.ico", "mockServiceWorker.js"]

  /** `s` starts with a text matching `pattern`, where `.` matches any character. */
  predicate StartsWithPattern(pattern: string, s: string)
  {
    |pattern| <= |s| && forall i :: 0 <= i < |pattern| ==> pattern[i] == '.' || pattern[i] == s[i]
  }

  /**
   * `config.matcher`: the path starts with `/` and the text after it does not
   * start with any excluded alternative. Pathnames are percent-encoded, so
   * they hold no line terminator for `.*` to stop at.
   */
  predicate Matches(pathname: string)
    // in particular no alternative taken literally follows the slash
    ensures Matches(pathname) ==>
      |pathname| >= 1 && pathname[0] == '/' && forall p :: p in Excluded ==> !(p <= pathname[1..])
  {
    |pathname| >= 1 && pathname[0] == '/' &&
    forall p :: p in Excluded ==> !StartsWithPattern(p, pathname[1..])
  }

  /** What the request gets: the guard's decision when it runs, else `Next`. */
  function Route(authToken: Option<string>, pathname: string): (d: Decision)
    ensures !Matches(pathname) ==> d == Next
    ensures Matches(pathname) ==> d == Guard(authToken, pathname)
  {
    if Matches(pathname) then Guard(authToken, pathname) else Next
  }

  /**
   * The exclusion is a prefix test: every path whose text after `/` begins
   * with an excluded alternative is skipped, whatever follows it.
   */
  lemma ExcludedPrefixSkipped(p: string, rest: string)
    requires p in Excluded
    ensures !Matches("/" + p + rest)
  {
    var path := "/" + p + rest;
    assert path[1..] == p + rest;
    assert StartsWithPattern(p, path[1..]);
  }

  /** Consequences of the prefix test and of the wildcard `.`. */
  lemma MatcherExamples()
    ensures !Matches("/apiary")
    ensures !Matches("/faviconXico")
    ensures !Matches("/api/login")
    ensures Matches("/dashboard")
    ensures Matches("/")
  {
    ExcludedPrefixSkipped("api", "ary");
    assert "/apiary" == "/" + "api" + "ary";
    ExcludedPrefixSkipped("api", "/login");
    assert "/api/login" == "/" + "api" + "/login";
    var x := "/faviconXico"[1..];
    assert StartsWithPattern("favicon.ico", x);
    var d := "/dashboard"[1..];
    assert d == "dashboard";
    assert !StartsWithPattern("api", d) by { assert d[0] != "api"[0]; }
    assert !StartsWithPattern("_next/static", d) by { assert d[0] != "_next/static"[0]; }
    assert !StartsWithPattern("_next/image", d) by { assert d[0] != "_next/image"[0]; }
    assert !StartsWithPattern("favicon.ico", d) by { assert |"favicon.ico"| > |d|; }
    assert !StartsWithPattern("mockServiceWorker.js", d) by { assert |"mockServiceWorker.js"| > |d|; }
  }

  /**
   * The API routes are never guarded, so the login endpoint is reachable
   * without a token even though `/api/login` is not a public path.
   */
  lemma ApiNeverRedirected(authToken: Option<string>, rest: string)
    ensures Route(authToken, "/api" + rest) == Next
    ensures Guard(None, "/api" + rest) == Redirect(LoginPath)
  {
    ExcludedPrefixSkipped("api", rest);
    assert "/api" + rest == "/" + "api" + rest;
    var path := "/api" + rest;
    assert path !in PublicPaths by {
      assert |path| >= 4 && path[1] == 'a';
      assert LoginPath[1] == 'l' && RegisterPath[1] == 'r' && |HomePath| == 1;
    }
  }
}
