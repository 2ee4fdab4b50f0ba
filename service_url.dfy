/**
 * The frontend helper that builds the URL of a backend service
 * (web/src/core/api/resolve-service-url.ts): it always points at the CORS
 * relay, and the relay turns the resulting request path back into the
 * backend's `/api/` path.
 */
module ServiceUrl {
  import opened Wrappers
  import opened Strings
  import SimpleProxy
  import CorsProxy

  /** The relay's origin. */
  const PROXY_SCHEME := "http"
  const PROXY_AUTHORITY := "34.136.71.19:3001"
  /** The request path every service URL starts with. */
  const SERVICE_PREFIX := "/proxy/api/"

  /** An absolute URL with a path: `scheme://authority` followed by the request target. */
  datatype Url = Url(scheme: string, authority: string, target: string)

  /** A scheme holds no `:`, an authority no `/`, and the target starts with `/`. */
  predicate WellFormed(u: Url) {
    Lacks(u.scheme, ':') && Lacks(u.authority, '/') && StartsWith(u.target, "/")
  }

  function FormatUrl(u: Url): string {
    u.scheme + "://" + u.authority + u.target
  }

  /** Cuts `s` just before the first `c`, if there is one. */
  function SplitAt(s: string, c: char): (r: Option<(string, string)>)
    ensures r.Some? ==> Lacks(r.value.0, c) && StartsWith(r.value.1, [c]) && r.value.0 + r.value.1 == s
  {
    match IndexOf(s, [c])
    case None => None
    case Some(i) =>
      FirstOccurrenceLacks(s, c, i);
      assert s[i..][..1] == s[i..i + 1];
      assert s == s[..i] + s[i..];
      Some((s[..i], s[i..]))
  }

  /** Before the first occurrence of a one-character pattern, that character does not occur. */
  lemma FirstOccurrenceLacks(s: string, c: char, i: nat)
    requires IsFirstOccurrence(s, [c], i)
    ensures Lacks(s[..i], c)
  {
    forall j | 0 <= j < i
      ensures s[..i][j] != c
    {
      assert !OccursAt(s, [c], j);
      assert s[j..j + 1] == [s[j]];
    }
  }

  /** Splitting at `c` finds the boundary of a left part free of `c`. */
  lemma SplitAtBoundary(a: string, b: string, c: char)
    requires Lacks(a, c) && StartsWith(b, [c])
    ensures SplitAt(a + b, c) == Some((a, b))
  {
    FirstOccurrenceAfter(a, b, [c]);
    IndexOfFirst(a + b, [c], |a|);
    assert (a + b)[..|a|] == a && (a + b)[|a|..] == b;
  }

  /**
   * Splits an absolute URL at the first `:` (which must be followed by
   * `//`) and at the first `/` after that; the rest is what a client sends
   * as the request target (path and query).
   */
  function ParseUrl(s: string): (r: Option<Url>)
    ensures r.Some? ==> WellFormed(r.value) && FormatUrl(r.value) == s
  {
    match SplitAt(s, ':')
    case None => None
    case Some((scheme, rest)) =>
      if !StartsWith(rest, "://") then None
      else
        match SplitAt(rest[3..], '/')
        case None => None
        case Some((authority, target)) =>
          assert rest == rest[..3] + rest[3..];
          Some(Url(scheme, authority, target))
  }

  /** Parsing a well-formed URL's text gives the URL back. */
  lemma ParseFormat(u: Url)
    requires WellFormed(u)
    ensures ParseUrl(FormatUrl(u)) == Some(u)
  {
    var rest := "://" + (u.authority + u.target);
    assert FormatUrl(u) == u.scheme + rest;
    StartsWithConcat(":", "//" + (u.authority + u.target));
    assert rest == ":" + ("//" + (u.authority + u.target));
    SplitAtBoundary(u.scheme, rest, ':');
    StartsWithConcat("://", u.authority + u.target);
    SplitAtBoundary(u.authority, u.target, '/');
  }

  /** The relay's scheme and authority are well-formed. */
  lemma ProxyOriginWellFormed()
    ensures Lacks(PROXY_SCHEME, ':') && Lacks(PROXY_AUTHORITY, '/')
  {
  }

  /** The template literal is the relay's URL for the service path. */
  lemma ServiceUrlText(path: string)
    ensures "http://34.136.71.19:3001/proxy/api/" + path
         == FormatUrl(Url(PROXY_SCHEME, PROXY_AUTHORITY, SERVICE_PREFIX + path))
  {
    assert PROXY_SCHEME + "://" == "http://";
    var origin := PROXY_SCHEME + "://" + PROXY_AUTHORITY;
    assert origin == "http://34.136.71.19:3001";
    assert origin + SERVICE_PREFIX == "http://34.136.71.19:3001/proxy/api/";
  }

  /** `resolveServiceURL(path)`: the relay's address, then `/proxy/api/`, then the path verbatim. */
  function ResolveServiceURL(path: string): (url: string)
    ensures ParseUrl(url) == Some(Url(PROXY_SCHEME, PROXY_AUTHORITY, SERVICE_PREFIX + path))
  {
    var u := Url(PROXY_SCHEME, PROXY_AUTHORITY, SERVICE_PREFIX + path);
    ProxyOriginWellFormed();
    StartsWithConcat("/", "proxy/api/" + path);
    assert SERVICE_PREFIX + path == "/" + ("proxy/api/" + path);
    ParseFormat(u);
    ServiceUrlText(path);
    "http://34.136.71.19:3001/proxy/api/" + path
  }

  /** The request target a browser sends for a service URL. */
  function ServiceTarget(path: string): (t: string)
    ensures t == SERVICE_PREFIX + path
  {
    ParseUrl(ResolveServiceURL(path)).value.target
  }

  /** Distinct service paths give distinct URLs. */
  lemma ResolveServiceURLInjective(p: string, q: string)
    requires p != q
    ensures ResolveServiceURL(p) != ResolveServiceURL(q)
  {
    assert ServiceTarget(p)[|SERVICE_PREFIX|..] == p;
    assert ServiceTarget(q)[|SERVICE_PREFIX|..] == q;
  }

  /** No normalisation: a path with a leading `/` yields `/proxy/api//…`. */
  lemma ResolveKeepsLeadingSlash(p: string)
    ensures ServiceTarget("/" + p) == "/proxy/api//" + p
  {
    assert SERVICE_PREFIX + ("/" + p) == (SERVICE_PREFIX + "/") + p;
  }

  /** End to end, simple relay: a service URL's path reaches the backend as `/api/` + p. */
  lemma SimpleRelayReachesApi(p: string)
    ensures SimpleProxy.TargetPath(ServiceTarget(p)) == "/api/" + p
  {
    SimpleProxy.TargetPathProxyApi(p);
  }

  /** End to end, framework relay: its rewrite also turns a service URL's path into `/api/` + p. */
  lemma CorsRelayReachesApi(p: string)
    ensures CorsProxy.PathRewrite(ServiceTarget(p)) == "/api/" + p
  {
    CorsRewritesServicePath(p, ServiceTarget(p));
  }

  lemma CorsRewritesServicePath(p: string, t: string)
    requires t == SERVICE_PREFIX + p
    ensures CorsProxy.PathRewrite(t) == "/api/" + p
  {
    assert t == CorsProxy.PROXY_SEGMENT + ("/api/" + p);
    StartsWithConcat(CorsProxy.PROXY_SEGMENT, "/api/" + p);
    CorsProxy.PathRewriteLeading(t);
  }

  /** A service URL's path is never the health path, so every method but OPTIONS is relayed. */
  lemma ServiceTargetIsRelayed(p: string, verb: string)
    requires verb != "OPTIONS"
    ensures SimpleProxy.RouteOf(verb, ServiceTarget(p)) == SimpleProxy.Relay
  {
    ServicePathIsNotHealth(p, ServiceTarget(p));
  }

  lemma ServicePathIsNotHealth(p: string, t: string)
    requires t == SERVICE_PREFIX + p
    ensures t != SimpleProxy.HEALTH_PATH
  {
    assert t[1] == 'p' && SimpleProxy.HEALTH_PATH[1] == 'h';
  }
}
