/**
 * The framework-based CORS relay (cors-proxy.js). Only two pieces of its
 * logic live in the repository: the path rewrite handed to the proxy
 * middleware, and the hook that forces CORS headers onto the backend's
 * response before it is relayed.
 */
module CorsProxy {
  import opened Strings
  import opened CorsPolicy

  /** The piece of the path the rewrite removes. */
  const PROXY_SEGMENT := "/proxy"

  /** `path.replace('/proxy', '')`: removes the first `/proxy`, wherever it is. */
  function PathRewrite(path: string): (r: string)
    ensures !Contains(path, PROXY_SEGMENT) ==> r == path
    ensures Contains(path, PROXY_SEGMENT) ==> |r| == |path| - |PROXY_SEGMENT|
  {
    ReplaceFirst(path, PROXY_SEGMENT, "")
  }

  /** A leading `/proxy` is cut off: `/proxy/api/x` becomes `/api/x`. */
  lemma PathRewriteLeading(path: string)
    requires StartsWith(path, PROXY_SEGMENT)
    ensures PathRewrite(path) == path[|PROXY_SEGMENT|..]
  {
    ReplaceFirstPrefix(path, PROXY_SEGMENT, "");
  }

  /**
   * The match is not anchored and only the leftmost occurrence goes: what
   * lies before and after it is kept as it was.
   */
  lemma PathRewriteFirstOnly(path: string, i: nat)
    requires IsFirstOccurrence(path, PROXY_SEGMENT, i)
    ensures PathRewrite(path) == path[..i] + path[i + |PROXY_SEGMENT|..]
  {
    ReplaceFirstAt(path, PROXY_SEGMENT, "", i);
  }

  /** `/proxy/api/x` becomes `/api/x`. */
  lemma PathRewriteProxyApiExample()
    ensures PathRewrite("/proxy/api/x") == "/api/x"
  {
    var s := "/proxy/api/x";
    StartsWithConcat(PROXY_SEGMENT, "/api/x");
    assert s == PROXY_SEGMENT + "/api/x";
    PathRewriteLeading(s);
  }

  /** A doubled `/proxy` is removed once only. */
  lemma PathRewriteDoubledExample()
    ensures PathRewrite("/proxy/proxy") == "/proxy"
  {
    var s := "/proxy/proxy";
    StartsWithConcat(PROXY_SEGMENT, PROXY_SEGMENT);
    assert s == PROXY_SEGMENT + PROXY_SEGMENT;
    PathRewriteLeading(s);
  }

  /** An inner `/proxy` is removed too: `/a/proxy/b` becomes `/a/b`. */
  lemma PathRewriteInnerExample()
    ensures PathRewrite("/a/proxy/b") == "/a/b"
  {
    var s := "/a/proxy/b";
    assert !OccursAt(s, PROXY_SEGMENT, 0) by { assert s[1] != PROXY_SEGMENT[1]; assert s[0..6][1] == s[1]; }
    assert !OccursAt(s, PROXY_SEGMENT, 1) by { assert s[1] != PROXY_SEGMENT[0]; assert s[1..7][0] == s[1]; }
    assert s == "/a" + PROXY_SEGMENT + "/b";
    assert OccursAt(s, PROXY_SEGMENT, 2);
    PathRewriteFirstOnly(s, 2);
    assert s[..2] == "/a" && s[8..] == "/b";
  }

  // Header names as the hook writes them: `proxyRes.headers` is a plain
  // object, so these keys are taken literally, letter case included.
  const CORS_NAMES := CorsNames(
    "Access-Control-Allow-Origin", "Access-Control-Allow-Methods",
    "Access-Control-Allow-Headers", "Access-Control-Allow-Credentials")

  /** The backend's response as the hook sees it: its header object is changed in place. */
  class ProxyResponse {
    var headers: map<string, string>

    constructor (headers: map<string, string>)
      ensures this.headers == headers
    {
      this.headers := headers;
    }
  }

  /** `onProxyRes`: four assignments into `proxyRes.headers`, overwriting backend values. */
  method OnProxyRes(proxyRes: ProxyResponse)
    modifies proxyRes
    ensures proxyRes.headers == ForceCors(old(proxyRes.headers), CORS_NAMES)
  {
    proxyRes.headers := proxyRes.headers[CORS_NAMES.origin := ORIGIN_VALUE];
    proxyRes.headers := proxyRes.headers[CORS_NAMES.methods := METHODS_VALUE];
    proxyRes.headers := proxyRes.headers[CORS_NAMES.headers := HEADERS_VALUE];
    proxyRes.headers := proxyRes.headers[CORS_NAMES.credentials := CREDENTIALS_VALUE];
  }
}
