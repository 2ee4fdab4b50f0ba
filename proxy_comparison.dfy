/**
 * The two relays side by side: on a `/proxy/api/` path they hand the
 * backend the same path, on any other `/proxy/` path they do not.
 */
module ProxyComparison {
  import opened Strings
  import SimpleProxy
  import CorsProxy

  /** Both relays turn `/proxy/api/` + r into `/api/` + r. */
  lemma AgreeOnProxyApi(r: string)
    ensures SimpleProxy.TargetPath("/proxy/api/" + r) == "/api/" + r
    ensures CorsProxy.PathRewrite("/proxy/api/" + r) == "/api/" + r
  {
    SimpleProxy.TargetPathProxyApi(r);
    assert "/proxy/api/" + r == CorsProxy.PROXY_SEGMENT + ("/api/" + r);
    StartsWithConcat(CorsProxy.PROXY_SEGMENT, "/api/" + r);
    CorsProxy.PathRewriteLeading("/proxy/api/" + r);
  }

  /**
   * For `/proxy/` + r with r not under `api/`, the framework relay sends
   * `/` + r while the simple relay sends `/api/` + r.
   */
  lemma DisagreeOnOtherProxyPaths(r: string)
    requires !StartsWith(r, "api/")
    ensures CorsProxy.PathRewrite("/proxy/" + r) == "/" + r
    ensures SimpleProxy.TargetPath("/proxy/" + r) == "/api/" + r
    ensures CorsProxy.PathRewrite("/proxy/" + r) != SimpleProxy.TargetPath("/proxy/" + r)
  {
    SimpleProxy.TargetPathProxy(r);
    assert "/proxy/" + r == CorsProxy.PROXY_SEGMENT + ("/" + r);
    StartsWithConcat(CorsProxy.PROXY_SEGMENT, "/" + r);
    CorsProxy.PathRewriteLeading("/proxy/" + r);
    assert |"/" + r| != |"/api/" + r|;
  }
}
