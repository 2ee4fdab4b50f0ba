/**
 * The CORS policy both relays force onto every relayed answer: four
 * headers with fixed values. The relays write the header names in
 * different letter case, so the names are a parameter.
 */
module CorsPolicy {

  const ORIGIN_VALUE := "*"
  const METHODS_VALUE := "GET, POST, PUT, DELETE, OPTIONS, PATCH"
  const HEADERS_VALUE := "Content-Type, Authorization, Accept, Origin, X-Requested-With, X-CSRF-Token, Cache-Control"
  const CREDENTIALS_VALUE := "true"

  /** The names under which a relay stores the four headers. */
  datatype CorsNames = CorsNames(origin: string, methods: string, headers: string, credentials: string)
  {
    predicate Distinct() {
      origin != methods && origin != headers && origin != credentials
      && methods != headers && methods != credentials && headers != credentials
    }

    function Keys(): set<string> {
      {origin, methods, headers, credentials}
    }
  }

  /**
   * The four assignments, in source order: allow-origin, allow-methods,
   * allow-headers, allow-credentials.
   */
  function ForceCors(h: map<string, string>, names: CorsNames): (r: map<string, string>)
    requires names.Distinct()
    ensures r.Keys == h.Keys + names.Keys()
    ensures r[names.origin] == ORIGIN_VALUE && r[names.methods] == METHODS_VALUE
    ensures r[names.headers] == HEADERS_VALUE && r[names.credentials] == CREDENTIALS_VALUE
    ensures forall k :: k in h && k !in names.Keys() ==> r[k] == h[k]
  {
    h[names.origin := ORIGIN_VALUE][names.methods := METHODS_VALUE]
     [names.headers := HEADERS_VALUE][names.credentials := CREDENTIALS_VALUE]
  }

  /**
   * Forcing the policy, then copying other headers over the result, then
   * forcing it again is the same as copying the headers and forcing once:
   * the first forcing leaves no trace.
   */
  lemma ForceCorsAbsorbs(h: map<string, string>, b: map<string, string>, names: CorsNames)
    requires names.Distinct()
    ensures ForceCors(ForceCors(h, names) + b, names) == ForceCors(h + b, names)
  {
  }
}
