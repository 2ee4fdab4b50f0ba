/**
 * The dependency-free CORS relay (simple-proxy.js): one request handler
 * that answers preflights and health checks itself and relays every other
 * request to a fixed backend, forcing permissive CORS headers onto the
 * answer.
 *
 * The pure parts of the handler (routing, the target-path rewrite, the
 * outbound header allow-list, the response-header merge) are functions
 * with lemmas; the handler itself is a method that drives the response and
 * the backend request step by step and is proved to produce `Respond`.
 */
module SimpleProxy {
  import opened Wrappers
  import opened Strings
  import opened NodeHttp
  import opened CorsPolicy

  const TARGET_HOST := "34.136.71.19"
  const TARGET_PORT: nat := 8000
  /** `TARGET_PORT` as a template literal renders it. */
  const TARGET_PORT_TEXT := "8000"

  // Response header names, lower-cased as `setHeader` stores them.
  const ALLOW_ORIGIN := "access-control-allow-origin"
  const ALLOW_METHODS := "access-control-allow-methods"
  const ALLOW_HEADERS := "access-control-allow-headers"
  const ALLOW_CREDENTIALS := "access-control-allow-credentials"
  const MAX_AGE := "access-control-max-age"

  const MAX_AGE_VALUE := "86400"

  /** The four headers the relay forces on every answer, under their lower-case names. */
  const CORS_NAMES := CorsNames(ALLOW_ORIGIN, ALLOW_METHODS, ALLOW_HEADERS, ALLOW_CREDENTIALS)
  const CORS_KEYS: set<string> := {ALLOW_ORIGIN, ALLOW_METHODS, ALLOW_HEADERS, ALLOW_CREDENTIALS}

  // Request header names of the outbound allow-list, and their fallbacks.
  const USER_AGENT := "user-agent"
  const CONTENT_TYPE := "content-type"
  const ACCEPT := "accept"
  const CACHE_CONTROL := "cache-control"
  const FORWARDED_KEYS: set<string> := {USER_AGENT, CONTENT_TYPE, ACCEPT, CACHE_CONTROL}

  const DEFAULT_USER_AGENT := "CORS-Proxy/1.0"
  const DEFAULT_CONTENT_TYPE := "application/json"
  const DEFAULT_ACCEPT := "*/*"
  const DEFAULT_CACHE_CONTROL := "no-cache"

  const HEALTH_PATH := "/health"
  const HEALTH_BODY := "Proxy server is running"

  /**
   * An inbound request. Its body arrives as a sequence of chunks, each
   * taken here as the string that `requestBody += chunk` appends.
   */
  datatype IncomingRequest = IncomingRequest(verb: string, url: string, headers: Headers, chunks: seq<string>)

  /** How the backend answers the relayed request: a response, or a connection error. */
  datatype BackendOutcome =
    | Ok(status: int, headers: Headers, body: string)
    | Err(message: string)

  // ---------------------------------------------------------------- headers

  /** The four CORS `setHeader` calls on top of `h`. */
  function WithCors(h: Headers): Headers
  {
    ForceCors(h, CORS_NAMES)
  }

  /** The headers every answer starts with: the CORS four and a 24-hour max-age. */
  function InitialHeaders(): (r: Headers)
    ensures r.Keys == CORS_KEYS + {MAX_AGE}
    ensures r[MAX_AGE] == MAX_AGE_VALUE
    ensures r[ALLOW_ORIGIN] == ORIGIN_VALUE && r[ALLOW_METHODS] == METHODS_VALUE
    ensures r[ALLOW_HEADERS] == HEADERS_VALUE && r[ALLOW_CREDENTIALS] == CREDENTIALS_VALUE
  {
    WithCors(map[])[MAX_AGE := MAX_AGE_VALUE]
  }

  /**
   * The headers of a relayed answer: the initial headers, then every
   * backend header copied over them, then the CORS four forced again.
   */
  function SuccessHeaders(backend: Headers): Headers
  {
    WithCors(InitialHeaders() + backend)
  }

  /**
   * On a relayed answer the first four CORS `setHeader` calls are
   * superseded: the headers are those of setting only the max-age, copying
   * the backend's headers over it and forcing the CORS four once.
   */
  lemma EarlyCorsSuperseded(backend: Headers)
    ensures SuccessHeaders(backend) == WithCors(map[MAX_AGE := MAX_AGE_VALUE] + backend)
  {
    assert InitialHeaders() == WithCors(map[MAX_AGE := MAX_AGE_VALUE]);
    ForceCorsAbsorbs(map[MAX_AGE := MAX_AGE_VALUE], backend, CORS_NAMES);
  }

  /** The headers of the 502 answer: the initial five and a plain-text content type. */
  function ErrorHeaders(): (r: Headers)
    ensures r.Keys == CORS_KEYS + {MAX_AGE, CONTENT_TYPE}
    ensures r[CONTENT_TYPE] == "text/plain" && r[MAX_AGE] == MAX_AGE_VALUE
    ensures r[ALLOW_ORIGIN] == ORIGIN_VALUE && r[ALLOW_METHODS] == METHODS_VALUE
    ensures r[ALLOW_HEADERS] == HEADERS_VALUE && r[ALLOW_CREDENTIALS] == CREDENTIALS_VALUE
  {
    InitialHeaders()[CONTENT_TYPE := "text/plain"]
  }

  /**
   * A backend response header reaches the caller unchanged unless it is one
   * of the CORS four, which always carry the relay's values. The max-age is
   * not forced again, so a backend max-age wins over the relay's. Nothing
   * else is added.
   */
  lemma SuccessHeadersMerge(backend: Headers)
    ensures SuccessHeaders(backend).Keys == backend.Keys + CORS_KEYS + {MAX_AGE}
    ensures forall k :: k in backend && k !in CORS_KEYS ==> SuccessHeaders(backend)[k] == backend[k]
    ensures SuccessHeaders(backend)[ALLOW_ORIGIN] == ORIGIN_VALUE
    ensures SuccessHeaders(backend)[ALLOW_METHODS] == METHODS_VALUE
    ensures SuccessHeaders(backend)[ALLOW_HEADERS] == HEADERS_VALUE
    ensures SuccessHeaders(backend)[ALLOW_CREDENTIALS] == CREDENTIALS_VALUE
    ensures SuccessHeaders(backend)[MAX_AGE] == if MAX_AGE in backend then backend[MAX_AGE] else MAX_AGE_VALUE
  {
    var merged := InitialHeaders() + backend;
    assert MAX_AGE !in CORS_KEYS;
    assert merged[MAX_AGE] == if MAX_AGE in backend then backend[MAX_AGE] else MAX_AGE_VALUE;
  }

  // ---------------------------------------------------------------- routing

  datatype Route = Preflight | HealthCheck | Relay

  /** First match wins: OPTIONS on any path, then the exact health path, then relay. */
  function RouteOf(verb: string, url: string): (r: Route)
    ensures r == Preflight <==> verb == "OPTIONS"
    ensures r == HealthCheck <==> verb != "OPTIONS" && url == HEALTH_PATH
  {
    if verb == "OPTIONS" then Preflight
    else if url == HEALTH_PATH then HealthCheck
    else Relay
  }

  /** Only the exact string is the health path: a query or a trailing slash is relayed. */
  lemma HealthPathIsExact()
    ensures RouteOf("GET", "/health?x") == Relay
    ensures RouteOf("GET", "/health/") == Relay
    ensures RouteOf("GET", "/health") == HealthCheck
    ensures RouteOf("OPTIONS", "/health") == Preflight
  {
    assert "/health?x" != HEALTH_PATH by { assert |"/health?x"| != |HEALTH_PATH|; }
    assert "/health/" != HEALTH_PATH by { assert |"/health/"| != |HEALTH_PATH|; }
  }

  // ---------------------------------------------------------------- path rewrite

  /** The backend path for a request path: three ordered branches. */
  function TargetPath(path: string): (r: string)
    ensures StartsWith(r, "/api")
  {
    if StartsWith(path, "/proxy/api/") then
      ReplaceFirstPrefix(path, "/proxy/api/", "/api/");
      ReplaceFirst(path, "/proxy/api/", "/api/")
    else if StartsWith(path, "/proxy/") then
      "/api/" + ReplaceFirst(path, "/proxy/", "")
    else
      "/api" + path
  }

  /** `/proxy/api/` + r goes to `/api/` + r: the input minus its leading `/proxy`. */
  lemma TargetPathProxyApi(r: string)
    ensures TargetPath("/proxy/api/" + r) == "/api/" + r
    ensures TargetPath("/proxy/api/" + r) == ("/proxy/api/" + r)[|"/proxy"|..]
  {
    StartsWithConcat("/proxy/api/", r);
    ReplaceFirstPrefix("/proxy/api/" + r, "/proxy/api/", "/api/");
  }

  /** `/proxy/` + r, where r does not start with `api/`, goes to `/api/` + r. */
  lemma TargetPathProxy(r: string)
    requires !StartsWith(r, "api/")
    ensures TargetPath("/proxy/" + r) == "/api/" + r
  {
    var p := "/proxy/" + r;
    StartsWithConcat("/proxy/", r);
    StartsWithAppend(p, "/proxy/", "api/");
    assert "/proxy/" + "api/" == "/proxy/api/";
    ReplaceFirstPrefix(p, "/proxy/", "");
  }

  /** Any path not under `/proxy/` gets `/api` prepended, unchanged. */
  lemma TargetPathOther(p: string)
    requires !StartsWith(p, "/proxy/")
    ensures TargetPath(p) == "/api" + p
  {
    assert "/proxy/" + "api/" == "/proxy/api/";
    StartsWithAppend(p, "/proxy/", "api/");
  }

  /**
   * Branch order matters: had the `/proxy/` branch been tried first on
   * `/proxy/api/` + r, it would have produced `/api/api/` + r.
   */
  lemma TargetPathBranchOrder(r: string)
    ensures "/api/" + ReplaceFirst("/proxy/api/" + r, "/proxy/", "") == "/api/api/" + r
    ensures TargetPath("/proxy/api/" + r) != "/api/api/" + r
  {
    var p := "/proxy/api/" + r;
    TargetPathProxyApi(r);
    assert p == "/proxy/" + ("api/" + r);
    StartsWithConcat("/proxy/", "api/" + r);
    ReplaceFirstPrefix(p, "/proxy/", "");
    assert |"/api/" + r| != |"/api/api/" + r|;
  }

  /** `/proxy` without a following slash (`/proxy`, `/proxyX`) falls to the last branch. */
  lemma TargetPathBareProxy(q: string)
    requires !StartsWith(q, "/")
    ensures TargetPath("/proxy" + q) == "/api/proxy" + q
  {
    var p := "/proxy" + q;
    assert "/proxy" + "/" == "/proxy/";
    StartsWithAppend(p, "/proxy", "/");
    StartsWithConcat("/proxy", q);
    TargetPathOther(p);
  }

  // ---------------------------------------------------------------- outbound request

  /** `headers[key] || fallback`: a missing or empty inbound value takes the fallback. */
  function ValueOr(h: Headers, key: string, fallback: string): string
  {
    if key in h && h[key] != "" then h[key] else fallback
  }

  /** The allow-listed outbound headers: four names, each with its fallback. */
  function OutboundHeaders(h: Headers): (r: Headers)
    ensures r.Keys == FORWARDED_KEYS
    ensures forall k :: k in r ==> r[k] != ""
  {
    map[USER_AGENT := ValueOr(h, USER_AGENT, DEFAULT_USER_AGENT),
        CONTENT_TYPE := ValueOr(h, CONTENT_TYPE, DEFAULT_CONTENT_TYPE),
        ACCEPT := ValueOr(h, ACCEPT, DEFAULT_ACCEPT),
        CACHE_CONTROL := ValueOr(h, CACHE_CONTROL, DEFAULT_CACHE_CONTROL)]
  }

  /**
   * Each allow-listed header carries the inbound value when it is present
   * and non-empty, and its fallback otherwise; every other inbound header
   * (host, authorization, cookie, ...) is dropped.
   */
  lemma OutboundHeadersValues(h: Headers, k: string)
    ensures k in OutboundHeaders(h) <==> k in FORWARDED_KEYS
    ensures k in FORWARDED_KEYS && k in h && h[k] != "" ==> OutboundHeaders(h)[k] == h[k]
    ensures k == USER_AGENT && (k !in h || h[k] == "") ==> OutboundHeaders(h)[k] == DEFAULT_USER_AGENT
    ensures k == CONTENT_TYPE && (k !in h || h[k] == "") ==> OutboundHeaders(h)[k] == DEFAULT_CONTENT_TYPE
    ensures k == ACCEPT && (k !in h || h[k] == "") ==> OutboundHeaders(h)[k] == DEFAULT_ACCEPT
    ensures k == CACHE_CONTROL && (k !in h || h[k] == "") ==> OutboundHeaders(h)[k] == DEFAULT_CACHE_CONTROL
  {
  }

  /** The options of the backend request: fixed host and port, rewritten path, same method. */
  function Options(req: IncomingRequest): (o: RequestOptions)
    ensures o.hostname == TARGET_HOST && o.port == TARGET_PORT
    ensures o.verb == req.verb
    ensures o.path == TargetPath(req.url) && StartsWith(o.path, "/api")
    ensures o.headers == OutboundHeaders(req.headers) && o.headers.Keys == FORWARDED_KEYS
  {
    RequestOptions(TARGET_HOST, TARGET_PORT, TargetPath(req.url), req.verb, OutboundHeaders(req.headers))
  }

  // ---------------------------------------------------------------- request body

  /** The chunks of a body joined in arrival order. */
  function Concat(chunks: seq<string>): string
  {
    if chunks == [] then "" else chunks[0] + Concat(chunks[1..])
  }

  /** A chunk arriving last goes at the end. */
  lemma {:induction false} ConcatAppend(chunks: seq<string>, c: string)
    ensures Concat(chunks + [c]) == Concat(chunks) + c
  {
    if chunks != [] {
      assert (chunks + [c])[1..] == chunks[1..] + [c];
      ConcatAppend(chunks[1..], c);
    }
  }

  /** Joining distributes over splitting the chunk sequence anywhere. */
  lemma {:induction false} ConcatSplit(a: seq<string>, b: seq<string>)
    ensures Concat(a + b) == Concat(a) + Concat(b)
  {
    if a == [] {
      assert a + b == b;
    } else {
      assert (a + b)[1..] == a[1..] + b;
      ConcatSplit(a[1..], b);
    }
  }

  /** Chunk i sits, unchanged, right after the chunks that arrived before it. */
  lemma ConcatChunkAt(chunks: seq<string>, i: nat)
    requires i < |chunks|
    ensures var off := |Concat(chunks[..i])|;
      off + |chunks[i]| <= |Concat(chunks)| && Concat(chunks)[off..off + |chunks[i]|] == chunks[i]
  {
    assert chunks == chunks[..i] + chunks[i..];
    ConcatSplit(chunks[..i], chunks[i..]);
    assert chunks[i..] == [chunks[i]] + chunks[i + 1..];
    ConcatSplit([chunks[i]], chunks[i + 1..]);
    assert Concat([chunks[i]]) == chunks[i] by { assert [chunks[i]][1..] == []; }
    var pre, rest := Concat(chunks[..i]), Concat(chunks[i + 1..]);
    assert Concat(chunks) == pre + (chunks[i] + rest);
    assert (pre + (chunks[i] + rest))[|pre|..|pre| + |chunks[i]|] == chunks[i];
  }

  /** The `data` callbacks: `requestBody += chunk` for each chunk as it arrives. */
  method ReadBody(chunks: seq<string>) returns (body: string)
    ensures body == Concat(chunks)
  {
    body := "";
    var i := 0;
    while i < |chunks|
      invariant 0 <= i <= |chunks|
      invariant body == Concat(chunks[..i])
    {
      assert chunks[..i + 1] == chunks[..i] + [chunks[i]];
      ConcatAppend(chunks[..i], chunks[i]);
      body := body + chunks[i];
      i := i + 1;
    }
    assert chunks[..i] == chunks;
  }

  /** `['POST', 'PUT', 'PATCH'].includes(method)`. */
  predicate SendsBody(verb: string) {
    verb in {"POST", "PUT", "PATCH"}
  }

  /** What is written to the backend request before it is ended. */
  function BodyWrites(req: IncomingRequest): (w: seq<string>)
    ensures |w| <= 1
    ensures w != [] <==> SendsBody(req.verb)
    ensures w != [] ==> w[0] == Concat(req.chunks)
  {
    if SendsBody(req.verb) then [Concat(req.chunks)] else []
  }

  // ---------------------------------------------------------------- answers

  /** The 502 body's opening sentence, naming the backend's host and port. */
  const ERROR_LEAD := "Proxy error: Could not connect to backend at " + TARGET_HOST + ":" + TARGET_PORT_TEXT
  /** What separates that sentence from the error message. */
  const DETAILS_SEPARATOR := "\n\nError details: "

  /** The plain-text body of the 502 answer. */
  function ErrorBody(message: string): (b: string)
    ensures StartsWith(b, ERROR_LEAD)
    ensures |b| == |ERROR_LEAD| + |DETAILS_SEPARATOR| + |message|
    ensures b[|ERROR_LEAD|..|ERROR_LEAD| + |DETAILS_SEPARATOR|] == DETAILS_SEPARATOR
    ensures b[|b| - |message|..] == message
  {
    var b := "Proxy error: Could not connect to backend at " + TARGET_HOST + ":" + TARGET_PORT_TEXT
      + "\n\nError details: " + message;
    assert b == ERROR_LEAD + (DETAILS_SEPARATOR + message);
    StartsWithConcat(ERROR_LEAD, DETAILS_SEPARATOR + message);
    b
  }

  /** Distinct error messages give distinct 502 bodies. */
  lemma ErrorBodyInjective(m1: string, m2: string)
    requires ErrorBody(m1) == ErrorBody(m2)
    ensures m1 == m2
  {
    var lead := ERROR_LEAD + DETAILS_SEPARATOR;
    assert ErrorBody(m1) == lead + m1 && ErrorBody(m2) == lead + m2;
    assert m1 == (lead + m1)[|lead|..];
    assert m2 == (lead + m2)[|lead|..];
  }

  /**
   * The answer the caller receives for `req` when the backend behaves as
   * `backend`. Whatever the route and the backend, it carries the four CORS
   * headers with the relay's values; the preflight and health answers are
   * 200s.
   */
  function Respond(req: IncomingRequest, backend: BackendOutcome): (r: Response)
    ensures CORS_KEYS <= r.headers.Keys
    ensures r.headers[ALLOW_ORIGIN] == ORIGIN_VALUE && r.headers[ALLOW_METHODS] == METHODS_VALUE
    ensures r.headers[ALLOW_HEADERS] == HEADERS_VALUE && r.headers[ALLOW_CREDENTIALS] == CREDENTIALS_VALUE
    ensures RouteOf(req.verb, req.url) != Relay ==> r.status == 200
  {
    match RouteOf(req.verb, req.url)
    case Preflight => Response(200, InitialHeaders(), "")
    case HealthCheck => Response(200, InitialHeaders(), HEALTH_BODY)
    case Relay =>
      match backend
      case Ok(status, headers, body) => Response(status, SuccessHeaders(headers), body)
      case Err(message) => Response(502, ErrorHeaders(), ErrorBody(message))
  }

  /** A preflight on any path, `/health` included, is a 200 with an empty body and the CORS headers. */
  lemma PreflightAnswer(req: IncomingRequest, backend: BackendOutcome)
    requires req.verb == "OPTIONS"
    ensures Respond(req, backend).status == 200
    ensures Respond(req, backend).body == ""
    ensures Respond(req, backend).headers == InitialHeaders()
  {
  }

  /** The health path answers 200 `Proxy server is running`. */
  lemma HealthAnswer(req: IncomingRequest, backend: BackendOutcome)
    requires req.verb != "OPTIONS" && req.url == HEALTH_PATH
    ensures Respond(req, backend).status == 200
    ensures Respond(req, backend).body == HEALTH_BODY
    ensures Respond(req, backend).headers == InitialHeaders()
  {
  }

  /** Preflight and health answers do not depend on the backend at all. */
  lemma LocalAnswersIgnoreBackend(req: IncomingRequest, b1: BackendOutcome, b2: BackendOutcome)
    requires RouteOf(req.verb, req.url) != Relay
    ensures Respond(req, b1) == Respond(req, b2)
  {
  }

  /**
   * A relayed request the backend answered gets the backend's status and
   * body, every backend header except the CORS four, the CORS four with
   * the relay's values, the relay's max-age unless the backend sent one,
   * and no other header.
   */
  lemma RelayedAnswer(req: IncomingRequest, status: int, headers: Headers, body: string)
    requires RouteOf(req.verb, req.url) == Relay
    ensures Respond(req, Ok(status, headers, body)).status == status
    ensures Respond(req, Ok(status, headers, body)).body == body
    ensures forall k :: k in headers && k !in CORS_KEYS ==> Respond(req, Ok(status, headers, body)).headers[k] == headers[k]
    ensures Respond(req, Ok(status, headers, body)).headers.Keys == headers.Keys + CORS_KEYS + {MAX_AGE}
    ensures Respond(req, Ok(status, headers, body)).headers[ALLOW_ORIGIN] == ORIGIN_VALUE
    ensures Respond(req, Ok(status, headers, body)).headers[ALLOW_METHODS] == METHODS_VALUE
    ensures Respond(req, Ok(status, headers, body)).headers[ALLOW_HEADERS] == HEADERS_VALUE
    ensures Respond(req, Ok(status, headers, body)).headers[ALLOW_CREDENTIALS] == CREDENTIALS_VALUE
    ensures Respond(req, Ok(status, headers, body)).headers[MAX_AGE]
         == if MAX_AGE in headers then headers[MAX_AGE] else MAX_AGE_VALUE
  {
    SuccessHeadersMerge(headers);
  }

  /** A relayed request whose backend call failed gets a plain-text 502 naming the backend. */
  lemma FailedAnswer(req: IncomingRequest, message: string)
    requires RouteOf(req.verb, req.url) == Relay
    ensures Respond(req, Err(message)).status == 502
    ensures Respond(req, Err(message)).headers == ErrorHeaders()
    ensures Respond(req, Err(message)).body == ErrorBody(message)
  {
  }

  // ---------------------------------------------------------------- the handler

  /** The four CORS `setHeader` calls. */
  method SetCorsHeaders(res: ServerResponse)
    requires !res.headSent
    modifies res`headers
    ensures res.headers == WithCors(old(res.headers))
  {
    res.SetHeader(ALLOW_ORIGIN, ORIGIN_VALUE);
    res.SetHeader(ALLOW_METHODS, METHODS_VALUE);
    res.SetHeader(ALLOW_HEADERS, HEADERS_VALUE);
    res.SetHeader(ALLOW_CREDENTIALS, CREDENTIALS_VALUE);
  }

  /** `Object.keys(src).forEach(key => res.setHeader(key, src[key]))`. */
  method CopyHeaders(res: ServerResponse, src: Headers)
    requires !res.headSent
    modifies res`headers
    ensures res.headers == old(res.headers) + src
  {
    var todo := src.Keys;
    while todo != {}
      invariant todo <= src.Keys
      invariant res.headers == old(res.headers) + map k | k in src.Keys - todo :: src[k]
      decreases todo
    {
      var key :| key in todo;
      res.SetHeader(key, src[key]);
      todo := todo - {key};
    }
    assert (map k | k in src.Keys - todo :: src[k]) == src;
  }

  /**
   * The backend request of a relayed call (the `http.request` call, the
   * buffered body and `proxyReq.end()`): it carries the rewritten options,
   * is written the body for POST/PUT/PATCH only, and is ended once.
   */
  method IssueBackendRequest(req: IncomingRequest) returns (proxyReq: ClientRequest)
    ensures fresh(proxyReq) && proxyReq.ended
    ensures proxyReq.options == Options(req) && proxyReq.written == BodyWrites(req)
  {
    var options := RequestOptions(TARGET_HOST, TARGET_PORT, TargetPath(req.url), req.verb, OutboundHeaders(req.headers));
    proxyReq := new ClientRequest(options);

    var requestBody := ReadBody(req.chunks);
    if SendsBody(req.verb) {
      proxyReq.Write(requestBody);
    }
    proxyReq.End();
  }

  /**
   * The backend's response callback or the error handler, on a response
   * that so far holds the initial headers: either way the caller receives
   * the relayed answer `Respond` describes.
   */
  method AnswerRelayed(req: IncomingRequest, backend: BackendOutcome, res: ServerResponse)
    requires RouteOf(req.verb, req.url) == Relay
    requires res.headers == InitialHeaders() && !res.headSent && res.body == "" && !res.finished
    modifies res
    ensures res.finished && res.Sent() == Respond(req, backend)
  {
    match backend {
      case Ok(status, headers, body) =>
        CopyHeaders(res, headers);
        SetCorsHeaders(res);
        res.WriteHead(status);
        res.End(body);
      case Err(message) =>
        res.SetHeader(CONTENT_TYPE, "text/plain");
        res.WriteHead(502);
        res.End(ErrorBody(message));
    }
  }

  /**
   * The request handler. It answers `req` on `res`; when it relays, it
   * returns the backend request it issued, which carries the rewritten
   * options, the buffered body for POST/PUT/PATCH only, and is ended once.
   * `backend` is how the backend answers that request.
   */
  method Handle(req: IncomingRequest, backend: BackendOutcome, res: ServerResponse)
    returns (proxyReq: ClientRequest?)
    requires res.Pristine()
    modifies res
    ensures res.finished && res.Sent() == Respond(req, backend)
    ensures proxyReq == null <==> RouteOf(req.verb, req.url) != Relay
    ensures proxyReq != null ==> fresh(proxyReq) && proxyReq.ended
    ensures proxyReq != null ==> proxyReq.options == Options(req) && proxyReq.written == BodyWrites(req)
  {
    SetCorsHeaders(res);
    res.SetHeader(MAX_AGE, MAX_AGE_VALUE);
    assert res.headers == InitialHeaders();

    if req.verb == "OPTIONS" {
      res.WriteHead(200);
      res.End("");
      return null;
    }

    if req.url == HEALTH_PATH {
      res.WriteHead(200);
      res.End(HEALTH_BODY);
      return null;
    }

    proxyReq := IssueBackendRequest(req);
    AnswerRelayed(req, backend, res);
  }
}
