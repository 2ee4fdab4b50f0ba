# CORS relay: a Dafny model

This project models the request-decision logic of a small CORS relay that
sits between a browser frontend and a fixed backend at `34.136.71.19:8000`.
The model has three parts:

- **simple-proxy.js**, the dependency-free relay on port 3001. One request
  handler routes a request, first match wins:
  - `OPTIONS` on any path gets a preflight answer;
  - the exact path `/health` gets a health answer;
  - everything else is relayed.

  A relayed request goes to the backend with:
  - a path rewritten by three ordered branches, always under `/api`;
  - the request's method;
  - a four-header allow-list, each header with a literal fallback;
  - the buffered body, but only for POST, PUT and PATCH.

  The backend's answer is passed on with its status, headers and body, and
  four CORS headers are forced on top. A connection error becomes a
  plain-text 502.
- **cors-proxy.js**, the framework-based relay. Only two pieces of its
  logic are in the repository: the `pathRewrite` function, which removes the
  first `/proxy` anywhere in the path, and the `onProxyRes` hook, which
  overwrites four CORS headers in the backend's header object.
- **web/src/core/api/resolve-service-url.ts**, the frontend helper. It builds
  `http://34.136.71.19:3001/proxy/api/<path>`, the URL the relays receive.

Files:

- `wrappers.dfy`: `Option`.
- `strings.dfy`: `startsWith`, leftmost-occurrence search, and JavaScript's
  `String.prototype.replace` with a string pattern. That replace swaps only
  the first occurrence, literally; none of the replacements in the source
  use `$` patterns.
- `node_http.dfy`: the state of the two Node objects that the handler
  changes.
  - `ServerResponse` has headers, status, head-sent flag, body and finished
    flag. Setting a header after `writeHead` is excluded by its `requires`,
    as Node refuses it.
  - `ClientRequest` has its options, the data written to it, and whether it
    has ended.
- `simple_proxy.dfy`: the handler's pure parts as functions and lemmas:
  routing, path rewrite, allow-list, header merge, body joining and the
  error body. `Handle` is the handler as a method that drives a
  `ServerResponse` and a `ClientRequest` step by step, through
  `IssueBackendRequest` and `AnswerRelayed`. It is proved to produce
  exactly the answer `Respond` gives, and to issue the backend request
  only when relaying.
- `cors_policy.dfy`: the four CORS headers both relays force, with their
  fixed values, over header names given as a parameter.
- `cors_proxy.dfy`: `PathRewrite`, and `OnProxyRes` on a mutable header
  object.
- `service_url.dfy`: `ResolveServiceURL`, and the end-to-end lemmas. The
  source is a single template literal; the URL is split into scheme,
  authority and request path by the browser. `Url`, `FormatUrl`, `SplitAt`,
  `ParseUrl` and the round-trip lemma `ParseFormat` stand in for that
  browser-side URL handling; they are not code of the repository. A service URL's request path
  `/proxy/api/` + p reaches the backend as `/api/` + p through either relay.
- `proxy_comparison.dfy`: where the two relays agree on the backend path,
  and where they do not.

Header maps are `map<string, string>`. In the simple relay they are keyed by
lower-case names, because `setHeader` ignores letter case and incoming header
names arrive lower-cased. The hook in cors-proxy.js assigns into a plain
JavaScript object, which is case-sensitive, so its keys keep the letter case
the source writes (`Access-Control-Allow-Origin`).

The backend is a parameter of the handler: `Ok(status, headers, body)` or
`Err(message)`. The handler issues the backend request, reads the inbound
body, writes it for POST/PUT/PATCH and ends the request. Only then does it
act on the backend's outcome. Piping the backend body is modelled as ending
the response with that body.

Two details of the code are worth stating outright:

- The third rewrite branch takes every path that does not start with
  `/proxy/`, so `/proxy` and `/proxyX` become `/api/proxy` and `/api/proxyX`
  (`TargetPathBareProxy`).
- The health answer is `Proxy server is running`; the handler sets no
  `Content-Type` for it.

## Model

| member | source | states |
|---|---|---|
| Strings.IndexOf | cors-proxy.js:24 | the search behind `replace`: the result is the leftmost occurrence of the pattern, and there is none exactly when the pattern does not occur |
| Strings.FindFrom | cors-proxy.js:24 | scanning from a start index finds an occurrence at or after it with none in between, or reports that none exists from there on |
| Strings.ReplaceFirst | cors-proxy.js:24 | replace with a string pattern leaves a string without the pattern unchanged, and otherwise changes its length by the replacement length minus the pattern length |
| Strings.ReplaceFirstAt | cors-proxy.js:24 | replace cuts out the leftmost occurrence, inserts the replacement there, and keeps everything before and after it |
| Strings.ReplaceFirstPrefix | simple-proxy.js:50-52 | on a string that starts with the pattern, replace swaps exactly that prefix |
| CorsPolicy.ForceCors | simple-proxy.js:84-87 | under four distinct names, the CORS headers carry the fixed values `*`, the method list, the header list and `true`; every other header is kept and no other is added |
| CorsPolicy.ForceCorsAbsorbs | simple-proxy.js:79-87 | forcing the CORS four, copying other headers over the result and forcing again equals copying and forcing once |
| SimpleProxy.InitialHeaders | simple-proxy.js:22-26 | every answer starts with exactly the four CORS headers and a max-age of 86400 |
| SimpleProxy.SuccessHeadersMerge | simple-proxy.js:79-87 | every backend header reaches the caller with its value, except the four CORS headers, which always carry the relay's values; a backend max-age wins because the max-age is not set again; nothing else is added |
| SimpleProxy.RouteOf | simple-proxy.js:29-42 | first match wins: preflight exactly when the method is OPTIONS, on any path; health exactly when the method is not OPTIONS and the URL is `/health` |
| SimpleProxy.HealthPathIsExact | simple-proxy.js:37 | `/health?x` and `/health/` are relayed, `/health` is the health check, and OPTIONS `/health` is a preflight |
| SimpleProxy.TargetPath | simple-proxy.js:49-55 | the rewrite is total and every backend path starts with `/api` |
| SimpleProxy.TargetPathProxyApi | simple-proxy.js:49-50 | `/proxy/api/` + r goes to `/api/` + r, which is the input minus its leading `/proxy` |
| SimpleProxy.TargetPathProxy | simple-proxy.js:51-52 | `/proxy/` + r, where r does not start with `api/`, goes to `/api/` + r |
| SimpleProxy.TargetPathOther | simple-proxy.js:53-55 | any path not starting with `/proxy/` goes to `/api` + the path, unchanged |
| SimpleProxy.TargetPathBranchOrder | simple-proxy.js:49-52 | trying the `/proxy/` branch first on `/proxy/api/` + r would give `/api/api/` + r, and the real rewrite does not |
| SimpleProxy.TargetPathBareProxy | simple-proxy.js:51-54 | `/proxy` not followed by `/` falls to the last branch: `/proxy` + q goes to `/api/proxy` + q |
| SimpleProxy.OutboundHeaders | simple-proxy.js:65-71 | the options' `headers` object has exactly the keys user-agent, content-type, accept and cache-control, and none of them is empty |
| SimpleProxy.OutboundHeadersValues | simple-proxy.js:67-70 | each allow-listed header takes the inbound value when it is present and non-empty, else `CORS-Proxy/1.0`, `application/json`, `*/*` or `no-cache`; every other inbound header is dropped |
| SimpleProxy.Options | simple-proxy.js:60-72 | the backend request goes to 34.136.71.19:8000 with the request's method, the rewritten path `TargetPath(url)` (under `/api`) and, as its `headers` object, exactly `OutboundHeaders` |
| SimpleProxy.ConcatAppend | simple-proxy.js:109-111 | a chunk that arrives last is appended at the end of the body |
| SimpleProxy.ConcatSplit | simple-proxy.js:108-111 | joining chunks distributes over any split of the chunk sequence |
| SimpleProxy.ConcatChunkAt | simple-proxy.js:108-111 | each chunk, as appended, appears unchanged in the body, right after the chunks that arrived before it |
| SimpleProxy.ReadBody | simple-proxy.js:108-111 | accumulating `requestBody += chunk` yields all appended chunks joined in arrival order |
| SimpleProxy.BodyWrites | simple-proxy.js:119-121 | one write, of the whole joined body, exactly for POST, PUT and PATCH; no write for any other method, even when a body arrived |
| SimpleProxy.EarlyCorsSuperseded | simple-proxy.js:22-87 | on a relayed answer the first four CORS `setHeader` calls leave no trace: the headers equal setting only the max-age, copying the backend's headers and forcing the CORS four once |
| SimpleProxy.ErrorHeaders | simple-proxy.js:102 | on the 502 answer the handler has set exactly the four CORS headers with their values, the max-age 86400, and `Content-Type: text/plain` |
| SimpleProxy.ErrorBody | simple-proxy.js:104 | the 502 body is `Proxy error: Could not connect to backend at 34.136.71.19:8000`, then a blank line and `Error details: `, then the error message, and nothing else |
| SimpleProxy.ErrorBodyInjective | simple-proxy.js:104 | distinct error messages give distinct 502 bodies, so the message can be recovered from the body |
| SimpleProxy.Respond | simple-proxy.js:28-105 | every answer, whatever the route and the backend, carries the four CORS headers with the relay's values; preflight and health answers are 200 |
| SimpleProxy.PreflightAnswer | simple-proxy.js:29-34 | OPTIONS on any path is answered 200 with an empty body; the handler sets exactly the initial headers: the four CORS values and the max-age 86400 |
| SimpleProxy.HealthAnswer | simple-proxy.js:37-42 | the health check is answered 200 `Proxy server is running`; the handler sets exactly the initial headers |
| SimpleProxy.LocalAnswersIgnoreBackend | simple-proxy.js:28-42 | preflight and health answers are the same whatever the backend does |
| SimpleProxy.RelayedAnswer | simple-proxy.js:75-93 | a relayed request the backend answered gets the backend's status and body, every non-CORS backend header unchanged, all four fixed CORS values, the backend's max-age if it sent one and 86400 otherwise, and the handler sets no other header |
| SimpleProxy.FailedAnswer | simple-proxy.js:97-105 | a relayed request whose backend call failed gets 502, the handler sets exactly `ErrorHeaders`, and the body is the error body |
| SimpleProxy.SetCorsHeaders | simple-proxy.js:22-25 | the four `setHeader` calls leave the headers as `ForceCors` of the headers before, under the lower-case names |
| SimpleProxy.CopyHeaders | simple-proxy.js:79-81 | after the `forEach` over the backend's header names, the response headers are the earlier ones overridden by every backend header |
| SimpleProxy.IssueBackendRequest | simple-proxy.js:60-123 | the backend request is new, carries `Options(req)`, is written `BodyWrites(req)` (the joined body for POST/PUT/PATCH only) and is ended once |
| SimpleProxy.AnswerRelayed | simple-proxy.js:75-105 | on a response holding the initial headers, the backend's answer or its error leaves the caller with exactly the relayed `Respond(req, backend)`, finished |
| SimpleProxy.Handle | simple-proxy.js:17-124 | the caller receives exactly `Respond(req, backend)`, and the response is finished; a backend request is issued exactly when the route is relay; it carries `Options(req)`, is written the body only for POST/PUT/PATCH, and is ended once |
| CorsProxy.PathRewrite | cors-proxy.js:23-25 | a path without `/proxy` is returned unchanged; with one, the result is 6 characters shorter |
| CorsProxy.PathRewriteLeading | cors-proxy.js:24 | a path starting with `/proxy` loses exactly its first 6 characters |
| CorsProxy.PathRewriteFirstOnly | cors-proxy.js:24 | the match is unanchored: only the leftmost `/proxy` is removed, and everything before and after it is kept |
| CorsProxy.PathRewriteProxyApiExample | cors-proxy.js:24 | `/proxy/api/x` becomes `/api/x` |
| CorsProxy.PathRewriteDoubledExample | cors-proxy.js:24 | `/proxy/proxy` becomes `/proxy`: the removal happens once |
| CorsProxy.PathRewriteInnerExample | cors-proxy.js:24 | `/a/proxy/b` becomes `/a/b`: an inner occurrence is removed too |
| CorsProxy.OnProxyRes | cors-proxy.js:26-32 | the hook leaves the backend's header object as `ForceCors` of what it was under the mixed-case names: the four CORS keys carry the fixed values, overwriting backend values, and every other entry is unchanged |
| ServiceUrl.ResolveServiceURL | web/src/core/api/resolve-service-url.ts:6-10 | the URL parses as scheme `http`, authority `34.136.71.19:3001` and request path `/proxy/api/` + path, with the path inserted verbatim |
| ServiceUrl.ServiceTarget | web/src/core/api/resolve-service-url.ts:9 | the request path the relay receives for a service URL is `/proxy/api/` + path |
| ServiceUrl.ResolveServiceURLInjective | web/src/core/api/resolve-service-url.ts:9 | distinct service paths give distinct URLs |
| ServiceUrl.ResolveKeepsLeadingSlash | web/src/core/api/resolve-service-url.ts:9 | no normalisation: a path starting with `/` gives the request path `/proxy/api//…` |
| ServiceUrl.SimpleRelayReachesApi | web/src/core/api/resolve-service-url.ts:9 | end to end: the simple relay sends a service URL's request path to the backend as `/api/` + path |
| ServiceUrl.CorsRelayReachesApi | web/src/core/api/resolve-service-url.ts:9 | end to end: the framework relay's rewrite turns a service URL's request path into `/api/` + path |
| ServiceUrl.ServiceTargetIsRelayed | web/src/core/api/resolve-service-url.ts:9 | a service URL's request path is never `/health`, so every method except OPTIONS is relayed |
| ProxyComparison.AgreeOnProxyApi | cors-proxy.js:24 | both relays turn `/proxy/api/` + r into `/api/` + r |
| ProxyComparison.DisagreeOnOtherProxyPaths | cors-proxy.js:24 | for `/proxy/` + r where r does not start with `api/`, the framework relay gives `/` + r and the simple relay gives `/api/` + r, which differ |

## Left out

- Network and stream I/O is not modelled: `http.createServer`, `http.request`, `proxyRes.pipe`, `server.listen` and the listen port. The backend is an outcome parameter that does not depend on the request's contents.
- Event-callback timing is fixed in one order: the backend request is ended before its outcome is taken. Errors raised after headers were sent, timeouts, and resets in the middle of a response are not modelled.
- `url.parse` is not modelled. Its `.path` is taken to be the raw request URL.
- Logging is not modelled: `debug`, `console.*`, and the 100-character body preview used only in a log line.
- SimpleProxy.ReadBody: the body's chunks are taken as the strings that `requestBody += chunk` appends. Each `data` chunk is a Buffer, and `+=` decodes it as UTF-8 on its own; `proxyReq.write` encodes the result again. That per-chunk decoding is not modelled. So a multi-byte character split across two chunks reaches the backend as two replacement characters, and a binary body whose bytes are not valid UTF-8 is altered too. The model's "joined unchanged" holds for the decoded strings, not for the bytes.
- Headers Node adds on its own are not modelled: `Host` and `Connection` on the backend request (and `Transfer-Encoding: chunked` when a body is written), and `Date`, `Connection` and `Content-Length` or `Transfer-Encoding` on the answer. "Exactly" in the rows above refers to the headers the handler sets.
- Header values that Node delivers as arrays, such as `set-cookie`, are modelled as single strings.
- cors-proxy.js wiring is not modelled: Express, the `cors` middleware, `app.options`, its own `/health` route, and how http-proxy-middleware copies `proxyRes.headers` onto the caller's response. These are library behaviour. This includes which value the caller sees when the backend sent a lower-case CORS header beside the mixed-case key the hook adds. Which string reaches `pathRewrite` also depends on the middleware, so `PathRewrite` is modelled on its argument only.
- CorsProxy.OnProxyRes: the hook's unused `req` and `res` parameters are dropped.
- ServiceUrl.ResolveServiceURL: the `env`-based branch is commented out in the source. The function takes no environment input, so its result cannot depend on `NEXT_PUBLIC_API_URL`.
- ServiceUrl.ServiceTarget: the browser is taken to send the path as written. Percent-encoding, fragments and dot-segment removal are not modelled.
- src/utils/json_utils.py is not part of this model. Its behaviour is that of foreign JSON parsers.
- Concurrency between simultaneous requests is not modelled. Each request is handled independently.
