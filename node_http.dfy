/**
 * The two Node.js `http` objects the relay's handler changes step by step:
 * the response it writes to its caller (`res`) and the request it sends to
 * the backend (`proxyReq`). Only the state the handler touches is kept;
 * sockets and streaming are not part of this model.
 *
 * Header names are kept lower-case: `setHeader` treats names
 * case-insensitively and incoming header names arrive lower-cased.
 */
module NodeHttp {

  /** A header mapping, keyed by lower-case header name. */
  type Headers = map<string, string>

  /** What the caller finally receives: status line, headers and body. */
  datatype Response = Response(status: int, headers: Headers, body: string)

  /** The options object handed to `http.request`. */
  datatype RequestOptions = RequestOptions(
    hostname: string,
    port: nat,
    path: string,
    verb: string,     // the HTTP method
    headers: Headers)

  /**
   * A `http.ServerResponse`. Headers may be set only until `writeHead`
   * sends them; the body is finished by one `end`.
   */
  class ServerResponse {
    var statusCode: int
    var headers: Headers
    var headSent: bool
    var body: string
    var finished: bool

    /** A response nobody has touched yet (Node's default status is 200). */
    constructor ()
      ensures Pristine() && statusCode == 200
    {
      statusCode, headers, headSent, body, finished := 200, map[], false, "", false;
    }

    predicate Pristine()
      reads this
    {
      headers == map[] && !headSent && body == "" && !finished
    }

    /** What the caller has received once the response is finished. */
    function Sent(): Response
      reads this
    {
      Response(statusCode, headers, body)
    }

    /** `res.setHeader(name, value)`: replaces any earlier value of `name`. */
    method SetHeader(name: string, value: string)
      requires !headSent
      modifies this`headers
      ensures headers == old(headers)[name := value]
    {
      headers := headers[name := value];
    }

    /** `res.writeHead(status)`: fixes the status and sends the headers. */
    method WriteHead(status: int)
      requires !headSent
      modifies this`statusCode, this`headSent
      ensures statusCode == status && headSent
    {
      statusCode, headSent := status, true;
    }

    /** `res.end(data)` (also what `pipe(res, {end: true})` amounts to). */
    method End(data: string)
      requires headSent && !finished
      modifies this`body, this`finished
      ensures body == old(body) + data && finished
    {
      body, finished := body + data, true;
    }
  }

  /** A `http.ClientRequest`: what was written to the backend, and whether it was ended. */
  class ClientRequest {
    const options: RequestOptions
    var written: seq<string>
    var ended: bool

    /** `http.request(options, ...)`. */
    constructor (options: RequestOptions)
      ensures this.options == options && written == [] && !ended
    {
      this.options := options;
      written, ended := [], false;
    }

    /** `proxyReq.write(data)`: only before the request is ended. */
    method Write(data: string)
      requires !ended
      modifies this`written
      ensures written == old(written) + [data]
    {
      written := written + [data];
    }

    /** `proxyReq.end()`: a request is ended once. */
    method End()
      requires !ended
      modifies this`ended
      ensures ended
    {
      ended := true;
    }
  }
}
