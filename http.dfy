/** The HTTP objects the proxy handles: the inbound request, upstream responses and the client response. */
module Http {

  /** Header maps keyed by the lower-case names Node gives them. */
  type Headers = map<string, string>

  /** A response from an upstream registry; `body` stands for the stream it delivers. */
  datatype UpstreamResponse = UpstreamResponse(statusCode: int, headers: Headers, body: string)

  /** What the network gives back for one outbound request. */
  datatype Outcome = TransportError(cause: string) | Responded(response: UpstreamResponse)

  /** The request a client sent to the proxy; only its header map is ever changed. */
  class IncomingRequest {
    /** The HTTP method (`req.method`), upper case as Node's parser delivers it. */
    const verb: string
    const url: string
    var headers: Headers

    constructor (verb: string, url: string, headers: Headers)
      ensures this.verb == verb && this.url == url && this.headers == headers
    {
      this.verb := verb;
      this.url := url;
      this.headers := headers;
    }
  }

  /** A snapshot of what the proxy has told its client so far. */
  datatype Reply = Reply(statusCode: int, headers: Headers, body: string, finished: bool)

  /** The client-facing response, written by `setHeader`, `write` and `end`. */
  class ServerResponse {
    var statusCode: int
    var headers: Headers
    var body: string
    var finished: bool

    /** Node starts every response at status 200 with no headers. */
    constructor ()
      ensures State() == Reply(200, map[], "", false)
    {
      statusCode := 200;
      headers := map[];
      body := "";
      finished := false;
    }

    function State(): Reply
      reads this
    {
      Reply(statusCode, headers, body, finished)
    }

    /** `setHeader(name, value)`: a later value for the same name replaces an earlier one. */
    method SetHeader(name: string, value: string)
      modifies this`headers
      ensures headers == old(headers)[name := value]
    {
      headers := headers[name := value];
    }

    /** `write(chunk)`: appends to the body sent to the client. */
    method Write(chunk: string)
      modifies this`body
      ensures body == old(body) + chunk
    {
      body := body + chunk;
    }

    /** `end()`: the response is complete. */
    method End()
      modifies this`finished
      ensures finished
    {
      finished := true;
    }
  }
}
