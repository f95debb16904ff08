/**
  * `forward`: builds one outbound request for a registry, strips the inbound headers in place,
  * and classifies the upstream's answer.
  */
module Forwarding {
  import opened Wrappers
  import opened Http
  import opened Rebasing
  import opened Registry

  const XForwardedServer: string := "x-forwarded-server"
  const XForwardedFor: string := "x-forwarded-for"
  const XForwardedHost: string := "x-forwarded-host"

  /** The proxy-chain headers `forward` remembers before it deletes them. */
  const Forwarded: set<string> := {XForwardedServer, XForwardedFor, XForwardedHost}
  /** Every header `forward` deletes from the inbound request. */
  const Stripped: set<string> := {"host", "authorization"} + Forwarded

  /** `headers[name]`: `None` is `undefined`. */
  function Lookup(h: Headers, name: string): Option<string>
  {
    if name in h then Some(h[name]) else None
  }

  /** JavaScript truthiness of a header value: `undefined` and the empty string are false. */
  predicate Truthy(v: Option<string>)
  {
    v.Some? && v.value != ""
  }

  /** The three `x-forwarded-*` values `forward` keeps in local variables. */
  datatype Captured = Captured(server: Option<string>, forwardedFor: Option<string>, host: Option<string>)
  {
    /** The value remembered for header `name`; nothing for any other header. */
    function Get(name: string): Option<string>
    {
      if name == XForwardedServer then server
      else if name == XForwardedFor then forwardedFor
      else if name == XForwardedHost then host
      else None
    }
  }

  /** What `forward` remembers of a header map: its `x-forwarded-*` values and nothing else. */
  function Capture(h: Headers): (c: Captured)
    ensures forall name :: c.Get(name) == if name in Forwarded then Lookup(h, name) else None
  {
    Captured(Lookup(h, XForwardedServer), Lookup(h, XForwardedFor), Lookup(h, XForwardedHost))
  }

  /**
    * The headers of a successful upstream response after `forward` writes back each remembered
    * value that is truthy; every other header keeps its upstream value.
    */
  function Restore(h: Headers, c: Captured): (r: Headers)
    ensures forall name :: Lookup(r, name) == if Truthy(c.Get(name)) then c.Get(name) else Lookup(h, name)
  {
    var h1 := if Truthy(c.server) then h[XForwardedServer := c.server.value] else h;
    var h2 := if Truthy(c.forwardedFor) then h1[XForwardedFor := c.forwardedFor.value] else h1;
    if Truthy(c.host) then h2[XForwardedHost := c.host.value] else h2
  }

  /** The options object `forward` hands to `http.request`. */
  datatype OutboundRequest = OutboundRequest(
    hostname: string,
    port: Port,
    path: Option<string>,
    headers: Headers,
    verb: string,
    auth: Option<string>)

  /** The outbound request for `registry`; `headers` is the inbound map as it stands when sent. */
  function Outbound(registry: Url, url: string, verb: string, headers: Headers): OutboundRequest
  {
    OutboundRequest(registry.hostname, registry.port, Rebase(registry.path, url), headers, verb, registry.auth)
  }

  /** Why one attempt did not qualify. */
  datatype ForwardError = TransportFailure(cause: string) | BadStatus(hostname: string, statusCode: int)

  /** The arguments `forward` passes to its callback: an error, or a qualifying response. */
  datatype Attempt = Failed(error: ForwardError) | Succeeded(response: UpstreamResponse)

  /**
    * How `forward` classifies what the network returned: a transport error or a status of 400
    * or more fails; anything else succeeds, with the remembered headers written back.
    */
  function Classify(answer: Outcome, remembered: Captured, hostname: string): (a: Attempt)
    ensures a.Failed? <==> answer.TransportError? || answer.response.statusCode >= 400
    ensures answer.TransportError? ==> a == Failed(TransportFailure(answer.cause))
    ensures answer.Responded? && answer.response.statusCode >= 400 ==>
      a == Failed(BadStatus(hostname, answer.response.statusCode))
    ensures a.Succeeded? ==>
      && a.response.statusCode == answer.response.statusCode
      && a.response.body == answer.response.body
      && a.response.headers == Restore(answer.response.headers, remembered)
  {
    match answer
    case TransportError(cause) => Failed(TransportFailure(cause))
    case Responded(res) =>
      if res.statusCode >= 400 then Failed(BadStatus(hostname, res.statusCode))
      else Succeeded(res.(headers := Restore(res.headers, remembered)))
  }

  /**
    * `forward(reqIn, registry, cb)` for one attempt whose network answer is `answer`. The outbound
    * request shares the inbound header object, so the deletions change `reqIn.headers` itself.
    */
  method Forward(reqIn: IncomingRequest, registry: Url, answer: Outcome)
    returns (reqOut: OutboundRequest, attempt: Attempt)
    modifies reqIn`headers
    ensures reqIn.headers == old(reqIn.headers) - Stripped
    ensures reqOut == Outbound(registry, reqIn.url, reqIn.verb, reqIn.headers)
    ensures attempt == Classify(answer, Capture(old(reqIn.headers)), registry.hostname)
  {
    var xForwardedServer := Lookup(reqIn.headers, XForwardedServer);
    var xForwardedFor := Lookup(reqIn.headers, XForwardedFor);
    var xForwardedHost := Lookup(reqIn.headers, XForwardedHost);

    reqIn.headers := reqIn.headers - {"host"};
    reqIn.headers := reqIn.headers - {"authorization"};
    reqIn.headers := reqIn.headers - {XForwardedHost};
    reqIn.headers := reqIn.headers - {XForwardedFor};
    reqIn.headers := reqIn.headers - {XForwardedServer};

    reqOut := Outbound(registry, reqIn.url, reqIn.verb, reqIn.headers);
    match answer
    case TransportError(cause) =>
      attempt := Failed(TransportFailure(cause));
    case Responded(res) =>
      if res.statusCode >= 400 {
        attempt := Failed(BadStatus(registry.hostname, res.statusCode));
      } else {
        var headers := res.headers;
        if Truthy(xForwardedServer) {
          headers := headers[XForwardedServer := xForwardedServer.value];
        }
        if Truthy(xForwardedFor) {
          headers := headers[XForwardedFor := xForwardedFor.value];
        }
        if Truthy(xForwardedHost) {
          headers := headers[XForwardedHost := xForwardedHost.value];
        }
        attempt := Succeeded(res.(headers := headers));
      }
  }

  /**
    * After the deletions the inbound map holds none of the stripped headers and every other
    * header with its old value; deleting again changes nothing.
    */
  lemma StripMeaning(h: Headers)
    ensures forall name :: name in Stripped ==> Lookup(h - Stripped, name).None?
    ensures forall name :: name !in Stripped ==> Lookup(h - Stripped, name) == Lookup(h, name)
    ensures (h - Stripped) - Stripped == h - Stripped
  {
  }

  /**
    * Because the inbound map is stripped in place, an attempt after the first remembers no
    * `x-forwarded-*` value, and its successful response keeps exactly the upstream's headers.
    */
  lemma LaterAttemptRemembersNothing(h: Headers, upstream: Headers)
    ensures Capture(h - Stripped) == Captured(None, None, None)
    ensures Restore(upstream, Capture(h - Stripped)) == upstream
  {
    assert XForwardedServer in Stripped && XForwardedFor in Stripped && XForwardedHost in Stripped;
  }

  /**
    * On the first attempt every truthy `x-forwarded-*` value of the inbound request reaches the
    * successful response, though it was withheld from the upstream.
    */
  lemma FirstAttemptRestores(h: Headers, answer: Outcome, hostname: string, name: string)
    requires answer.Responded? && answer.response.statusCode < 400
    requires name in Forwarded && name in h && h[name] != ""
    ensures name !in h - Stripped
    ensures var a := Classify(answer, Capture(h), hostname);
      a.Succeeded? && name in a.response.headers && a.response.headers[name] == h[name]
  {
    var a := Classify(answer, Capture(h), hostname);
    assert Capture(h).Get(name) == Some(h[name]);
    assert Lookup(a.response.headers, name) == Some(h[name]);
  }
}
