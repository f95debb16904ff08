/**
  * `delegate`: rejects non-GET requests, tries the registries in order until one qualifies,
  * and relays the winner's response or writes a failure body.
  */
module Delegation {
  import opened Wrappers
  import opened Json
  import opened Http
  import opened Registry
  import opened Forwarding

  /** The synthetic header naming the registry that served the response. */
  const XRegistry: string := "x-registry"

  const InvalidMethodMessage: string := "Invalid method"

  /** The message for a request no registry fulfilled; the two halves are joined without a space. */
  const ExhaustedMessage: string :=
    "Request could not be fulfilled by any of the registries on this proxy."
    + "perhaps the module you're looking for does not exist"

  /** The message for an error from the `fallback` iteration; `detail` is the error as JSON text. */
  function IterationMessage(detail: string): string
  {
    "There was an error resolving your request:\n" + detail
  }

  /** The arguments the `fallback` library passes to `delegate`'s final callback. */
  datatype FallbackResult =
    | IterationError(detail: string)
    | Exhausted
    | Fulfilled(response: UpstreamResponse, registry: Url)

  /** The outbound requests one run of the fallback issued, in order, and how it ended. */
  datatype Trace = Trace(sent: seq<OutboundRequest>, result: FallbackResult)

  /** An answer the proxy accepts: a response with a status below 400. */
  predicate Qualifies(o: Outcome)
  {
    o.Responded? && o.response.statusCode < 400
  }

  /** The position of the first qualifying answer, if there is one. */
  function FirstQualifying(network: seq<Outcome>): (k: Option<nat>)
    ensures k.Some? ==> k.value < |network| && Qualifies(network[k.value])
    ensures k.Some? ==> forall j :: 0 <= j < k.value ==> !Qualifies(network[j])
    ensures k.None? ==> forall j :: 0 <= j < |network| ==> !Qualifies(network[j])
  {
    if network == [] then None
    else if Qualifies(network[0]) then Some(0)
    else match FirstQualifying(network[1..])
      case None => None
      case Some(k) => Some(k + 1)
  }

  /**
    * The fallback over `registries`, where `network[i]` is what registry `i` answers and `h` the
    * inbound headers before the attempt: each attempt strips `h` for the next one.
    */
  function Run(registries: seq<Url>, network: seq<Outcome>, url: string, verb: string, h: Headers): (t: Trace)
    requires |network| == |registries|
    ensures |t.sent| <= |registries|
    ensures !t.result.IterationError?
    decreases |registries|
  {
    if registries == [] then Trace([], Exhausted)
    else
      var reqOut := Outbound(registries[0], url, verb, h - Stripped);
      var attempt := Classify(network[0], Capture(h), registries[0].hostname);
      if attempt.Succeeded? then Trace([reqOut], Fulfilled(attempt.response, registries[0]))
      else
        var rest := Run(registries[1..], network[1..], url, verb, h - Stripped);
        Trace([reqOut] + rest.sent, rest.result)
  }

  /** The client response after `pipeRes`: upstream status, upstream headers over the old ones, body, end. */
  function Relayed(before: Reply, res: UpstreamResponse): Reply
  {
    Reply(res.statusCode, before.headers + res.headers, before.body + res.body, true)
  }

  /** The client response after `delegate`'s final callback has handled `result`. */
  function Completed(before: Reply, result: FallbackResult, format: Url -> string): Reply
  {
    match result
    case IterationError(detail) =>
      before.(body := before.body + ErrorBody(IterationMessage(detail)), finished := true)
    case Exhausted =>
      Reply(400, before.headers, before.body + ErrorBody(ExhaustedMessage), true)
    case Fulfilled(res, registry) =>
      Relayed(before.(headers := before.headers[XRegistry := format(registry)]), res)
  }

  /** The client response after a request with a method other than GET. */
  function MethodRejected(before: Reply): Reply
  {
    Reply(405, before.headers, before.body + ErrorBody(InvalidMethodMessage), true)
  }

  /** The effect of `delegate` on the client response, the outbound requests and the inbound headers. */
  datatype Handling = Handling(reply: Reply, sent: seq<OutboundRequest>, inbound: Headers)

  function Handle(
    before: Reply, verb: string, url: string, h: Headers,
    registries: seq<Url>, network: seq<Outcome>, format: Url -> string): Handling
    requires |network| == |registries|
  {
    if verb != "GET" then
      Handling(MethodRejected(before), [], h)
    else
      var t := Run(registries, network, url, verb, h);
      Handling(Completed(before, t.result, format), t.sent, if t.sent == [] then h else h - Stripped)
  }

  /** `copyHeaders`: the status and then every upstream header, one `setHeader` at a time. */
  method CopyHeaders(resFrom: UpstreamResponse, resTo: ServerResponse)
    modifies resTo`statusCode, resTo`headers
    ensures resTo.statusCode == resFrom.statusCode
    ensures resTo.headers == old(resTo.headers) + resFrom.headers
  {
    resTo.statusCode := resFrom.statusCode;
    var pending := resFrom.headers.Keys;
    while pending != {}
      invariant pending <= resFrom.headers.Keys
      invariant resTo.statusCode == resFrom.statusCode
      invariant resTo.headers == old(resTo.headers) + (resFrom.headers - pending)
      decreases pending
    {
      var header :| header in pending;
      resTo.SetHeader(header, resFrom.headers[header]);
      pending := pending - {header};
    }
    assert resFrom.headers - {} == resFrom.headers;
  }

  /** `pipeRes`: copy status and headers, then stream the body and end the client response. */
  method PipeRes(resFrom: UpstreamResponse, resTo: ServerResponse)
    modifies resTo
    ensures resTo.State() == Relayed(old(resTo.State()), resFrom)
  {
    CopyHeaders(resFrom, resTo);
    resTo.Write(resFrom.body);
    resTo.End();
  }

  /** `delegate`'s final callback, given what the `fallback` library reports. */
  method Complete(resOut: ServerResponse, result: FallbackResult, format: Url -> string)
    modifies resOut
    ensures resOut.State() == Completed(old(resOut.State()), result, format)
  {
    match result
    case IterationError(detail) =>
      resOut.Write(ErrorBody(IterationMessage(detail)));
      resOut.End();
    case Exhausted =>
      resOut.statusCode := 400;
      resOut.Write(ErrorBody(ExhaustedMessage));
      resOut.End();
    case Fulfilled(resIn, registry) =>
      resOut.SetHeader(XRegistry, format(registry));
      PipeRes(resIn, resOut);
  }

  /** The answer `delegate` gives a request whose method is not GET. */
  method RejectMethod(resOut: ServerResponse)
    modifies resOut
    ensures resOut.State() == MethodRejected(old(resOut.State()))
  {
    resOut.statusCode := 405;
    resOut.Write(ErrorBody(InvalidMethodMessage));
    resOut.End();
  }

  /**
    * One attempt of the fallback at position `i`: from a run that has sent `sent` and still has
    * `registries[i..]` to try with inbound headers `hi`, to the run after that attempt.
    */
  lemma RunStep(
    registries: seq<Url>, network: seq<Outcome>, i: nat, url: string, verb: string,
    h: Headers, hi: Headers, sent: seq<OutboundRequest>)
    requires |network| == |registries| && i < |registries|
    requires hi - Stripped == h - Stripped
    requires var rest := Run(registries[i..], network[i..], url, verb, hi);
      Run(registries, network, url, verb, h) == Trace(sent + rest.sent, rest.result)
    ensures var attempt := Classify(network[i], Capture(hi), registries[i].hostname);
      var sent' := sent + [Outbound(registries[i], url, verb, hi - Stripped)];
      var rest := Run(registries[i + 1..], network[i + 1..], url, verb, h - Stripped);
      Run(registries, network, url, verb, h)
        == if attempt.Succeeded? then Trace(sent', Fulfilled(attempt.response, registries[i]))
           else Trace(sent' + rest.sent, rest.result)
  {
    assert registries[i..][1..] == registries[i + 1..] && network[i..][1..] == network[i + 1..];
    var attempt := Classify(network[i], Capture(hi), registries[i].hostname);
    var reqOut := Outbound(registries[i], url, verb, hi - Stripped);
    if attempt.Failed? {
      var rest := Run(registries[i + 1..], network[i + 1..], url, verb, h - Stripped);
      assert Run(registries[i..], network[i..], url, verb, hi).sent == [reqOut] + rest.sent;
      assert sent + ([reqOut] + rest.sent) == (sent + [reqOut]) + rest.sent;
    }
  }

  /**
    * The `fallback` call of `delegate`: forwards to each registry in turn, stopping at the first
    * attempt whose callback gets a response; a failed attempt's error is dropped (`cb()`).
    */
  method Fallback(req: IncomingRequest, registries: seq<Url>, network: seq<Outcome>)
    returns (sent: seq<OutboundRequest>, result: FallbackResult)
    requires |network| == |registries|
    modifies req`headers
    ensures Trace(sent, result) == Run(registries, network, req.url, req.verb, old(req.headers))
    ensures req.headers == if sent == [] then old(req.headers) else old(req.headers) - Stripped
  {
    ghost var h := req.headers;
    StripMeaning(h);
    sent := [];
    result := Exhausted;
    var i := 0;
    while i < |registries| && result.Exhausted?
      invariant 0 <= i <= |registries|
      invariant |sent| == i
      invariant i == 0 ==> req.headers == h
      invariant i > 0 ==> req.headers == h - Stripped
      invariant result.Exhausted? ==>
        var rest := Run(registries[i..], network[i..], req.url, req.verb, req.headers);
        Run(registries, network, req.url, req.verb, h) == Trace(sent + rest.sent, rest.result)
      invariant !result.Exhausted? ==> Run(registries, network, req.url, req.verb, h) == Trace(sent, result)
      decreases |registries| - i
    {
      RunStep(registries, network, i, req.url, req.verb, h, req.headers, sent);
      var reqOut, attempt := Forward(req, registries[i], network[i]);
      sent := sent + [reqOut];
      if attempt.Succeeded? {
        result := Fulfilled(attempt.response, registries[i]);
      }
      i := i + 1;
    }
    if result.Exhausted? {
      assert registries[i..] == [];
      assert sent + [] == sent;
    }
  }

  /**
    * `delegate(req, resOut)` over the configured `registries`; `network[i]` is what registry `i`
    * answers and `format` is `url.format`. Returns the outbound requests in the order issued.
    */
  method Delegate(
    req: IncomingRequest, resOut: ServerResponse,
    registries: seq<Url>, network: seq<Outcome>, format: Url -> string)
    returns (sent: seq<OutboundRequest>)
    requires |network| == |registries|
    modifies req`headers, resOut
    ensures Handling(resOut.State(), sent, req.headers)
         == Handle(old(resOut.State()), req.verb, req.url, old(req.headers), registries, network, format)
  {
    if req.verb != "GET" {
      RejectMethod(resOut);
      return [];
    }
    ghost var h, before := req.headers, resOut.State();
    var result;
    sent, result := Fallback(req, registries, network);
    Complete(resOut, result, format);
    assert resOut.State() == Completed(before, result, format);
  }
}

/** What `delegate` promises, stated over its specification. */
module DelegationProperties {
  import opened Wrappers
  import opened Json
  import opened Http
  import opened Rebasing
  import opened Registry
  import opened Forwarding
  import opened Delegation

  /**
    * The fallback stops at the first qualifying answer and wins with that registry; only the
    * first attempt can restore `x-forwarded-*` values. With no qualifying answer every registry
    * is tried and the run is exhausted.
    */
  lemma {:induction false} RunOutcome(
    registries: seq<Url>, network: seq<Outcome>, url: string, verb: string, h: Headers)
    requires |network| == |registries|
    ensures var t := Run(registries, network, url, verb, h);
      match FirstQualifying(network)
      case None => t.result == Exhausted && |t.sent| == |registries|
      case Some(k) =>
        && |t.sent| == k + 1
        && t.result.Fulfilled? && t.result.registry == registries[k]
        && (k == 0 ==>
              t.result.response == network[0].response.(headers := Restore(network[0].response.headers, Capture(h))))
        && (k > 0 ==> t.result.response == network[k].response)
  {
    if registries != [] && !Qualifies(network[0]) {
      var h' := h - Stripped;
      RunOutcome(registries[1..], network[1..], url, verb, h');
      match FirstQualifying(network[1..])
      case None =>
      case Some(k) =>
        if k == 0 {
          LaterAttemptRemembersNothing(h, network[1].response.headers);
        }
    }
  }

  /** Attempt `i` goes to registry `i`, with the inbound headers minus the stripped ones. */
  lemma {:induction false} RunSent(
    registries: seq<Url>, network: seq<Outcome>, url: string, verb: string, h: Headers)
    requires |network| == |registries|
    ensures var t := Run(registries, network, url, verb, h);
      forall i :: 0 <= i < |t.sent| ==> i < |registries| && t.sent[i] == Outbound(registries[i], url, verb, h - Stripped)
  {
    if registries != [] {
      var h' := h - Stripped;
      StripMeaning(h);
      RunSent(registries[1..], network[1..], url, verb, h');
      var t := Run(registries, network, url, verb, h);
      if Classify(network[0], Capture(h), registries[0].hostname).Failed? {
        var rest := Run(registries[1..], network[1..], url, verb, h');
        assert t.sent == [Outbound(registries[0], url, verb, h')] + rest.sent;
        forall i | 1 <= i < |t.sent|
          ensures t.sent[i] == Outbound(registries[i], url, verb, h')
        {
          assert t.sent[i] == rest.sent[i - 1];
          assert registries[1..][i - 1] == registries[i];
        }
      }
    }
  }

  /** The body of a method rejection, as the client reads it. */
  lemma InvalidMethodBody()
    ensures ErrorBody(InvalidMethodMessage) == "{\"error\":\"Invalid method\"}"
  {
    EscapePlain(InvalidMethodMessage);
  }

  /** A method other than GET gets 405 and a fixed body, and no registry is contacted. */
  lemma NonGetRejected(
    before: Reply, verb: string, url: string, h: Headers,
    registries: seq<Url>, network: seq<Outcome>, format: Url -> string)
    requires |network| == |registries| && verb != "GET"
    ensures var r := Handle(before, verb, url, h, registries, network, format);
      && r.reply.statusCode == 405
      && r.reply.body == before.body + "{\"error\":\"Invalid method\"}"
      && r.reply.headers == before.headers && r.reply.finished
      && r.sent == [] && r.inbound == h
  {
    InvalidMethodBody();
  }

  /**
    * When no registry qualifies, every registry was tried, and the client gets 400 with the fixed
    * body; no upstream status, header or body reaches it.
    */
  lemma ExhaustedReply(
    before: Reply, url: string, h: Headers,
    registries: seq<Url>, network: seq<Outcome>, format: Url -> string)
    requires |network| == |registries| && FirstQualifying(network).None?
    ensures var r := Handle(before, "GET", url, h, registries, network, format);
      && r.reply.statusCode == 400
      && (exists e :: r.reply.body == before.body + "{\"error\":\"" + e + "\"}" && Unescape(e) == Some(ExhaustedMessage))
      && r.reply.headers == before.headers && r.reply.finished
      && |r.sent| == |registries|
  {
    RunOutcome(registries, network, url, "GET", h);
    EscapeRoundTrip(ExhaustedMessage);
    var e := Escape(ExhaustedMessage);
    assert Handle(before, "GET", url, h, registries, network, format).reply.body
      == before.body + "{\"error\":\"" + e + "\"}";
  }

  /**
    * When registry `k` is the first to qualify, exactly `k + 1` requests were sent and the client
    * gets its status, its body and every one of its headers, plus `x-registry` naming registry `k`
    * unless the upstream sent a header of that name itself.
    */
  lemma FulfilledRelay(
    before: Reply, url: string, h: Headers,
    registries: seq<Url>, network: seq<Outcome>, format: Url -> string, k: nat)
    requires |network| == |registries| && FirstQualifying(network) == Some(k)
    ensures var r := Handle(before, "GET", url, h, registries, network, format);
      var up := network[k].response;
      && |r.sent| == k + 1 && r.inbound == h - Stripped
      && r.reply.statusCode == up.statusCode
      && r.reply.body == before.body + up.body && r.reply.finished
      && (forall name :: name in up.headers && name !in Forwarded ==>
            name in r.reply.headers && r.reply.headers[name] == up.headers[name])
      && (k > 0 ==> forall name :: name in up.headers ==>
            name in r.reply.headers && r.reply.headers[name] == up.headers[name])
      && (XRegistry in up.headers ==> r.reply.headers[XRegistry] == up.headers[XRegistry])
      && (XRegistry !in up.headers ==> XRegistry in r.reply.headers && r.reply.headers[XRegistry] == format(registries[k]))
      && (forall name :: name in before.headers && name !in up.headers && name != XRegistry && name !in Forwarded ==>
            name in r.reply.headers && r.reply.headers[name] == before.headers[name])
  {
    RunOutcome(registries, network, url, "GET", h);
    var up := network[k].response;
    var relayed := Run(registries, network, url, "GET", h).result.response;
    assert forall name :: name !in Forwarded ==> Lookup(relayed.headers, name) == Lookup(up.headers, name);
  }

  /**
    * Two registries, the first answering with an error status or failing to connect and the
    * second with a qualifying response: both are tried, in order, and the second one is relayed.
    */
  lemma SecondRegistryServes(
    before: Reply, url: string, h: Headers, a: Url, b: Url,
    first: Outcome, second: UpstreamResponse, format: Url -> string)
    requires first.TransportError? || first.response.statusCode >= 400
    requires second.statusCode < 400 && XRegistry !in second.headers
    ensures var r := Handle(before, "GET", url, h, [a, b], [first, Responded(second)], format);
      && |r.sent| == 2 && r.sent[0].hostname == a.hostname && r.sent[1].hostname == b.hostname
      && r.reply.statusCode == second.statusCode
      && r.reply.body == before.body + second.body
      && r.reply.headers[XRegistry] == format(b)
  {
    var network := [first, Responded(second)];
    assert FirstQualifying(network[1..]) == Some(0);
    FulfilledRelay(before, url, h, [a, b], network, format, 1);
    AttemptsStripped(before, url, h, [a, b], network, format);
  }

  /**
    * When the first registry wins, each truthy `x-forwarded-*` value of the inbound request
    * reaches the client, though none was sent upstream.
    */
  lemma FirstWinnerRestoresForwarded(
    before: Reply, url: string, h: Headers,
    registries: seq<Url>, network: seq<Outcome>, format: Url -> string, name: string)
    requires |network| == |registries| && FirstQualifying(network) == Some(0)
    requires name in Forwarded && name in h && h[name] != ""
    ensures var r := Handle(before, "GET", url, h, registries, network, format);
      && (forall i :: 0 <= i < |r.sent| ==> name !in r.sent[i].headers)
      && name in r.reply.headers && r.reply.headers[name] == h[name]
  {
    RunOutcome(registries, network, url, "GET", h);
    RunSent(registries, network, url, "GET", h);
    FirstAttemptRestores(h, network[0], registries[0].hostname, name);
  }

  /**
    * When a later registry wins, the inbound `x-forwarded-*` values are already gone: a header
    * the winner did not send and the client response did not hold is missing from the reply.
    */
  lemma LaterWinnerDropsForwarded(
    before: Reply, url: string, h: Headers,
    registries: seq<Url>, network: seq<Outcome>, format: Url -> string, k: nat, name: string)
    requires |network| == |registries| && FirstQualifying(network) == Some(k) && k > 0
    requires name in Forwarded && name !in network[k].response.headers && name !in before.headers
    ensures name !in Handle(before, "GET", url, h, registries, network, format).reply.headers
  {
    ForwardedIsNotRegistry(name);
    LaterWinnerAddsNothing(before, url, h, registries, network, format, k, name);
  }

  lemma ForwardedIsNotRegistry(name: string)
    requires name in Forwarded
    ensures name != XRegistry
  {
    assert |name| != |XRegistry|;
  }

  /** When a later registry wins, the reply holds no header but the winner's, the old ones and `x-registry`. */
  lemma LaterWinnerAddsNothing(
    before: Reply, url: string, h: Headers,
    registries: seq<Url>, network: seq<Outcome>, format: Url -> string, k: nat, name: string)
    requires |network| == |registries| && FirstQualifying(network) == Some(k) && k > 0
    requires name != XRegistry && name !in network[k].response.headers && name !in before.headers
    ensures name !in Handle(before, "GET", url, h, registries, network, format).reply.headers
  {
    RunOutcome(registries, network, url, "GET", h);
    HandleFulfilled(before, url, h, registries, network, format);
  }

  /** A fulfilled run: the reply is the winner relayed over the old headers plus `x-registry`. */
  lemma HandleFulfilled(
    before: Reply, url: string, h: Headers,
    registries: seq<Url>, network: seq<Outcome>, format: Url -> string)
    requires |network| == |registries|
    requires Run(registries, network, url, "GET", h).result.Fulfilled?
    ensures var t := Run(registries, network, url, "GET", h);
      Handle(before, "GET", url, h, registries, network, format).reply.headers
        == before.headers[XRegistry := format(t.result.registry)] + t.result.response.headers
  {
  }

  /**
    * Every outbound request goes to its registry's host and port, with the rebased path, the
    * inbound method, and none of the stripped headers; after any attempt the inbound map has lost them.
    */
  lemma AttemptsStripped(
    before: Reply, url: string, h: Headers,
    registries: seq<Url>, network: seq<Outcome>, format: Url -> string)
    requires |network| == |registries|
    ensures var r := Handle(before, "GET", url, h, registries, network, format);
      && (registries != [] ==> r.inbound == h - Stripped && |r.sent| >= 1)
      && forall i :: 0 <= i < |r.sent| ==>
           && i < |registries|
           && r.sent[i].hostname == registries[i].hostname
           && r.sent[i].port == registries[i].port
           && r.sent[i].path == Rebase(registries[i].path, url)
           && r.sent[i].verb == "GET"
           && r.sent[i].headers == h - Stripped
           && r.sent[i].headers.Keys !! Stripped
  {
    RunOutcome(registries, network, url, "GET", h);
    RunSent(registries, network, url, "GET", h);
  }

  /**
    * An error from the iteration itself leaves the status as it was and writes a JSON body whose
    * `error` string reads back as the fixed preamble followed by the error's text.
    */
  lemma IterationErrorReply(before: Reply, detail: string, format: Url -> string)
    ensures var r := Completed(before, IterationError(detail), format);
      && r.statusCode == before.statusCode && r.headers == before.headers && r.finished
      && exists e :: r.body == before.body + "{\"error\":\"" + e + "\"}"
           && Unescape(e) == Some("There was an error resolving your request:\n" + detail)
  {
    var e := Escape(IterationMessage(detail));
    EscapeRoundTrip(IterationMessage(detail));
    assert Completed(before, IterationError(detail), format).body == before.body + "{\"error\":\"" + e + "\"}";
  }
}
