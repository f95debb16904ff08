/** Registry addresses: the parsed URL of each upstream and `parseRegistry`'s checks on it. */
module Registry {
  import opened Wrappers
  import opened Strings

  /** A URL's port: absent (`null`), the text `url.parse` found, or a number filled in later. */
  datatype Port = Absent | Text(digits: string) | Number(n: nat)

  /** The fields of a parsed URL that the proxy reads; `path` includes any query string. */
  datatype Url = Url(
    protocol: Option<string>,
    hostname: string,
    port: Port,
    path: string,
    auth: Option<string>)

  /** The port a registry gets when its address names none. */
  const DefaultPort: nat := 80

  /**
    * JavaScript truthiness of a port: `null`, the empty string and the number 0 are false.
    * `url.parse` gives a port only as text or `null`; a `Number` port is one filled in later.
    */
  predicate PortGiven(p: Port)
  {
    !(p.Absent? || p == Text("") || p == Number(0))
  }

  /**
    * `/http(s?):/.test(protocol)`: the pattern is not anchored, so it matches when `http:` or
    * `https:` occurs anywhere; a `null` protocol is tested as the text "null".
    */
  predicate SchemeAccepted(protocol: Option<string>)
  {
    var text := if protocol.Some? then protocol.value else "null";
    IndexOf(text, "http:") >= 0 || IndexOf(text, "https:") >= 0
  }

  /** The message `die` prints for an address without an HTTP protocol. */
  function InvalidAddress(address: string): string
  {
    "invalid registry address: specify a protocol (eg https://): " + address
  }

  /**
    * `parseRegistry(address)`, given what `url.parse(address)` returned: it dies unless the
    * protocol passes the test, and fills in port 80 when none was given.
    */
  function ParseRegistry(address: string, parsed: Url): (r: Result<Url>)
    ensures r.Died? <==> !SchemeAccepted(parsed.protocol)
    ensures r.Died? ==> r.message == InvalidAddress(address)
    ensures r.Ok? ==> r.value.(port := parsed.port) == parsed
    ensures r.Ok? && PortGiven(parsed.port) ==> r.value.port == parsed.port
    ensures r.Ok? && !PortGiven(parsed.port) ==> r.value.port == Number(DefaultPort)
  {
    if !SchemeAccepted(parsed.protocol) then Died(InvalidAddress(address))
    else if PortGiven(parsed.port) then Ok(parsed)
    else Ok(parsed.(port := Number(DefaultPort)))
  }

  /** Both `http:` and `https:` pass the protocol test. */
  lemma HttpSchemesAccepted()
    ensures SchemeAccepted(Some("http:")) && SchemeAccepted(Some("https:"))
  {
    assert OccursAt("https:", "https:", 0);
  }

  /** A protocol passes exactly when `http:` or `https:` occurs somewhere in it. */
  lemma SchemeAcceptedMeaning(protocol: string)
    ensures SchemeAccepted(Some(protocol)) <==>
      exists i :: 0 <= i <= |protocol| && (OccursAt(protocol, "http:", i) || OccursAt(protocol, "https:", i))
  {
    if IndexOf(protocol, "http:") >= 0 {
      assert OccursAt(protocol, "http:", IndexOf(protocol, "http:"));
    } else if IndexOf(protocol, "https:") >= 0 {
      assert OccursAt(protocol, "https:", IndexOf(protocol, "https:"));
    }
  }

  /** An address without a protocol (`null`) is rejected, and so is `ftp:`. */
  lemma MissingSchemeRejected(address: string, parsed: Url)
    requires parsed.protocol.None? || parsed.protocol == Some("ftp:")
    ensures ParseRegistry(address, parsed) == Died(InvalidAddress(address))
  {
  }

  /** The test is unanchored: a protocol that merely ends in `http:` is accepted too. */
  lemma UnanchoredSchemeTest()
    ensures SchemeAccepted(Some("xhttp:"))
  {
    assert OccursAt("xhttp:", "http:", 1);
  }
}
