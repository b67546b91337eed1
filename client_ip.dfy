/**
 * Resolution of the client address from proxy headers (`get_client_ip`).
 * The request is its header map plus the transport-level peer address,
 * which the web framework may leave unset.
 */
module ClientAddress {
  import opened Wrappers
  import opened Text

  const AzureClientIp: string := "X-Azure-ClientIP"
  const ForwardedFor: string := "X-Forwarded-For"
  const RealIp: string := "X-Real-IP"

  /** Header values by header name, as the framework presents them. */
  type Headers = map<string, string>

  datatype Request = Request(headers: Headers, remoteAddr: Option<string>)

  /** `request.headers.get(name)` is truthy: the header is present and not empty. */
  predicate HasValue(h: Headers, name: string) {
    name in h && h[name] != ""
  }

  /** `request.headers.get(name, default)`: the default only when the header is absent. */
  function HeaderOr(h: Headers, name: string, default: string): string {
    if name in h then h[name] else default
  }

  /** `v.split(",")[0].strip()`: the first hop of an `X-Forwarded-For` list. */
  function FirstForwarded(v: string): (r: string)
    ensures ',' !in r
    ensures r == [] || (!IsSpace(r[0]) && !IsSpace(r[|r| - 1]))
  {
    var first := Split(v, ',')[0];
    StripIsSlice(first);
    StripIsTrimmed(first);
    Strip(first)
  }

  /** The address before port stripping; `None` when every source is missing. */
  function ChosenAddress(req: Request): Option<string> {
    var h := req.headers;
    if HasValue(h, AzureClientIp) then Some(h[AzureClientIp])
    else if HasValue(h, ForwardedFor) then Some(FirstForwarded(h[ForwardedFor]))
    else if HasValue(h, RealIp) then Some(h[RealIp])
    else req.remoteAddr
  }

  /**
   * `ip.split(":")[0]` when `ip` holds a `:` and does not start with `[`.
   * The result is a prefix of `ip`; it is `ip` itself for bracketed and
   * colon-free addresses, and it never holds a `:` otherwise.
   */
  function StripPort(ip: string): (r: string)
    ensures StartsWith(ip, r)
    ensures !StartsWith(ip, "[") ==> ':' !in r
    ensures ':' !in ip || StartsWith(ip, "[") ==> r == ip
  {
    if ':' in ip && !StartsWith(ip, "[") then
      SplitHead(ip, ':');
      Split(ip, ':')[0]
    else ip
  }

  /**
   * `get_client_ip()`. When no header is usable and the peer address is unset,
   * the source's `":" in ip` raises on `None`; that is the `None` result here.
   */
  function ClientIp(req: Request): (r: Option<string>)
    ensures r.None? <==>
      !HasValue(req.headers, AzureClientIp) && !HasValue(req.headers, ForwardedFor)
      && !HasValue(req.headers, RealIp) && req.remoteAddr.None?
  {
    match ChosenAddress(req)
    case None => None
    case Some(ip) => Some(StripPort(ip))
  }

  // ---------------------------------------------------------------------------
  // Precedence, stated against an independent list-based definition

  /** One place an address may come from: the raw header text whose emptiness is checked, and the address it yields. */
  datatype Source = Source(raw: string, address: string)

  /** The three proxy headers in the order they are consulted. */
  function HeaderSources(h: Headers): seq<Source> {
    [ Source(HeaderOr(h, AzureClientIp, ""), HeaderOr(h, AzureClientIp, "")),
      Source(HeaderOr(h, ForwardedFor, ""), FirstForwarded(HeaderOr(h, ForwardedFor, ""))),
      Source(HeaderOr(h, RealIp, ""), HeaderOr(h, RealIp, "")) ]
  }

  /** The address of the first source whose raw text is not empty, else the fallback. */
  function FirstUsable(sources: seq<Source>, fallback: Option<string>): Option<string> {
    if |sources| == 0 then fallback
    else if sources[0].raw != "" then Some(sources[0].address)
    else FirstUsable(sources[1..], fallback)
  }

  /** The client address is the first usable header in precedence order, else the peer address, with its port removed. */
  lemma ClientIpFollowsPrecedence(req: Request)
    ensures ClientIp(req) == match FirstUsable(HeaderSources(req.headers), req.remoteAddr)
                             case None => None
                             case Some(a) => Some(StripPort(a))
  {
    var h := req.headers;
    var s := HeaderSources(h);
    var f := req.remoteAddr;
    if HasValue(h, AzureClientIp) {
      assert FirstUsable(s, f) == Some(h[AzureClientIp]);
    } else {
      var t := s[1..];
      assert t == [s[1], s[2]];
      if HasValue(h, ForwardedFor) {
        assert FirstUsable(t, f) == Some(FirstForwarded(h[ForwardedFor]));
      } else {
        var u := t[1..];
        assert u == [s[2]] && u[1..] == [];
        assert FirstUsable(u, f) == if HasValue(h, RealIp) then Some(h[RealIp]) else f;
      }
    }
  }

  /** Each source in turn, as the tests pin them. */
  lemma ClientIpPrecedence(req: Request)
    ensures HasValue(req.headers, AzureClientIp) ==>
      ClientIp(req) == Some(StripPort(req.headers[AzureClientIp]))
    ensures !HasValue(req.headers, AzureClientIp) && HasValue(req.headers, ForwardedFor) ==>
      ClientIp(req) == Some(StripPort(FirstForwarded(req.headers[ForwardedFor])))
    ensures (!HasValue(req.headers, AzureClientIp) && !HasValue(req.headers, ForwardedFor)
             && HasValue(req.headers, RealIp)) ==>
      ClientIp(req) == Some(StripPort(req.headers[RealIp]))
    ensures (!HasValue(req.headers, AzureClientIp) && !HasValue(req.headers, ForwardedFor)
             && !HasValue(req.headers, RealIp) && req.remoteAddr.Some?) ==>
      ClientIp(req) == Some(StripPort(req.remoteAddr.value))
  {
  }

  /** A header that is present but empty is the same as one that is absent. */
  lemma EmptyHeaderFallsThrough(h: Headers, remote: Option<string>, name: string)
    requires name == AzureClientIp || name == ForwardedFor || name == RealIp
    ensures ClientIp(Request(h[name := ""], remote)) == ClientIp(Request(h - {name}, remote))
  {
  }

  /** Once a header wins, what the lower-priority sources hold does not matter. */
  lemma WinnerIgnoresLowerSources(req1: Request, req2: Request)
    requires HasValue(req1.headers, AzureClientIp)
    requires AzureClientIp in req2.headers && req2.headers[AzureClientIp] == req1.headers[AzureClientIp]
    ensures ClientIp(req1) == ClientIp(req2)
  {
  }

  // ---------------------------------------------------------------------------
  // Forwarded-for lists and port stripping

  /** The first hop of a forwarded-for list is its first entry with the spaces around it removed. */
  lemma FirstForwardedIsFirstEntry(pre: string, entry: string, post: string, rest: string)
    requires AllSpace(pre) && AllSpace(post)
    requires ',' !in pre + entry + post
    requires entry == [] || (!IsSpace(entry[0]) && !IsSpace(entry[|entry| - 1]))
    ensures FirstForwarded(pre + entry + post + "," + rest) == entry
  {
    var v := pre + entry + post + "," + rest;
    assert v == (pre + entry + post) + [','] + rest;
    SplitHead(v, ',');
    StripPadded(pre, entry, post);
  }

  /** A forwarded-for value holding a single entry yields that entry with the spaces around it removed. */
  lemma FirstForwardedSingleEntry(pre: string, entry: string, post: string)
    requires AllSpace(pre) && AllSpace(post)
    requires ',' !in pre + entry + post
    requires entry == [] || (!IsSpace(entry[0]) && !IsSpace(entry[|entry| - 1]))
    ensures FirstForwarded(pre + entry + post) == entry
  {
    SplitHead(pre + entry + post, ',');
    StripPadded(pre, entry, post);
  }

  /** `host:port` with an unbracketed, colon-free host yields the host. */
  lemma StripPortHostPort(host: string, port: string)
    requires ':' !in host && !StartsWith(host, "[")
    ensures StripPort(host + ":" + port) == host
  {
    var ip := host + ":" + port;
    assert ip == host + [':'] + port;
    assert ip[|host|] == ':';
    if |host| == 0 {
      assert ip[0] == ':';
    } else {
      assert ip[..1] == host[..1];
    }
    SplitHead(ip, ':');
  }

  /** Stripping the port twice is the same as once. */
  lemma StripPortIdempotent(ip: string)
    ensures StripPort(StripPort(ip)) == StripPort(ip)
  {
    var r := StripPort(ip);
    if StartsWith(ip, "[") {
      assert r == ip;
    } else if |r| > 0 {
      assert r[..1] == ip[..1];
    }
  }

  /** An unbracketed IPv6 address loses everything from its first colon; a bracketed one is kept whole. */
  lemma StripPortIpv6Quirk()
    ensures StripPort("2001:db8::1") == "2001"
    ensures StripPort("[2001:db8::1]:8080") == "[2001:db8::1]:8080"
  {
    assert "2001"[0] == '2';
    StripPortHostPort("2001", "db8::1");
    assert "2001" + ":" + "db8::1" == "2001:db8::1";
  }
}
