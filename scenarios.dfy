/**
 * The concrete cases of the repository's unit tests, stated against the model.
 * In the tests the framework's peer address defaults to "127.0.0.1".
 */
module Scenarios {
  import opened Wrappers
  import opened Text
  import opened Json
  import opened ClientAddress
  import opened Geolocation
  import opened Persistence
  import opened Handlers

  const TestPeer: Option<string> := Some("127.0.0.1")

  /** The documentation address used throughout the tests is public and has no port. */
  lemma PublicTestAddress()
    ensures !IsLocal("203.0.113.1") && ':' !in "203.0.113.1" && !StartsWith("203.0.113.1", "[")
    ensures ',' !in "203.0.113.1" && !IsSpace('2') && !IsSpace('1')
  {
    var s := "203.0.113.1";
    assert s[0] == '2';
    FirstCharRulesOutPrefix(s, "[");
    FirstCharRulesOutPrefix(s, "192.168.");
    FirstCharRulesOutPrefix(s, "10.");
    FirstCharRulesOutPrefix(s, "172.");
  }

  lemma FirstHopOfTestList()
    ensures FirstForwarded("203.0.113.1, 10.0.0.1") == "203.0.113.1"
  {
    PublicTestAddress();
    assert "203.0.113.1, 10.0.0.1" == "" + "203.0.113.1" + "" + "," + " 10.0.0.1";
    FirstForwardedIsFirstEntry("", "203.0.113.1", "", " 10.0.0.1");
  }

  lemma ForwardedForTakesFirstHop()
    ensures ClientIp(Request(map[ForwardedFor := "203.0.113.1, 10.0.0.1"], TestPeer)) == Some("203.0.113.1")
  {
    var req := Request(map[ForwardedFor := "203.0.113.1, 10.0.0.1"], TestPeer);
    assert !HasValue(req.headers, AzureClientIp) && HasValue(req.headers, ForwardedFor);
    ClientIpPrecedence(req);
    FirstHopOfTestList();
    PublicTestAddress();
  }

  lemma AzureHeaderWithPort()
    ensures ClientIp(Request(map[AzureClientIp := "203.0.113.1:8080"], TestPeer)) == Some("203.0.113.1")
  {
    PublicTestAddress();
    assert "203.0.113.1:8080" == "203.0.113.1" + ":" + "8080";
    StripPortHostPort("203.0.113.1", "8080");
  }

  lemma AzureHeaderBeatsForwardedFor()
    ensures ClientIp(Request(map[AzureClientIp := "203.0.113.1", ForwardedFor := "198.51.100.7"], TestPeer))
            == Some("203.0.113.1")
  {
    PublicTestAddress();
  }

  lemma PeerAddressFallback()
    ensures ClientIp(Request(map[], Some("203.0.113.1"))) == Some("203.0.113.1")
    ensures ClientIp(Request(map[RealIp := "203.0.113.1"], TestPeer)) == Some("203.0.113.1")
  {
    PublicTestAddress();
  }

  lemma LocalAddressesAreNotLookedUp(o: Upstream)
    ensures CountryFromIp("127.0.0.1", o) == LocalRecord && CountryFromIp("localhost", o) == LocalRecord
    ensures CountryFromIp("192.168.1.1", o) == LocalRecord && CountryFromIp("10.0.0.1", o) == LocalRecord
    ensures CountryFromIp("172.16.0.1", o) == LocalRecord
    ensures LocalRecord["country"] == Str("Local/Private") && LocalRecord["countryCode"] == Str("LOCAL")
  {
    assert "192.168.1.1"[..8] == "192.168.";
    assert "10.0.0.1"[..3] == "10.";
    assert "172.16.0.1"[..4] == "172.";
    ShortCircuits("127.0.0.1", o);
    ShortCircuits("localhost", o);
    ShortCircuits("192.168.1.1", o);
    ShortCircuits("10.0.0.1", o);
    ShortCircuits("172.16.0.1", o);
  }

  lemma EmptyAddressIsInvalid(o: Upstream)
    ensures CountryFromIp("", o)["country"] == Str("Invalid IP") && CountryFromIp("", o)["countryCode"] == Str("XX")
  {
  }

  lemma HttpError429()
    ensures Classify(Response(429, Ok(map[])))["country"] == Str("HTTP Error: 429")
  {
  }

  lemma GeneralExceptionText()
    ensures Classify(Failure("Network error"))["country"] == Str("Error: Network error")
  {
    assert "Error: " + "Network error" == "Error: Network error";
  }

  lemma TimeoutText()
    ensures Classify(Timeout)["country"] == Str("Timeout Error")
  {
  }

  lemma SaveWithoutClientFails(insert: InsertOutcome)
    ensures !SaveSucceeds(ConstructionRaised("no endpoint"), map["ip_address" := Str("203.0.113.1")], insert)
  {
  }

  lemma HealthCases(isoNow: string)
    ensures HealthCheck(Returned(Some(Client)), isoNow) == Healthy("connected", isoNow)
    ensures HealthCheck(Returned(None), isoNow) == Healthy("disconnected", isoNow)
    ensures HealthCheck(Raised("Health check error"), isoNow).StatusCode() == 500
  {
  }

  lemma SaveCases(epochSeconds: real, isoNow: string)
    ensures var fields := map["ip_address" := Str("203.0.113.1"), "country" := Str("United States")];
      && SaveSucceeds(Constructed, fields, Created)
      && var s := Stamped(fields, epochSeconds, isoNow);
         s.Some? && "id" in s.value && "timestamp" in s.value
    ensures !SaveSucceeds(Constructed, map["ip_address" := Str("203.0.113.1")], InsertRaised("Database error"))
  {
  }

  lemma IndexRecordCopiesHeaders(info: Object)
    requires CoreKeys <= info.Keys
    ensures var h := map["User-Agent" := "Mozilla/5.0 Test Browser", "Referer" := "https://google.com",
                         "Accept-Language" := "en-CA,en;q=0.9"];
      var r := VisitorRecord("203.0.113.1", h, info).value;
      && r["user_agent"] == Str("Mozilla/5.0 Test Browser")
      && r["referer"] == Str("https://google.com")
      && r["accept_language"] == Str("en-CA,en;q=0.9")
  {
  }

  /** Every `172.` address counts as private, including public ones outside 172.16.0.0/12. */
  lemma Public172AddressIsTreatedAsLocal(o: Upstream)
    ensures CountryFromIp("172.217.0.1", o) == LocalRecord
  {
    assert "172.217.0.1"[..4] == "172.";
  }

  /** An IPv6 loopback peer is cut to the empty string, which the lookup reports as an invalid address. */
  lemma Ipv6LoopbackBecomesInvalid(o: Upstream)
    ensures ClientIp(Request(map[], Some("::1"))) == Some("")
    ensures CountryFromIp(ClientIp(Request(map[], Some("::1"))).value, o)["country"] == Str("Invalid IP")
  {
    var ip := "::1";
    assert ip[0] == ':';
    FirstCharRulesOutPrefix(ip, "[");
    assert ip == "" + [':'] + ":1";
    SplitHead(ip, ':');
    ShortCircuits("", o);
  }
}
