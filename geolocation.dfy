/**
 * `get_country_from_ip`: local and empty addresses are answered without a
 * request; any other address is looked up once, and the outcome of that
 * lookup (given here as a value) is mapped to a location record.
 */
module Geolocation {
  import opened Wrappers
  import opened Text
  import opened Json

  /** What the single GET to the geolocation service produced. */
  datatype Upstream =
    | Response(statusCode: int, body: Result<Object>)  // body: the decoded JSON object, or the text of the decoding error
    | Timeout                                           // `requests.exceptions.Timeout`
    | Failure(text: string)                             // any other exception, with its `str()`

  /** Either an immediate answer, or a request to issue. */
  datatype Plan = Answer(record: Object) | Fetch(url: string)

  const ServiceUrl: string := "http://ip-api.com/json/"
  const FieldQuery: string := "?fields=status,message,country,countryCode,region,city,lat,lon,timezone"

  /** The keys every location record has. */
  const CoreKeys: set<string> := {"country", "countryCode", "city", "region"}
  /** The keys of a record built from a successful lookup. */
  const LocatedKeys: set<string> := CoreKeys + {"latitude", "longitude", "timezone"}

  function ErrorRecord(country: string, detail: string): Object {
    map["country" := Str(country), "countryCode" := Str("XX"), "city" := Str(detail), "region" := Str(detail)]
  }

  const LocalRecord: Object :=
    map["country" := Str("Local/Private"), "countryCode" := Str("LOCAL"), "city" := Str("Local"), "region" := Str("Local")]

  const InvalidRecord: Object := ErrorRecord("Invalid IP", "Unknown")

  /** Loopback names and the private prefixes the source tests for (every `172.` address counts, not only 172.16/12). */
  predicate IsLocal(ip: string) {
    ip == "127.0.0.1" || ip == "localhost"
    || StartsWith(ip, "192.168.") || StartsWith(ip, "10.") || StartsWith(ip, "172.")
  }

  function LookupUrl(ip: string): string {
    ServiceUrl + ip + FieldQuery
  }

  /** Whether and how the address is looked up. */
  function PlanLookup(ip: string): (p: Plan)
    ensures p.Answer? <==> IsLocal(ip) || ip == ""
    ensures IsLocal(ip) ==> p == Answer(LocalRecord)
    ensures ip == "" ==> p == Answer(InvalidRecord)
    ensures p.Fetch? ==> |p.url| >= |ServiceUrl| + |ip| && StartsWith(p.url, ServiceUrl) && p.url[|ServiceUrl|..|ServiceUrl| + |ip|] == ip
  {
    if IsLocal(ip) then Answer(LocalRecord)
    else if ip == "" then Answer(InvalidRecord)
    else
      var url := LookupUrl(ip);
      assert url[..|ServiceUrl|] == ServiceUrl;
      assert url[|ServiceUrl|..|ServiceUrl| + |ip|] == ip;
      Fetch(url)
  }

  /** The seven-key record of a successful lookup, each missing field replaced by its default. */
  function LocatedRecord(d: Object): Object {
    map[
      "country" := Get(d, "country", Str("Unknown")),
      "countryCode" := Get(d, "countryCode", Str("XX")),
      "city" := Get(d, "city", Str("Unknown")),
      "region" := Get(d, "region", Str("Unknown")),
      "latitude" := Get(d, "lat", Null),
      "longitude" := Get(d, "lon", Null),
      "timezone" := Get(d, "timezone", Str("Unknown"))]
  }

  /** The service answered 200 with `status == "success"`. */
  predicate IsSuccess(o: Upstream) {
    o.Response? && o.statusCode == 200 && o.body.Ok? && Get(o.body.value, "status", Null) == Str("success")
  }

  /** The record for the outcome of a lookup. */
  function Classify(o: Upstream): (r: Object)
    ensures r.Keys == if IsSuccess(o) then LocatedKeys else CoreKeys
    ensures !IsSuccess(o) ==> r["countryCode"] == Str("XX")
  {
    match o
    case Response(code, body) =>
      if code == 200 then
        match body
        case Err(e) => ErrorRecord("Error: " + e, "Error")
        case Ok(d) =>
          if Get(d, "status", Null) == Str("success") then LocatedRecord(d)
          else ErrorRecord("API Error: " + Display(Get(d, "message", Str("Unknown"))), "Unknown")
      else ErrorRecord("HTTP Error: " + IntToString(code), "Unknown")
    case Timeout => ErrorRecord("Timeout Error", "Unknown")
    case Failure(text) => ErrorRecord("Error: " + text, "Error")
  }

  /** `get_country_from_ip(ip)`, given what the request would produce if it were issued. */
  function CountryFromIp(ip: string, o: Upstream): (r: Object)
    ensures CoreKeys <= r.Keys
  {
    match PlanLookup(ip)
    case Answer(record) => record
    case Fetch(_) => Classify(o)
  }

  // ---------------------------------------------------------------------------
  // Short-circuits

  /** Local and empty addresses get their fixed records whatever the service would say. */
  lemma ShortCircuits(ip: string, o: Upstream)
    ensures IsLocal(ip) ==> CountryFromIp(ip, o) == LocalRecord
    ensures ip == "" ==> CountryFromIp(ip, o) == InvalidRecord
    ensures !IsLocal(ip) && ip != "" ==> CountryFromIp(ip, o) == Classify(o)
  {
  }

  /** The service's answer matters exactly when no short-circuit applies. */
  lemma UpstreamMattersIffFetched(ip: string)
    ensures (forall o1, o2 :: CountryFromIp(ip, o1) == CountryFromIp(ip, o2)) <==> (IsLocal(ip) || ip == "")
  {
    if !IsLocal(ip) && ip != "" {
      var t := CountryFromIp(ip, Timeout);
      var f := CountryFromIp(ip, Failure(""));
      assert t["city"] != f["city"];
    }
  }

  // ---------------------------------------------------------------------------
  // Classification of the service's answer

  /** A successful answer is copied field by field, with the documented defaults for missing fields. */
  lemma SuccessCopiesFields(d: Object)
    requires Get(d, "status", Null) == Str("success")
    ensures var r := Classify(Response(200, Ok(d)));
      && r["country"] == (if "country" in d then d["country"] else Str("Unknown"))
      && r["countryCode"] == (if "countryCode" in d then d["countryCode"] else Str("XX"))
      && r["city"] == (if "city" in d then d["city"] else Str("Unknown"))
      && r["region"] == (if "region" in d then d["region"] else Str("Unknown"))
      && r["latitude"] == (if "lat" in d then d["lat"] else Null)
      && r["longitude"] == (if "lon" in d then d["lon"] else Null)
      && r["timezone"] == (if "timezone" in d then d["timezone"] else Str("Unknown"))
  {
  }

  /** Every result that does not come from a successful lookup has country code "XX", or "LOCAL" for local addresses. */
  lemma FailureCodes(ip: string, o: Upstream)
    ensures var r := CountryFromIp(ip, o);
      "latitude" !in r ==> r["countryCode"] == (if IsLocal(ip) then Str("LOCAL") else Str("XX"))
    ensures "latitude" in CountryFromIp(ip, o) <==> !IsLocal(ip) && ip != "" && IsSuccess(o)
  {
  }

  /** The status code of a failed HTTP answer can be read back from the record. */
  lemma HttpErrorReportsCode(code: int, body: Result<Object>)
    requires code != 200
    ensures var c := Classify(Response(code, body))["country"];
      c.Str? && StartsWith(c.s, "HTTP Error: ") && ParseInt(c.s[|"HTTP Error: "|..]) == Some(code)
  {
    var s := "HTTP Error: " + IntToString(code);
    assert s[..|"HTTP Error: "|] == "HTTP Error: ";
    assert s[|"HTTP Error: "|..] == IntToString(code);
    IntToStringRoundTrip(code);
  }

  /** The service's own message is embedded after "API Error: ", "Unknown" when it sent none. */
  lemma ApiErrorReportsMessage(d: Object)
    requires Get(d, "status", Null) != Str("success")
    ensures var c := Classify(Response(200, Ok(d)))["country"];
      c == Str("API Error: " + (if "message" in d then Display(d["message"]) else "Unknown"))
  {
  }

  /** Exceptions other than a timeout embed their text and mark city and region "Error". */
  lemma ExceptionReportsText(text: string)
    ensures var r := Classify(Failure(text));
      r["country"] == Str("Error: " + text) && r["city"] == Str("Error") && r["region"] == Str("Error")
    ensures Classify(Timeout) == ErrorRecord("Timeout Error", "Unknown")
  {
  }

  // ---------------------------------------------------------------------------
  // The record tells which branch produced it

  datatype Kind = Located | PrivateAddress | InvalidAddress | ApiRejected | HttpFailed | TimedOut | Errored

  /** Which branch of `get_country_from_ip` a record came from, judged from the record alone. */
  function KindOf(r: Object): Kind {
    if "latitude" in r then Located
    else if Get(r, "countryCode", Null) == Str("LOCAL") then PrivateAddress
    else if Get(r, "city", Null) == Str("Error") then Errored
    else match Get(r, "country", Null)
      case Str(c) =>
        if c == "Invalid IP" then InvalidAddress
        else if c == "Timeout Error" then TimedOut
        else if StartsWith(c, "HTTP Error: ") then HttpFailed
        else ApiRejected
      case _ => ApiRejected
  }

  /** Which branch the inputs select. */
  function ExpectedKind(ip: string, o: Upstream): Kind {
    if IsLocal(ip) then PrivateAddress
    else if ip == "" then InvalidAddress
    else match o
      case Response(code, body) =>
        if code != 200 then HttpFailed
        else if body.Err? then Errored
        else if IsSuccess(o) then Located
        else ApiRejected
      case Timeout => TimedOut
      case Failure(_) => Errored
  }

  lemma ApiErrorIsNotHttpError(d: Object)
    requires Get(d, "status", Null) != Str("success")
    ensures KindOf(Classify(Response(200, Ok(d)))) == ApiRejected
  {
    var c := "API Error: " + Display(Get(d, "message", Str("Unknown")));
    assert c[0] == 'A';
    FirstCharRulesOutPrefix(c, "HTTP Error: ");
  }

  lemma HttpErrorIsRecognised(code: int, body: Result<Object>)
    requires code != 200
    ensures KindOf(Classify(Response(code, body))) == HttpFailed
  {
    var c := "HTTP Error: " + IntToString(code);
    assert c[..|"HTTP Error: "|] == "HTTP Error: ";
    assert c[0] == 'H';
  }

  /** Distinct outcomes never produce records that could be mistaken for one another. */
  lemma RecordRevealsOutcome(ip: string, o: Upstream)
    ensures KindOf(CountryFromIp(ip, o)) == ExpectedKind(ip, o)
  {
    if !IsLocal(ip) && ip != "" && o.Response? {
      if o.statusCode != 200 {
        HttpErrorIsRecognised(o.statusCode, o.body);
      } else if o.body.Ok? && !IsSuccess(o) {
        ApiErrorIsNotHttpError(o.body.value);
      }
    }
  }
}
