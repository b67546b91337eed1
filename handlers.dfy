/**
 * The decisions the three route handlers make: the visitor record that the
 * page shows and the save step receives, the JSON body of the visitor-info
 * endpoint, and the health status. Rendering and JSON serialisation are the
 * framework's and are not modelled.
 */
module Handlers {
  import opened Wrappers
  import opened Json
  import opened ClientAddress
  import opened Geolocation
  import opened Persistence

  /** `str()` of the `TypeError` raised by `":" in None`. */
  const NoAddressError: string := "argument of type 'NoneType' is not iterable"

  /** The keys of the visitor record built by the main page. */
  const VisitorKeys: set<string> :=
    {"ip_address", "user_agent", "country", "country_code", "city", "region",
     "latitude", "longitude", "timezone", "referer", "accept_language"}

  /**
   * The visitor record of the main page. `None` when the location record lacks
   * one of the four keys the source indexes directly (which would raise `KeyError`).
   */
  function VisitorRecord(ip: string, h: Headers, info: Object): (r: Option<Object>)
    ensures r.Some? <==> CoreKeys <= info.Keys
    ensures r.Some? ==> r.value.Keys == VisitorKeys
    ensures r.Some? ==>
      && r.value["ip_address"] == Str(ip)
      && r.value["country"] == info["country"] && r.value["country_code"] == info["countryCode"]
      && r.value["city"] == info["city"] && r.value["region"] == info["region"]
      && r.value["latitude"] == Get(info, "latitude", Null)
      && r.value["longitude"] == Get(info, "longitude", Null)
      && r.value["timezone"] == Get(info, "timezone", Null)
    ensures r.Some? ==>
      && r.value["user_agent"] == Str(if "User-Agent" in h then h["User-Agent"] else "Unknown")
      && r.value["referer"] == Str(if "Referer" in h then h["Referer"] else "Direct")
      && r.value["accept_language"] == Str(if "Accept-Language" in h then h["Accept-Language"] else "Unknown")
  {
    if CoreKeys <= info.Keys then
      Some(map[
        "ip_address" := Str(ip),
        "user_agent" := Str(HeaderOr(h, "User-Agent", "Unknown")),
        "country" := info["country"],
        "country_code" := info["countryCode"],
        "city" := info["city"],
        "region" := info["region"],
        "latitude" := Get(info, "latitude", Null),
        "longitude" := Get(info, "longitude", Null),
        "timezone" := Get(info, "timezone", Null),
        "referer" := Str(HeaderOr(h, "Referer", "Direct")),
        "accept_language" := Str(HeaderOr(h, "Accept-Language", "Unknown"))])
    else None
  }

  /** Whatever the geolocation lookup returns, the visitor record can be built from it. */
  lemma LocationAlwaysFitsRecord(ip: string, h: Headers, lookedUp: string, o: Upstream)
    ensures VisitorRecord(ip, h, CountryFromIp(lookedUp, o)).Some?
  {
  }

  /** A visitor record carries neither of the keys the save step adds. */
  lemma RecordIsUnstamped(ip: string, h: Headers, info: Object)
    requires CoreKeys <= info.Keys
    ensures var r := VisitorRecord(ip, h, info).value;
      "id" !in r && "timestamp" !in r
  {
    assert "id" !in VisitorKeys && "timestamp" !in VisitorKeys by {
      assert forall k :: k in VisitorKeys ==> |k| >= 4;
    }
  }

  /** A header that is present but empty is kept as it is; only a missing header gets the default. */
  lemma EmptyHeaderKept(ip: string, h: Headers, info: Object)
    requires CoreKeys <= info.Keys
    requires "User-Agent" in h && h["User-Agent"] == ""
    ensures VisitorRecord(ip, h, info).value["user_agent"] == Str("")
  {
  }

  /** What the main page renders: the record and whether it was saved, or the error page. */
  datatype Page = Rendered(visitorData: Object, cosmosSaved: bool) | ErrorPage(error: string) {
    function StatusCode(): int {
      if Rendered? then 200 else 500
    }
  }

  /**
   * `index()`. The save step gets a copy of the record, so the page shows
   * the record without `id` and `timestamp`, whatever the save did.
   */
  method Index(req: Request, o: Upstream, c: Construction, epochSeconds: real, isoNow: string,
               insert: InsertOutcome) returns (page: Page)
    ensures page.ErrorPage? <==> ClientIp(req).None?
    ensures page.ErrorPage? ==> page == ErrorPage(NoAddressError) && page.StatusCode() == 500
    ensures page.Rendered? ==>
      var ip := ClientIp(req).value;
      && page.visitorData == VisitorRecord(ip, req.headers, CountryFromIp(ip, o)).value
      && page.cosmosSaved == SaveSucceeds(c, page.visitorData, insert)
      && "id" !in page.visitorData && "timestamp" !in page.visitorData
  {
    var clientIp := ClientIp(req);
    if clientIp.None? {
      return ErrorPage(NoAddressError);
    }
    var ip := clientIp.value;
    var countryInfo := CountryFromIp(ip, o);
    LocationAlwaysFitsRecord(ip, req.headers, ip, o);
    RecordIsUnstamped(ip, req.headers, countryInfo);
    var record := VisitorRecord(ip, req.headers, countryInfo).value;
    var visitorData := new VisitorData(record);
    var copy := new VisitorData(visitorData.fields);
    var saved := SaveToCosmos(copy, c, epochSeconds, isoNow, insert);
    assert visitorData.fields == record;
    page := Rendered(visitorData.fields, saved);
  }

  /** The body of `/api/visitor-info`; its status is 200 for `VisitorInfo` and 500 for `ApiFailure`. */
  datatype ApiResponse =
    | VisitorInfo(ipAddress: string, userAgent: string, countryInfo: Object, timestamp: string)
    | ApiFailure(error: string)

  /** `api_visitor_info()`; `isoNow` is the time the response is made. */
  function ApiVisitorInfo(req: Request, o: Upstream, isoNow: string): (r: ApiResponse)
    ensures r.ApiFailure? <==> ClientIp(req).None?
    ensures r.ApiFailure? ==> r.error == NoAddressError
    ensures r.VisitorInfo? ==>
      && r.ipAddress == ClientIp(req).value
      && r.userAgent == (if "User-Agent" in req.headers then req.headers["User-Agent"] else "Unknown")
      && r.countryInfo == CountryFromIp(ClientIp(req).value, o)
      && CoreKeys <= r.countryInfo.Keys
      && r.timestamp == isoNow
  {
    match ClientIp(req)
    case None => ApiFailure(NoAddressError)
    case Some(ip) => VisitorInfo(ip, HeaderOr(req.headers, "User-Agent", "Unknown"), CountryFromIp(ip, o), isoNow)
  }

  /**
   * For the same request and the same upstream answer, the visitor-info
   * endpoint reports the address, user agent and location that the main
   * page's visitor record holds.
   */
  lemma ApiAgreesWithIndex(req: Request, o: Upstream, isoNow: string)
    requires ClientIp(req).Some?
    ensures var ip := ClientIp(req).value;
      var v := VisitorRecord(ip, req.headers, CountryFromIp(ip, o)).value;
      var r := ApiVisitorInfo(req, o, isoNow);
      && r.VisitorInfo?
      && v["ip_address"] == Str(r.ipAddress) && v["user_agent"] == Str(r.userAgent)
      && v["country"] == r.countryInfo["country"] && v["country_code"] == r.countryInfo["countryCode"]
      && v["city"] == r.countryInfo["city"] && v["region"] == r.countryInfo["region"]
      && v["latitude"] == Get(r.countryInfo, "latitude", Null)
      && v["longitude"] == Get(r.countryInfo, "longitude", Null)
      && v["timezone"] == Get(r.countryInfo, "timezone", Null)
  {
  }

  /** What the health check's call to `get_cosmos_client()` did. */
  datatype Probe = Returned(client: Option<Client>) | Raised(text: string)

  datatype HealthResponse =
    | Healthy(cosmosDb: string, timestamp: string)
    | Unhealthy(error: string, timestamp: string)
  {
    function Status(): string {
      if Healthy? then "healthy" else "unhealthy"
    }
    function StatusCode(): int {
      if Healthy? then 200 else 500
    }
  }

  /** `health_check()`. */
  function HealthCheck(p: Probe, isoNow: string): (r: HealthResponse)
    ensures r.StatusCode() == 500 <==> p.Raised?
    ensures r.Status() == "healthy" <==> p.Returned?
    ensures p.Returned? ==> r.cosmosDb == (if p.client.Some? then "connected" else "disconnected")
    ensures p.Raised? ==> r.error == p.text
    ensures r.timestamp == isoNow
  {
    match p
    case Returned(client) => Healthy(if client.Some? then "connected" else "disconnected", isoNow)
    case Raised(text) => Unhealthy(text, isoNow)
  }

  /**
   * With the real `get_cosmos_client`, which turns every construction error
   * into `None`, the health check always answers 200.
   */
  lemma RealProbeIsAlwaysHealthy(c: Construction, isoNow: string)
    ensures var r := HealthCheck(Returned(GetCosmosClient(c)), isoNow);
      r.StatusCode() == 200 && r.cosmosDb == (if c.Constructed? then "connected" else "disconnected")
  {
  }
}
