# Visitor-logging web application: a Dafny model of its request logic

The application serves one page per visit. It reports the visitor's IP address, the location
derived from it and some browser metadata, and it stores that record in a document database
when it can. This project models the decisions in `app.py` with the framework, the HTTP client and
the database SDK taken out:

- **client address resolution** (`get_client_ip`). The request is a header map plus the peer address.
  The address is taken from `X-Azure-ClientIP`, else the first entry of `X-Forwarded-For`, else
  `X-Real-IP`, else the peer address. An unbracketed `host:port` keeps only the host.
- **geolocation classification** (`get_country_from_ip`). Local and empty addresses get fixed
  records. Any other address is looked up once. The lookup's outcome is an input value: an HTTP
  status with a decoded body, a timeout, or another exception. It is mapped to a four- or
  seven-key record.
- **saving** (`save_to_cosmos`). A method stamps the mutable `visitor_data` object in place with
  `id` and `timestamp`. It returns whether the insert counted as saved.
- **handlers**. `index` builds the visitor record and saves a copy of it. `api_visitor_info` builds
  the JSON body. `health_check` maps the client probe to a status and a code.

Modules and files: `Wrappers` (wrappers.dfy), `Text` (text.dfy: Python's `split`, `strip`,
`startswith` and `str(int)`), `Json` (json.dfy: decoded values and dicts), `ClientAddress`
(client_ip.dfy), `Geolocation` (geolocation.dfy), `Persistence` (persistence.dfy), `Handlers`
(handlers.dfy), and `Scenarios` (scenarios.dfy: the unit tests' concrete cases).

Two consequences of the code as written are proved as concrete cases. Every address that starts
with `172.` counts as private, including public ones outside 172.16.0.0/12. Port stripping turns
the IPv6 loopback peer `::1` into the empty string, which the lookup reports as "Invalid IP".

Inputs that stand for the outside world:
- `Upstream` stands for `requests.get` with `response.json()`. A body that fails to decode, or is
  not an object, is `Err(text)`.
- `Construction` stands for building `DefaultAzureCredential` and `CosmosClient`.
- `InsertOutcome` stands for `create_item`.
- `epochSeconds: real` and `isoNow: string` stand for the two `datetime.now()` calls.
- `Probe` stands for what the health check's call to `get_cosmos_client()` did.

## Model

| member | source | states |
|---|---|---|
| Text.Split | app.py:41 | `str.split` with a one-character separator: at least one piece, and no piece contains the separator |
| Text.JoinSplit | app.py:41 | joining the pieces of a split with the separator gives back the original string |
| Text.SplitJoin | app.py:49 | splitting a join of separator-free pieces gives back exactly those pieces, so a split is decided by its pieces |
| Text.SplitHead | app.py:49 | `s.split(c)[0]` is the text before the first `c`, or all of `s` when there is no `c` |
| Text.StripLeading | app.py:41 | `lstrip()` returns a suffix, removes only whitespace, and the result does not start with whitespace |
| Text.StripTrailing | app.py:41 | `rstrip()` returns a prefix, removes only whitespace, and the result does not end with whitespace |
| Text.StripIsSlice | app.py:41 | `strip()` keeps one contiguous slice of its input and removes only whitespace on either side |
| Text.StripIsTrimmed | app.py:41 | what `strip()` returns neither starts nor ends with whitespace |
| Text.StripPadded | app.py:41 | stripping a trimmed string padded with whitespace on both sides gives back that string |
| Text.IntToString | app.py:119 | `str(n)` is digits, with a leading `-` exactly when `n` is negative, in canonical form: it starts with `0` exactly when `n` is zero, and no other rendering has a leading zero, with or without the sign |
| Text.IntToStringRoundTrip | app.py:119 | parsing the decimal rendering of any integer gives back that integer |
| Text.IntToStringInjective | app.py:156 | different integers render to different strings |
| Text.FirstCharRulesOutPrefix | app.py:62-64 | a string whose first character differs from a prefix's cannot start with that prefix |
| ClientAddress.FirstForwarded | app.py:41 | the first `X-Forwarded-For` entry holds no comma and has no whitespace at either end |
| ClientAddress.FirstForwardedIsFirstEntry | app.py:41 | for a list `pre entry post , rest`, with whitespace padding, the result is exactly the trimmed first entry |
| ClientAddress.FirstForwardedSingleEntry | app.py:41 | a value with one entry and no comma, `pre entry post`, yields exactly the trimmed entry |
| ClientAddress.StripPort | app.py:47-49 | the result is a prefix of the address; an address not starting with `[` yields a colon-free result; bracketed and colon-free addresses are unchanged |
| ClientAddress.StripPortHostPort | app.py:48-49 | `host:port` with an unbracketed, colon-free host yields the host |
| ClientAddress.StripPortIdempotent | app.py:48-49 | stripping the port twice is the same as stripping it once |
| ClientAddress.StripPortIpv6Quirk | app.py:48-49 | an unbracketed IPv6 address is cut at its first colon (`2001:db8::1` gives `2001`); a bracketed one is kept whole |
| ClientAddress.ClientIp | app.py:34-51 | there is no address (the source raises on `None`) exactly when no header is usable and there is no peer address |
| ClientAddress.ClientIpFollowsPrecedence | app.py:37-49 | the result is the port-stripped address of the first non-empty source in the order Azure header, forwarded-for, real-IP, else the peer address |
| ClientAddress.ClientIpPrecedence | app.py:37-45 | each of the four sources in turn decides the result when every earlier one is absent or empty |
| ClientAddress.EmptyHeaderFallsThrough | app.py:37-43 | a present but empty proxy header gives the same result as an absent one |
| ClientAddress.WinnerIgnoresLowerSources | app.py:37-38 | once `X-Azure-ClientIP` is set, the other headers and the peer address do not affect the result |
| Geolocation.PlanLookup | app.py:60-84 | no request is issued exactly for local and empty addresses, which get the Local/Private and Invalid IP records; otherwise the request URL embeds the address after the service prefix |
| Geolocation.Classify | app.py:90-140 | the record has the seven located keys exactly after a successful answer and the four core keys otherwise; every unsuccessful outcome has countryCode "XX" |
| Geolocation.CountryFromIp | app.py:54-140 | every result has the keys country, countryCode, city and region |
| Geolocation.ShortCircuits | app.py:60-82 | local addresses give the Local/Private record and the empty address the Invalid IP record, whatever the service would answer; other addresses get the classified answer |
| Geolocation.UpstreamMattersIffFetched | app.py:60-87 | the service's answer can change the result if and only if the address is neither local nor empty |
| Geolocation.SuccessCopiesFields | app.py:94-105 | a successful answer's country, countryCode, city, region, lat, lon and timezone are copied, with "Unknown", "XX" or no value when missing |
| Geolocation.FailureCodes | app.py:60-140 | a record has a latitude key exactly after a successful lookup; every other record has countryCode "XX", or "LOCAL" for local addresses |
| Geolocation.HttpErrorReportsCode | app.py:117-123 | a non-200 answer gives country `HTTP Error: <code>`, and the code can be parsed back from it |
| Geolocation.ApiErrorReportsMessage | app.py:106-115 | a 200 answer without `status == "success"` gives `API Error: <message>`, with "Unknown" when no message is sent |
| Geolocation.ExceptionReportsText | app.py:125-140 | a timeout gives "Timeout Error"; any other exception gives `Error: <text>` with city and region "Error" |
| Geolocation.ApiErrorIsNotHttpError | app.py:110-115 | a provider rejection is recognised as such from the record alone |
| Geolocation.HttpErrorIsRecognised | app.py:117-123 | an HTTP failure is recognised as such from the record alone |
| Geolocation.RecordRevealsOutcome | app.py:54-140 | the branch an outcome takes (located, local, invalid, rejected, HTTP error, timeout, exception) can be read back from the record it produces |
| Persistence.GetCosmosClient | app.py:23-31 | a client is returned exactly when construction did not raise |
| Persistence.TruncateToInt | app.py:156 | `int()` on the epoch seconds truncates toward zero |
| Persistence.DocumentIdRoundTrip | app.py:155-157 | the id `ip_seconds` decodes back to the address and the seconds it was made from |
| Persistence.DocumentIdInjective | app.py:155-157 | two ids are equal only for the same address and the same second |
| Persistence.Stamped | app.py:154-158 | with an `ip_address`, the record gains exactly `id` and `timestamp`, keeps every other entry, and its id is `f"{ip}_{seconds}"` for that address and the seconds truncated toward zero, which decodes back to both; without one nothing is stamped |
| Persistence.SaveSucceeds | app.py:145-169 | the save reports success exactly when a client exists, the record has an address, and the insert created the item or found it already there |
| Persistence.SaveToCosmos | app.py:143-169 | the method returns `SaveSucceeds`; with a client the object's map becomes the stamped record, otherwise it is unchanged |
| Persistence.SaveAddsExactlyIdAndTimestamp | app.py:155-158 | the keys a save adds are exactly `id` and `timestamp`, less any already there, and no other key changes value |
| Handlers.VisitorRecord | app.py:177-199 | the record has exactly the eleven visitor keys; it copies the address and the location fields; missing User-Agent, Referer and Accept-Language become "Unknown", "Direct" and "Unknown"; it is absent only if a core location key is missing |
| Handlers.LocationAlwaysFitsRecord | app.py:184-199 | any geolocation result can be turned into a visitor record |
| Handlers.RecordIsUnstamped | app.py:187-199 | a visitor record never holds `id` or `timestamp` |
| Handlers.EmptyHeaderKept | app.py:178 | a present but empty User-Agent is kept as "" and not replaced by the default |
| Handlers.Index | app.py:172-212 | the page is the error page (500) exactly when no address resolves; otherwise it shows the built record, which never gains `id` or `timestamp` because the save gets a copy, and the save flag of that record |
| Handlers.ApiVisitorInfo | app.py:215-234 | the body is the error body exactly when no address resolves; otherwise it holds the address, the user agent or "Unknown", the location `get_country_from_ip` gives for that address and upstream answer (which has the four core keys), and the timestamp |
| Handlers.ApiAgreesWithIndex | app.py:187-193 | for the same request and upstream answer, the visitor-info response and the main page's visitor record hold the same address, user agent, country, country code, city, region, latitude, longitude and timezone |
| Handlers.HealthCheck | app.py:237-262 | the code is 500 exactly when the probe raised; status is "healthy" otherwise, with "connected" when a client was returned and "disconnected" when none was |
| Handlers.RealProbeIsAlwaysHealthy | app.py:23-31 | with the real `get_cosmos_client`, which turns construction errors into `None`, the health check always answers 200 |
| Scenarios.ForwardedForTakesFirstHop | tests/test_utils.py:29-35 | `X-Forwarded-For: 203.0.113.1, 10.0.0.1` resolves to `203.0.113.1` |
| Scenarios.AzureHeaderWithPort | tests/test_utils.py:51-57 | `X-Azure-ClientIP: 203.0.113.1:8080` resolves to `203.0.113.1` |
| Scenarios.LocalAddressesAreNotLookedUp | tests/test_utils.py:63-70 | the unit tests' loopback and private addresses are looked up as the local record, whatever the service would answer, with country Local/Private and code LOCAL |
| Scenarios.GeneralExceptionText | tests/test_utils.py:140-148 | an exception with text "Network error" gives country `Error: Network error` |
| Scenarios.FirstHopOfTestList | tests/test_utils.py:29-35 | the first hop of `203.0.113.1, 10.0.0.1` is `203.0.113.1` |
| Scenarios.PublicTestAddress | tests/test_utils.py:95 | the tests' address `203.0.113.1` is not local, has no port and is not bracketed |
| Scenarios.AzureHeaderBeatsForwardedFor | app.py:37-41 | with both `X-Azure-ClientIP` and `X-Forwarded-For` set, the Azure header wins |
| Scenarios.PeerAddressFallback | tests/test_utils.py:37-49 | `X-Real-IP` alone, or the peer address alone, gives `203.0.113.1` |
| Scenarios.EmptyAddressIsInvalid | tests/test_utils.py:72-76 | the empty address gives country "Invalid IP" with code "XX" |
| Scenarios.HttpError429 | tests/test_utils.py:116-126 | status 429 gives country `HTTP Error: 429` |
| Scenarios.TimeoutText | tests/test_utils.py:128-138 | a timeout gives country "Timeout Error" |
| Scenarios.SaveWithoutClientFails | tests/test_utils.py:178-186 | without a client the save reports failure |
| Scenarios.SaveCases | tests/test_utils.py:154-203 | a save with a client and a created item succeeds and stamps `id` and `timestamp`; a raising insert reports failure |
| Scenarios.IndexRecordCopiesHeaders | tests/test_routes.py:48-80 | the route test's User-Agent, Referer and Accept-Language headers are copied into the visitor record |
| Scenarios.HealthCases | tests/test_routes.py:135-177 | a returned client gives "connected", none gives "disconnected", and a raising probe gives code 500 |
| Scenarios.Public172AddressIsTreatedAsLocal | app.py:64 | `172.217.0.1`, a public address, gets the Local/Private record because every `172.` prefix counts as private |
| Scenarios.Ipv6LoopbackBecomesInvalid | app.py:48-49 | the IPv6 loopback peer `::1` is cut to the empty string, and looking up the resolved address reports "Invalid IP" |

## Left out

- Flask routing, `render_template`, `jsonify`, the 404 handler and logging. Only each handler's decision is modelled.
- The network call and JSON decoding. Their outcome is the `Upstream` input. Decoding failures and non-object bodies are one case, `Err(text)`.
- Only JSON scalars are modelled. A number carries the text Python's `str()` gives it, because numbers are only passed through or interpolated. Arrays and nested objects in the service's answer are not modelled.
- Header lookup is on a map keyed by the canonical header name. The framework's case-insensitive matching and its merging of repeated headers are not modelled.
- The database SDK. The model keeps only the construction outcome and the `create_item` outcome. `get_database_client` and `get_container_client` are taken not to raise.
- Whether an insert conflicts depends on what the database already holds. Here it is an input, not derived from earlier saves.
- The text of a `KeyError` raised while building the visitor record is not modelled. `Handlers.LocationAlwaysFitsRecord` proves that this case cannot happen in `index`.
- ISO-8601 formatting of the clock. The timestamp text is an input.
- config.py and check_setup.py: environment and file-system checks that `app.py` does not use.
- `str.strip()` is modelled with Python's whitespace set as a fixed list of code points.
