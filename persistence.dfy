/**
 * `get_cosmos_client` and `save_to_cosmos`. The database SDK is replaced by
 * the outcomes it can produce: whether constructing the client raised, and
 * what the single `create_item` call did. The clock is two inputs, one per
 * `datetime.now()` call: seconds since the epoch for the id, and the
 * ISO-8601 text for the timestamp.
 */
module Persistence {
  import opened Wrappers
  import opened Text
  import opened Json

  /** What building the credential and the client did. */
  datatype Construction = Constructed | ConstructionRaised(text: string)

  /** A usable database client. */
  datatype Client = Client

  /** What `container.create_item` did. */
  datatype InsertOutcome = Created | ResourceExists | InsertRaised(text: string)

  /** `get_cosmos_client()`: any exception during construction becomes `None`. */
  function GetCosmosClient(c: Construction): (r: Option<Client>)
    ensures r.Some? <==> c.Constructed?
  {
    match c
    case Constructed => Some(Client)
    case ConstructionRaised(_) => None
  }

  /** Python's `int(x)` on a float: truncation toward zero. */
  function TruncateToInt(x: real): (n: int)
    ensures 0.0 <= x ==> 0 <= n && n as real <= x < n as real + 1.0
    ensures x < 0.0 ==> n <= 0 && n as real - 1.0 < x <= n as real
  {
    if x >= 0.0 then x.Floor else -((-x).Floor)
  }

  /** The document id `f"{ip}_{seconds}"`. */
  function DocumentId(ip: string, seconds: int): string {
    ip + "_" + IntToString(seconds)
  }

  /** Reads an id back into the address and the seconds: the text after the last `_` is the number. */
  function DecodeDocumentId(id: string): Option<(string, int)> {
    match LastIndex(id, '_')
    case None => None
    case Some(i) =>
      match ParseInt(id[i + 1..])
      case None => None
      case Some(n) => Some((id[..i], n))
  }

  /** An id determines the address and the second it was made from. */
  lemma DocumentIdRoundTrip(ip: string, seconds: int)
    ensures DecodeDocumentId(DocumentId(ip, seconds)) == Some((ip, seconds))
  {
    var digits := IntToString(seconds);
    var id := DocumentId(ip, seconds);
    assert '_' !in digits;
    assert id == ip + ['_'] + digits;
    LastIndexAfterSeparator(ip, '_', digits);
    assert id[|ip| + 1..] == digits;
    assert id[..|ip|] == ip;
    IntToStringRoundTrip(seconds);
  }

  /** Two saves get the same id only for the same address in the same second. */
  lemma DocumentIdInjective(ip1: string, s1: int, ip2: string, s2: int)
    requires DocumentId(ip1, s1) == DocumentId(ip2, s2)
    ensures ip1 == ip2 && s1 == s2
  {
    DocumentIdRoundTrip(ip1, s1);
    DocumentIdRoundTrip(ip2, s2);
  }

  /**
   * The record with `id` and `timestamp` set, or `None` when it has no
   * `ip_address` (the source's lookup then raises before anything is set).
   */
  function Stamped(fields: Object, epochSeconds: real, isoNow: string): (r: Option<Object>)
    ensures r.None? <==> "ip_address" !in fields
    ensures r.Some? ==> r.value.Keys == fields.Keys + {"id", "timestamp"}
    ensures r.Some? ==> forall k :: k in fields && k != "id" && k != "timestamp" ==> r.value[k] == fields[k]
    ensures r.Some? ==> r.value["timestamp"] == Str(isoNow)
    ensures r.Some? ==>
      r.value["id"] == Str(DocumentId(Display(fields["ip_address"]), TruncateToInt(epochSeconds)))
    ensures r.Some? ==>
      r.value["id"].Str? && DecodeDocumentId(r.value["id"].s)
        == Some((Display(fields["ip_address"]), TruncateToInt(epochSeconds)))
  {
    if "ip_address" in fields then
      var ip := Display(fields["ip_address"]);
      DocumentIdRoundTrip(ip, TruncateToInt(epochSeconds));
      Some(fields["id" := Str(DocumentId(ip, TruncateToInt(epochSeconds)))]["timestamp" := Str(isoNow)])
    else None
  }

  /** What `save_to_cosmos` returns. */
  function SaveSucceeds(c: Construction, fields: Object, insert: InsertOutcome): (ok: bool)
    ensures ok <==> c.Constructed? && "ip_address" in fields && (insert == Created || insert == ResourceExists)
  {
    match GetCosmosClient(c)
    case None => false
    case Some(_) => "ip_address" in fields && !insert.InsertRaised?
  }

  /** The mutable `visitor_data` dict that `save_to_cosmos` stamps in place. */
  class VisitorData {
    var fields: Object

    constructor (initial: Object)
      ensures fields == initial
    {
      fields := initial;
    }
  }

  /**
   * `save_to_cosmos(visitor_data)`. With a client, and an `ip_address` to
   * build the id from, the dict gains `id` and `timestamp` and keeps every other
   * entry; that happens before the insert, so it stays stamped even when the
   * insert raises. Otherwise the dict is left as it was.
   */
  method SaveToCosmos(data: VisitorData, c: Construction, epochSeconds: real, isoNow: string,
                      insert: InsertOutcome) returns (saved: bool)
    modifies data
    ensures saved == SaveSucceeds(c, old(data.fields), insert)
    ensures data.fields == match Stamped(old(data.fields), epochSeconds, isoNow)
                           case Some(s) => if c.Constructed? then s else old(data.fields)
                           case None => old(data.fields)
  {
    var client := GetCosmosClient(c);
    if client.None? {
      return false;
    }
    if "ip_address" !in data.fields {
      return false;
    }
    var ip := Display(data.fields["ip_address"]);
    data.fields := data.fields["id" := Str(DocumentId(ip, TruncateToInt(epochSeconds)))];
    data.fields := data.fields["timestamp" := Str(isoNow)];
    match insert
    case Created => saved := true;
    case ResourceExists => saved := true;
    case InsertRaised(_) => saved := false;
  }

  /** Saving with a client adds exactly the keys `id` and `timestamp`; nothing else is added or changed. */
  lemma SaveAddsExactlyIdAndTimestamp(fields: Object, epochSeconds: real, isoNow: string)
    requires "ip_address" in fields
    ensures var s := Stamped(fields, epochSeconds, isoNow).value;
      && s.Keys - fields.Keys == {"id", "timestamp"} - fields.Keys
      && (forall k :: k in fields && k != "id" && k != "timestamp" ==> s[k] == fields[k])
  {
  }
}
