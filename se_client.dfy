/** csv_shipper/se_client.py: the ShipEngine REST client. It joins a fixed
    base URL with an endpoint, adds the `API-Key` header through an auth
    hook, assembles shipment requests from the value records, and turns the
    server's reply into a result: the parsed body, or the HTTP error paired
    with the `message` of each entry of the error body's `errors` list.

    The network is not modelled: the server's reply is an input (`Reply`),
    and each call returns the request it would send beside the outcome. */
module SeClient {
  import opened Wrappers
  import opened Json
  import opened ImportantModels
  import opened Serialize
  import CsvModels

  const BaseUrl: string := "https://api.shipengine.com/v1/"

  /** `_CURRENT_DATE`: today's date as `%m/%d/%Y`, formatted once when the
      module is imported and shared by every client. The clock is not
      modelled, so the date is a constant of unknown value. */
  const CurrentDate: string

  // ---------------------------------------------------------------------
  // Endpoint normalisation: Python's `endpoint.strip("/")`

  predicate AllSlashes(t: string) {
    forall k :: 0 <= k < |t| ==> t[k] == '/'
  }

  /** Neither starts nor ends with `/`. */
  predicate Trimmed(r: string) {
    r == [] || (r[0] != '/' && r[|r| - 1] != '/')
  }

  function StripLeading(s: string): (r: string)
    ensures |r| <= |s|
    decreases |s|
  {
    if |s| > 0 && s[0] == '/' then StripLeading(s[1..]) else s
  }

  function StripTrailing(s: string): (r: string)
    ensures |r| <= |s|
    decreases |s|
  {
    if |s| > 0 && s[|s| - 1] == '/' then StripTrailing(s[..|s| - 1]) else s
  }

  /** `s.strip("/")`: every leading and every trailing `/` removed. */
  function StripSlashes(s: string): (r: string)
    ensures |r| <= |s|
  {
    StripTrailing(StripLeading(s))
  }

  /** The URL `request` sends to: `_BASE_URL + endpoint.strip("/")`. */
  function UrlFor(endpoint: string): (r: string)
    ensures |BaseUrl| <= |r| <= |BaseUrl| + |endpoint|
    ensures r[..|BaseUrl|] == BaseUrl
  {
    BaseUrl + StripSlashes(endpoint)
  }

  lemma {:induction false} StripLeadingSplits(s: string)
    ensures |StripLeading(s)| <= |s|
    ensures s[|s| - |StripLeading(s)|..] == StripLeading(s)
    ensures AllSlashes(s[..|s| - |StripLeading(s)|])
    ensures StripLeading(s) == [] || StripLeading(s)[0] != '/'
    decreases |s|
  {
    if |s| > 0 && s[0] == '/' {
      var t := s[1..];
      StripLeadingSplits(t);
      var r := StripLeading(t);
      assert StripLeading(s) == r;
      assert s[|s| - |r|..] == t[|t| - |r|..];
      assert s[..|s| - |r|] == [s[0]] + t[..|t| - |r|];
    }
  }

  lemma {:induction false} StripTrailingSplits(s: string)
    ensures |StripTrailing(s)| <= |s|
    ensures s[..|StripTrailing(s)|] == StripTrailing(s)
    ensures AllSlashes(s[|StripTrailing(s)|..])
    ensures StripTrailing(s) == [] || StripTrailing(s)[|StripTrailing(s)| - 1] != '/'
    decreases |s|
  {
    if |s| > 0 && s[|s| - 1] == '/' {
      var t := s[..|s| - 1];
      StripTrailingSplits(t);
      var r := StripTrailing(t);
      assert StripTrailing(s) == r;
      assert s[..|r|] == t[..|r|];
      assert s[|r|..] == t[|r|..] + [s[|s| - 1]];
    }
  }

  /** What `strip("/")` leaves is trimmed, and the input is that text with
      nothing but slashes before and after it. */
  lemma StripSlashesSpec(s: string)
    ensures Trimmed(StripSlashes(s))
    ensures exists i :: 0 <= i <= |s| - |StripSlashes(s)|
              && s[i..i + |StripSlashes(s)|] == StripSlashes(s)
              && AllSlashes(s[..i]) && AllSlashes(s[i + |StripSlashes(s)|..])
  {
    var t := StripLeading(s);
    var r := StripTrailing(t);
    StripLeadingSplits(s);
    StripTrailingSplits(t);
    var i := |s| - |t|;
    assert s[i..] == t;
    assert s[i..i + |r|] == t[..|r|];
    assert s[i + |r|..] == t[|r|..];
    if r != [] {
      assert r[0] == t[0];
    }
  }

  lemma {:induction false} StripLeadingAllSlashes(t: string)
    requires AllSlashes(t)
    ensures StripLeading(t) == []
    decreases |t|
  {
    if |t| > 0 {
      StripLeadingAllSlashes(t[1..]);
    }
  }

  lemma {:induction false} StripLeadingPrefix(p: string, t: string)
    requires AllSlashes(p)
    requires t == [] || t[0] != '/'
    ensures StripLeading(p + t) == t
    decreases |p|
  {
    if p != [] {
      assert (p + t)[1..] == p[1..] + t;
      StripLeadingPrefix(p[1..], t);
    } else {
      assert p + t == t;
    }
  }

  lemma {:induction false} StripTrailingSuffix(t: string, q: string)
    requires AllSlashes(q)
    requires t == [] || t[|t| - 1] != '/'
    ensures StripTrailing(t + q) == t
    decreases |q|
  {
    if q != [] {
      var q' := q[..|q| - 1];
      assert (t + q)[..|t + q| - 1] == t + q';
      StripTrailingSuffix(t, q');
    } else {
      assert t + q == t;
    }
  }

  /** The converse of StripSlashesSpec: a trimmed text with only slashes
      around it is exactly what `strip("/")` returns. */
  lemma StripSlashesUnique(p: string, r: string, q: string)
    requires AllSlashes(p) && AllSlashes(q) && Trimmed(r)
    ensures StripSlashes(p + r + q) == r
  {
    if r == [] {
      assert p + r + q == p + q;
      assert AllSlashes(p + q);
      StripLeadingAllSlashes(p + q);
    } else {
      assert p + r + q == p + (r + q);
      StripLeadingPrefix(p, r + q);
      StripTrailingSuffix(r, q);
    }
  }

  lemma StripSlashesIdempotent(s: string)
    ensures StripSlashes(StripSlashes(s)) == StripSlashes(s)
  {
    StripSlashesSpec(s);
    var r := StripSlashes(s);
    assert [] + r + [] == r;
    StripSlashesUnique([], r, []);
  }

  /** `get_label_by_id` posts to `labels/rates/<id>` for an id that does not
      end with a slash; an empty id loses the trailing slash too. */
  lemma LabelByIdUrl(rateId: string)
    ensures rateId != [] && rateId[|rateId| - 1] != '/' ==>
              UrlFor("/labels/rates/" + rateId) == BaseUrl + "labels/rates/" + rateId
    ensures UrlFor("/labels/rates/" + "") == BaseUrl + "labels/rates"
  {
    if rateId != [] && rateId[|rateId| - 1] != '/' {
      var r := "labels/rates/" + rateId;
      assert "/labels/rates/" + rateId == "/" + r + "";
      StripSlashesUnique("/", r, "");
    }
    assert "/labels/rates/" + "" == "/" + "labels/rates" + "/";
    StripSlashesUnique("/", "labels/rates", "/");
  }

  // ---------------------------------------------------------------------
  // Replies and their interpretation

  /** What the transport delivers: a status code and a body that is JSON
      (`Some`) or not (`None`), or no reply at all. */
  datatype Reply = Received(status: int, body: Option<Json>) | ConnectionFailed

  /** The exceptions that `request` does not catch and that reach its caller. */
  datatype Exception =
    | TransportError        // the exchange itself failed
    | InvalidJson           // `resp.json()` could not parse the body
    | MalformedErrorBody    // a KeyError or TypeError while reading `errors[].message`

  datatype Outcome =
    | Parsed(json: Json)                             // `return resp.json()`
    | Failed(status: int, messages: seq<Json>)       // `return e, error_obj`
    | Raised(exception: Exception)

  /** `raise_for_status` raises for client (4xx) and server (5xx) errors only. */
  predicate IsHttpError(status: int) {
    400 <= status < 600
  }

  /** `[err["message"] for err in errors]` over a JSON list. */
  function MessagesOf(entries: seq<Json>): (r: Option<seq<Json>>)
    ensures r.Some? <==> forall i :: 0 <= i < |entries| ==> Field(entries[i], "message").Some?
    ensures r.Some? ==> |r.value| == |entries|
    ensures r.Some? ==> forall i :: 0 <= i < |entries| ==> r.value[i] == entries[i].fields["message"]
  {
    if entries == [] then Some([])
    else
      var m :- Field(entries[0], "message");
      var rest :- MessagesOf(entries[1..]);
      Some([m] + rest)
  }

  /** `[err["message"] for err in body["errors"]]`, `None` where Python raises.
      Iterating a dict yields its keys and iterating a string its characters,
      and indexing either with `"message"` raises, so only an empty one of
      them yields a list. */
  function ErrorMessages(body: Json): (r: Option<seq<Json>>)
    ensures Field(body, "errors").None? ==> r.None?
  {
    var errors :- Field(body, "errors");
    match errors
    case JArray(entries) => MessagesOf(entries)
    case JObject(m) => if m == map[] then Some([]) else None
    case JString(s) => if s == [] then Some([]) else None
    case _ => None
  }

  /** The messages come one per entry of `errors`, in order. */
  lemma ErrorMessagesInOrder(body: Json, entries: seq<Json>)
    requires Field(body, "errors") == Some(JArray(entries))
    ensures ErrorMessages(body).Some? <==>
              forall i :: 0 <= i < |entries| ==> entries[i].JObject? && "message" in entries[i].fields
    ensures ErrorMessages(body).Some? ==>
              |ErrorMessages(body).value| == |entries|
              && forall i :: 0 <= i < |entries| ==> ErrorMessages(body).value[i] == entries[i].fields["message"]
  {
  }

  /** What `request` does with the reply. */
  function Interpret(reply: Reply): (r: Outcome)
    ensures r == Raised(TransportError) <==> reply.ConnectionFailed?
    ensures r == Raised(MalformedErrorBody) <==> (reply.Received? && IsHttpError(reply.status) && reply.body.Some?
                                                 && ErrorMessages(reply.body.value).None?)
    ensures r.Parsed? <==> reply.Received? && !IsHttpError(reply.status) && reply.body.Some?
    ensures r.Parsed? ==> r.json == reply.body.value
    ensures r.Failed? <==> (reply.Received? && IsHttpError(reply.status) && reply.body.Some?
                            && ErrorMessages(reply.body.value).Some?)
    ensures r.Failed? ==> r.status == reply.status && r.messages == ErrorMessages(reply.body.value).value
    ensures r == Raised(InvalidJson) <==> reply.Received? && reply.body.None?
  {
    match reply
    case ConnectionFailed => Raised(TransportError)
    case Received(status, body) =>
      if IsHttpError(status) then
        match body
        case None => Raised(InvalidJson)
        case Some(j) =>
          match ErrorMessages(j)
          case None => Raised(MalformedErrorBody)
          case Some(ms) => Failed(status, ms)
      else
        match body
        case None => Raised(InvalidJson)
        case Some(j) => Parsed(j)
  }

  /** An error reply `{"errors": [{"message": "Invalid postal code"}]}` with status 400. */
  lemma InvalidPostalCodeReply()
    ensures Interpret(Received(400, Some(JObject(map["errors" := JArray([JObject(map["message" := JString("Invalid postal code")])])]))))
            == Failed(400, [JString("Invalid postal code")])
  {
    var message := JString("Invalid postal code");
    var entry := JObject(map["message" := message]);
    assert [entry][1..] == [];
    assert [message] + [] == [message];
    assert Field(entry, "message") == Some(message);
    assert MessagesOf([entry]) == Some([message]);
  }

  /** An error reply whose body has no `errors` key raises while reading
      it; it is neither a returned error pair nor a connection failure. */
  lemma UnreadableErrorBodyRaises()
    ensures Interpret(Received(400, Some(JObject(map[])))) == Raised(MalformedErrorBody)
  {
  }

  // ---------------------------------------------------------------------
  // Requests and the auth hook

  /** A request as `request` hands it to the session: the verb, the URL
      string it builds, the headers after the auth hook, and the JSON body.
      The library's own URL preparation (percent-encoding) is not applied. */
  datatype HttpRequest = HttpRequest(verb: string, url: string, headers: map<string, string>, body: Option<Json>)

  /** The request object the HTTP library hands to the auth hook. Its URL
      is the string `request` built, before the library percent-encodes it. */
  class PreparedRequest {
    var verb: string
    var url: string
    var headers: map<string, string>
    var body: Option<Json>

    constructor (verb: string, url: string, headers: map<string, string>, body: Option<Json>)
      ensures this.verb == verb && this.url == url && this.headers == headers && this.body == body
    {
      this.verb := verb;
      this.url := url;
      this.headers := headers;
      this.body := body;
    }

    function Snapshot(): (r: HttpRequest)
      reads this
    {
      HttpRequest(verb, url, headers, body)
    }
  }

  const ApiKeyHeader: string := "API-Key"

  function LowerChar(c: char): (r: char) {
    if 'A' <= c <= 'Z' then (c as int - 'A' as int + 'a' as int) as char else c
  }

  /** A header name as the request's header dict compares it: lower-cased. */
  function Fold(name: string): (r: string)
    ensures |r| == |name|
  {
    seq(|name|, i requires 0 <= i < |name| => LowerChar(name[i]))
  }

  /** Two header names the request's header dict treats as one key. */
  predicate SameHeader(a: string, b: string) {
    Fold(a) == Fold(b)
  }

  /** The header map after `request.headers["API-Key"] = key`. The headers
      are a case-insensitive dict, so the assignment replaces an entry under
      any spelling of the name, and the key is stored as `API-Key`. */
  function WithApiKey(headers: map<string, string>, apiKey: string): (r: map<string, string>)
    ensures forall h :: h in r <==> h == ApiKeyHeader || (h in headers && !SameHeader(h, ApiKeyHeader))
    ensures r[ApiKeyHeader] == apiKey
    ensures forall h :: h in headers && !SameHeader(h, ApiKeyHeader) ==> r[h] == headers[h]
  {
    (map h | h in headers && !SameHeader(h, ApiKeyHeader) :: headers[h])[ApiKeyHeader := apiKey]
  }

  /** Setting the key twice leaves only the second key: the first entry is
      replaced, not kept beside it. */
  lemma ApiKeyLastWins(headers: map<string, string>, first: string, second: string)
    ensures WithApiKey(WithApiKey(headers, first), second) == WithApiKey(headers, second)
  {
    var a := WithApiKey(WithApiKey(headers, first), second);
    var b := WithApiKey(headers, second);
    forall h ensures h in a <==> h in b {
      if h == ApiKeyHeader {
      } else if h in headers && !SameHeader(h, ApiKeyHeader) {
      } else if SameHeader(h, ApiKeyHeader) {
      }
    }
    assert a.Keys == b.Keys;
  }

  /** A header already present as `api-key` is replaced, while unrelated
      headers are kept. */
  lemma ApiKeyReplacesOtherSpelling()
    ensures WithApiKey(map["api-key" := "old", "Accept" := "application/json"], "new")
            == map[ApiKeyHeader := "new", "Accept" := "application/json"]
  {
    var lower := "api-key";
    assert Fold(lower) == Fold(ApiKeyHeader) by {
      forall i | 0 <= i < 7 ensures Fold(lower)[i] == Fold(ApiKeyHeader)[i] {
      }
    }
    assert !SameHeader("Accept", ApiKeyHeader) by {
      assert |Fold("Accept")| != |Fold(ApiKeyHeader)|;
    }
    var r := WithApiKey(map["api-key" := "old", "Accept" := "application/json"], "new");
    assert r.Keys == {ApiKeyHeader, "Accept"};
  }

  class ShipEngineAuth {
    const apiKey: string

    constructor (apiKey: string)
      ensures this.apiKey == apiKey
    {
      this.apiKey := apiKey;
    }

    /** `__call__`: sets one header in place and returns the same request. */
    method Call(request: PreparedRequest) returns (r: PreparedRequest)
      modifies request
      ensures r == request
      ensures request.headers == WithApiKey(old(request.headers), apiKey)
      ensures request.verb == old(request.verb) && request.url == old(request.url) && request.body == old(request.body)
    {
      var kept := map h | h in request.headers && !SameHeader(h, ApiKeyHeader) :: request.headers[h];
      request.headers := kept[ApiKeyHeader := apiKey];
      r := request;
    }
  }

  // ---------------------------------------------------------------------
  // The shipment record

  /** A field that holds None, a record object, or the dict it was turned into. */
  datatype Slot<T> = NoneValue | Instance(obj: T) | Dict(fields: map<string, Json>)

  /** `dataclasses.asdict` of a slot: a record is converted, a dict copied. */
  function SlotToJson<T>(s: Slot<T>, encode: T -> Json): (r: Json) {
    match s
    case NoneValue => JNull
    case Instance(v) => encode(v)
    case Dict(m) => JObject(m)
  }

  /** After `shipment.customs = dataclasses.asdict(customs)` (or no change
      for `None`), the slot serialises as the optional customs record would. */
  lemma CustomsSlotReplaced(customs: Option<CustomsOptions>, slot: Slot<CustomsOptions>)
    requires slot == if customs.Some? then Dict(CustomsToJson(customs.value).fields) else NoneValue
    ensures SlotToJson(slot, CustomsToJson) == OptRecord(customs, CustomsToJson)
  {
  }

  /** The same for `shipment.advanced_options = dataclasses.asdict(advanced_opt)`. */
  lemma AdvancedSlotReplaced(advanced: Option<AdvancedOptions>, slot: Slot<AdvancedOptions>)
    requires slot == if advanced.Some? then Dict(AdvancedToJson(advanced.value).fields) else NoneValue
    ensures SlotToJson(slot, AdvancedToJson) == OptRecord(advanced, AdvancedToJson)
  {
  }

  /** The sixteen values of `dataclasses.asdict(shipment)`, field by field. */
  datatype ShipmentDict = ShipmentDict(
    carrierId: Json,
    serviceCode: Json,
    validateAddress: Json,
    externalShipmentId: Json,
    externalOrderId: Json,
    items: Json,
    shipDate: Json,
    shipTo: Json,
    shipFrom: Json,
    warehouseId: Json,
    returnTo: Json,
    confirmation: Json,
    customs: Json,
    advancedOptions: Json,
    insuranceProvider: Json,
    packages: Json)

  const ShipmentKeys: set<string> := {
    "carrier_id", "service_code", "validate_address", "external_shipment_id", "external_order_id",
    "items", "ship_date", "ship_to", "ship_from", "warehouse_id", "return_to", "confirmation",
    "customs", "advanced_options", "insurance_provider", "packages"}

  /** The JSON object of a shipment, keyed by the dataclass's field names. */
  function ShipmentJson(d: ShipmentDict): (r: Json)
    ensures r.JObject?
  {
    JObject(map[
      "carrier_id" := d.carrierId,
      "service_code" := d.serviceCode,
      "validate_address" := d.validateAddress,
      "external_shipment_id" := d.externalShipmentId,
      "external_order_id" := d.externalOrderId,
      "items" := d.items,
      "ship_date" := d.shipDate,
      "ship_to" := d.shipTo,
      "ship_from" := d.shipFrom,
      "warehouse_id" := d.warehouseId,
      "return_to" := d.returnTo,
      "confirmation" := d.confirmation,
      "customs" := d.customs,
      "advanced_options" := d.advancedOptions,
      "insurance_provider" := d.insuranceProvider,
      "packages" := d.packages])
  }

  /** The object has exactly the sixteen keys. */
  lemma ShipmentJsonKeys(d: ShipmentDict)
    ensures ShipmentJson(d).JObject? && ShipmentJson(d).fields.Keys == ShipmentKeys
  {
  }

  // Each key holds the value of its own field (three lemmas to keep each proof small).

  lemma ShipmentJsonRequestFields(d: ShipmentDict)
    ensures Field(ShipmentJson(d), "carrier_id") == Some(d.carrierId)
    ensures Field(ShipmentJson(d), "service_code") == Some(d.serviceCode)
    ensures Field(ShipmentJson(d), "validate_address") == Some(d.validateAddress)
    ensures Field(ShipmentJson(d), "confirmation") == Some(d.confirmation)
    ensures Field(ShipmentJson(d), "insurance_provider") == Some(d.insuranceProvider)
  {
  }

  lemma ShipmentJsonIdFields(d: ShipmentDict)
    ensures Field(ShipmentJson(d), "external_shipment_id") == Some(d.externalShipmentId)
    ensures Field(ShipmentJson(d), "external_order_id") == Some(d.externalOrderId)
    ensures Field(ShipmentJson(d), "items") == Some(d.items)
    ensures Field(ShipmentJson(d), "warehouse_id") == Some(d.warehouseId)
    ensures Field(ShipmentJson(d), "return_to") == Some(d.returnTo)
  {
  }

  lemma ShipmentJsonContentFields(d: ShipmentDict)
    ensures Field(ShipmentJson(d), "ship_date") == Some(d.shipDate)
    ensures Field(ShipmentJson(d), "ship_to") == Some(d.shipTo)
    ensures Field(ShipmentJson(d), "ship_from") == Some(d.shipFrom)
    ensures Field(ShipmentJson(d), "customs") == Some(d.customs)
    ensures Field(ShipmentJson(d), "advanced_options") == Some(d.advancedOptions)
    ensures Field(ShipmentJson(d), "packages") == Some(d.packages)
  {
  }

  /** The shipment object `create_shipment` and `create_label` build, with
      the sixteen fields they pass. `customs` and `advanced_options` first
      hold the record objects and are then overwritten with their dicts. */
  class Shipment {
    var carrierId: Json
    var serviceCode: Json
    var validateAddress: Json
    var externalShipmentId: Json
    var externalOrderId: Json
    var items: Json
    var shipDate: Json
    var shipTo: Json
    var shipFrom: Json
    var warehouseId: Json
    var returnTo: Json
    var confirmation: Json
    var customs: Slot<CustomsOptions>
    var advancedOptions: Slot<AdvancedOptions>
    var insuranceProvider: Json
    var packages: seq<Json>

    constructor (carrierId: Json, serviceCode: Json, validateAddress: Json, externalShipmentId: Json,
                 externalOrderId: Json, items: Json, shipDate: Json, shipTo: Json, shipFrom: Json,
                 warehouseId: Json, returnTo: Json, confirmation: Json, customs: Slot<CustomsOptions>,
                 advancedOptions: Slot<AdvancedOptions>, insuranceProvider: Json, packages: seq<Json>)
      ensures this.carrierId == carrierId && this.serviceCode == serviceCode
      ensures this.validateAddress == validateAddress && this.externalShipmentId == externalShipmentId
      ensures this.externalOrderId == externalOrderId && this.items == items && this.shipDate == shipDate
      ensures this.shipTo == shipTo && this.shipFrom == shipFrom && this.warehouseId == warehouseId
      ensures this.returnTo == returnTo && this.confirmation == confirmation && this.customs == customs
      ensures this.advancedOptions == advancedOptions && this.insuranceProvider == insuranceProvider
      ensures this.packages == packages
    {
      this.carrierId := carrierId;
      this.serviceCode := serviceCode;
      this.validateAddress := validateAddress;
      this.externalShipmentId := externalShipmentId;
      this.externalOrderId := externalOrderId;
      this.items := items;
      this.shipDate := shipDate;
      this.shipTo := shipTo;
      this.shipFrom := shipFrom;
      this.warehouseId := warehouseId;
      this.returnTo := returnTo;
      this.confirmation := confirmation;
      this.customs := customs;
      this.advancedOptions := advancedOptions;
      this.insuranceProvider := insuranceProvider;
      this.packages := packages;
    }

    /** Replaces a supplied options or customs record by its dict, in place. */
    method ReplaceByDicts(customsArg: Option<CustomsOptions>, advancedArg: Option<AdvancedOptions>)
      modifies this
      ensures carrierId == old(carrierId) && serviceCode == old(serviceCode)
      ensures validateAddress == old(validateAddress) && externalShipmentId == old(externalShipmentId)
      ensures externalOrderId == old(externalOrderId) && items == old(items) && shipDate == old(shipDate)
      ensures shipTo == old(shipTo) && shipFrom == old(shipFrom) && warehouseId == old(warehouseId)
      ensures returnTo == old(returnTo) && confirmation == old(confirmation)
      ensures insuranceProvider == old(insuranceProvider) && packages == old(packages)
      ensures customs == if customsArg.Some? then Dict(CustomsToJson(customsArg.value).fields) else old(customs)
      ensures advancedOptions ==
                if advancedArg.Some? then Dict(AdvancedToJson(advancedArg.value).fields) else old(advancedOptions)
    {
      if advancedArg.Some? {
        advancedOptions := Dict(AdvancedToJson(advancedArg.value).fields);
      }
      if customsArg.Some? {
        customs := Dict(CustomsToJson(customsArg.value).fields);
      }
    }

    /** `dataclasses.asdict(shipment)`: nested records converted, dicts copied. */
    function AsDict(): (r: ShipmentDict)
      reads this
    {
      ShipmentDict(carrierId, serviceCode, validateAddress, externalShipmentId, externalOrderId, items,
                   shipDate, shipTo, shipFrom, warehouseId, returnTo, confirmation,
                   SlotToJson(customs, CustomsToJson), SlotToJson(advancedOptions, AdvancedToJson),
                   insuranceProvider, JArray(packages))
    }
  }

  /** What the caller supplies to `create_shipment`/`create_label`, together
      with the client's carrier id and the process's ship date. */
  datatype ShipmentInput = ShipmentInput(
    carrierId: Option<string>,
    shipDate: string,
    shipTo: CsvModels.ShipToAddress,
    shipFrom: CsvModels.ShipToAddress,
    packages: seq<Package>,
    customs: Option<CustomsOptions>,
    advanced: Option<AdvancedOptions>)

  /** The shipment both operations assemble from their inputs, as a dict. */
  function Assemble(s: ShipmentInput): (r: ShipmentDict) {
    ShipmentDict(
      OptString(s.carrierId),
      JString("ups_next_day_air"),
      JString("validate_and_clean"),
      JNull,
      JNull,
      JNull,
      JString(s.shipDate),
      AddressToJson(s.shipTo),
      AddressToJson(s.shipFrom),
      JNull,
      JNull,
      JString("delivery"),
      OptRecord(s.customs, CustomsToJson),
      OptRecord(s.advanced, AdvancedToJson),
      JString("none"),
      JArray(PackagesToJson(s.packages)))
  }

  /** On the wire: the client's carrier id, the process's ship date, the fixed
      service code, validation mode, confirmation level and insurance provider. */
  lemma ShipmentDefaults(s: ShipmentInput)
    ensures Field(ShipmentJson(Assemble(s)), "carrier_id") == Some(OptString(s.carrierId))
    ensures Field(ShipmentJson(Assemble(s)), "ship_date") == Some(JString(s.shipDate))
    ensures Field(ShipmentJson(Assemble(s)), "service_code") == Some(JString("ups_next_day_air"))
    ensures Field(ShipmentJson(Assemble(s)), "validate_address") == Some(JString("validate_and_clean"))
    ensures Field(ShipmentJson(Assemble(s)), "confirmation") == Some(JString("delivery"))
    ensures Field(ShipmentJson(Assemble(s)), "insurance_provider") == Some(JString("none"))
  {
    ShipmentJsonRequestFields(Assemble(s));
    ShipmentJsonContentFields(Assemble(s));
  }

  /** Nothing else is set: the five identifiers the client never fills in are null. */
  lemma ShipmentUnsetFields(s: ShipmentInput)
    ensures ShipmentJson(Assemble(s)).fields.Keys == ShipmentKeys
    ensures forall k :: k in ["external_shipment_id", "external_order_id", "items", "warehouse_id", "return_to"]
              ==> Field(ShipmentJson(Assemble(s)), k) == Some(JNull)
  {
    ShipmentJsonKeys(Assemble(s));
    ShipmentJsonIdFields(Assemble(s));
  }

  /** `customs` and `advanced_options` are null exactly when not supplied,
      and otherwise the supplied record's field map. */
  lemma ShipmentOptionalParts(s: ShipmentInput)
    ensures Field(ShipmentJson(Assemble(s)), "customs") == Some(JNull) <==> s.customs.None?
    ensures s.customs.Some? ==> Field(ShipmentJson(Assemble(s)), "customs") == Some(CustomsToJson(s.customs.value))
    ensures Field(ShipmentJson(Assemble(s)), "advanced_options") == Some(JNull) <==> s.advanced.None?
    ensures s.advanced.Some? ==>
              Field(ShipmentJson(Assemble(s)), "advanced_options") == Some(JObject(s.advanced.value.fields))
  {
    ShipmentJsonContentFields(Assemble(s));
  }

  /** The packages field holds the packages one for one, in order. */
  lemma ShipmentPackagesInOrder(s: ShipmentInput)
    ensures Field(ShipmentJson(Assemble(s)), "packages").Some?
    ensures Field(ShipmentJson(Assemble(s)), "packages").value.JArray?
    ensures |Field(ShipmentJson(Assemble(s)), "packages").value.items| == |s.packages|
    ensures forall i :: 0 <= i < |s.packages| ==>
              PackageFromJson(Field(ShipmentJson(Assemble(s)), "packages").value.items[i]) == Some(s.packages[i])
  {
    ShipmentJsonContentFields(Assemble(s));
    var items := PackagesToJson(s.packages);
    forall i | 0 <= i < |s.packages|
      ensures PackageFromJson(items[i]) == Some(s.packages[i])
    {
      PackageRoundTrip(s.packages[i]);
    }
  }

  /** Reads back what the caller supplied from a shipment object. */
  function ShipmentFromJson(j: Json): (r: Option<ShipmentInput>) {
    var c :- Field(j, "carrier_id");
    var carrierId :- AsOptString(c);
    var shipDate :- StringField(j, "ship_date");
    var to :- Field(j, "ship_to");
    var shipTo :- AddressFromJson(to);
    var from :- Field(j, "ship_from");
    var shipFrom :- AddressFromJson(from);
    var ps :- Field(j, "packages");
    var packages :- if ps.JArray? then PackagesFromJson(ps.items) else None;
    var customs :- OptRecordField(j, "customs", CustomsFromJson);
    var advanced :- OptRecordField(j, "advanced_options", AdvancedFromJson);
    Some(ShipmentInput(carrierId, shipDate, shipTo, shipFrom, packages, customs, advanced))
  }

  lemma ShipmentDecodes(j: Json, s: ShipmentInput)
    requires Field(j, "carrier_id") == Some(OptString(s.carrierId))
    requires Field(j, "ship_date") == Some(JString(s.shipDate))
    requires Field(j, "ship_to").Some? && AddressFromJson(Field(j, "ship_to").value) == Some(s.shipTo)
    requires Field(j, "ship_from").Some? && AddressFromJson(Field(j, "ship_from").value) == Some(s.shipFrom)
    requires Field(j, "packages").Some? && Field(j, "packages").value.JArray?
    requires PackagesFromJson(Field(j, "packages").value.items) == Some(s.packages)
    requires OptRecordField(j, "customs", CustomsFromJson) == Some(s.customs)
    requires OptRecordField(j, "advanced_options", AdvancedFromJson) == Some(s.advanced)
    ensures ShipmentFromJson(j) == Some(s)
  {
    OptionalScalarsRoundTrip(s.carrierId, None, None, None);
  }

  /** Serialising an assembled shipment and reading it back gives every
      input back: carrier id, date, addresses, packages in order, customs and options. */
  lemma ShipmentRoundTrip(s: ShipmentInput)
    ensures ShipmentFromJson(ShipmentJson(Assemble(s))) == Some(s)
  {
    var j := ShipmentJson(Assemble(s));
    ShipmentJsonRequestFields(Assemble(s));
    ShipmentJsonContentFields(Assemble(s));
    AddressRoundTrip(s.shipTo);
    AddressRoundTrip(s.shipFrom);
    PackagesRoundTrip(s.packages);
    if s.customs.Some? { CustomsRoundTrip(s.customs.value); }
    OptRecordFieldDecodes(j, "customs", s.customs, CustomsToJson, CustomsFromJson);
    if s.advanced.Some? { AdvancedRoundTrip(s.advanced.value); }
    OptRecordFieldDecodes(j, "advanced_options", s.advanced, AdvancedToJson, AdvancedFromJson);
    ShipmentDecodes(j, s);
  }

  /** `{"shipments": [shipment]}`. */
  function ShipmentsBody(shipment: Json): (r: Json)
    ensures r.JObject? && r.fields.Keys == {"shipments"}
    ensures r.fields["shipments"].JArray? && r.fields["shipments"].items == [shipment]
  {
    JObject(map["shipments" := JArray([shipment])])
  }

  /** `{"shipment": shipment}`. */
  function LabelBody(shipment: Json): (r: Json)
    ensures r.JObject? && r.fields.Keys == {"shipment"}
    ensures r.fields["shipment"] == shipment
  {
    JObject(map["shipment" := shipment])
  }

  /** `{"shipment_id": id, "rate_options": asdict(rate_opt)}`. */
  function RatesBody(shipmentId: string, o: CsvModels.RateOptions): (r: Json)
    ensures r.JObject? && r.fields.Keys == {"shipment_id", "rate_options"}
    ensures r.fields["shipment_id"] == JString(shipmentId)
    ensures r.fields["rate_options"] == RateOptionsToJson(o)
  {
    JObject(map["shipment_id" := JString(shipmentId), "rate_options" := RateOptionsToJson(o)])
  }

  /** The `get_rates` body gives back the shipment id and every rate option. */
  lemma RatesBodyRoundTrip(shipmentId: string, o: CsvModels.RateOptions)
    ensures StringField(RatesBody(shipmentId, o), "shipment_id") == Some(shipmentId)
    ensures Field(RatesBody(shipmentId, o), "rate_options").Some?
    ensures RateOptionsFromJson(Field(RatesBody(shipmentId, o), "rate_options").value) == Some(o)
  {
    RateOptionsRoundTrip(o);
  }

  // ---------------------------------------------------------------------
  // The client

  class ShipEngine {
    const apiKey: string
    const carrierId: Option<string>

    constructor (apiKey: string, carrierId: Option<string>)
      ensures this.apiKey == apiKey && this.carrierId == carrierId
    {
      this.apiKey := apiKey;
      this.carrierId := carrierId;
    }

    /** `request(method, endpoint, json=body)`: sends to the joined URL and
        reports the reply as `Interpret` does. `sessionHeaders` are the
        headers the session has prepared before the auth hook runs (its
        defaults, and the content headers of a JSON body); the hook adds the
        `API-Key` header to them. */
    method Request(verb: string, endpoint: string, body: Option<Json>, sessionHeaders: map<string, string>, reply: Reply)
      returns (sent: HttpRequest, outcome: Outcome)
      ensures sent == HttpRequest(verb, UrlFor(endpoint), WithApiKey(sessionHeaders, apiKey), body)
      ensures outcome == Interpret(reply)
    {
      var auth := new ShipEngineAuth(apiKey);
      var prepared := new PreparedRequest(verb, BaseUrl + StripSlashes(endpoint), sessionHeaders, body);
      var _ := auth.Call(prepared);
      sent := prepared.Snapshot();
      outcome := Interpret(reply);
    }

    method Get(endpoint: string, body: Option<Json>, sessionHeaders: map<string, string>, reply: Reply) returns (sent: HttpRequest, outcome: Outcome)
      ensures sent == HttpRequest("GET", UrlFor(endpoint), WithApiKey(sessionHeaders, apiKey), body)
      ensures outcome == Interpret(reply)
    {
      sent, outcome := Request("GET", endpoint, body, sessionHeaders, reply);
    }

    method Post(endpoint: string, body: Option<Json>, sessionHeaders: map<string, string>, reply: Reply) returns (sent: HttpRequest, outcome: Outcome)
      ensures sent == HttpRequest("POST", UrlFor(endpoint), WithApiKey(sessionHeaders, apiKey), body)
      ensures outcome == Interpret(reply)
    {
      sent, outcome := Request("POST", endpoint, body, sessionHeaders, reply);
    }

    method Update(endpoint: string, body: Option<Json>, sessionHeaders: map<string, string>, reply: Reply) returns (sent: HttpRequest, outcome: Outcome)
      ensures sent == HttpRequest("UPDATE", UrlFor(endpoint), WithApiKey(sessionHeaders, apiKey), body)
      ensures outcome == Interpret(reply)
    {
      sent, outcome := Request("UPDATE", endpoint, body, sessionHeaders, reply);
    }

    method Delete(endpoint: string, body: Option<Json>, sessionHeaders: map<string, string>, reply: Reply) returns (sent: HttpRequest, outcome: Outcome)
      ensures sent == HttpRequest("DELETE", UrlFor(endpoint), WithApiKey(sessionHeaders, apiKey), body)
      ensures outcome == Interpret(reply)
    {
      sent, outcome := Request("DELETE", endpoint, body, sessionHeaders, reply);
    }

    /** Builds the shipment object, then replaces a supplied options or
        customs record by its dict in place, as the source does. */
    method BuildShipment(shipTo: CsvModels.ShipToAddress, shipFrom: CsvModels.ShipToAddress, packages: seq<Package>,
                         customs: Option<CustomsOptions>, advanced: Option<AdvancedOptions>)
      returns (shipment: ShipmentDict)
      ensures shipment == Assemble(ShipmentInput(carrierId, CurrentDate, shipTo, shipFrom, packages, customs, advanced))
    {
      var shipTo', shipFrom', packages' := AddressToJson(shipTo), AddressToJson(shipFrom), PackagesToJson(packages);
      var customsSlot: Slot<CustomsOptions> := if customs.Some? then Instance(customs.value) else NoneValue;
      var advancedSlot: Slot<AdvancedOptions> := if advanced.Some? then Instance(advanced.value) else NoneValue;
      var obj := new Shipment(
        OptString(carrierId), JString("ups_next_day_air"), JString("validate_and_clean"), JNull, JNull, JNull,
        JString(CurrentDate), shipTo', shipFrom', JNull, JNull, JString("delivery"),
        customsSlot, advancedSlot, JString("none"), packages');
      obj.ReplaceByDicts(customs, advanced);
      CustomsSlotReplaced(customs, obj.customs);
      AdvancedSlotReplaced(advanced, obj.advancedOptions);
      shipment := obj.AsDict();
    }

    method CreateShipment(shipTo: CsvModels.ShipToAddress, shipFrom: CsvModels.ShipToAddress, packages: seq<Package>,
                          customs: Option<CustomsOptions>, advanced: Option<AdvancedOptions>, sessionHeaders: map<string, string>, reply: Reply)
      returns (sent: HttpRequest, outcome: Outcome)
      ensures sent.verb == "POST" && sent.url == BaseUrl + "shipments"
      ensures sent.headers == WithApiKey(sessionHeaders, apiKey)
      ensures sent.body == Some(ShipmentsBody(ShipmentJson(
                Assemble(ShipmentInput(carrierId, CurrentDate, shipTo, shipFrom, packages, customs, advanced)))))
      ensures outcome == Interpret(reply)
    {
      var shipment := BuildShipment(shipTo, shipFrom, packages, customs, advanced);
      var request := JObject(map["shipments" := JArray([ShipmentJson(shipment)])]);
      StripSlashesUnique("", "shipments", "");
      sent, outcome := Post("shipments", Some(request), sessionHeaders, reply);
    }

    method GetRates(shipmentId: string, rateOptions: CsvModels.RateOptions, sessionHeaders: map<string, string>, reply: Reply)
      returns (sent: HttpRequest, outcome: Outcome)
      ensures sent.verb == "POST" && sent.url == BaseUrl + "rates"
      ensures sent.headers == WithApiKey(sessionHeaders, apiKey)
      ensures sent.body == Some(RatesBody(shipmentId, rateOptions))
      ensures outcome == Interpret(reply)
    {
      var request := JObject(map["shipment_id" := JString(shipmentId), "rate_options" := RateOptionsToJson(rateOptions)]);
      StripSlashesUnique("", "rates", "");
      sent, outcome := Post("rates", Some(request), sessionHeaders, reply);
    }

    method GetLabelById(rateId: string, sessionHeaders: map<string, string>, reply: Reply) returns (sent: HttpRequest, outcome: Outcome)
      ensures sent.verb == "POST" && sent.url == UrlFor("/labels/rates/" + rateId)
      ensures rateId != [] && rateId[|rateId| - 1] != '/' ==> sent.url == BaseUrl + "labels/rates/" + rateId
      ensures sent.headers == WithApiKey(sessionHeaders, apiKey)
      ensures sent.body == None
      ensures outcome == Interpret(reply)
    {
      LabelByIdUrl(rateId);
      sent, outcome := Post("/labels/rates/" + rateId, None, sessionHeaders, reply);
    }

    method CreateLabel(shipTo: CsvModels.ShipToAddress, shipFrom: CsvModels.ShipToAddress, packages: seq<Package>,
                       customs: Option<CustomsOptions>, advanced: Option<AdvancedOptions>, sessionHeaders: map<string, string>, reply: Reply)
      returns (sent: HttpRequest, outcome: Outcome)
      ensures sent.verb == "POST" && sent.url == BaseUrl + "labels"
      ensures sent.headers == WithApiKey(sessionHeaders, apiKey)
      ensures sent.body == Some(LabelBody(ShipmentJson(
                Assemble(ShipmentInput(carrierId, CurrentDate, shipTo, shipFrom, packages, customs, advanced)))))
      ensures outcome == Interpret(reply)
    {
      var shipment := BuildShipment(shipTo, shipFrom, packages, customs, advanced);
      var request := JObject(map["shipment" := ShipmentJson(shipment)]);
      StripSlashesUnique("", "labels", "");
      sent, outcome := Post("labels", Some(request), sessionHeaders, reply);
    }
  }
}
