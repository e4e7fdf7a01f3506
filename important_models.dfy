/** The frozen dataclasses of important_models.py: package, customs and
    print-request records, the validators their `__post_init__` runs, and the
    status a `Response` derives from its print requests.

    Each record is a datatype holding the constructor's keyword arguments as
    given; `NewX(x)` is what constructing `X(**x)` does: it returns the record
    unchanged, or the `ValueError` the validator raises. Each restricted field
    also has a closed enumeration whose `Name()` is the literal the source
    accepts, and a lemma ties the source's tuple of literals to it. */
module ImportantModels {
  import opened Wrappers
  import opened Json

  // ---------------------------------------------------------------------
  // Plain records (no validator)

  datatype PackageInsuredValue = PackageInsuredValue(currency: string, amount: Float)

  datatype PackageLabelMessages = PackageLabelMessages(reference1: string, reference2: string, reference3: string)

  datatype Package = Package(
    packageCode: Option<string>,
    weight: PackageWeight,
    dimensions: Option<PackageDimensions>,
    insuredValue: Option<PackageInsuredValue>,
    labelMessages: Option<PackageLabelMessages>,
    externalPackageId: Option<string>)

  datatype CustomsItem = CustomsItem(
    description: Option<string>,
    quantity: Option<int>,
    value: Option<Float>,
    harmonizedTariffCode: Option<string>,
    countryOfOrigin: Option<string>)

  datatype CustomsOptions = CustomsOptions(
    contents: string,
    nonDelivery: string,
    calculateTaxAmount: Option<bool>,
    preferredCurrency: Option<string>,
    customsItems: seq<CustomsItem>)

  // ---------------------------------------------------------------------
  // PackageWeight

  datatype PackageWeight = PackageWeight(value: Float, unit: string)

  datatype WeightUnit = Pound | Ounce | Gram | Kilogram {
    function Name(): (r: string) {
      match this
      case Pound => "pound"
      case Ounce => "ounce"
      case Gram => "gram"
      case Kilogram => "kilogram"
    }
  }

  const WeightUnits: seq<string> := ["pound", "ounce", "gram", "kilogram"]

  /** The accepted literals are exactly the names of the four units. */
  lemma WeightUnitsAreNames(s: string)
    ensures s in WeightUnits <==> exists u: WeightUnit :: u.Name() == s
  {
    if s == "pound" { assert Pound.Name() == s; }
    else if s == "ounce" { assert Ounce.Name() == s; }
    else if s == "gram" { assert Gram.Name() == s; }
    else if s == "kilogram" { assert Kilogram.Name() == s; }
  }

  function NewPackageWeight(w: PackageWeight): (r: Result<PackageWeight, ValueError>)
    ensures r.Ok? <==> exists u: WeightUnit :: u.Name() == w.unit
    ensures r.Ok? ==> r.value == w
    ensures r.Err? ==> r.error == ValueError("weight unit must be one of ('pound', 'ounce', 'gram', 'kilogram').")
  {
    WeightUnitsAreNames(w.unit);
    if w.unit in WeightUnits then Ok(w)
    else Err(ValueError("weight unit must be one of ('pound', 'ounce', 'gram', 'kilogram')."))
  }

  // ---------------------------------------------------------------------
  // PackageDimensions

  datatype PackageDimensions = PackageDimensions(unit: string, length: Float, width: Float, height: Float)

  datatype DimensionUnit = Inch | Centimeter {
    function Name(): (r: string) {
      match this
      case Inch => "inch"
      case Centimeter => "centimeter"
    }
  }

  const DimensionUnits: seq<string> := ["inch", "centimeter"]

  lemma DimensionUnitsAreNames(s: string)
    ensures s in DimensionUnits <==> exists u: DimensionUnit :: u.Name() == s
  {
    if s == "inch" { assert Inch.Name() == s; }
    else if s == "centimeter" { assert Centimeter.Name() == s; }
  }

  function NewPackageDimensions(d: PackageDimensions): (r: Result<PackageDimensions, ValueError>)
    ensures r.Ok? <==> exists u: DimensionUnit :: u.Name() == d.unit
    ensures r.Ok? ==> r.value == d
    ensures r.Err? ==> r.error == ValueError("dimension unit must be one of ('inch', 'centimeter').")
  {
    DimensionUnitsAreNames(d.unit);
    if d.unit in DimensionUnits then Ok(d)
    else Err(ValueError("dimension unit must be one of ('inch', 'centimeter')."))
  }

  // ---------------------------------------------------------------------
  // PrintRequest

  datatype PrintRequest = PrintRequest(printRequestId: int, printTemplateUrl: string, status: string)

  datatype PrintStatus = PrintSucceeded | PrintNotRequired | PrintFailed {
    function Name(): (r: string) {
      match this
      case PrintSucceeded => "success"
      case PrintNotRequired => "not required"
      case PrintFailed => "fail"
    }
  }

  const PrintStatuses: seq<string> := ["success", "not required", "fail"]

  lemma PrintStatusesAreNames(s: string)
    ensures s in PrintStatuses <==> exists p: PrintStatus :: p.Name() == s
  {
    if s == "success" { assert PrintSucceeded.Name() == s; }
    else if s == "not required" { assert PrintNotRequired.Name() == s; }
    else if s == "fail" { assert PrintFailed.Name() == s; }
  }

  function NewPrintRequest(p: PrintRequest): (r: Result<PrintRequest, ValueError>)
    ensures r.Ok? <==> exists st: PrintStatus :: st.Name() == p.status
    ensures r.Ok? ==> r.value == p
    ensures r.Err? ==> r.error == ValueError("status must be one of ('success', 'not required', 'fail')")
  {
    PrintStatusesAreNames(p.status);
    if p.status in PrintStatuses then Ok(p)
    else Err(ValueError("status must be one of ('success', 'not required', 'fail')"))
  }

  // ---------------------------------------------------------------------
  // TrackingNumber

  datatype TrackingNumber = TrackingNumber(trackingNumber: string, trackingType: string)

  datatype TrackingType = Outbound | Returns {
    function Name(): (r: string) {
      match this
      case Outbound => "outbound"
      case Returns => "returns"
    }
  }

  const TrackingTypes: seq<string> := ["outbound", "returns"]

  lemma TrackingTypesAreNames(s: string)
    ensures s in TrackingTypes <==> exists t: TrackingType :: t.Name() == s
  {
    if s == "outbound" { assert Outbound.Name() == s; }
    else if s == "returns" { assert Returns.Name() == s; }
  }

  function NewTrackingNumber(t: TrackingNumber): (r: Result<TrackingNumber, ValueError>)
    ensures r.Ok? <==> exists k: TrackingType :: k.Name() == t.trackingType
    ensures r.Ok? ==> r.value == t
    ensures r.Err? ==> r.error == ValueError("tracking_type must be one of ('outbound', 'returns')")
  {
    TrackingTypesAreNames(t.trackingType);
    if t.trackingType in TrackingTypes then Ok(t)
    else Err(ValueError("tracking_type must be one of ('outbound', 'returns')"))
  }

  // ---------------------------------------------------------------------
  // Response

  /** A constructed `Response`; `status` is always set once construction is over. */
  datatype Response = Response(
    newPrintRequests: seq<PrintRequest>,
    trackingNumbers: seq<TrackingNumber>,
    status: string,
    message: string)

  datatype ResponseStatus = ResponseSucceeded | ResponsePartial | ResponseFailed {
    function Name(): (r: string) {
      match this
      case ResponseSucceeded => "success"
      case ResponsePartial => "partial"
      case ResponseFailed => "fail"
    }
  }

  const ResponseStatuses: seq<string> := ["success", "partial", "fail"]

  lemma ResponseStatusesAreNames(s: string)
    ensures s in ResponseStatuses <==> exists st: ResponseStatus :: st.Name() == s
  {
    if s == "success" { assert ResponseSucceeded.Name() == s; }
    else if s == "partial" { assert ResponsePartial.Name() == s; }
    else if s == "fail" { assert ResponseFailed.Name() == s; }
  }

  /** Python's built-in `all`: true of the empty list. */
  function All(bs: seq<bool>): (r: bool) {
    if bs == [] then true else bs[0] && All(bs[1..])
  }

  /** Python's built-in `any`: false of the empty list. */
  function Any(bs: seq<bool>): (r: bool) {
    if bs == [] then false else bs[0] || Any(bs[1..])
  }

  lemma {:induction false} AllHoldsOfEvery(bs: seq<bool>)
    ensures All(bs) <==> forall i :: 0 <= i < |bs| ==> bs[i]
  {
    if bs != [] {
      AllHoldsOfEvery(bs[1..]);
      assert forall i :: 1 <= i < |bs| ==> bs[i] == bs[1..][i - 1];
    }
  }

  lemma {:induction false} AnyHoldsOfSome(bs: seq<bool>)
    ensures Any(bs) <==> exists i :: 0 <= i < |bs| && bs[i]
  {
    if bs != [] {
      AnyHoldsOfSome(bs[1..]);
      assert forall i :: 1 <= i < |bs| ==> bs[i] == bs[1..][i - 1];
    }
  }

  /** `[pr.status == "fail" for pr in prs]`: one flag per request, in order. */
  function Failures(prs: seq<PrintRequest>): (r: seq<bool>)
    ensures |r| == |prs|
    ensures forall i :: 0 <= i < |prs| ==> r[i] == (prs[i].status == "fail")
  {
    seq(|prs|, i requires 0 <= i < |prs| => prs[i].status == "fail")
  }

  /** The status `__post_init__` computes when none is given. */
  function DerivedStatus(prs: seq<PrintRequest>): (r: string)
    ensures r in ResponseStatuses
  {
    var failures := Failures(prs);
    if All(failures) then "fail"
    else if Any(failures) then "partial"
    else "success"
  }

  /** The three outcomes in terms of the print requests themselves. With no
      print request at all the status is `fail`, because `all([])` is true. */
  lemma DerivedStatusCases(prs: seq<PrintRequest>)
    ensures DerivedStatus(prs) == "fail" <==> forall i :: 0 <= i < |prs| ==> prs[i].status == "fail"
    ensures DerivedStatus(prs) == "partial" <==>
              (exists i :: 0 <= i < |prs| && prs[i].status == "fail")
              && (exists j :: 0 <= j < |prs| && prs[j].status != "fail")
    ensures DerivedStatus(prs) == "success" <==>
              |prs| > 0 && forall i :: 0 <= i < |prs| ==> prs[i].status != "fail"
  {
    var failures := Failures(prs);
    AllHoldsOfEvery(failures);
    AnyHoldsOfSome(failures);
  }

  lemma NoPrintRequestsMeansFail(tns: seq<TrackingNumber>, message: string)
    ensures NewResponse([], tns, None, message) == Ok(Response([], tns, "fail", message))
  {
    DerivedStatusCases([]);
  }

  /** `Response(newPrintRequests, trackingNumbers, status, message)`: a given
      status is checked and kept; a missing one (`None`) is derived. Only the
      status is written; the lists and the message are kept as given. */
  function NewResponse(prs: seq<PrintRequest>, tns: seq<TrackingNumber>, status: Option<string>, message: string)
    : (r: Result<Response, ValueError>)
    ensures status.Some? ==> (r.Ok? <==> exists st: ResponseStatus :: st.Name() == status.value)
    ensures status.Some? && r.Ok? ==> r.value.status == status.value
    ensures status.Some? && r.Err? ==> r.error == ValueError("status must be one of ('success', 'partial', 'fail')")
    ensures status.None? ==> r.Ok? && r.value.status == DerivedStatus(prs)
    ensures r.Ok? ==> exists st: ResponseStatus :: st.Name() == r.value.status
    ensures r.Ok? ==> r.value.newPrintRequests == prs && r.value.trackingNumbers == tns && r.value.message == message
  {
    match status
    case Some(s) =>
      ResponseStatusesAreNames(s);
      if s in ResponseStatuses then Ok(Response(prs, tns, s, message))
      else Err(ValueError("status must be one of ('success', 'partial', 'fail')"))
    case None =>
      var derived := DerivedStatus(prs);
      ResponseStatusesAreNames(derived);
      Ok(Response(prs, tns, derived, message))
  }
}
