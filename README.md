# ShipEngine CSV-Shipper: the shipping-request value layer

This project is a Dafny model of the part of csv_shipper that has precise
behaviour of its own. That part has three pieces:

- **Validated records.** These are the dataclasses whose `__post_init__`
  refuses a value outside a fixed set of literals: weight unit, dimension
  unit, print-request status, tracking type, response status, residential
  indicator and preferred currency. There are also the plain records that a
  shipment carries (package, customs item, customs options, addresses).
- **Status derivation.** A `Response` built without a status derives `fail`,
  `partial` or `success` from the `fail` flags of its print requests.
- **The ShipEngine client.** It joins the base URL with an endpoint stripped
  of `/`. Its auth hook sets the `API-Key` header. It assembles the shipment
  record that `create_shipment` and `create_label` send, builds the bodies of
  `get_rates` and `get_label_by_id`, and turns an HTTP error into the list of
  `errors[].message`.

Modules:

- `Wrappers` holds `Option`, `Result` and Python's `ValueError`.
- `Json` holds JSON values. A Python `float` is an opaque `Float` that is
  carried through and never computed with.
- `ImportantModels` is important_models.py.
- `CsvModels` is csv_shipper/models.py.
- `Serialize` is `dataclasses.asdict` written out record by record. Each
  record has a decoder, and a round-trip lemma shows that every field
  survives.
- `SeClient` is csv_shipper/se_client.py.

Every validating constructor is a function `NewX(x)`. It returns `Ok(x)`
unchanged, or the `ValueError` the source raises with the source's message.
Each restricted field also has a closed enumeration. A lemma proves that the
source's tuple of literals is exactly the set of that enumeration's names.

The client is imperative where the source is:

- `Shipment` is a class whose `customs` and `advanced_options` fields first
  hold the record objects and are then overwritten with their dicts in place.
- `ShipEngineAuth.Call` updates the request's header map in place.
- `ShipEngine` keeps the API key and the carrier id as fields fixed at
  construction. The ship date `_CURRENT_DATE` is a class attribute computed
  once at import, so it is a module constant `CurrentDate` shared by every
  client.

The HTTP exchange is not modelled. The server's reply is an input (`Reply`).
Each call returns the request as `request` hands it to the session (verb,
the URL string it builds, headers after the auth hook, body) together with
what `request` makes of the reply (`Outcome`).

Facts about the code that the model follows:

- The code validates neither customs `contents`/`non_delivery` nor the
  shipment's `confirmation`: the customs records are plain dataclasses, and
  `confirmation` is always the literal `"delivery"`.
- `request` does not raise on an HTTP error. It returns the pair
  `(error, messages)` (csv_shipper/se_client.py:65-70), and the model's
  `Failed` outcome is that pair.
- Only statuses 400-599 count as errors, because that is what
  `raise_for_status` raises for. Every other status, 3xx included, returns
  the parsed body.
- The `ShippingAddress` row never runs its `__post_init__` (see Findings),
  so every residential indicator is stored.

csv_shipper/se_client.py imports `ShipFromAddress`, `Package`,
`PackageWeight`, `PackageDimensions`, `CustomsOptions` and `AdvancedOptions`
from csv_shipper/models.py, which defines none of them. Its `Shipment` has
two fields there, but the client passes sixteen. The model takes:

- the sixteen fields the client passes;
- `Package`, `PackageWeight`, `PackageDimensions` and `CustomsOptions` from
  important_models.py;
- `ShipToAddress` as the shape of the ship-from address;
- `AdvancedOptions` as an opaque field map.

## Model

| member | source | states |
|---|---|---|
| `ImportantModels.NewPackageWeight` | important_models.py:20-28 | constructs iff the unit is one of the four weight units (pound, ounce, gram, kilogram); the record is kept unchanged; otherwise the ValueError with the source's message |
| `ImportantModels.WeightUnitsAreNames` | important_models.py:26-27 | a string is in the accepted tuple iff it is the name of a `WeightUnit` |
| `ImportantModels.NewPackageDimensions` | important_models.py:31-41 | constructs iff the unit is inch or centimeter; record unchanged; otherwise the ValueError |
| `ImportantModels.DimensionUnitsAreNames` | important_models.py:39-40 | the accepted tuple is exactly the names of `DimensionUnit` |
| `ImportantModels.NewPrintRequest` | important_models.py:99-112 | constructs iff status is success, not required or fail; record unchanged; otherwise the ValueError |
| `ImportantModels.PrintStatusesAreNames` | important_models.py:110-111 | the accepted tuple is exactly the names of `PrintStatus` |
| `ImportantModels.NewTrackingNumber` | important_models.py:115-124 | constructs iff the tracking type is outbound or returns; record unchanged; otherwise the ValueError |
| `ImportantModels.TrackingTypesAreNames` | important_models.py:121-123 | the accepted tuple is exactly the names of `TrackingType` |
| `ImportantModels.ResponseStatusesAreNames` | important_models.py:136-137 | the accepted tuple is exactly the names of `ResponseStatus` |
| `ImportantModels.All` | important_models.py:144 | Python's `all` over the failure flags; described by `AllHoldsOfEvery` |
| `ImportantModels.Any` | important_models.py:146 | Python's `any` over the failure flags; described by `AnyHoldsOfSome` |
| `ImportantModels.AllHoldsOfEvery` | important_models.py:144 | Python's `all` is true iff every flag is true (so true of the empty list) |
| `ImportantModels.AnyHoldsOfSome` | important_models.py:146 | Python's `any` is true iff some flag is true |
| `ImportantModels.Failures` | important_models.py:142 | one flag per print request, in order, true exactly for status `fail` |
| `ImportantModels.DerivedStatus` | important_models.py:142-149 | the derived status is always one of success, partial, fail |
| `ImportantModels.DerivedStatusCases` | important_models.py:142-149 | `fail` iff every request failed; `partial` iff some failed and some did not; `success` iff there is a request and none failed |
| `ImportantModels.NoPrintRequestsMeansFail` | important_models.py:142-145 | with no status and no print requests the response is constructed with status `fail` |
| `ImportantModels.NewResponse` | important_models.py:127-151 | a given status constructs iff it is success, partial or fail, and is kept; a missing one is derived; the result's status is always valid; the lists and the message are unchanged |
| `CsvModels.CheckResidentialIndicator` | csv_shipper/models.py:108-111 | the record is kept iff its indicator is yes, no or unknown, otherwise the ValueError with the source's message |
| `CsvModels.ResidentialIndicatorsAreNames` | csv_shipper/models.py:108-111 | the accepted tuple is exactly the names of `ResidentialIndicator` (yes, no, unknown) |
| `CsvModels.NewShippingAddress` | csv_shipper/models.py:52-71 | as written: every row is stored unchanged, whatever its residential indicator, because `__post_init__` is never called on the mapped dataclass |
| `CsvModels.CheckedShippingAddress` | csv_shipper/models.py:68-71 | as intended: constructs iff the residential indicator is yes, no or unknown; row unchanged; otherwise the ValueError |
| `CsvModels.ShippingAddressIndicatorUnchecked` | csv_shipper/models.py:52-71 | a row with indicator "maybe" is stored as written and refused by the intended check |
| `CsvModels.NewShipToAddress` | csv_shipper/models.py:94-111 | constructs iff the residential indicator is yes, no or unknown; record unchanged; otherwise the ValueError |
| `CsvModels.OnlyTheIndicatorIsChecked` | csv_shipper/models.py:94-111 | two addresses with the same indicator are accepted or refused together, whatever their other fields |
| `CsvModels.CurrenciesAreSupportedCurrencies` | csv_shipper/models.py:114-121 | the currencies `RateOptions` accepts are exactly the enum's member names; values lie in 1..6 and are distinct; names are distinct |
| `CsvModels.NewRateOptions` | csv_shipper/models.py:80-91 | constructs iff the preferred currency names a `SupportedCurrencies` member; record unchanged; otherwise the ValueError |
| `Serialize.WeightToJson` | csv_shipper/se_client.py:115 | `asdict` of a package's weight is an object; `PackageRoundTrip` shows value and unit come back |
| `Serialize.DimensionsToJson` | csv_shipper/se_client.py:115 | `asdict` of a package's dimensions is an object; `PackageRoundTrip` shows unit, length, width and height come back |
| `Serialize.InsuredValueToJson` | csv_shipper/se_client.py:115 | `asdict` of an insured value is an object; `PackageRoundTrip` shows currency and amount come back |
| `Serialize.LabelMessagesToJson` | csv_shipper/se_client.py:115 | `asdict` of label messages is an object; `PackageRoundTrip` shows the three references come back |
| `Serialize.PackageToJson` | csv_shipper/se_client.py:115 | `asdict(package)` is an object; described by `PackageRoundTrip` |
| `Serialize.PackagesToJson` | csv_shipper/se_client.py:115 | one package object per package, same length and order |
| `Serialize.CustomsItemToJson` | csv_shipper/se_client.py:122 | `asdict` of a customs item is an object; described by `CustomsItemsRoundTrip` |
| `Serialize.CustomsItemsToJson` | csv_shipper/se_client.py:122 | one object per customs item, same length and order; described by `CustomsItemsRoundTrip` |
| `Serialize.CustomsToJson` | csv_shipper/se_client.py:122 | `asdict(customs)` is an object; described by `CustomsRoundTrip` |
| `Serialize.AddressToJson` | csv_shipper/se_client.py:107-108 | `asdict` of the ship-to and ship-from addresses is an object; described by `AddressRoundTrip` |
| `Serialize.AdvancedToJson` | csv_shipper/se_client.py:119 | `asdict(advanced_opt)` is an object with exactly the options' fields; described by `AdvancedRoundTrip` |
| `Serialize.StringsToJson` | csv_shipper/se_client.py:131 | one JSON string per list entry, same length and order; described by `StringsRoundTrip` |
| `Serialize.RateOptionsToJson` | csv_shipper/se_client.py:131 | `asdict(rate_opt)` is an object; described by `RateOptionsRoundTrip` |
| `Serialize.PackageRoundTrip` | csv_shipper/se_client.py:115 | decoding a package's dict gives the package back, including weight, dimensions, insured value and label messages |
| `Serialize.PackagesRoundTrip` | csv_shipper/se_client.py:115 | decoding the packages list gives every package back, in order |
| `Serialize.CustomsItemsRoundTrip` | csv_shipper/se_client.py:122 | decoding the customs items list gives every item back, in order |
| `Serialize.CustomsRoundTrip` | csv_shipper/se_client.py:121-122 | decoding `asdict(customs)` gives the customs options back |
| `Serialize.AddressRoundTrip` | csv_shipper/se_client.py:107-108 | decoding `asdict` of an address gives every address field back |
| `Serialize.AdvancedRoundTrip` | csv_shipper/se_client.py:118-119 | decoding `asdict(advanced_opt)` gives the options back |
| `Serialize.StringsRoundTrip` | csv_shipper/se_client.py:131 | a list of strings decodes back in order |
| `Serialize.RateOptionsRoundTrip` | csv_shipper/se_client.py:131 | decoding `asdict(rate_opt)` gives back the carrier ids, package types and service codes in order, the tax flag and the currency |
| `SeClient.StripSlashes` | csv_shipper/se_client.py:60 | `endpoint.strip("/")` is no longer than the endpoint; described by `StripSlashesSpec`, `StripSlashesUnique` and `StripSlashesIdempotent` |
| `SeClient.UrlFor` | csv_shipper/se_client.py:60 | `_BASE_URL + endpoint.strip("/")` starts with the base URL and is at most the endpoint's length longer |
| `SeClient.StripSlashesSpec` | csv_shipper/se_client.py:60 | `strip("/")` leaves text that neither starts nor ends with `/`, and the endpoint is that text with only slashes before and after |
| `SeClient.StripSlashesUnique` | csv_shipper/se_client.py:60 | conversely, slashes + trimmed text + slashes strips to exactly that text |
| `SeClient.StripSlashesIdempotent` | csv_shipper/se_client.py:60 | stripping twice is stripping once |
| `SeClient.LabelByIdUrl` | csv_shipper/se_client.py:135-136 | `/labels/rates/X` goes to `https://api.shipengine.com/v1/labels/rates/X` when X does not end with `/`; an empty id loses the trailing slash too |
| `SeClient.MessagesOf` | csv_shipper/se_client.py:66 | defined iff every entry has a `message`; then one message per entry, in order |
| `SeClient.ErrorMessages` | csv_shipper/se_client.py:66 | a body without `errors` yields no list (Python raises) |
| `SeClient.ErrorMessagesInOrder` | csv_shipper/se_client.py:65-70 | for an `errors` list: defined iff every entry is an object with `message`; then exactly those messages, one per entry, in order |
| `SeClient.Interpret` | csv_shipper/se_client.py:58-70 | a transport error is raised iff the connection failed; a non-error status returns the parsed body; a 4xx/5xx status returns the status with the error messages; `MalformedErrorBody` is raised iff a 4xx/5xx body parses but its `errors[].message` cannot be read; `InvalidJson` iff the body does not parse |
| `SeClient.UnreadableErrorBodyRaises` | csv_shipper/se_client.py:65-66 | a 400 reply with an empty object body raises `MalformedErrorBody` |
| `SeClient.InvalidPostalCodeReply` | csv_shipper/se_client.py:65-70 | a 400 reply whose body is `{"errors":[{"message":"Invalid postal code"}]}` gives exactly `["Invalid postal code"]` |
| `SeClient.WithApiKey` | csv_shipper/se_client.py:37-39 | `API-Key` is set to the key; an entry under any other spelling of that name (compared case-insensitively, as the header dict does) is removed; every other header is kept |
| `SeClient.ApiKeyLastWins` | csv_shipper/se_client.py:37-39 | setting the key twice equals setting only the second key |
| `SeClient.ApiKeyReplacesOtherSpelling` | csv_shipper/se_client.py:37-39 | an existing `api-key` header is replaced by `API-Key`, an unrelated header is kept |
| `SeClient.ShipEngineAuth.Call` | csv_shipper/se_client.py:37-39 | updates the request's headers in place to `WithApiKey` of the old ones, changes nothing else, returns the same request |
| `SeClient.ShipEngineAuth.constructor` | csv_shipper/se_client.py:34-35 | stores the key |
| `SeClient.Assemble` | csv_shipper/se_client.py:99-116 | the `Shipment(...)` both operations build (also lines 147-164); described by `ShipmentDefaults`, `ShipmentUnsetFields`, `ShipmentOptionalParts`, `ShipmentPackagesInOrder` and `ShipmentRoundTrip` |
| `SeClient.ShipmentJson` | csv_shipper/se_client.py:125 | `dataclasses.asdict(shipment)` (also line 172) is an object; described by `ShipmentJsonKeys` and the shipment lemmas |
| `SeClient.SlotToJson` | csv_shipper/se_client.py:118-125 | `asdict` of the customs or options field: null, the record converted, or the dict copied; described by `CustomsSlotReplaced` and `AdvancedSlotReplaced` |
| `SeClient.ShipmentJsonKeys` | csv_shipper/se_client.py:99-116 | the shipment object has exactly the sixteen keys the client passes |
| `SeClient.ShipmentDefaults` | csv_shipper/se_client.py:99-116 | the client's carrier id, the process's ship date, service code `ups_next_day_air`, `validate_and_clean`, confirmation `delivery`, insurance provider `none` |
| `SeClient.ShipmentUnsetFields` | csv_shipper/se_client.py:99-116 | exactly the sixteen keys, and `external_shipment_id`, `external_order_id`, `items`, `warehouse_id`, `return_to` are null |
| `SeClient.ShipmentOptionalParts` | csv_shipper/se_client.py:112-122 | `customs`/`advanced_options` are null iff not supplied, and otherwise the supplied record's dict |
| `SeClient.ShipmentPackagesInOrder` | csv_shipper/se_client.py:115 | `packages` is a list as long as the input, whose i-th entry decodes to the i-th package |
| `SeClient.ShipmentRoundTrip` | csv_shipper/se_client.py:99-125 | reading the assembled shipment back gives carrier id, date, both addresses, the packages in order, customs and options |
| `SeClient.ShipmentsBody` | csv_shipper/se_client.py:125 | the `create_shipment` body has the single key `shipments` holding a one-element list with the shipment |
| `SeClient.LabelBody` | csv_shipper/se_client.py:172 | the `create_label` body has the single key `shipment` holding the shipment |
| `SeClient.RatesBody` | csv_shipper/se_client.py:129-132 | the `get_rates` body has exactly `shipment_id` and `rate_options`, the latter the rate options' dict |
| `SeClient.RatesBodyRoundTrip` | csv_shipper/se_client.py:129-132 | the `get_rates` body gives back the shipment id and every rate option |
| `SeClient.Shipment.constructor` | csv_shipper/se_client.py:99-116 | stores the sixteen fields as given |
| `SeClient.Shipment.ReplaceByDicts` | csv_shipper/se_client.py:118-122 | a supplied customs or options record is replaced in place by its dict; an absent one and every other field stay as they were |
| `SeClient.Shipment.AsDict` | csv_shipper/se_client.py:125 | `dataclasses.asdict(shipment)` of the object's current fields; `BuildShipment` proves it equals `Assemble` after the replacement |
| `SeClient.ShipEngine.constructor` | csv_shipper/se_client.py:46-53 | stores the API key and the carrier id; the ship date is the module constant `CurrentDate`, the same for every client |
| `SeClient.ShipEngine.Request` | csv_shipper/se_client.py:55-70 | sends to the base URL joined with the stripped endpoint, with the session's prepared headers plus the `API-Key` header the hook sets (`WithApiKey`), and reports the reply as `Interpret` |
| `SeClient.ShipEngine.Get` | csv_shipper/se_client.py:78-79 | `request` with verb GET, the same URL, headers and outcome |
| `SeClient.ShipEngine.Post` | csv_shipper/se_client.py:81-82 | `request` with verb POST, the same URL, headers and outcome |
| `SeClient.ShipEngine.Update` | csv_shipper/se_client.py:84-85 | `request` with verb UPDATE, the same URL, headers and outcome |
| `SeClient.ShipEngine.Delete` | csv_shipper/se_client.py:87-88 | `request` with verb DELETE, the same URL, headers and outcome |
| `SeClient.ShipEngine.BuildShipment` | csv_shipper/se_client.py:99-122 | building the object and then replacing supplied customs/options by their dicts in place gives exactly the assembled shipment |
| `SeClient.ShipEngine.CreateShipment` | csv_shipper/se_client.py:90-126 | POST to `.../v1/shipments` with the session headers plus the key header, and body `{"shipments":[shipment]}` for the assembled shipment; outcome as `Interpret` |
| `SeClient.ShipEngine.GetRates` | csv_shipper/se_client.py:128-133 | POST to `.../v1/rates` with the session headers plus the key header and the rates body; outcome as `Interpret` |
| `SeClient.ShipEngine.GetLabelById` | csv_shipper/se_client.py:135-136 | POST with no body to the stripped `/labels/rates/<id>` URL, with the session headers plus the key header; outcome as `Interpret` |
| `SeClient.ShipEngine.CreateLabel` | csv_shipper/se_client.py:138-173 | POST to `.../v1/labels` with body `{"shipment": shipment}` for the same assembled shipment, with the session headers plus the key header; outcome as `Interpret` |

## Left out

- HTTP transport: the `requests.Session`, connection handling, `raise_for_status` and `resp.json()` belong to a foreign library. The reply is an input: a status with a parsed body, an unparsable body, or a failed connection.
- The session's own headers (User-Agent, Accept, Accept-Encoding, Connection) and the content headers `requests` derives from a JSON body are an input to each call (`sessionHeaders`); how the session computes them is not modelled.
- `SeClient.ShipEngine.Request`: `sent.url` is the string `request` passes to the session (`_BASE_URL + endpoint.strip("/")`). The library's URL preparation, which percent-encodes characters such as a space before the auth hook runs, is not modelled; so `get_label_by_id("se 1")` goes out as `.../labels/rates/se%201`, not as the model's `.../labels/rates/se 1`. The fixed endpoints `shipments`, `rates` and `labels` are unaffected.
- Extra keyword arguments that `request` forwards to the session (`*args`, `**kwargs` other than `json`) are not modelled.
- Logging calls are left out. They have no effect on results.
- Ship date: `strftime` of the clock at module load is a foreign call. The date is the constant `CurrentDate` of unknown value, so every client and every request carry the same date, but which date is not modelled.
- Header names are folded with ASCII lower-casing; Python's Unicode `str.lower` on non-ASCII header names is not modelled.
- Environment: the `os.getenv` defaults are parameters. The carrier id may be missing (`None`, sent as null). The API key is modelled as a string; a missing key is not modelled.
- Floats: weights, dimensions and amounts are opaque values. They are carried through and never computed with, so float semantics are not modelled.
- `User` in important_models.py:85-96 is a plain record that the client does not use, so it is not modelled.
- Database code is not modelled: `db_add`/`db_rm`, the ORM columns, and the `User` table of csv_shipper/models.py.
- Web routes, forms, password hashing and configuration are not part of this model.
- `AdvancedOptions` and `ShipFromAddress` are defined nowhere in the source. They are modelled as an opaque field map and as the ship-to address shape.
- The two-field `Shipment` of csv_shipper/models.py:74-77 is not modelled. The client's sixteen-field use of it is.
- `SeClient.ErrorMessages`: iterating a dict or a string under `errors` yields keys or characters. Indexing those with `"message"` raises, so only an empty dict or string gives a list. Other shapes are reported as `MalformedErrorBody`. The exact Python exception (KeyError or TypeError) is not distinguished.
- Dict key order (Python keeps insertion order) is not modelled: JSON objects are maps.

## Findings

| source | as written | input that shows it | evidently intended | confidence | as-written member | corrected member |
|---|---|---|---|---|---|---|
| csv_shipper/models.py:52-71 | `@dataclass` on a mapped model class with no annotated fields keeps the mapper's `__init__`, so `__post_init__` never runs and any residential indicator is stored | `ShippingAddress(user_id=1, ..., address_residential_indicator="maybe")` | the row is refused with the same `ValueError` as `ShipToAddress` | high; not executed | `CsvModels.NewShippingAddress`, `CsvModels.ShippingAddressIndicatorUnchecked` | `CsvModels.CheckedShippingAddress` |
