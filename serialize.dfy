/** `dataclasses.asdict` on the records the client sends, written out per
    record: each becomes a JSON object keyed by its field names, with nested
    records converted in turn, lists converted element by element and `None`
    as `null`. Beside each encoder stands a decoder, and the round-trip lemmas
    show that nothing is lost: every field of every record comes back. */
module Serialize {
  import opened Wrappers
  import opened Json
  import opened ImportantModels
  import CsvModels

  /** The options object the client passes as `advanced_opt`. Its class is
      defined nowhere in the sources, so the model carries its field map. */
  datatype AdvancedOptions = AdvancedOptions(fields: map<string, Json>)

  // ---------------------------------------------------------------------
  // Encoders

  function WeightToJson(w: PackageWeight): (r: Json)
    ensures r.JObject?
  {
    JObject(map["value" := JFloat(w.value), "unit" := JString(w.unit)])
  }

  function DimensionsToJson(d: PackageDimensions): (r: Json)
    ensures r.JObject?
  {
    JObject(map["unit" := JString(d.unit), "length" := JFloat(d.length),
                "width" := JFloat(d.width), "height" := JFloat(d.height)])
  }

  function InsuredValueToJson(v: PackageInsuredValue): (r: Json)
    ensures r.JObject?
  {
    JObject(map["currency" := JString(v.currency), "amount" := JFloat(v.amount)])
  }

  function LabelMessagesToJson(m: PackageLabelMessages): (r: Json)
    ensures r.JObject?
  {
    JObject(map["reference1" := JString(m.reference1), "reference2" := JString(m.reference2),
                "reference3" := JString(m.reference3)])
  }

  /** A field holding an optional record: `null` for `None`. */
  function OptRecord<T>(x: Option<T>, encode: T -> Json): (r: Json) {
    match x
    case None => JNull
    case Some(v) => encode(v)
  }

  function PackageToJson(p: Package): (r: Json)
    ensures r.JObject?
  {
    JObject(map[
      "package_code" := OptString(p.packageCode),
      "weight" := WeightToJson(p.weight),
      "dimensions" := OptRecord(p.dimensions, DimensionsToJson),
      "insured_value" := OptRecord(p.insuredValue, InsuredValueToJson),
      "label_messages" := OptRecord(p.labelMessages, LabelMessagesToJson),
      "external_package_id" := OptString(p.externalPackageId)])
  }

  /** `[dataclasses.asdict(package) for package in packages]`: one object per
      package, in the same order. */
  function PackagesToJson(ps: seq<Package>): (r: seq<Json>)
    ensures |r| == |ps|
    ensures forall i :: 0 <= i < |ps| ==> r[i] == PackageToJson(ps[i])
  {
    if ps == [] then [] else [PackageToJson(ps[0])] + PackagesToJson(ps[1..])
  }

  function CustomsItemToJson(c: CustomsItem): (r: Json)
    ensures r.JObject?
  {
    JObject(map[
      "description" := OptString(c.description),
      "quantity" := OptInt(c.quantity),
      "value" := OptFloat(c.value),
      "harmonized_tariff_code" := OptString(c.harmonizedTariffCode),
      "country_of_origin" := OptString(c.countryOfOrigin)])
  }

  function CustomsItemsToJson(cs: seq<CustomsItem>): (r: seq<Json>)
    ensures |r| == |cs|
    ensures forall i :: 0 <= i < |cs| ==> r[i] == CustomsItemToJson(cs[i])
  {
    if cs == [] then [] else [CustomsItemToJson(cs[0])] + CustomsItemsToJson(cs[1..])
  }

  function CustomsToJson(c: CustomsOptions): (r: Json)
    ensures r.JObject?
  {
    JObject(map[
      "contents" := JString(c.contents),
      "non_delivery" := JString(c.nonDelivery),
      "calculate_tax_amount" := OptBool(c.calculateTaxAmount),
      "preferred_currency" := OptString(c.preferredCurrency),
      "customs_items" := JArray(CustomsItemsToJson(c.customsItems))])
  }

  function AddressToJson(a: CsvModels.ShipToAddress): (r: Json)
    ensures r.JObject?
  {
    JObject(map[
      "name" := JString(a.name),
      "phone" := JString(a.phone),
      "company_name" := OptString(a.companyName),
      "address_line1" := JString(a.addressLine1),
      "address_line2" := OptString(a.addressLine2),
      "address_line3" := OptString(a.addressLine3),
      "city_locality" := JString(a.cityLocality),
      "state_province" := JString(a.stateProvince),
      "postal_code" := JString(a.postalCode),
      "country_code" := JString(a.countryCode),
      "address_residential_indicator" := JString(a.addressResidentialIndicator)])
  }

  function StringsToJson(ss: seq<string>): (r: seq<Json>)
    ensures |r| == |ss|
    ensures forall i :: 0 <= i < |ss| ==> r[i] == JString(ss[i])
  {
    if ss == [] then [] else [JString(ss[0])] + StringsToJson(ss[1..])
  }

  function RateOptionsToJson(o: CsvModels.RateOptions): (r: Json)
    ensures r.JObject?
  {
    JObject(map[
      "carrier_ids" := JArray(StringsToJson(o.carrierIds)),
      "package_types" := JArray(StringsToJson(o.packageTypes)),
      "service_codes" := JArray(StringsToJson(o.serviceCodes)),
      "calculate_tax_amount" := JBool(o.calculateTaxAmount),
      "preferred_currency" := JString(o.preferredCurrency)])
  }

  function AdvancedToJson(a: AdvancedOptions): (r: Json)
    ensures r.JObject? && r.fields == a.fields
  {
    JObject(a.fields)
  }

  // ---------------------------------------------------------------------
  // Decoders

  function StringField(j: Json, key: string): (r: Option<string>) {
    var v :- Field(j, key);
    AsString(v)
  }

  function FloatField(j: Json, key: string): (r: Option<Float>) {
    var v :- Field(j, key);
    AsFloat(v)
  }

  function OptStringField(j: Json, key: string): (r: Option<Option<string>>) {
    var v :- Field(j, key);
    AsOptString(v)
  }

  function OptRecordField<T>(j: Json, key: string, decode: Json -> Option<T>): (r: Option<Option<T>>) {
    var v :- Field(j, key);
    if v.JNull? then Some(None)
    else
      var x :- decode(v);
      Some(Some(x))
  }

  function WeightFromJson(j: Json): (r: Option<PackageWeight>) {
    var value :- FloatField(j, "value");
    var unit :- StringField(j, "unit");
    Some(PackageWeight(value, unit))
  }

  function DimensionsFromJson(j: Json): (r: Option<PackageDimensions>) {
    var unit :- StringField(j, "unit");
    var length :- FloatField(j, "length");
    var width :- FloatField(j, "width");
    var height :- FloatField(j, "height");
    Some(PackageDimensions(unit, length, width, height))
  }

  function InsuredValueFromJson(j: Json): (r: Option<PackageInsuredValue>) {
    var currency :- StringField(j, "currency");
    var amount :- FloatField(j, "amount");
    Some(PackageInsuredValue(currency, amount))
  }

  function LabelMessagesFromJson(j: Json): (r: Option<PackageLabelMessages>) {
    var r1 :- StringField(j, "reference1");
    var r2 :- StringField(j, "reference2");
    var r3 :- StringField(j, "reference3");
    Some(PackageLabelMessages(r1, r2, r3))
  }

  function PackageFromJson(j: Json): (r: Option<Package>) {
    var code :- OptStringField(j, "package_code");
    var w :- Field(j, "weight");
    var weight :- WeightFromJson(w);
    var dimensions :- OptRecordField(j, "dimensions", DimensionsFromJson);
    var insured :- OptRecordField(j, "insured_value", InsuredValueFromJson);
    var labels :- OptRecordField(j, "label_messages", LabelMessagesFromJson);
    var external :- OptStringField(j, "external_package_id");
    Some(Package(code, weight, dimensions, insured, labels, external))
  }

  function PackagesFromJson(js: seq<Json>): (r: Option<seq<Package>>) {
    if js == [] then Some([])
    else
      var p :- PackageFromJson(js[0]);
      var rest :- PackagesFromJson(js[1..]);
      Some([p] + rest)
  }

  function CustomsItemFromJson(j: Json): (r: Option<CustomsItem>) {
    var description :- OptStringField(j, "description");
    var q :- Field(j, "quantity");
    var quantity :- AsOptInt(q);
    var v :- Field(j, "value");
    var value :- AsOptFloat(v);
    var code :- OptStringField(j, "harmonized_tariff_code");
    var origin :- OptStringField(j, "country_of_origin");
    Some(CustomsItem(description, quantity, value, code, origin))
  }

  function CustomsItemsFromJson(js: seq<Json>): (r: Option<seq<CustomsItem>>) {
    if js == [] then Some([])
    else
      var c :- CustomsItemFromJson(js[0]);
      var rest :- CustomsItemsFromJson(js[1..]);
      Some([c] + rest)
  }

  function CustomsFromJson(j: Json): (r: Option<CustomsOptions>) {
    var contents :- StringField(j, "contents");
    var nonDelivery :- StringField(j, "non_delivery");
    var t :- Field(j, "calculate_tax_amount");
    var tax :- AsOptBool(t);
    var currency :- OptStringField(j, "preferred_currency");
    var items :- Field(j, "customs_items");
    var customsItems :- if items.JArray? then CustomsItemsFromJson(items.items) else None;
    Some(CustomsOptions(contents, nonDelivery, tax, currency, customsItems))
  }

  function AddressFromJson(j: Json): (r: Option<CsvModels.ShipToAddress>) {
    var name :- StringField(j, "name");
    var phone :- StringField(j, "phone");
    var company :- OptStringField(j, "company_name");
    var line1 :- StringField(j, "address_line1");
    var line2 :- OptStringField(j, "address_line2");
    var line3 :- OptStringField(j, "address_line3");
    var city :- StringField(j, "city_locality");
    var state :- StringField(j, "state_province");
    var postal :- StringField(j, "postal_code");
    var country :- StringField(j, "country_code");
    var indicator :- StringField(j, "address_residential_indicator");
    Some(CsvModels.ShipToAddress(name, phone, company, line1, line2, line3, city, state, postal, country, indicator))
  }

  function StringsFromJson(js: seq<Json>): (r: Option<seq<string>>) {
    if js == [] then Some([])
    else
      var s :- AsString(js[0]);
      var rest :- StringsFromJson(js[1..]);
      Some([s] + rest)
  }

  function StringListField(j: Json, key: string): (r: Option<seq<string>>) {
    var v :- Field(j, key);
    if v.JArray? then StringsFromJson(v.items) else None
  }

  function RateOptionsFromJson(j: Json): (r: Option<CsvModels.RateOptions>) {
    var carriers :- StringListField(j, "carrier_ids");
    var packageTypes :- StringListField(j, "package_types");
    var services :- StringListField(j, "service_codes");
    var t :- Field(j, "calculate_tax_amount");
    var tax :- AsBool(t);
    var currency :- StringField(j, "preferred_currency");
    Some(CsvModels.RateOptions(carriers, packageTypes, services, tax, currency))
  }

  function AdvancedFromJson(j: Json): (r: Option<AdvancedOptions>) {
    if j.JObject? then Some(AdvancedOptions(j.fields)) else None
  }

  // ---------------------------------------------------------------------
  // Round trips
  //
  // Each record's proof is split in two: which value every key of the
  // encoded object holds, and that the decoder rebuilds the record from any
  // object holding those values. This keeps each proof obligation small.

  lemma WeightRoundTrip(w: PackageWeight)
    ensures WeightFromJson(WeightToJson(w)) == Some(w)
  {
  }

  lemma DimensionsRoundTrip(d: PackageDimensions)
    ensures DimensionsFromJson(DimensionsToJson(d)) == Some(d)
  {
  }

  lemma InsuredValueRoundTrip(v: PackageInsuredValue)
    ensures InsuredValueFromJson(InsuredValueToJson(v)) == Some(v)
  {
  }

  lemma LabelMessagesRoundTrip(m: PackageLabelMessages)
    ensures LabelMessagesFromJson(LabelMessagesToJson(m)) == Some(m)
  {
  }

  lemma PackageToJsonFields(p: Package)
    ensures Field(PackageToJson(p), "package_code") == Some(OptString(p.packageCode))
    ensures Field(PackageToJson(p), "weight") == Some(WeightToJson(p.weight))
    ensures Field(PackageToJson(p), "dimensions") == Some(OptRecord(p.dimensions, DimensionsToJson))
    ensures Field(PackageToJson(p), "insured_value") == Some(OptRecord(p.insuredValue, InsuredValueToJson))
    ensures Field(PackageToJson(p), "label_messages") == Some(OptRecord(p.labelMessages, LabelMessagesToJson))
    ensures Field(PackageToJson(p), "external_package_id") == Some(OptString(p.externalPackageId))
  {
  }

  /** A field holding an optional record decodes to it when the record's own
      decoder undoes its encoder. */
  lemma OptRecordFieldDecodes<T>(j: Json, key: string, x: Option<T>, encode: T -> Json, decode: Json -> Option<T>)
    requires Field(j, key) == Some(OptRecord(x, encode))
    requires x.Some? ==> !encode(x.value).JNull? && decode(encode(x.value)) == Some(x.value)
    ensures OptRecordField(j, key, decode) == Some(x)
  {
  }

  lemma PackageDecodes(j: Json, p: Package)
    requires Field(j, "package_code") == Some(OptString(p.packageCode))
    requires Field(j, "weight").Some? && WeightFromJson(Field(j, "weight").value) == Some(p.weight)
    requires OptRecordField(j, "dimensions", DimensionsFromJson) == Some(p.dimensions)
    requires OptRecordField(j, "insured_value", InsuredValueFromJson) == Some(p.insuredValue)
    requires OptRecordField(j, "label_messages", LabelMessagesFromJson) == Some(p.labelMessages)
    requires Field(j, "external_package_id") == Some(OptString(p.externalPackageId))
    ensures PackageFromJson(j) == Some(p)
  {
    OptionalScalarsRoundTrip(p.packageCode, None, None, None);
    OptionalScalarsRoundTrip(p.externalPackageId, None, None, None);
  }

  lemma PackageRoundTrip(p: Package)
    ensures PackageFromJson(PackageToJson(p)) == Some(p)
  {
    var j := PackageToJson(p);
    PackageToJsonFields(p);
    WeightRoundTrip(p.weight);
    if p.dimensions.Some? { DimensionsRoundTrip(p.dimensions.value); }
    OptRecordFieldDecodes(j, "dimensions", p.dimensions, DimensionsToJson, DimensionsFromJson);
    if p.insuredValue.Some? { InsuredValueRoundTrip(p.insuredValue.value); }
    OptRecordFieldDecodes(j, "insured_value", p.insuredValue, InsuredValueToJson, InsuredValueFromJson);
    if p.labelMessages.Some? { LabelMessagesRoundTrip(p.labelMessages.value); }
    OptRecordFieldDecodes(j, "label_messages", p.labelMessages, LabelMessagesToJson, LabelMessagesFromJson);
    PackageDecodes(j, p);
  }

  /** Every package comes back, in order. */
  lemma {:induction false} PackagesRoundTrip(ps: seq<Package>)
    ensures PackagesFromJson(PackagesToJson(ps)) == Some(ps)
  {
    if ps != [] {
      PackageRoundTrip(ps[0]);
      PackagesRoundTrip(ps[1..]);
      assert PackagesToJson(ps)[1..] == PackagesToJson(ps[1..]);
      assert [ps[0]] + ps[1..] == ps;
    }
  }

  lemma CustomsItemToJsonFields(c: CustomsItem)
    ensures Field(CustomsItemToJson(c), "description") == Some(OptString(c.description))
    ensures Field(CustomsItemToJson(c), "quantity") == Some(OptInt(c.quantity))
    ensures Field(CustomsItemToJson(c), "value") == Some(OptFloat(c.value))
    ensures Field(CustomsItemToJson(c), "harmonized_tariff_code") == Some(OptString(c.harmonizedTariffCode))
    ensures Field(CustomsItemToJson(c), "country_of_origin") == Some(OptString(c.countryOfOrigin))
  {
  }

  lemma CustomsItemDecodes(j: Json, c: CustomsItem)
    requires Field(j, "description") == Some(OptString(c.description))
    requires Field(j, "quantity") == Some(OptInt(c.quantity))
    requires Field(j, "value") == Some(OptFloat(c.value))
    requires Field(j, "harmonized_tariff_code") == Some(OptString(c.harmonizedTariffCode))
    requires Field(j, "country_of_origin") == Some(OptString(c.countryOfOrigin))
    ensures CustomsItemFromJson(j) == Some(c)
  {
    OptionalScalarsRoundTrip(c.description, c.quantity, c.value, None);
    OptionalScalarsRoundTrip(c.harmonizedTariffCode, None, None, None);
    OptionalScalarsRoundTrip(c.countryOfOrigin, None, None, None);
  }

  lemma {:induction false} CustomsItemsRoundTrip(cs: seq<CustomsItem>)
    ensures CustomsItemsFromJson(CustomsItemsToJson(cs)) == Some(cs)
  {
    if cs != [] {
      CustomsItemToJsonFields(cs[0]);
      CustomsItemDecodes(CustomsItemToJson(cs[0]), cs[0]);
      CustomsItemsRoundTrip(cs[1..]);
      assert CustomsItemsToJson(cs)[1..] == CustomsItemsToJson(cs[1..]);
      assert [cs[0]] + cs[1..] == cs;
    }
  }

  lemma CustomsToJsonFields(c: CustomsOptions)
    ensures Field(CustomsToJson(c), "contents") == Some(JString(c.contents))
    ensures Field(CustomsToJson(c), "non_delivery") == Some(JString(c.nonDelivery))
    ensures Field(CustomsToJson(c), "calculate_tax_amount") == Some(OptBool(c.calculateTaxAmount))
    ensures Field(CustomsToJson(c), "preferred_currency") == Some(OptString(c.preferredCurrency))
    ensures Field(CustomsToJson(c), "customs_items") == Some(JArray(CustomsItemsToJson(c.customsItems)))
  {
  }

  lemma CustomsDecodes(j: Json, c: CustomsOptions)
    requires Field(j, "contents") == Some(JString(c.contents))
    requires Field(j, "non_delivery") == Some(JString(c.nonDelivery))
    requires Field(j, "calculate_tax_amount") == Some(OptBool(c.calculateTaxAmount))
    requires Field(j, "preferred_currency") == Some(OptString(c.preferredCurrency))
    requires Field(j, "customs_items") == Some(JArray(CustomsItemsToJson(c.customsItems)))
    ensures CustomsFromJson(j) == Some(c)
  {
    OptionalScalarsRoundTrip(c.preferredCurrency, None, None, c.calculateTaxAmount);
    CustomsItemsRoundTrip(c.customsItems);
  }

  lemma CustomsRoundTrip(c: CustomsOptions)
    ensures CustomsFromJson(CustomsToJson(c)) == Some(c)
  {
    CustomsToJsonFields(c);
    CustomsDecodes(CustomsToJson(c), c);
  }

  lemma AddressToJsonNameFields(a: CsvModels.ShipToAddress)
    ensures Field(AddressToJson(a), "name") == Some(JString(a.name))
    ensures Field(AddressToJson(a), "phone") == Some(JString(a.phone))
    ensures Field(AddressToJson(a), "company_name") == Some(OptString(a.companyName))
    ensures Field(AddressToJson(a), "address_line1") == Some(JString(a.addressLine1))
  {
  }

  lemma AddressToJsonPlaceFields(a: CsvModels.ShipToAddress)
    ensures Field(AddressToJson(a), "address_line2") == Some(OptString(a.addressLine2))
    ensures Field(AddressToJson(a), "address_line3") == Some(OptString(a.addressLine3))
    ensures Field(AddressToJson(a), "city_locality") == Some(JString(a.cityLocality))
    ensures Field(AddressToJson(a), "state_province") == Some(JString(a.stateProvince))
  {
  }

  lemma AddressToJsonCodeFields(a: CsvModels.ShipToAddress)
    ensures Field(AddressToJson(a), "postal_code") == Some(JString(a.postalCode))
    ensures Field(AddressToJson(a), "country_code") == Some(JString(a.countryCode))
    ensures Field(AddressToJson(a), "address_residential_indicator") == Some(JString(a.addressResidentialIndicator))
  {
  }

  lemma AddressDecodes(j: Json, a: CsvModels.ShipToAddress)
    requires Field(j, "name") == Some(JString(a.name))
    requires Field(j, "phone") == Some(JString(a.phone))
    requires Field(j, "company_name") == Some(OptString(a.companyName))
    requires Field(j, "address_line1") == Some(JString(a.addressLine1))
    requires Field(j, "address_line2") == Some(OptString(a.addressLine2))
    requires Field(j, "address_line3") == Some(OptString(a.addressLine3))
    requires Field(j, "city_locality") == Some(JString(a.cityLocality))
    requires Field(j, "state_province") == Some(JString(a.stateProvince))
    requires Field(j, "postal_code") == Some(JString(a.postalCode))
    requires Field(j, "country_code") == Some(JString(a.countryCode))
    requires Field(j, "address_residential_indicator") == Some(JString(a.addressResidentialIndicator))
    ensures AddressFromJson(j) == Some(a)
  {
    OptionalScalarsRoundTrip(a.companyName, None, None, None);
    OptionalScalarsRoundTrip(a.addressLine2, None, None, None);
    OptionalScalarsRoundTrip(a.addressLine3, None, None, None);
  }

  lemma AddressRoundTrip(a: CsvModels.ShipToAddress)
    ensures AddressFromJson(AddressToJson(a)) == Some(a)
  {
    AddressToJsonNameFields(a);
    AddressToJsonPlaceFields(a);
    AddressToJsonCodeFields(a);
    AddressDecodes(AddressToJson(a), a);
  }

  /** Every string of a list comes back, in order. */
  lemma {:induction false} StringsRoundTrip(ss: seq<string>)
    ensures StringsFromJson(StringsToJson(ss)) == Some(ss)
  {
    if ss != [] {
      StringsRoundTrip(ss[1..]);
      assert StringsToJson(ss)[1..] == StringsToJson(ss[1..]);
      assert [ss[0]] + ss[1..] == ss;
    }
  }

  lemma RateOptionsToJsonFields(o: CsvModels.RateOptions)
    ensures Field(RateOptionsToJson(o), "carrier_ids") == Some(JArray(StringsToJson(o.carrierIds)))
    ensures Field(RateOptionsToJson(o), "package_types") == Some(JArray(StringsToJson(o.packageTypes)))
    ensures Field(RateOptionsToJson(o), "service_codes") == Some(JArray(StringsToJson(o.serviceCodes)))
    ensures Field(RateOptionsToJson(o), "calculate_tax_amount") == Some(JBool(o.calculateTaxAmount))
    ensures Field(RateOptionsToJson(o), "preferred_currency") == Some(JString(o.preferredCurrency))
  {
  }

  lemma RateOptionsDecodes(j: Json, o: CsvModels.RateOptions)
    requires Field(j, "carrier_ids") == Some(JArray(StringsToJson(o.carrierIds)))
    requires Field(j, "package_types") == Some(JArray(StringsToJson(o.packageTypes)))
    requires Field(j, "service_codes") == Some(JArray(StringsToJson(o.serviceCodes)))
    requires Field(j, "calculate_tax_amount") == Some(JBool(o.calculateTaxAmount))
    requires Field(j, "preferred_currency") == Some(JString(o.preferredCurrency))
    ensures RateOptionsFromJson(j) == Some(o)
  {
    StringsRoundTrip(o.carrierIds);
    StringsRoundTrip(o.packageTypes);
    StringsRoundTrip(o.serviceCodes);
  }

  /** Decoding the `rate_options` dict gives the options back: the three
      lists in order, the tax flag and the currency. */
  lemma RateOptionsRoundTrip(o: CsvModels.RateOptions)
    ensures RateOptionsFromJson(RateOptionsToJson(o)) == Some(o)
  {
    RateOptionsToJsonFields(o);
    RateOptionsDecodes(RateOptionsToJson(o), o);
  }

  lemma AdvancedRoundTrip(a: AdvancedOptions)
    ensures AdvancedFromJson(AdvancedToJson(a)) == Some(a)
  {
  }
}
