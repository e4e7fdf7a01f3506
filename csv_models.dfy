/** The validated records of csv_shipper/models.py: the saved ship-from
    address row, the ship-to address, rate options, and the enumeration of
    supported currencies. As in ImportantModels, `NewX(x)` is what
    constructing `X(**x)` does. */
module CsvModels {
  import opened Wrappers

  // ---------------------------------------------------------------------
  // Residential indicator, shared by both address records

  datatype ResidentialIndicator = Yes | No | Unknown {
    function Name(): (r: string) {
      match this
      case Yes => "yes"
      case No => "no"
      case Unknown => "unknown"
    }
  }

  const ResidentialIndicators: seq<string> := ["yes", "no", "unknown"]

  const ResidentialIndicatorError: string :=
    "address_residential_indicator must be on of ('yes', 'no', 'unknown')"

  lemma ResidentialIndicatorsAreNames(s: string)
    ensures s in ResidentialIndicators <==> exists ri: ResidentialIndicator :: ri.Name() == s
  {
    if s == "yes" { assert Yes.Name() == s; }
    else if s == "no" { assert No.Name() == s; }
    else if s == "unknown" { assert Unknown.Name() == s; }
  }

  /** The check both address records' `__post_init__` make: the record is
      kept when its indicator is yes, no or unknown, and refused otherwise. */
  function CheckResidentialIndicator<T>(record: T, indicator: string): (r: Result<T, ValueError>)
    ensures r.Ok? <==> exists ri: ResidentialIndicator :: ri.Name() == indicator
    ensures r.Ok? ==> r.value == record
    ensures r.Err? ==> r.error == ValueError(ResidentialIndicatorError)
  {
    ResidentialIndicatorsAreNames(indicator);
    if indicator in ResidentialIndicators then Ok(record)
    else Err(ValueError(ResidentialIndicatorError))
  }

  /** A saved ship-from address (one row of `ship_from_addresses`). */
  datatype ShippingAddress = ShippingAddress(
    userId: int,
    name: string,
    phone: int,
    companyName: Option<string>,
    addressLine_1: string,
    addressLine_2: Option<string>,
    addressLine_3: Option<string>,
    cityLocality: string,
    stateProvince: string,
    postalCode: int,
    countryCode: string,
    addressResidentialIndicator: string)

  /** Constructing a row as the code is written. The class is a mapped
      model, so the mapper's own `__init__` is already in the class when
      `@dataclass` runs; the decorator keeps it and finds no annotated
      fields, so `__post_init__` is never called and every row is stored. */
  function NewShippingAddress(a: ShippingAddress): (r: Result<ShippingAddress, ValueError>)
    ensures r.Ok? && r.value == a
  {
    Ok(a)
  }

  /** Constructing a row as `__post_init__` means it to: the indicator is
      checked exactly as for `ShipToAddress`. */
  function CheckedShippingAddress(a: ShippingAddress): (r: Result<ShippingAddress, ValueError>)
    ensures r.Ok? <==> exists ri: ResidentialIndicator :: ri.Name() == a.addressResidentialIndicator
    ensures r.Ok? ==> r.value == a
    ensures r.Err? ==> r.error == ValueError(ResidentialIndicatorError)
  {
    CheckResidentialIndicator(a, a.addressResidentialIndicator)
  }

  /** The two differ: a row with indicator "maybe" is stored as written,
      and refused by the intended check. */
  lemma ShippingAddressIndicatorUnchecked()
    ensures var a := ShippingAddress(1, "Monkey D. Luffy", 16549873124, None, "3800 N Lamar Blvd", None, None,
                                     "Austin", "TX", 78756, "US", "maybe");
            NewShippingAddress(a) == Ok(a) && CheckedShippingAddress(a) == Err(ValueError(ResidentialIndicatorError))
  {
    var a := ShippingAddress(1, "Monkey D. Luffy", 16549873124, None, "3800 N Lamar Blvd", None, None,
                             "Austin", "TX", 78756, "US", "maybe");
    assert "maybe" != "yes" && "maybe" != "no" && "maybe" != "unknown";
    assert a.addressResidentialIndicator !in ResidentialIndicators;
  }

  /** A ship-to (and, in the client, ship-from) address. */
  datatype ShipToAddress = ShipToAddress(
    name: string,
    phone: string,
    companyName: Option<string>,
    addressLine1: string,
    addressLine2: Option<string>,
    addressLine3: Option<string>,
    cityLocality: string,
    stateProvince: string,
    postalCode: string,
    countryCode: string,
    addressResidentialIndicator: string)

  function NewShipToAddress(a: ShipToAddress): (r: Result<ShipToAddress, ValueError>)
    ensures r.Ok? <==> exists ri: ResidentialIndicator :: ri.Name() == a.addressResidentialIndicator
    ensures r.Ok? ==> r.value == a
    ensures r.Err? ==> r.error == ValueError(ResidentialIndicatorError)
  {
    CheckResidentialIndicator(a, a.addressResidentialIndicator)
  }

  /** Nothing but the indicator is looked at: two addresses with the same
      indicator are both accepted or both refused, whatever their name,
      phone, lines or postal code. */
  lemma OnlyTheIndicatorIsChecked(a: ShipToAddress, b: ShipToAddress)
    requires a.addressResidentialIndicator == b.addressResidentialIndicator
    ensures NewShipToAddress(a).Ok? <==> NewShipToAddress(b).Ok?
    ensures NewShipToAddress(a).Ok? ==> NewShipToAddress(b) == Ok(b)
  {
  }

  // ---------------------------------------------------------------------
  // Currencies

  /** `SupportedCurrencies`, an `@unique` Enum: each member has a name and a value. */
  datatype SupportedCurrencies = Usd | Cad | Aud | Gbp | Eur | Nzd {
    function Name(): (r: string) {
      match this
      case Usd => "usd"
      case Cad => "cad"
      case Aud => "aud"
      case Gbp => "gbp"
      case Eur => "eur"
      case Nzd => "nzd"
    }

    function Value(): (r: int) {
      match this
      case Usd => 1
      case Cad => 2
      case Aud => 3
      case Gbp => 4
      case Eur => 5
      case Nzd => 6
    }
  }

  const Currencies: seq<string> := ["usd", "cad", "aud", "gbp", "eur", "nzd"]

  /** The literals `RateOptions` accepts are exactly the enum's member names,
      and the members' values are distinct and run from 1 to 6. */
  lemma CurrenciesAreSupportedCurrencies(s: string)
    ensures s in Currencies <==> exists c: SupportedCurrencies :: c.Name() == s
    ensures forall c: SupportedCurrencies :: 1 <= c.Value() <= 6
    ensures forall c: SupportedCurrencies, d: SupportedCurrencies :: c.Value() == d.Value() ==> c == d
    ensures forall c: SupportedCurrencies, d: SupportedCurrencies :: c.Name() == d.Name() ==> c == d
  {
    if s == "usd" { assert Usd.Name() == s; }
    else if s == "cad" { assert Cad.Name() == s; }
    else if s == "aud" { assert Aud.Name() == s; }
    else if s == "gbp" { assert Gbp.Name() == s; }
    else if s == "eur" { assert Eur.Name() == s; }
    else if s == "nzd" { assert Nzd.Name() == s; }
  }

  // ---------------------------------------------------------------------
  // RateOptions

  datatype RateOptions = RateOptions(
    carrierIds: seq<string>,
    packageTypes: seq<string>,
    serviceCodes: seq<string>,
    calculateTaxAmount: bool,
    preferredCurrency: string)

  function NewRateOptions(o: RateOptions): (r: Result<RateOptions, ValueError>)
    ensures r.Ok? <==> exists c: SupportedCurrencies :: c.Name() == o.preferredCurrency
    ensures r.Ok? ==> r.value == o
    ensures r.Err? ==> r.error == ValueError("preferred_currency must be one of ('usd', 'cad', 'aud', 'gbp', 'eur', 'nzd')")
  {
    CurrenciesAreSupportedCurrencies(o.preferredCurrency);
    if o.preferredCurrency in Currencies then Ok(o)
    else Err(ValueError("preferred_currency must be one of ('usd', 'cad', 'aud', 'gbp', 'eur', 'nzd')"))
  }
}
