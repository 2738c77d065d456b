/**
 * The records of the service: request and response bodies, the treaty-registry records
 * as parsed, the set of implementing countries, the configuration and the application
 * state with its two projections.
 */
module Models {
  import opened Wrappers

  newtype U16 = x: int | 0 <= x < 0x1_0000

  /** An IEEE-754 double, kept as its bit pattern; the model never computes with it. */
  datatype F64 = F64(bits: bv64)

  // ----- request and response bodies -----

  datatype NagoyaCheckDataCC = NagoyaCheckDataCC(probeCountry: string)

  datatype Coordinates = Coordinates(latitude: F64, longitude: F64)

  datatype NagoyaCheckDataGeo = NagoyaCheckDataGeo(coordinates: Coordinates)

  /** The answer of a compliance check: one boolean and nothing else. */
  datatype NagoyaResponse = NagoyaResponse(checkResult: bool)

  datatype GenericResponse = GenericResponse(message: string)

  /** The ways a compliance check can fail. */
  datatype NagoyaError = MalformedCountryCode | UnresolvableCoordinates

  // ----- treaty-registry records -----

  /** One treaty entry of a country: the date it became party, or none. */
  datatype Treaty = Treaty(partyDate: Option<string>)

  /** The treaties of a country that are kept: only the Nagoya Protocol entry. */
  datatype Treaties = Treaties(nagoya: Treaty)

  datatype NagoyaCountryInfo = NagoyaCountryInfo(code2: string, code3: string, treaties: Treaties)

  /** A failure to read the registry's answer. */
  datatype ParseError = ParseError(message: string)

  /** The registry's key of the Nagoya Protocol entry among a country's treaties. */
  const NAGOYA_TREATY_KEY: string := "XXVII8b"

  /**
   * Reads the `treaties` object of one registry record, given as a map from treaty key to
   * the value of that entry's `party` field (`None` for null or absent). Only the entry
   * under NAGOYA_TREATY_KEY is kept; the others are ignored; without it the record is
   * rejected.
   */
  function DecodeTreaties(raw: map<string, Option<string>>): (r: Result<Treaties, ParseError>)
    ensures r.Ok? <==> NAGOYA_TREATY_KEY in raw
    ensures r.Ok? ==> r.value.nagoya.partyDate == raw[NAGOYA_TREATY_KEY]
  {
    if NAGOYA_TREATY_KEY in raw then Ok(Treaties(Treaty(raw[NAGOYA_TREATY_KEY])))
    else Err(ParseError("missing field `XXVII8b`"))
  }

  /** Entries other than the Nagoya one have no influence on the decoded treaties. */
  lemma DecodeTreatiesOnlyNagoya(raw1: map<string, Option<string>>, raw2: map<string, Option<string>>)
    requires NAGOYA_TREATY_KEY in raw1 <==> NAGOYA_TREATY_KEY in raw2
    requires NAGOYA_TREATY_KEY in raw1 ==> raw1[NAGOYA_TREATY_KEY] == raw2[NAGOYA_TREATY_KEY]
    ensures DecodeTreaties(raw1).Ok? == DecodeTreaties(raw2).Ok?
    ensures DecodeTreaties(raw1).Ok? ==> DecodeTreaties(raw1) == DecodeTreaties(raw2)
  {
  }

  // ----- internal state -----

  /** The implementing countries: a set of codes, so only membership matters. */
  datatype ImplementingCountries = ImplementingCountries(countries: set<string>)

  datatype Config = Config(nominatimHost: string, serverHost: string, serverPort: U16)

  datatype AppState = AppState(implementingCountries: ImplementingCountries, config: Config)

  /** The `FromRef` projection that hands the implementing countries to a handler. */
  function ImplementingCountriesFromRef(appState: AppState): (r: ImplementingCountries)
    ensures r == appState.implementingCountries
  {
    appState.implementingCountries
  }

  /** The `FromRef` projection that hands the configuration to a handler. */
  function ConfigFromRef(appState: AppState): (r: Config)
    ensures r == appState.config
  {
    appState.config
  }

  /**
   * The two projections give back exactly what the state was built from, and each one is
   * unaffected by the other part of the state.
   */
  lemma FromRefProjections(ic: ImplementingCountries, config: Config, ic': ImplementingCountries, config': Config)
    ensures ImplementingCountriesFromRef(AppState(ic, config)) == ic
    ensures ConfigFromRef(AppState(ic, config)) == config
    ensures ImplementingCountriesFromRef(AppState(ic, config')) == ImplementingCountriesFromRef(AppState(ic, config))
    ensures ConfigFromRef(AppState(ic', config)) == ConfigFromRef(AppState(ic, config))
  {
  }
}
