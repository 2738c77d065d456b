/**
 * The compliance decision: is a probe's country of origin among the countries that
 * implement the Nagoya Protocol? A probe is given either as an ISO 3166-1 alpha-2 or
 * alpha-3 code, or as coordinates that a reverse geocoder turns into a code.
 */
module NagoyaCheck {
  import opened Wrappers
  import opened Text
  import opened Models

  /** One row of the ISO 3166-1 table. */
  datatype CountryEntry = CountryEntry(alpha2: string, alpha3: string)

  /** The ISO 3166-1 table, looked up by upper-case alpha-2 or alpha-3 code. */
  datatype IsoTable = IsoTable(byAlpha2: map<string, CountryEntry>, byAlpha3: map<string, CountryEntry>)
  {
    function FromAlpha2(code: string): Option<CountryEntry>
    {
      if code in byAlpha2 then Some(byAlpha2[code]) else None
    }

    function FromAlpha3(code: string): Option<CountryEntry>
    {
      if code in byAlpha3 then Some(byAlpha3[code]) else None
    }
  }

  /** The failure of the reverse geocoder, whatever its cause. */
  datatype GeoError = GeoError(reason: string)

  /**
   * How a check ends: it returns a result, or it panics, in which case no value reaches
   * the caller at all.
   */
  datatype Checked<+T> = Returned(result: Result<T, NagoyaError>) | Panicked

  /** The probe has one of the two lengths, in bytes, that the check accepts. */
  predicate HasCodeLength(probe: string)
  {
    ByteLen(probe) == 2 || ByteLen(probe) == 3
  }

  /** The table entry a probe designates: by alpha-3 for three bytes, by alpha-2 for two. */
  function Designated(table: IsoTable, probe: string): Option<CountryEntry>
  {
    if ByteLen(probe) == 3 then table.FromAlpha3(ToUpper(probe))
    else if ByteLen(probe) == 2 then table.FromAlpha2(ToUpper(probe))
    else None
  }

  /** The probe has an accepted length and names a row of the table. */
  predicate Recognised(table: IsoTable, probe: string)
  {
    Designated(table, probe).Some?
  }

  /**
   * The upper-cased alpha-3 code of the probe's country: looked up as alpha-3 when the
   * probe has three bytes, through the alpha-2 table when it has two; an unknown code is
   * MalformedCountryCode and any other length panics.
   */
  function ProbeCountryCode3(table: IsoTable, probe: string): (r: Checked<string>)
    ensures r.Panicked? <==> !HasCodeLength(probe)
    ensures r.Returned? && r.result.Err? ==> r.result.error == MalformedCountryCode
    ensures r.Returned? ==> (r.result.Ok? <==> Recognised(table, probe))
    ensures r.Returned? && r.result.Ok? ==> r.result.value == Designated(table, probe).value.alpha3
  {
    if ByteLen(probe) == 3 then
      match table.FromAlpha3(ToUpper(probe))
      case Some(entry) => Returned(Ok(entry.alpha3))
      case None => Returned(Err(MalformedCountryCode))
    else if ByteLen(probe) == 2 then
      match table.FromAlpha2(ToUpper(probe))
      case Some(entry) => Returned(Ok(entry.alpha3))
      case None => Returned(Err(MalformedCountryCode))
    else
      Panicked
  }

  /** The probe's country is among the implementing countries. */
  predicate Implementing(ic: ImplementingCountries, table: IsoTable, probe: string)
    requires Recognised(table, probe)
  {
    ToUpper(Designated(table, probe).value.alpha3) in ic.countries
  }

  /**
   * Whether the probe's country implements the Protocol. A recognised probe gives Ok with
   * the answer, absence from the set being Ok(false) rather than an error; an unrecognised
   * one of accepted length gives MalformedCountryCode; any other length panics.
   */
  function IsProbeInImplementingCountry(ic: ImplementingCountries, table: IsoTable, probe: string): (r: Checked<bool>)
    ensures r.Panicked? <==> !HasCodeLength(probe)
    ensures r == Returned(Err(MalformedCountryCode)) <==> HasCodeLength(probe) && !Recognised(table, probe)
    ensures r != Returned(Err(UnresolvableCoordinates))
    ensures r.Returned? && r.result.Ok? <==> Recognised(table, probe)
    ensures Recognised(table, probe) ==> r == Returned(Ok(Implementing(ic, table, probe)))
  {
    match ProbeCountryCode3(table, probe)
    case Panicked => Panicked
    case Returned(Err(e)) => Returned(Err(e))
    case Returned(Ok(code3)) => Returned(Ok(ToUpper(code3) in ic.countries))
  }

  /**
   * The country-code check: the boolean of IsProbeInImplementingCountry goes unchanged
   * into the response, and its error or panic passes through unchanged.
   */
  function NagoyaCheckCc(probeCountry: string, ic: ImplementingCountries, table: IsoTable): (r: Checked<NagoyaResponse>)
    ensures var c := IsProbeInImplementingCountry(ic, table, probeCountry);
      && (r.Panicked? <==> c.Panicked?)
      && (c.Returned? && c.result.Ok? ==> r == Returned(Ok(NagoyaResponse(c.result.value))))
      && (c.Returned? && c.result.Err? ==> r == Returned(Err(c.result.error)))
  {
    match IsProbeInImplementingCountry(ic, table, probeCountry)
    case Panicked => Panicked
    case Returned(Ok(b)) => Returned(Ok(NagoyaResponse(b)))
    case Returned(Err(e)) => Returned(Err(e))
  }

  /**
   * The coordinate check: the geocoder turns the coordinates into a country code, which is
   * then checked as in NagoyaCheckCc. Any geocoder failure is UnresolvableCoordinates,
   * decided without looking at the implementing countries.
   */
  function NagoyaCheckGeo(
    coordinates: Coordinates,
    ic: ImplementingCountries,
    config: Config,
    table: IsoTable,
    resolve: (Config, Coordinates) -> Result<string, GeoError>
  ): (r: Checked<NagoyaResponse>)
    ensures resolve(config, coordinates).Err? ==> r == Returned(Err(UnresolvableCoordinates))
    ensures resolve(config, coordinates).Ok? ==> r == NagoyaCheckCc(resolve(config, coordinates).value, ic, table)
  {
    match resolve(config, coordinates)
    case Err(_) => Returned(Err(UnresolvableCoordinates))
    case Ok(code) => NagoyaCheckCc(code, ic, table)
  }

  // ----- properties of the check -----

  /** A probe of any length other than two or three bytes never yields a value. */
  lemma WrongLengthPanics(ic: ImplementingCountries, table: IsoTable)
    ensures IsProbeInImplementingCountry(ic, table, "") == Panicked
    ensures IsProbeInImplementingCountry(ic, table, "D") == Panicked
    ensures IsProbeInImplementingCountry(ic, table, "DEUT") == Panicked
  {
  }

  /** "XYZ" is not an alpha-3 code, so it is MalformedCountryCode whatever the set holds. */
  lemma MalformedProbe(ic: ImplementingCountries, table: IsoTable)
    requires "XYZ" !in table.byAlpha3
    ensures IsProbeInImplementingCountry(ic, table, "XYZ") == Returned(Err(MalformedCountryCode))
  {
    assert ByteLen("XYZ") == 3;
    assert ToUpper("XYZ") == "XYZ";
  }

  /** The unit-test scenario: "DEU" against four sets of implementing countries. */
  lemma ProbeInImplementingCountry(table: IsoTable)
    requires "DEU" in table.byAlpha3 && table.byAlpha3["DEU"].alpha3 == "DEU"
    ensures IsProbeInImplementingCountry(ImplementingCountries({"DEU", "AUS"}), table, "DEU") == Returned(Ok(true))
    ensures IsProbeInImplementingCountry(ImplementingCountries({"DEU"}), table, "DEU") == Returned(Ok(true))
    ensures IsProbeInImplementingCountry(ImplementingCountries({"AFG"}), table, "DEU") == Returned(Ok(false))
    ensures IsProbeInImplementingCountry(ImplementingCountries({}), table, "DEU") == Returned(Ok(false))
  {
    assert ByteLen("DEU") == 3;
    assert ToUpper("DEU") == "DEU";
  }

  /** A recognised code missing from the set (the empty set included) is Ok(false), never an error. */
  lemma AbsentIsFalse(ic: ImplementingCountries, table: IsoTable, probe: string)
    requires Recognised(table, probe)
    requires ToUpper(Designated(table, probe).value.alpha3) !in ic.countries
    ensures IsProbeInImplementingCountry(ic, table, probe) == Returned(Ok(false))
  {
  }

  /** Upper- and lower-case spellings of a probe give the same outcome. */
  lemma CaseInsensitive(ic: ImplementingCountries, table: IsoTable, p: string, q: string)
    requires SameIgnoringCase(p, q)
    ensures IsProbeInImplementingCountry(ic, table, p) == IsProbeInImplementingCountry(ic, table, q)
  {
    SameIgnoringCaseUpper(p, q);
  }

  /**
   * The length is taken before upper-casing, and 'ſ' (long s) takes two bytes: "ſe" goes to
   * the alpha-3 lookup and is rejected, while "se" is the alpha-2 code of Sweden.
   */
  lemma CaseInsensitivityBreaks(ic: ImplementingCountries, table: IsoTable)
    requires "SE" in table.byAlpha2 && table.byAlpha2["SE"].alpha3 == "SWE"
    requires "ſE" !in table.byAlpha3
    ensures IsProbeInImplementingCountry(ic, table, "ſe") == Returned(Err(MalformedCountryCode))
    ensures IsProbeInImplementingCountry(ic, table, "se") == Returned(Ok("SWE" in ic.countries))
  {
    assert ByteLen("ſe") == 3;
    assert ToUpper("e") == "E";
    assert ToUpper("ſe") == "ſE";
    assert ByteLen("se") == 2;
    assert ToUpper("se") == "SE";
    ToUpperOfUpper("SWE");
  }

  /**
   * An alpha-2 probe and an alpha-3 probe whose table rows carry the same alpha-3 code
   * give the same outcome.
   */
  lemma Alpha2Alpha3Agree(ic: ImplementingCountries, table: IsoTable, p2: string, p3: string)
    requires ByteLen(p2) == 2 && ByteLen(p3) == 3
    requires ToUpper(p2) in table.byAlpha2 && ToUpper(p3) in table.byAlpha3
    requires table.byAlpha2[ToUpper(p2)].alpha3 == table.byAlpha3[ToUpper(p3)].alpha3
    ensures IsProbeInImplementingCountry(ic, table, p2) == IsProbeInImplementingCountry(ic, table, p3)
    ensures IsProbeInImplementingCountry(ic, table, p2).Returned?
  {
  }

  /**
   * The set is consulted only for the one code the probe resolves to: two sets that agree
   * on that code give the same outcome, and a probe that does not resolve ignores the set.
   */
  lemma OnlyResolvedCodeMatters(ic1: ImplementingCountries, ic2: ImplementingCountries, table: IsoTable, probe: string)
    requires Recognised(table, probe) ==>
      (ToUpper(Designated(table, probe).value.alpha3) in ic1.countries <==>
       ToUpper(Designated(table, probe).value.alpha3) in ic2.countries)
    ensures IsProbeInImplementingCountry(ic1, table, probe) == IsProbeInImplementingCountry(ic2, table, probe)
  {
  }

  /** Adding countries to the set never turns a positive answer into a negative one. */
  lemma MonotoneInSet(ic1: ImplementingCountries, ic2: ImplementingCountries, table: IsoTable, probe: string)
    requires ic1.countries <= ic2.countries
    requires IsProbeInImplementingCountry(ic1, table, probe) == Returned(Ok(true))
    ensures IsProbeInImplementingCountry(ic2, table, probe) == Returned(Ok(true))
  {
  }

  /**
   * Every alpha-3 code in the table is already upper case, as in the ISO 3166-1 list.
   */
  ghost predicate UpperCaseTable(table: IsoTable)
  {
    && (forall k :: k in table.byAlpha2 ==> IsUpperCase(table.byAlpha2[k].alpha3))
    && (forall k :: k in table.byAlpha3 ==> IsUpperCase(table.byAlpha3[k].alpha3))
  }

  /**
   * With an upper-case table, the upper-casing of the looked-up alpha-3 code before the
   * membership test changes nothing: the code is tested exactly as the table holds it.
   */
  lemma SecondUpperCaseIsNoOp(ic: ImplementingCountries, table: IsoTable, probe: string)
    requires UpperCaseTable(table)
    requires Recognised(table, probe)
    ensures Implementing(ic, table, probe) <==> Designated(table, probe).value.alpha3 in ic.countries
  {
    ToUpperOfUpper(Designated(table, probe).value.alpha3);
  }

  /**
   * Upper-casing turns 'ß' into "SS", so "ß" (two bytes) is looked up as the alpha-2 code
   * "SS" and "ßd" (three bytes) as the alpha-3 code "SSD": both name South Sudan.
   */
  lemma SharpSProbes(ic: ImplementingCountries, table: IsoTable)
    requires "SS" in table.byAlpha2 && table.byAlpha2["SS"].alpha3 == "SSD"
    requires "SSD" in table.byAlpha3 && table.byAlpha3["SSD"].alpha3 == "SSD"
    ensures IsProbeInImplementingCountry(ic, table, "ß") == Returned(Ok("SSD" in ic.countries))
    ensures IsProbeInImplementingCountry(ic, table, "ßd") == Returned(Ok("SSD" in ic.countries))
  {
    assert ByteLen("ß") == 2;
    assert ToUpper("ß") == "SS";
    assert ByteLen("ßd") == 3;
    assert ToUpper("d") == "D";
    assert ToUpper("ßd") == "SSD";
    ToUpperOfUpper("SSD");
  }

  /** A geocoder failure yields UnresolvableCoordinates, the same for every set of countries. */
  lemma GeoFailureIgnoresSet(
    coordinates: Coordinates,
    ic1: ImplementingCountries,
    ic2: ImplementingCountries,
    config: Config,
    table: IsoTable,
    resolve: (Config, Coordinates) -> Result<string, GeoError>
  )
    requires resolve(config, coordinates).Err?
    ensures NagoyaCheckGeo(coordinates, ic1, config, table, resolve) == Returned(Err(UnresolvableCoordinates))
    ensures NagoyaCheckGeo(coordinates, ic1, config, table, resolve) == NagoyaCheckGeo(coordinates, ic2, config, table, resolve)
  {
  }
}
