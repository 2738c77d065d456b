/**
 * The reference set: from the treaty registry's records, the alpha-3 codes of the
 * countries that are party to the Nagoya Protocol.
 */
module ExternalData {
  import opened Wrappers
  import opened Models

  /** The record's Nagoya Protocol entry carries a party date. */
  predicate IsParty(country: NagoyaCountryInfo)
  {
    country.treaties.nagoya.partyDate.Some?
  }

  /** The `filter` step: the party records. */
  function FilterParties(records: seq<NagoyaCountryInfo>): (r: seq<NagoyaCountryInfo>)
    ensures |r| <= |records|
    ensures forall x :: x in r <==> x in records && IsParty(x)
  {
    if records == [] then []
    else if IsParty(records[0]) then [records[0]] + FilterParties(records[1..])
    else FilterParties(records[1..])
  }

  /** The `map` step: each record's `code3`, copied verbatim. */
  function Code3s(records: seq<NagoyaCountryInfo>): (r: seq<string>)
    ensures |r| == |records|
    ensures forall i :: 0 <= i < |records| ==> r[i] == records[i].code3
  {
    if records == [] then [] else [records[0].code3] + Code3s(records[1..])
  }

  /** The `collect` into a hash set: the elements of `codes`, duplicates merged. */
  function Collect(codes: seq<string>): (r: set<string>)
    ensures forall c :: c in r <==> c in codes
    ensures |r| <= |codes|
  {
    if codes == [] then {}
    else
      var rest := Collect(codes[1..]);
      assert forall c :: c in codes <==> c == codes[0] || c in codes[1..];
      {codes[0]} + rest
  }

  /** Some record of `records` has code `c` and is party to the Protocol. */
  ghost predicate HasPartyWithCode(records: seq<NagoyaCountryInfo>, c: string)
  {
    exists x :: x in records && IsParty(x) && x.code3 == c
  }

  /** filter, map and collect: the codes of the party records. */
  function ImplementingCodes(records: seq<NagoyaCountryInfo>): (r: set<string>)
    ensures forall c :: c in r <==> HasPartyWithCode(records, c)
    ensures |r| <= |FilterParties(records)|
  {
    var parties := FilterParties(records);
    var codes := Code3s(parties);
    forall c | c in Collect(codes)
      ensures HasPartyWithCode(records, c)
    {
      var i :| 0 <= i < |codes| && codes[i] == c;
      assert parties[i] in parties;
    }
    forall c | HasPartyWithCode(records, c)
      ensures c in Collect(codes)
    {
      var x :| x in records && IsParty(x) && x.code3 == c;
      var i :| 0 <= i < |parties| && parties[i] == x;
      assert codes[i] == c;
    }
    Collect(codes)
  }

  /**
   * The implementing countries from the parsed registry records. A failure to parse the
   * registry's answer is passed on and no set is produced.
   */
  function GetImplementingCountries(parsed: Result<seq<NagoyaCountryInfo>, ParseError>): (r: Result<ImplementingCountries, ParseError>)
    ensures parsed.Err? ==> r == Err(parsed.error)
    ensures parsed.Ok? ==> r.Ok? && forall c :: c in r.value.countries <==> HasPartyWithCode(parsed.value, c)
  {
    match parsed
    case Err(e) => Err(e)
    case Ok(records) => Ok(ImplementingCountries(ImplementingCodes(records)))
  }

  // ----- properties of the extraction -----

  /** No records, no implementing countries. */
  lemma EmptyRegistry()
    ensures GetImplementingCountries(Ok([])) == Ok(ImplementingCountries({}))
  {
  }

  /** A record without a Nagoya party date leaves the set as it was. */
  lemma NonPartyContributesNothing(records: seq<NagoyaCountryInfo>, x: NagoyaCountryInfo)
    requires !IsParty(x)
    ensures ImplementingCodes(records + [x]) == ImplementingCodes(records)
    ensures ImplementingCodes([x] + records) == ImplementingCodes(records)
  {
  }

  /**
   * A party record whose code is already present adds nothing: duplicate codes merge into
   * one element.
   */
  lemma DuplicateCodesCollapse(records: seq<NagoyaCountryInfo>, x: NagoyaCountryInfo)
    requires IsParty(x) && x.code3 in ImplementingCodes(records)
    ensures ImplementingCodes(records + [x]) == ImplementingCodes(records)
  {
  }

  /**
   * The result depends on which records occur, not on their order or repetition, as a
   * hash set's iteration order is unspecified.
   */
  lemma OrderIrrelevant(records1: seq<NagoyaCountryInfo>, records2: seq<NagoyaCountryInfo>)
    requires forall x :: x in records1 <==> x in records2
    ensures ImplementingCodes(records1) == ImplementingCodes(records2)
  {
  }

  /**
   * The registry's record for Andorra, whose treaty entries other than the Nagoya one also
   * carry dates or nulls: only the Nagoya entry is kept, and the record contributes its
   * code exactly as written. A lower-case code would stay lower case.
   */
  lemma AndorraRecord()
    ensures var raw := map[
        "XXVII8" := Some("2015-05-05"), "XXVII8a" := None,
        "XXVII8b" := Some("2025-10-12"), "XXVII8c" := None];
      DecodeTreaties(raw) == Ok(Treaties(Treaty(Some("2025-10-12"))))
    ensures ImplementingCodes([NagoyaCountryInfo("AD", "AND", Treaties(Treaty(Some("2025-10-12"))))]) == {"AND"}
    ensures ImplementingCodes([NagoyaCountryInfo("ad", "and", Treaties(Treaty(Some("2025-10-12"))))]) == {"and"}
  {
  }
}
