/**
 * The HTTP handlers: each one runs a check and turns its outcome into a response, so they
 * fix how the error kinds reach a client.
 */
module Api {
  import opened Wrappers
  import opened Models
  import opened NagoyaCheck

  /** An HTTP status code. */
  newtype StatusCode = x: int | 100 <= x < 1000 witness 200

  const UNPROCESSABLE_ENTITY: StatusCode := 422
  const INTERNAL_SERVER_ERROR: StatusCode := 500
  const BAD_GATEWAY: StatusCode := 502

  /**
   * What a handler sends back: a 200 response with a JSON body, an error status, or
   * nothing at all, when the check panicked and the connection is dropped.
   */
  datatype Reply = Json(response: NagoyaResponse) | Status(code: StatusCode) | NoResponse

  /** The country-code handler's mapping of a check outcome onto a reply. */
  function CountryCodeReply(outcome: Checked<NagoyaResponse>): (r: Reply)
    ensures outcome.Returned? && outcome.result.Ok? <==> r.Json?
    ensures r.Json? ==> outcome == Returned(Ok(r.response))
    ensures outcome == Returned(Err(MalformedCountryCode)) <==> r == Status(UNPROCESSABLE_ENTITY)
    ensures outcome == Returned(Err(UnresolvableCoordinates)) <==> r == Status(INTERNAL_SERVER_ERROR)
    ensures outcome.Panicked? <==> r.NoResponse?
    ensures r != Status(BAD_GATEWAY)
  {
    match outcome
    case Returned(Ok(res)) => Json(res)
    case Returned(Err(MalformedCountryCode)) => Status(UNPROCESSABLE_ENTITY)
    case Returned(Err(_)) => Status(INTERNAL_SERVER_ERROR)
    case Panicked => NoResponse
  }

  /** The coordinate handler's mapping of a check outcome onto a reply. */
  function GeoReply(outcome: Checked<NagoyaResponse>): (r: Reply)
    ensures outcome.Returned? && outcome.result.Ok? <==> r.Json?
    ensures r.Json? ==> outcome == Returned(Ok(r.response))
    ensures outcome == Returned(Err(UnresolvableCoordinates)) <==> r == Status(BAD_GATEWAY)
    ensures outcome == Returned(Err(MalformedCountryCode)) <==> r == Status(INTERNAL_SERVER_ERROR)
    ensures outcome.Panicked? <==> r.NoResponse?
    ensures r != Status(UNPROCESSABLE_ENTITY)
  {
    match outcome
    case Returned(Ok(res)) => Json(res)
    case Returned(Err(UnresolvableCoordinates)) => Status(BAD_GATEWAY)
    case Returned(Err(_)) => Status(INTERNAL_SERVER_ERROR)
    case Panicked => NoResponse
  }

  /**
   * POST /nagoya_check_cc. A recognised code is answered with the membership of its
   * country, an unrecognised one of accepted length with 422, any other length with no
   * response; the 500 and 502 statuses never occur.
   */
  function NagoyaCheckCountryCode(state: AppState, table: IsoTable, payload: NagoyaCheckDataCC): (r: Reply)
    ensures var ic := ImplementingCountriesFromRef(state);
      var probe := payload.probeCountry;
      && (r.Json? <==> Recognised(table, probe))
      && (r.Json? ==> r.response.checkResult == Implementing(ic, table, probe))
      && (r == Status(UNPROCESSABLE_ENTITY) <==> HasCodeLength(probe) && !Recognised(table, probe))
      && (r.NoResponse? <==> !HasCodeLength(probe))
    ensures r != Status(INTERNAL_SERVER_ERROR) && r != Status(BAD_GATEWAY)
  {
    CountryCodeReply(NagoyaCheckCc(payload.probeCountry, ImplementingCountriesFromRef(state), table))
  }

  /**
   * POST /nagoya_check_geo. A geocoder failure is 502; a resolved code is answered as the
   * country-code check would answer it, except that an unrecognised code is 500, not 422.
   */
  function NagoyaCheckGeocoordinates(
    state: AppState,
    table: IsoTable,
    payload: NagoyaCheckDataGeo,
    resolve: (Config, Coordinates) -> Result<string, GeoError>
  ): (r: Reply)
    ensures var resolved := resolve(state.config, payload.coordinates);
      && (resolved.Err? ==> r == Status(BAD_GATEWAY))
      && (resolved.Ok? ==>
            var probe := resolved.value;
            && (r.Json? <==> Recognised(table, probe))
            && (r.Json? ==> r.response.checkResult == Implementing(state.implementingCountries, table, probe))
            && (r == Status(INTERNAL_SERVER_ERROR) <==> HasCodeLength(probe) && !Recognised(table, probe))
            && (r.NoResponse? <==> !HasCodeLength(probe)))
    ensures r != Status(UNPROCESSABLE_ENTITY)
  {
    GeoReply(NagoyaCheckGeo(payload.coordinates, state.implementingCountries, state.config, table, resolve))
  }

  /** GET /health: always the same message. */
  function HealthCheck(): (r: GenericResponse)
    ensures r.message == "NagoyaAPI is running"
  {
    GenericResponse("NagoyaAPI is running")
  }
}
