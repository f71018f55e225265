/**
 * internal/adapters/primary/rest/weather_handler.go: GET /weather. The
 * handler reads the lat and lon query parameters, parses them, asks the
 * service, and turns the outcome into a JSON response. Writing to the
 * ResponseWriter is modelled as returning the response (every response is
 * sent with Content-Type application/json).
 */
module WeatherHandler {
  import opened Wrappers
  import opened Domain
  import WeatherService

  const StatusOK: int := 200
  const StatusBadRequest: int := 400
  const StatusInternalServerError: int := 500
  const StatusServiceUnavailable: int := 503

  /** The two JSON bodies: ErrorResponse and WeatherResponse. */
  datatype Body =
    | ErrorBody(error: string, message: string)
    | WeatherBody(latitude: real, longitude: real, forecast: string,
                  temperature: real, temperatureUnit: string, category: string)

  datatype Response = Response(status: int, body: Body)

  function MissingParameters(): Response {
    Response(StatusBadRequest, ErrorBody("MISSING_PARAMETERS", "Both 'lat' and 'lon' query parameters are required"))
  }

  function InternalError(): Response {
    Response(StatusInternalServerError, ErrorBody("INTERNAL_ERROR", "An unexpected error occurred"))
  }

  /**
   * The parameter checks of GetWeather. latText and lonText are what
   * Query().Get returns ("" when the parameter is absent); parseFloat stands
   * for strconv.ParseFloat(_, 64), None meaning a parse error.
   */
  function ParseCoordinates(latText: string, lonText: string, parseFloat: string -> Option<real>)
    : (r: Result<Coordinates, Response>)
    ensures latText == "" || lonText == "" ==> r == Failure(MissingParameters())
    ensures latText != "" && lonText != "" && parseFloat(latText).None? ==>
      r == Failure(Response(StatusBadRequest, ErrorBody("INVALID_LATITUDE", "Invalid latitude format")))
    ensures latText != "" && lonText != "" && parseFloat(latText).Some? && parseFloat(lonText).None? ==>
      r == Failure(Response(StatusBadRequest, ErrorBody("INVALID_LONGITUDE", "Invalid longitude format")))
    ensures r.Success? <==> latText != "" && lonText != "" && parseFloat(latText).Some? && parseFloat(lonText).Some?
    ensures r.Success? ==> r.value == Coordinates(parseFloat(latText).value, parseFloat(lonText).value)
    ensures r.Failure? ==> r.error.status == StatusBadRequest
  {
    if latText == "" || lonText == "" then Failure(MissingParameters())
    else match parseFloat(latText)
      case None => Failure(Response(StatusBadRequest, ErrorBody("INVALID_LATITUDE", "Invalid latitude format")))
      case Some(latitude) =>
        match parseFloat(lonText)
        case None => Failure(Response(StatusBadRequest, ErrorBody("INVALID_LONGITUDE", "Invalid longitude format")))
        case Some(longitude) => Success(Coordinates(latitude, longitude))
  }

  /**
   * handleServiceError: a WeatherError found by errors.As with code
   * INVALID_COORDINATES is a 400 with its own code and message, one with
   * FORECAST_RETRIEVAL_ERROR a 503 with a fixed message; everything else is a
   * 500 INTERNAL_ERROR.
   */
  function HandleServiceError(e: Error): (r: Response)
    ensures r.status in {StatusBadRequest, StatusServiceUnavailable, StatusInternalServerError}
    ensures r.body.ErrorBody?
    ensures r.status == StatusBadRequest <==>
      AsWeatherError(e).Some? && AsWeatherError(e).value.code == WeatherService.InvalidCoordinates
    ensures r.status == StatusBadRequest ==>
      r.body == ErrorBody(AsWeatherError(e).value.code, AsWeatherError(e).value.message)
    ensures r.status == StatusServiceUnavailable <==>
      AsWeatherError(e).Some? && AsWeatherError(e).value.code == WeatherService.ForecastRetrievalError
    ensures r.status == StatusServiceUnavailable ==>
      r.body == ErrorBody(WeatherService.ForecastRetrievalError, "Weather service is temporarily unavailable")
    ensures r.status == StatusInternalServerError ==> r == InternalError()
  {
    match AsWeatherError(e)
    case Some(w) =>
      if w.code == WeatherService.InvalidCoordinates then
        Response(StatusBadRequest, ErrorBody(w.code, w.message))
      else if w.code == WeatherService.ForecastRetrievalError then
        Response(StatusServiceUnavailable, ErrorBody(w.code, "Weather service is temporarily unavailable"))
      else InternalError()
    case None => InternalError()
  }

  /** The 200 response: the report's fields copied into a WeatherResponse. */
  function RenderWeather(w: Weather): (r: Response)
    ensures r.status == StatusOK && r.body.WeatherBody?
    ensures r.body.latitude == w.coordinates.latitude && r.body.longitude == w.coordinates.longitude
    ensures r.body.forecast == w.forecast && r.body.temperature == w.temperature.value
    ensures r.body.temperatureUnit == w.temperature.unit && r.body.category == w.category.Name()
  {
    Response(StatusOK, WeatherBody(w.coordinates.latitude, w.coordinates.longitude, w.forecast,
                                   w.temperature.value, w.temperature.unit, w.category.Name()))
  }

  /**
   * GetWeather: check the parameters, and only when they parse call the
   * service (the function service) and render its outcome.
   */
  function GetWeather(latText: string, lonText: string, parseFloat: string -> Option<real>,
                      service: Coordinates -> Result<Weather, Error>): (r: Response)
    ensures ParseCoordinates(latText, lonText, parseFloat).Failure? ==>
      r == ParseCoordinates(latText, lonText, parseFloat).error
    ensures ParseCoordinates(latText, lonText, parseFloat).Success? ==>
      var outcome := service(ParseCoordinates(latText, lonText, parseFloat).value);
      r == (if outcome.Success? then RenderWeather(outcome.value) else HandleServiceError(outcome.error))
    ensures r.status == StatusOK <==>
      ParseCoordinates(latText, lonText, parseFloat).Success?
      && service(ParseCoordinates(latText, lonText, parseFloat).value).Success?
  {
    match ParseCoordinates(latText, lonText, parseFloat)
    case Failure(response) => response
    case Success(coords) =>
      match service(coords)
      case Success(w) => RenderWeather(w)
      case Failure(e) => HandleServiceError(e)
  }

  /**
   * Handler and service together: parameters that parse to coordinates out
   * of range are answered with 400 INVALID_COORDINATES, whatever the cache
   * and the client would have said.
   */
  lemma OutOfRangeIsBadRequest(latText: string, lonText: string, parseFloat: string -> Option<real>,
                               cached: Option<Weather>, fetched: Result<WeatherService.WeatherData, Error>,
                               id: string, now: int)
    requires ParseCoordinates(latText, lonText, parseFloat).Success?
    requires Validate(ParseCoordinates(latText, lonText, parseFloat).value).Some?
    ensures GetWeather(latText, lonText, parseFloat, c => WeatherService.Outcome(c, cached, fetched, id, now))
         == Response(StatusBadRequest, ErrorBody("INVALID_COORDINATES", "The provided coordinates are invalid"))
  {
    var coords := ParseCoordinates(latText, lonText, parseFloat).value;
    var outcome := WeatherService.Outcome(coords, cached, fetched, id, now);
    assert AsWeatherError(outcome.error).value.code == WeatherService.InvalidCoordinates;
  }

  /**
   * Handler and service together: valid coordinates, a cache miss and a
   * failing client give 503 with the fixed message.
   */
  lemma ClientFailureIsServiceUnavailable(latText: string, lonText: string, parseFloat: string -> Option<real>,
                                          e: Error, id: string, now: int)
    requires ParseCoordinates(latText, lonText, parseFloat).Success?
    requires Validate(ParseCoordinates(latText, lonText, parseFloat).value).None?
    ensures GetWeather(latText, lonText, parseFloat, c => WeatherService.Outcome(c, None, Failure(e), id, now))
         == Response(StatusServiceUnavailable,
                     ErrorBody("FORECAST_RETRIEVAL_ERROR", "Weather service is temporarily unavailable"))
  {
    var coords := ParseCoordinates(latText, lonText, parseFloat).value;
    var outcome := WeatherService.Outcome(coords, None, Failure(e), id, now);
    assert AsWeatherError(outcome.error).value.code == WeatherService.ForecastRetrievalError;
  }

  /**
   * Handler and service together: a fresh report is answered with 200 and
   * the requested coordinates, the client's forecast and temperature, and
   * the category the service computed.
   */
  lemma FreshReportIsOk(latText: string, lonText: string, parseFloat: string -> Option<real>,
                        data: WeatherService.WeatherData, id: string, now: int)
    requires ParseCoordinates(latText, lonText, parseFloat).Success?
    requires Validate(ParseCoordinates(latText, lonText, parseFloat).value).None?
    ensures var r := GetWeather(latText, lonText, parseFloat,
                                c => WeatherService.Outcome(c, None, Success(data), id, now));
      && r.status == StatusOK
      && r.body == WeatherBody(parseFloat(latText).value, parseFloat(lonText).value, data.forecast,
                               data.temperature, data.unit,
                               WeatherService.CategorizeTemperature(Temperature(data.temperature, data.unit)).Name())
  {
  }
}
