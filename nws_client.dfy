/**
 * internal/adapters/secondary/nws/client.go: the National Weather Service
 * client. GetForecast makes two requests, /points/{lat},{lon} for the
 * forecast URL and then that URL for the forecast, and turns the first
 * forecast period into WeatherData. The HTTP round trips and JSON decoding
 * are not modelled; each request is given as its observable result.
 */
module Nws {
  import opened Wrappers
  import opened Domain
  import Strconv
  import WeatherService

  const StatusOK: int := 200

  /** The decoded /points response: properties.forecast. */
  datatype PointsResponse = PointsResponse(forecast: string)

  datatype ForecastPeriod = ForecastPeriod(name: string, temperature: int, temperatureUnit: string,
                                           shortForecast: string)

  /** The decoded forecast response: properties.periods. */
  datatype ForecastResponse = ForecastResponse(periods: seq<ForecastPeriod>)

  /**
   * One request as the client sees it: either the request could not be
   * built or sent, or a status code came back together with what decoding
   * the body would give (decoding is only attempted on status 200).
   */
  datatype Exchange<T> = RequestFailed(err: Error) | Answered(status: int, decoded: Result<T, Error>)

  /** fmt.Errorf("NWS API returned status %d", status). */
  function StatusError(status: int): (e: Error)
    ensures e.Message? && |e.text| > 24 && e.text[..24] == "NWS API returned status "
    ensures e.text[24..] == Strconv.Itoa(status)
  {
    Message("NWS API returned status " + Strconv.Itoa(status))
  }

  /** getForecastURL after the request: status 200, a decodable body and a non-empty forecast URL. */
  function ForecastUrl(points: Exchange<PointsResponse>): (r: Result<string, Error>)
    ensures r.Success? <==>
      points.Answered? && points.status == StatusOK && points.decoded.Success?
      && points.decoded.value.forecast != ""
    ensures r.Success? ==> r.value == points.decoded.value.forecast
    ensures points.RequestFailed? ==> r == Failure(points.err)
    ensures points.Answered? && points.status != StatusOK ==> r == Failure(StatusError(points.status))
    ensures (points.Answered? && points.status == StatusOK && points.decoded.Success? &&
             points.decoded.value.forecast == "") ==> r == Failure(Message("no forecast URL in response"))
    ensures points.Answered? && points.status == StatusOK && points.decoded.Failure? ==>
      r == Failure(points.decoded.error)
  {
    match points
    case RequestFailed(e) => Failure(e)
    case Answered(status, decoded) =>
      if status != StatusOK then Failure(StatusError(status))
      else match decoded
        case Failure(e) => Failure(e)
        case Success(body) =>
          if body.forecast == "" then Failure(Message("no forecast URL in response"))
          else Success(body.forecast)
  }

  /** fetchForecast after the request: status 200 and a decodable body. */
  function FetchForecast(forecast: Exchange<ForecastResponse>): (r: Result<ForecastResponse, Error>)
    ensures r.Success? <==> forecast.Answered? && forecast.status == StatusOK && forecast.decoded.Success?
    ensures r.Success? ==> r.value == forecast.decoded.value
    ensures forecast.RequestFailed? ==> r == Failure(forecast.err)
    ensures forecast.Answered? && forecast.status != StatusOK ==> r == Failure(StatusError(forecast.status))
    ensures forecast.Answered? && forecast.status == StatusOK && forecast.decoded.Failure? ==>
      r == Failure(forecast.decoded.error)
  {
    match forecast
    case RequestFailed(e) => Failure(e)
    case Answered(status, decoded) =>
      if status != StatusOK then Failure(StatusError(status)) else decoded
  }

  /** A forecast period as WeatherData: unit "C" is Celsius and every other unit text is Fahrenheit. */
  function PeriodData(p: ForecastPeriod): (d: WeatherService.WeatherData)
    ensures d.unit in {Celsius, Fahrenheit}
    ensures d.unit == Celsius <==> p.temperatureUnit == "C"
    ensures d.temperature == p.temperature as real && d.forecast == p.shortForecast
  {
    var unit := if p.temperatureUnit == "C" then Celsius else Fahrenheit;
    WeatherService.WeatherData(p.temperature as real, unit, p.shortForecast)
  }

  /**
   * GetForecast. points is the /points exchange; forecastAt gives the
   * exchange with whatever forecast URL the first step produced.
   */
  function GetForecast(points: Exchange<PointsResponse>, forecastAt: string -> Exchange<ForecastResponse>)
    : (r: Result<WeatherService.WeatherData, Error>)
    ensures ForecastUrl(points).Failure? ==>
      r == Failure(Wrapped("failed to get forecast URL", ForecastUrl(points).error))
    ensures ForecastUrl(points).Success? && FetchForecast(forecastAt(ForecastUrl(points).value)).Failure? ==>
      r == Failure(Wrapped("failed to fetch forecast", FetchForecast(forecastAt(ForecastUrl(points).value)).error))
    ensures r.Success? <==>
      ForecastUrl(points).Success? && FetchForecast(forecastAt(ForecastUrl(points).value)).Success?
      && |FetchForecast(forecastAt(ForecastUrl(points).value)).value.periods| > 0
    ensures r.Success? ==>
      r.value == PeriodData(FetchForecast(forecastAt(ForecastUrl(points).value)).value.periods[0])
  {
    match ForecastUrl(points)
    case Failure(e) => Failure(Wrapped("failed to get forecast URL", e))
    case Success(url) =>
      match FetchForecast(forecastAt(url))
      case Failure(e) => Failure(Wrapped("failed to fetch forecast", e))
      case Success(response) =>
        if |response.periods| == 0 then Failure(Message("no forecast periods available"))
        else Success(PeriodData(response.periods[0]))
  }

  /** A forecast with no periods is an error even when both requests succeeded. */
  lemma NoPeriodsIsError(points: Exchange<PointsResponse>, forecastAt: string -> Exchange<ForecastResponse>)
    requires ForecastUrl(points).Success?
    requires forecastAt(ForecastUrl(points).value) == Answered(StatusOK, Success(ForecastResponse([])))
    ensures GetForecast(points, forecastAt) == Failure(Message("no forecast periods available"))
  {
  }

  /** Only the first period matters: the periods after it never change the result. */
  lemma LaterPeriodsIgnored(points: Exchange<PointsResponse>, first: ForecastPeriod,
                            rest1: seq<ForecastPeriod>, rest2: seq<ForecastPeriod>,
                            forecastAt1: string -> Exchange<ForecastResponse>,
                            forecastAt2: string -> Exchange<ForecastResponse>)
    requires ForecastUrl(points).Success?
    requires forecastAt1(ForecastUrl(points).value) == Answered(StatusOK, Success(ForecastResponse([first] + rest1)))
    requires forecastAt2(ForecastUrl(points).value) == Answered(StatusOK, Success(ForecastResponse([first] + rest2)))
    ensures GetForecast(points, forecastAt1) == GetForecast(points, forecastAt2) == Success(PeriodData(first))
  {
  }

  /**
   * The status error's text names the status in decimal, and the number can
   * be read back from it.
   */
  lemma StatusErrorNamesStatus(status: int, formatFloat: real -> string)
    requires Strconv.MinInt64 <= status <= Strconv.MaxInt64
    ensures var text := ErrorText(StatusError(status), formatFloat);
      |text| > 24 && text[..24] == "NWS API returned status "
      && Strconv.Atoi(text[24..]) == Some(status)
  {
    var text := ErrorText(StatusError(status), formatFloat);
    assert text[24..] == Strconv.Itoa(status);
    Strconv.AtoiItoa(status);
  }
}
