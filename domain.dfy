/**
 * The domain entities of internal/core/domain/weather.go: coordinates and
 * their validation, temperatures and categories, the Weather report, and the
 * error values that flow between the layers (WeatherError and the plain Go
 * errors it may wrap).
 */
module Domain {
  import opened Wrappers
  import Strings

  /** A geographic position in degrees. */
  datatype Coordinates = Coordinates(latitude: real, longitude: real)

  /** TemperatureUnit is a string type in the source; these are its two named values. */
  const Celsius: string := "C"
  const Fahrenheit: string := "F"

  datatype Temperature = Temperature(value: real, unit: string)

  datatype Category = Hot | Cold | Moderate {
    /** The string value of the TemperatureCategory constant. */
    function Name(): (s: string)
      ensures this == Hot <==> s == "hot"
      ensures this == Cold <==> s == "cold"
      ensures this == Moderate <==> s == "moderate"
    {
      match this
      case Hot => "hot"
      case Cold => "cold"
      case Moderate => "moderate"
    }
  }

  /** Distinct categories have distinct names, so the name identifies the category. */
  lemma CategoryNameInjective(a: Category, b: Category)
    requires a.Name() == b.Name()
    ensures a == b
  {
  }

  /**
   * A weather report. The identifier is the textual form of a random UUID
   * and fetchedAt a wall-clock reading in nanoseconds; both are supplied by
   * the caller of the service.
   */
  datatype Weather = Weather(
    id: string,
    coordinates: Coordinates,
    temperature: Temperature,
    forecast: string,
    category: Category,
    fetchedAt: int)

  /** Which bound Validate found violated, with the offending value. */
  datatype CoordinateError = LatitudeOutOfRange(got: real) | LongitudeOutOfRange(got: real)

  /**
   * Go error values as far as the service distinguishes them: a plain message
   * (errors.New, or fmt.Errorf without %w), an error wrapped by fmt.Errorf
   * with a "prefix: %w" format, a *WeatherError, or the error that
   * Coordinates.Validate builds.
   */
  datatype Error =
    | Message(text: string)
    | Wrapped(prefix: string, inner: Error)
    | WeatherFailure(weatherError: WeatherError)
    | OutOfRange(coordinateError: CoordinateError)

  datatype WeatherError = WeatherError(code: string, message: string, cause: Option<Error>)

  /**
   * Coordinates.Validate: latitude must lie in [-90, 90] and longitude in
   * [-180, 180], both bounds inclusive; latitude is checked first.
   */
  function Validate(c: Coordinates): (r: Option<CoordinateError>)
    ensures r.None? <==> -90.0 <= c.latitude <= 90.0 && -180.0 <= c.longitude <= 180.0
    ensures r.Some? && r.value.LatitudeOutOfRange? ==> r.value.got == c.latitude && !(-90.0 <= c.latitude <= 90.0)
    ensures r.Some? && r.value.LongitudeOutOfRange? ==> r.value.got == c.longitude && -90.0 <= c.latitude <= 90.0
    ensures !(-90.0 <= c.latitude <= 90.0) ==> r == Some(LatitudeOutOfRange(c.latitude))
  {
    if c.latitude < -90.0 || c.latitude > 90.0 then Some(LatitudeOutOfRange(c.latitude))
    else if c.longitude < -180.0 || c.longitude > 180.0 then Some(LongitudeOutOfRange(c.longitude))
    else None
  }

  /** The cases the service tests use: latitude 91 and longitude 181 are rejected, the poles and the date line are not. */
  lemma ValidateExamples()
    ensures Validate(Coordinates(91.0, 0.0)) == Some(LatitudeOutOfRange(91.0))
    ensures Validate(Coordinates(0.0, 181.0)) == Some(LongitudeOutOfRange(181.0))
    ensures Validate(Coordinates(-90.0, 180.0)).None? && Validate(Coordinates(90.0, -180.0)).None?
  {
  }

  /**
   * The text of an error (Go's Error() method). formatFloat stands for the
   * %f verb, which Validate's messages use and which this model leaves abstract.
   */
  function ErrorText(e: Error, formatFloat: real -> string): (s: string)
    ensures e.Message? ==> s == e.text
    ensures e.Wrapped? ==>
      |s| >= |e.prefix| + 2 && s[..|e.prefix| + 2] == e.prefix + ": "
      && s[|e.prefix| + 2..] == ErrorText(e.inner, formatFloat)
    ensures e.WeatherFailure? ==> s == WeatherErrorText(e.weatherError, formatFloat)
    decreases e, 1
  {
    match e
    case Message(text) => text
    case Wrapped(prefix, inner) => prefix + ": " + ErrorText(inner, formatFloat)
    case WeatherFailure(w) => WeatherErrorText(w, formatFloat)
    case OutOfRange(LatitudeOutOfRange(got)) =>
      "latitude must be between -90 and 90, got " + formatFloat(got)
    case OutOfRange(LongitudeOutOfRange(got)) =>
      "longitude must be between -180 and 180, got " + formatFloat(got)
  }

  /** WeatherError.Error: "Code: Message", followed by ": cause" when there is a cause. */
  function WeatherErrorText(w: WeatherError, formatFloat: real -> string): (s: string)
    ensures |s| >= |w.code| + 2 && s[..|w.code| + 2] == w.code + ": "
    ensures w.cause.None? ==> s == w.code + ": " + w.message
    decreases w, 0
  {
    match w.cause
    case Some(cause) => w.code + ": " + w.message + ": " + ErrorText(cause, formatFloat)
    case None => w.code + ": " + w.message
  }

  /** With a cause, the text is the cause-free text, a colon, and the cause's own text. */
  lemma WeatherErrorTextWithCause(w: WeatherError, cause: Error, formatFloat: real -> string)
    requires w.cause == Some(cause)
    ensures WeatherErrorText(w, formatFloat)
         == WeatherErrorText(w.(cause := None), formatFloat) + ": " + ErrorText(cause, formatFloat)
  {
  }

  /** When the code holds no colon, it is recovered from the text as everything before the first colon. */
  lemma WeatherErrorCodeRecoverable(w: WeatherError, formatFloat: real -> string)
    requires ':' !in w.code
    ensures Strings.Before(WeatherErrorText(w, formatFloat), ':') == w.code
  {
    var s := WeatherErrorText(w, formatFloat);
    var rest := s[|w.code| + 1..];
    assert s == w.code + [':'] + rest;
    Strings.BeforeFirstSeparator(w.code, ':', rest);
  }

  /**
   * errors.As(err, &target) for a *WeatherError target: the first WeatherError
   * on the %w chain. WeatherError has no Unwrap method, so its own Cause is
   * never searched.
   */
  function AsWeatherError(e: Error): (r: Option<WeatherError>)
    ensures e.WeatherFailure? ==> r == Some(e.weatherError)
    ensures e.Message? || e.OutOfRange? ==> r.None?
  {
    match e
    case WeatherFailure(w) => Some(w)
    case Wrapped(_, inner) => AsWeatherError(inner)
    case _ => None
  }

  /** Wrapping with %w, any number of times, keeps the WeatherError findable. */
  lemma {:induction false} AsWeatherErrorThroughWrapping(prefixes: seq<string>, w: WeatherError)
    ensures AsWeatherError(WrapAll(prefixes, WeatherFailure(w))) == Some(w)
  {
    if prefixes != [] {
      AsWeatherErrorThroughWrapping(prefixes[1..], w);
    }
  }

  /**
   * errors.As looks through %w wrapping and nothing else: a wrapped error
   * answers exactly as the error inside it, so a chain without a
   * WeatherError yields none.
   */
  lemma {:induction false} AsWeatherErrorSkipsWrapping(prefixes: seq<string>, e: Error)
    ensures AsWeatherError(WrapAll(prefixes, e)) == AsWeatherError(e)
  {
    if prefixes != [] {
      AsWeatherErrorSkipsWrapping(prefixes[1..], e);
    }
  }

  /** fmt.Errorf("p: %w", ...) applied once for each prefix, the first prefix outermost. */
  function WrapAll(prefixes: seq<string>, e: Error): Error {
    if prefixes == [] then e else Wrapped(prefixes[0], WrapAll(prefixes[1..], e))
  }
}
