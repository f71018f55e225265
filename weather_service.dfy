/**
 * internal/core/services/weather_service.go: the weather use case. GetWeather
 * validates the coordinates, answers from the cache when it can, and
 * otherwise asks the forecast client, classifies the temperature, stores the
 * result in the cache and logs the request to the database. Cache, client
 * and database are the service's collaborators; here they are small classes
 * whose answers are fixed by their fields and which record every call.
 */
module WeatherService {
  import opened Wrappers
  import opened Domain

  const ColdThreshold: real := 50.0
  const HotThreshold: real := 85.0

  /** Time is counted in nanoseconds, as Go's time.Duration is. */
  const Minute: int := 60_000_000_000

  /** How long a result stays in the cache. */
  const CacheTtl: int := 5 * Minute

  const InvalidCoordinates: string := "INVALID_COORDINATES"
  const ForecastRetrievalError: string := "FORECAST_RETRIEVAL_ERROR"

  /** ports.WeatherData: what a forecast client returns. */
  datatype WeatherData = WeatherData(temperature: real, unit: string, forecast: string)

  /** The temperature in degrees Fahrenheit; only the unit "C" is converted. */
  function ToFahrenheit(t: Temperature): (f: real)
    ensures t.unit != Celsius ==> f == t.value
    ensures t.unit == Celsius ==> (f - 32.0) * 5.0 / 9.0 == t.value
  {
    if t.unit == Celsius then t.value * 9.0 / 5.0 + 32.0 else t.value
  }

  /** categorizeTemperature: cold below 50°F, hot above 85°F, moderate from 50°F to 85°F inclusive. */
  function CategorizeTemperature(t: Temperature): (c: Category)
    ensures c == Cold <==> ToFahrenheit(t) < ColdThreshold
    ensures c == Hot <==> ToFahrenheit(t) > HotThreshold
    ensures c == Moderate <==> ColdThreshold <= ToFahrenheit(t) <= HotThreshold
  {
    var fahrenheit := ToFahrenheit(t);
    if fahrenheit < ColdThreshold then Cold
    else if fahrenheit > HotThreshold then Hot
    else Moderate
  }

  /** The thresholds in Celsius: cold below 10°C, hot above 265/9°C (about 29.4°C). */
  lemma CelsiusThresholds(v: real)
    ensures CategorizeTemperature(Temperature(v, Celsius)) == Cold <==> v < 10.0
    ensures CategorizeTemperature(Temperature(v, Celsius)) == Hot <==> v > 265.0 / 9.0
  {
  }

  function Rank(c: Category): nat {
    match c
    case Cold => 0
    case Moderate => 1
    case Hot => 2
  }

  /** A warmer reading in the same unit never lands in a colder category. */
  lemma CategorizeMonotone(a: real, b: real, unit: string)
    requires a <= b
    ensures Rank(CategorizeTemperature(Temperature(a, unit))) <= Rank(CategorizeTemperature(Temperature(b, unit)))
  {
  }

  /** The cases of the unit tests for categorizeTemperature. */
  lemma CategorizeExamples()
    ensures CategorizeTemperature(Temperature(45.0, Fahrenheit)) == Cold
    ensures CategorizeTemperature(Temperature(90.0, Fahrenheit)) == Hot
    ensures CategorizeTemperature(Temperature(70.0, Fahrenheit)) == Moderate
    ensures CategorizeTemperature(Temperature(5.0, Celsius)) == Cold
    ensures CategorizeTemperature(Temperature(35.0, Celsius)) == Hot
    ensures CategorizeTemperature(Temperature(20.0, Celsius)) == Moderate
    ensures CategorizeTemperature(Temperature(50.0, Fahrenheit)) == Moderate
    ensures CategorizeTemperature(Temperature(85.0, Fahrenheit)) == Moderate
  {
  }

  /** The report built from fresh client data. */
  function FreshWeather(coords: Coordinates, data: WeatherData, id: string, now: int): (w: Weather)
    ensures w.coordinates == coords && w.forecast == data.forecast
    ensures w.temperature.value == data.temperature && w.temperature.unit == data.unit
    ensures w.category == CategorizeTemperature(w.temperature)
    ensures w.id == id && w.fetchedAt == now
  {
    var temperature := Temperature(data.temperature, data.unit);
    Weather(id, coords, temperature, data.forecast, CategorizeTemperature(temperature), now)
  }

  /**
   * What GetWeather returns, given what the cache holds for the coordinates'
   * key and what the client would answer: validation first, then the cache,
   * then the client. Every failure is a WeatherError and carries no weather.
   */
  function Outcome(coords: Coordinates, cached: Option<Weather>, fetched: Result<WeatherData, Error>,
                   id: string, now: int): (r: Result<Weather, Error>)
    ensures Validate(coords).Some? ==>
      r == Failure(WeatherFailure(WeatherError(InvalidCoordinates, "The provided coordinates are invalid",
                                       Some(OutOfRange(Validate(coords).value)))))
    ensures Validate(coords).None? && cached.Some? ==> r == Success(cached.value)
    ensures Validate(coords).None? && cached.None? && fetched.Failure? ==>
      r == Failure(WeatherFailure(WeatherError(ForecastRetrievalError, "Failed to retrieve weather forecast",
                                       Some(fetched.error))))
    ensures Validate(coords).None? && cached.None? && fetched.Success? ==>
      r == Success(FreshWeather(coords, fetched.value, id, now))
  {
    match Validate(coords)
    case Some(invalid) =>
      Failure(WeatherFailure(WeatherError(InvalidCoordinates, "The provided coordinates are invalid",
                                  Some(OutOfRange(invalid)))))
    case None =>
      match cached
      case Some(w) => Success(w)
      case None =>
        match fetched
        case Failure(e) =>
          Failure(WeatherFailure(WeatherError(ForecastRetrievalError, "Failed to retrieve weather forecast", Some(e))))
        case Success(data) => Success(FreshWeather(coords, data, id, now))
  }

  /** Every failure the service reports is found by errors.As as a WeatherError with one of its two codes. */
  lemma OutcomeFailuresAreWeatherErrors(coords: Coordinates, cached: Option<Weather>,
                                        fetched: Result<WeatherData, Error>, id: string, now: int)
    ensures var r := Outcome(coords, cached, fetched, id, now);
      r.Failure? ==> (AsWeatherError(r.error).Some? &&
                      AsWeatherError(r.error).value.code in {InvalidCoordinates, ForecastRetrievalError})
  {
  }

  /** A report the service builds itself always carries coordinates that pass validation. */
  lemma FreshOutcomeIsValid(coords: Coordinates, fetched: Result<WeatherData, Error>, id: string, now: int)
    ensures var r := Outcome(coords, None, fetched, id, now);
      r.Success? ==> Validate(r.value.coordinates).None? && r.value.coordinates == coords
  {
  }

  /** One row of the request log (ports.WeatherRequest). */
  datatype WeatherRequest = WeatherRequest(
    requestId: string,
    latitude: real,
    longitude: real,
    temperature: real,
    temperatureUnit: string,
    forecast: string,
    category: string,
    responseTimeMs: int,
    cacheHit: bool)

  /** logWeatherRequest's record: the requested coordinates with the returned report's data. */
  function RequestRecord(coords: Coordinates, w: Weather, elapsedMs: int, cacheHit: bool): (r: WeatherRequest)
    ensures r.requestId == w.id && r.latitude == coords.latitude && r.longitude == coords.longitude
    ensures r.temperature == w.temperature.value && r.temperatureUnit == w.temperature.unit
    ensures r.forecast == w.forecast && r.responseTimeMs == elapsedMs && r.cacheHit == cacheHit
    ensures r.category in {"hot", "cold", "moderate"} && r.category == w.category.Name()
  {
    WeatherRequest(w.id, coords.latitude, coords.longitude, w.temperature.value, w.temperature.unit,
                   w.forecast, w.category.Name(), elapsedMs, cacheHit)
  }

  /** A write the service made to the cache: key, value and time to live. */
  datatype CacheWrite = CacheWrite(key: string, weather: Weather, ttl: int)

  /**
   * The cache as the service sees it. entries is what a Get followed by
   * JSON decoding yields for each key (a missing key stands for a miss, an
   * expired entry or undecodable bytes); setFails makes every Set fail.
   */
  class Cache {
    var entries: map<string, Weather>
    const setFails: bool
    var lookups: seq<string>
    var writes: seq<CacheWrite>

    constructor (entries: map<string, Weather>, setFails: bool)
      ensures this.entries == entries && this.setFails == setFails
      ensures lookups == [] && writes == []
    {
      this.entries := entries;
      this.setFails := setFails;
      lookups := [];
      writes := [];
    }

    method Get(key: string) returns (r: Option<Weather>)
      modifies this`lookups
      ensures lookups == old(lookups) + [key]
      ensures r == Lookup(entries, key)
    {
      lookups := lookups + [key];
      r := if key in entries then Some(entries[key]) else None;
    }

    method Set(key: string, w: Weather, ttl: int) returns (err: Option<Error>)
      modifies this`entries, this`writes
      ensures writes == old(writes) + [CacheWrite(key, w, ttl)]
      ensures err.Some? <==> setFails
      ensures entries == if setFails then old(entries) else old(entries)[key := w]
    {
      writes := writes + [CacheWrite(key, w, ttl)];
      if setFails {
        err := Some(Message("cache unavailable"));
      } else {
        entries := entries[key := w];
        err := None;
      }
    }
  }

  function Lookup(entries: map<string, Weather>, key: string): (r: Option<Weather>)
    ensures r.Some? <==> key in entries
    ensures r.Some? ==> r.value == entries[key]
  {
    if key in entries then Some(entries[key]) else None
  }

  /** A forecast client whose answer for each coordinate pair is fixed; it records every call. */
  class ForecastClient {
    const answer: Coordinates -> Result<WeatherData, Error>
    var calls: seq<Coordinates>

    constructor (answer: Coordinates -> Result<WeatherData, Error>)
      ensures this.answer == answer && calls == []
    {
      this.answer := answer;
      calls := [];
    }

    method GetForecast(coords: Coordinates) returns (r: Result<WeatherData, Error>)
      modifies this`calls
      ensures calls == old(calls) + [coords]
      ensures r == answer(coords)
    {
      calls := calls + [coords];
      r := answer(coords);
    }
  }

  /** The request log; a failing repository keeps nothing. */
  class Repository {
    const fails: bool
    var logged: seq<WeatherRequest>

    constructor (fails: bool)
      ensures this.fails == fails && logged == []
    {
      this.fails := fails;
      logged := [];
    }

    method LogWeatherRequest(req: WeatherRequest) returns (err: Option<Error>)
      modifies this`logged
      ensures err.Some? <==> fails
      ensures logged == if fails then old(logged) else old(logged) + [req]
    {
      if fails {
        err := Some(Message("database unavailable"));
      } else {
        logged := logged + [req];
        err := None;
      }
    }
  }

  class Service {
    const client: ForecastClient
    const cache: Cache
    /** The database is optional: null when request logging is disabled. */
    const db: Repository?
    /** generateCacheKey: formats both coordinates with two decimals and hashes the text with MD5. */
    const keyOf: Coordinates -> string
    const cacheTtl: int := CacheTtl

    constructor (client: ForecastClient, cache: Cache, db: Repository?, keyOf: Coordinates -> string)
      ensures this.client == client && this.cache == cache && this.db == db && this.keyOf == keyOf
    {
      this.client := client;
      this.cache := cache;
      this.db := db;
      this.keyOf := keyOf;
    }

    /** logWeatherRequest: a database failure is ignored. */
    method LogRequest(coords: Coordinates, w: Weather, elapsedMs: int, cacheHit: bool)
      requires db != null
      modifies db
      ensures db.logged == if db.fails then old(db.logged)
                           else old(db.logged) + [RequestRecord(coords, w, elapsedMs, cacheHit)]
    {
      var _ := db.LogWeatherRequest(RequestRecord(coords, w, elapsedMs, cacheHit));
    }

    /**
     * GetWeather. id is the fresh UUID, now the wall-clock time stamped on a
     * fresh report and elapsedMs the response time written to the request log.
     */
    method GetWeather(coords: Coordinates, id: string, now: int, elapsedMs: int)
      returns (r: Result<Weather, Error>)
      modifies cache, client, db
      ensures r == Outcome(coords, Lookup(old(cache.entries), keyOf(coords)), client.answer(coords), id, now)
      // invalid coordinates: nothing is consulted
      ensures Validate(coords).Some? ==>
        && cache.entries == old(cache.entries)
        && cache.lookups == old(cache.lookups) && cache.writes == old(cache.writes)
        && client.calls == old(client.calls)
        && (db != null ==> db.logged == old(db.logged))
      // valid coordinates: the cache is asked exactly once, under the coordinates' key
      ensures Validate(coords).None? ==> cache.lookups == old(cache.lookups) + [keyOf(coords)]
      // a cache hit never reaches the client and writes nothing back
      ensures Validate(coords).None? && keyOf(coords) in old(cache.entries) ==>
        && client.calls == old(client.calls)
        && cache.writes == old(cache.writes) && cache.entries == old(cache.entries)
      // a miss asks the client exactly once, for these coordinates
      ensures Validate(coords).None? && keyOf(coords) !in old(cache.entries) ==>
        client.calls == old(client.calls) + [coords]
      // a client failure writes nothing to the cache and logs nothing
      ensures Validate(coords).None? && keyOf(coords) !in old(cache.entries) && r.Failure? ==>
        && cache.writes == old(cache.writes) && cache.entries == old(cache.entries)
        && (db != null ==> db.logged == old(db.logged))
      // a fresh report is offered to the cache once with the five-minute TTL
      ensures Validate(coords).None? && keyOf(coords) !in old(cache.entries) && r.Success? ==>
        && cache.writes == old(cache.writes) + [CacheWrite(keyOf(coords), r.value, CacheTtl)]
        && cache.entries == (if cache.setFails then old(cache.entries)
                             else old(cache.entries)[keyOf(coords) := r.value])
      // every success is logged once when the database is present and working
      ensures r.Success? && db != null ==>
        db.logged == (if db.fails then old(db.logged)
                      else old(db.logged)
                           + [RequestRecord(coords, r.value, elapsedMs, keyOf(coords) in old(cache.entries))])
    {
      if Validate(coords).Some? {
        r := Failure(WeatherFailure(WeatherError(InvalidCoordinates, "The provided coordinates are invalid",
                                         Some(OutOfRange(Validate(coords).value)))));
        return;
      }
      var key := keyOf(coords);
      var cached := cache.Get(key);
      if cached.Some? {
        if db != null {
          LogRequest(coords, cached.value, elapsedMs, true);
        }
        r := Success(cached.value);
        return;
      }
      var fetched := client.GetForecast(coords);
      if fetched.Failure? {
        r := Failure(WeatherFailure(WeatherError(ForecastRetrievalError, "Failed to retrieve weather forecast",
                                         Some(fetched.error))));
        return;
      }
      var weather := FreshWeather(coords, fetched.value, id, now);
      var _ := cache.Set(key, weather, cacheTtl);
      if db != null {
        LogRequest(coords, weather, elapsedMs, false);
      }
      r := Success(weather);
    }
  }
}
