# weather-service in Dafny

A model of the core of `weather-service`, a Go HTTP service that answers
`GET /weather?lat=..&lon=..` with the National Weather Service forecast for a
point, classifies the temperature as hot, cold or moderate, caches reports for
five minutes and logs requests. The model covers:

- the domain types, coordinate validation and the error texts;
- the weather service: validate, look in the cache, ask the forecast client,
  build and categorise the report, cache and log it;
- the REST handler: parse `lat`/`lon`, call the service, map errors to 400,
  503 or 500;
- the NWS client's two-step request (`/points` then the forecast URL) and how
  it turns the first forecast period into weather data;
- configuration from the environment, with defaults;
- the client-IP rule the rate limiter keys on;
- the in-memory sliding-window rate limiter;
- the rate-limit middleware's decision;
- the circuit-breaker settings, the default trip policy and the breaker
  registry.

Code that changes state in place is written imperatively, as in the source:
- The rate limiter is a class whose `clients` map its methods update. Its
  filter pass is a loop proved against the function `Recent`.
- The breaker registry is a class over a map of breaker objects. `GetStats`
  is a loop over the names.
- The service is a class that calls a cache, a forecast client and a request
  log, each of which records its calls.

Everything else is functions over datatypes.

Go's library helpers that the core depends on are written out where their
behaviour matters to a property:
- `strconv.Atoi` and `strconv.Itoa` over 64-bit integers;
- `strconv.ParseBool` and `strconv.FormatBool`;
- `strings.TrimSpace` with `unicode.IsSpace`;
- the first field of `strings.Split`.

The other library helpers are parameters of the functions that use them:
- `strconv.ParseFloat`;
- `net.ParseIP` and `net.SplitHostPort`;
- the `%f` verb;
- `time.Duration.String`.

Times are integers in nanoseconds, and the clock and the UUID generator are
parameters. Floating-point temperatures and coordinates are reals.

## Model

| member | source | states |
|---|---|---|
| Domain.Category.Name | internal/core/domain/weather.go:39-48 | Hot is rendered "hot", Cold "cold" and Moderate "moderate", and each text belongs to that category only |
| Domain.CategoryNameInjective | internal/core/domain/weather.go:39-48 | distinct categories have distinct texts |
| Domain.Validate | internal/core/domain/weather.go:63-73 | no error iff latitude is in [-90, 90] and longitude in [-180, 180], bounds inclusive; the latitude error comes first and carries the latitude; the longitude error carries the longitude and only occurs with a valid latitude |
| Domain.ValidateExamples | internal/core/domain/weather.go:63-73 | 91° latitude and 181° longitude are rejected, the poles and the date line are accepted |
| Domain.ErrorText | internal/core/domain/weather.go:63-119 | a plain error's text is its message; a %w-wrapped error's text is its prefix, ": ", then the inner error's text; a WeatherError's text is WeatherErrorText |
| Domain.WeatherErrorText | internal/core/domain/weather.go:113-119 | without a cause the text is exactly "Code: Message"; with one it still starts with the code and ": " |
| Domain.WeatherErrorTextWithCause | internal/core/domain/weather.go:113-119 | with a cause, the text is the cause-free text, ": ", then the cause's text |
| Domain.WeatherErrorCodeRecoverable | internal/core/domain/weather.go:113-119 | a code without a colon is recovered from the text as everything before its first colon |
| Domain.AsWeatherError | internal/adapters/primary/rest/weather_handler.go:181-184 | errors.As finds a WeatherError at the top of the chain, and none in a plain or validation error |
| Domain.AsWeatherErrorThroughWrapping | internal/adapters/primary/rest/weather_handler.go:181-184 | a WeatherError wrapped with %w any number of times is still found, unchanged |
| Domain.AsWeatherErrorSkipsWrapping | internal/adapters/primary/rest/weather_handler.go:181-184 | %w wrapping never changes what errors.As finds, so a chain that holds no WeatherError yields none and the handler answers 500 |
| WeatherService.ToFahrenheit | internal/core/services/weather_service.go:249-253 | only unit "C" is converted, and the conversion is inverted by (F - 32)·5/9 |
| WeatherService.CategorizeTemperature | internal/core/services/weather_service.go:248-267 | cold iff below 50°F, hot iff above 85°F, moderate iff in [50, 85] °F |
| WeatherService.CelsiusThresholds | internal/core/services/weather_service.go:248-267 | in Celsius, cold iff below 10°C and hot iff above 265/9 °C |
| WeatherService.CategorizeMonotone | internal/core/services/weather_service.go:260-267 | a warmer reading in the same unit never gets a colder category |
| WeatherService.CategorizeExamples | internal/core/services/weather_service_test.go:234-256 | the unit tests' cases hold: 35°C hot, 5°C cold, 20°C moderate, and 50°F and 85°F moderate |
| WeatherService.FreshWeather | internal/core/services/weather_service.go:121-135 | a fresh report has the requested coordinates, the client's temperature, unit and forecast, the category of that temperature, the new id and the current time |
| WeatherService.Outcome | internal/core/services/weather_service.go:70-155 | invalid coordinates give INVALID_COORDINATES with the validation error as cause; otherwise a cached report is returned as is; otherwise a client failure gives FORECAST_RETRIEVAL_ERROR with that failure as cause, and client data gives a fresh report |
| WeatherService.OutcomeFailuresAreWeatherErrors | internal/core/services/weather_service.go:70-155 | every failure of the service is a WeatherError with one of its two codes |
| WeatherService.FreshOutcomeIsValid | internal/core/services/weather_service.go:121-135 | a report built by the service carries the requested, valid coordinates |
| WeatherService.RequestRecord | internal/core/services/weather_service.go:163-173 | the logged row carries the report's id, temperature, unit and forecast, the requested coordinates, the category's text, the response time and the cache-hit flag |
| WeatherService.Lookup | internal/core/services/weather_service.go:206-220 | a cached report is found iff its key is present, and it is the stored one |
| WeatherService.Cache.Get | internal/core/services/weather_service.go:206-220 | a lookup is recorded and returns the entry under the key |
| WeatherService.Cache.Set | internal/core/services/weather_service.go:231-239 | a write is recorded with its TTL; it stores the report unless the cache fails, and reports the failure |
| WeatherService.ForecastClient.GetForecast | internal/core/services/weather_service.go:105 | the client is asked once for the coordinates and answers with its fixed answer |
| WeatherService.Repository.LogWeatherRequest | internal/core/services/weather_service.go:175 | the row is appended unless the database fails, and the failure is reported |
| WeatherService.Service.constructor | internal/core/services/weather_service.go:50-58 | the service keeps the client, cache, optional database and key function it is given, with the 5-minute TTL |
| WeatherService.Service.LogRequest | internal/core/services/weather_service.go:158-179 | the row built from the coordinates and the report is logged, and a database failure is ignored |
| WeatherService.Service.GetWeather | internal/core/services/weather_service.go:70-155 | the result is Outcome of the cache entry and the client's answer; invalid coordinates consult nothing and change no cache entry; the cache is asked once; a hit never calls the client or writes; a miss calls the client once; a failure writes and logs nothing; a success is cached once with the 5-minute TTL; every success is logged once when a database is present |
| WeatherHandler.ParseCoordinates | internal/adapters/primary/rest/weather_handler.go:73-117 | a missing parameter is 400 MISSING_PARAMETERS; an unparsable latitude is 400 INVALID_LATITUDE, checked before the longitude's 400 INVALID_LONGITUDE; success iff both are present and parse, giving exactly the parsed values |
| WeatherHandler.HandleServiceError | internal/adapters/primary/rest/weather_handler.go:180-216 | 400 with the error's code and message iff errors.As finds INVALID_COORDINATES; 503 with the fixed message iff it finds FORECAST_RETRIEVAL_ERROR; 500 INTERNAL_ERROR otherwise |
| WeatherHandler.RenderWeather | internal/adapters/primary/rest/weather_handler.go:126-135 | 200 with the report's coordinates, forecast, temperature, unit and category name |
| WeatherHandler.GetWeather | internal/adapters/primary/rest/weather_handler.go:73-136 | the service is called only with parsed coordinates; status 200 iff parsing and the service both succeed; otherwise the parse error or the mapped service error is the answer |
| WeatherHandler.OutOfRangeIsBadRequest | internal/adapters/primary/rest/weather_handler.go:119-123 | handler and service together: coordinates out of range answer 400 INVALID_COORDINATES |
| WeatherHandler.ClientFailureIsServiceUnavailable | internal/adapters/primary/rest/weather_handler.go:119-123 | handler and service together: a cache miss with a failing client answers 503 |
| WeatherHandler.FreshReportIsOk | internal/adapters/primary/rest/weather_handler.go:119-135 | handler and service together: fresh data answers 200 with the requested coordinates and the computed category |
| Nws.StatusError | internal/adapters/secondary/nws/client.go:144-146 | the error for a non-200 answer is "NWS API returned status " followed by the status in decimal |
| Nws.ForecastUrl | internal/adapters/secondary/nws/client.go:124-159 | succeeds iff status 200, a decodable body and a non-empty forecast URL; otherwise the transport error, the status error, the JSON decode error unchanged, or the missing-URL error |
| Nws.FetchForecast | internal/adapters/secondary/nws/client.go:170-211 | succeeds iff status 200 and a decodable body; otherwise the transport error, the status error, or the JSON decode error unchanged |
| Nws.PeriodData | internal/adapters/secondary/nws/client.go:101-112 | unit "C" is Celsius and any other unit text Fahrenheit; temperature and short forecast are copied |
| Nws.GetForecast | internal/adapters/secondary/nws/client.go:84-113 | step errors are wrapped with "failed to get forecast URL" or "failed to fetch forecast"; success iff both steps succeed with at least one period, giving the first period's data |
| Nws.NoPeriodsIsError | internal/adapters/secondary/nws/client.go:97-99 | an empty period list is an error even when both requests succeed |
| Nws.LaterPeriodsIgnored | internal/adapters/secondary/nws/client.go:101 | only the first period decides the result |
| Nws.StatusErrorNamesStatus | internal/adapters/secondary/nws/client.go:144-146 | the status error's text names the status in decimal, and the number reads back from it |
| Strconv.Atoi | internal/config/config.go:167-175 | accepted iff the text is digits, optionally after one '+' or '-', and the value it denotes lies in the 64-bit range; the result is that value |
| Strconv.Itoa | internal/middleware/ratelimit.go:61-62 | the text is non-empty and starts with '-' exactly for negative numbers |
| Strconv.AtoiItoa | internal/config/config.go:167-175 | Atoi reads back every 64-bit integer that Itoa writes |
| Strconv.AtoiPlusAndLeadingZeros | internal/config/config.go:167-175 | a leading '+' and leading zeros are accepted and do not change the value read |
| Strconv.ItoaInjective | internal/middleware/ratelimit.go:61-62 | distinct 64-bit integers have distinct decimal texts |
| Strconv.ParseBool | internal/config/config.go:185-193 | accepted iff the text is one of "1", "t", "T", "TRUE", "true", "True", "0", "f", "F", "FALSE", "false", "False"; true iff it is one of the first six |
| Strconv.ParseBoolFormatBool | internal/config/config.go:185-193 | ParseBool reads back what FormatBool writes |
| Config.Getenv | internal/config/config.go:152 | a set variable reads as its value, and an unset one as "" |
| Config.GetEnv | internal/config/config.go:151-157 | a set, non-empty variable gives its value; an unset or empty one gives the default |
| Config.GetEnvAsInt | internal/config/config.go:167-175 | a decimal value is read as Atoi reads it; unset, empty or unparsable gives the default |
| Config.GetEnvAsBool | internal/config/config.go:185-193 | a boolean text is read as ParseBool reads it; unset, empty or unparsable gives the default |
| Config.EmptyIsUnset | internal/config/config.go:151-193 | for every helper, a variable set to "" reads exactly like an unset one |
| Config.GetEnvAsIntReadsDecimal | internal/config/config.go:167-175 | any 64-bit integer written in decimal is read back |
| Config.GetEnvAsBoolReadsFormatted | internal/config/config.go:185-193 | any boolean written by FormatBool is read back |
| Config.Load | internal/config/config.go:90-141 | both environment fields read the same variable, and every field not taken from the environment has its fixed value |
| Config.LoadDefaults | internal/config/config.go:90-141 | an empty environment gives every documented default: port 8080, metrics 9090, development; Redis on at localhost:6379, db 0, no password; database off at localhost:5432, user weather, no password, database weather_service, sslmode disable; version 1.0.0; OTLP at localhost:4317 and Jaeger at localhost; the NWS base URL; 100 requests per minute |
| Config.RateFromEnvironment | internal/config/config.go:136-139 | RATE_LIMIT_RPS set to a decimal number is the rate, and the window stays one minute |
| Strings.Before | internal/middleware/utils.go:16-19 | the first field holds no separator, is a prefix, and is followed by a separator when shorter than the text |
| Strings.BeforeFirstSeparator | internal/middleware/utils.go:16-19 | what follows the first separator never changes the first field |
| Strings.TrimSpace | internal/middleware/utils.go:19 | the result has no white space at either end |
| Strings.TrimSpaceExact | internal/middleware/utils.go:19 | white space around a trimmed text is removed exactly |
| Strings.TrimSpaceIdempotent | internal/middleware/utils.go:19 | trimming twice is trimming once |
| ClientIp.ForwardedCandidate | internal/middleware/utils.go:15-19 | the candidate from X-Forwarded-For holds no comma and has no white space at either end |
| ClientIp.GetClientIp | internal/middleware/utils.go:12-42 | the trimmed first X-Forwarded-For entry when the header is non-empty and the entry parses; else X-Real-IP when non-empty and parsing; else the host of the remote address, or the remote address itself when it does not split |
| ClientIp.ClientIpIsACandidate | internal/middleware/utils.go:12-42 | the identifier is always the trimmed first X-Forwarded-For entry, X-Real-IP, the remote address or its host part |
| ClientIp.LaterForwardedEntriesIgnored | internal/middleware/utils.go:16-19 | entries after the first comma never change the identifier |
| ClientIp.ForwardedAddressReturnedTrimmed | internal/middleware/utils.go:15-23 | a parsing first entry padded with white space is returned bare |
| ClientIp.UnsplittableRemoteAddress | internal/middleware/utils.go:35-39 | with no usable header, a remote address that does not split is returned unchanged |
| RateLimiter.Recent | internal/middleware/memory_rate_limiter.go:89-96 | the filtered list is no longer than the stored one and holds only timestamps strictly after the cutoff |
| RateLimiter.RecentCounts | internal/middleware/memory_rate_limiter.go:89-96 | the filter keeps each timestamp after the cutoff exactly as often as it occurs, and no other |
| RateLimiter.RecentMembers | internal/middleware/memory_rate_limiter.go:89-96 | a timestamp is kept iff it was stored and is strictly after the cutoff |
| RateLimiter.RecentConcat | internal/middleware/memory_rate_limiter.go:89-96 | the filter works piece by piece, so kept timestamps keep their relative order |
| RateLimiter.RecentLaterCutoff | internal/middleware/memory_rate_limiter.go:89-98 | filtering at one cutoff and then at a later one is filtering at the later one |
| RateLimiter.RecentIdempotent | internal/middleware/memory_rate_limiter.go:89-98 | filtering twice at the same cutoff changes nothing the second time |
| RateLimiter.RecentNoneAfter | internal/middleware/memory_rate_limiter.go:89-96 | when no timestamp is after the cutoff, nothing is kept |
| RateLimiter.RecentOfSortedIsSuffix | internal/middleware/memory_rate_limiter.go:89-98 | on a time-ordered list the kept requests are a suffix, and everything dropped is at or before the cutoff |
| RateLimiter.KeepAfter | internal/middleware/memory_rate_limiter.go:89-98 | the filter loop returns exactly the requests strictly after now - window, in order |
| RateLimiter.Admit | internal/middleware/memory_rate_limiter.go:89-105 | granted iff fewer than limit filtered requests remain; a grant ends the list with now and leaves at most limit entries; a refusal leaves at least limit and no more than were stored; every entry is in the window or is the granted now |
| RateLimiter.AdmitDecision | internal/middleware/memory_rate_limiter.go:89-105 | granted iff fewer than limit stored requests are in the window; a grant appends now and leaves at most limit entries; a refusal leaves the filtered list; a non-positive limit never grants |
| RateLimiter.AdmitKeepsOnlyWindow | internal/middleware/memory_rate_limiter.go:89-105 | with a positive window, the list afterwards holds only requests in the window, each stored before or equal to now |
| RateLimiter.SlidingWindow | internal/middleware/memory_rate_limiter.go:89-105 | the stored list is always all granted requests filtered at the latest cutoff, so the grants inside any granted request's window never exceed the limit |
| RateLimiter.MakeRequests | internal/middleware/memory_rate_limiter.go:74-77 | the allocation panics exactly when the limit is negative or its 24-byte elements exceed the 2^48-byte allocation ceiling, and otherwise gives a new client an empty list |
| RateLimiter.Stored | internal/middleware/memory_rate_limiter.go:70-80 | a known client's list is the one stored for it; an unseen client starts from the empty list |
| RateLimiter.OutOfRangeLimitPanics | internal/middleware/memory_rate_limiter.go:74-77 | as written, the first request of a new client panics under a negative limit, where a refusal was due, and under a limit of 10^14, where a grant was due |
| RateLimiter.MemoryRateLimiter.constructor | internal/middleware/memory_rate_limiter.go:33-42 | a new limiter knows no client |
| RateLimiter.MemoryRateLimiter.Allow | internal/middleware/memory_rate_limiter.go:55-106 | a done context is refused with its error and the table untouched; otherwise the client's entry becomes Admit's list, an unseen client being registered, and no other entry changes |
| RateLimiter.MemoryRateLimiter.Reset | internal/middleware/memory_rate_limiter.go:116-134 | a done context returns its error with the table untouched; a known client's list is emptied; an unknown identifier is not registered |
| RateLimiter.MemoryRateLimiter.Cleanup | internal/middleware/memory_rate_limiter.go:143-155 | one sweep deletes exactly the clients with an empty list and keeps every other list unchanged |
| RateLimitMiddleware.LimiterQuery | internal/middleware/ratelimit.go:39-42 | the limiter is asked about GetClientIP's identifier with the configured limit and window unchanged |
| RateLimitMiddleware.RateLimitHeaders | internal/middleware/ratelimit.go:72-73 | exactly the two headers, the limit in decimal and the window as Duration.String writes it |
| RateLimitMiddleware.Decide | internal/middleware/ratelimit.go:44-75 | a limiter error passes the request on with no header set; a refusal is 429 with the JSON content type, both rate-limit headers and the fixed body, and the next handler is not run; a grant passes the request on with both headers |
| RateLimitMiddleware.Handle | internal/middleware/ratelimit.go:39-75 | each request is decided on the limiter's answer to its own query |
| RateLimitMiddleware.LimitHeaderReadsBack | internal/middleware/ratelimit.go:61-62 | the X-RateLimit-Limit header of every non-error answer reads back as the configured limit |
| RateLimitMiddleware.SameForwardedClientSameQuery | internal/middleware/ratelimit.go:41-42 | requests with the same first X-Forwarded-For entry are counted against the same client |
| CircuitBreaker.State.Name | internal/infrastructure/circuitbreaker/breaker.go:192 | Closed is "closed", HalfOpen "half-open" and Open "open", and each text belongs to that state only |
| CircuitBreaker.StateNameInjective | internal/infrastructure/circuitbreaker/breaker.go:192 | distinct states have distinct texts |
| CircuitBreaker.RatioReadyToTrip | internal/infrastructure/circuitbreaker/breaker.go:66-72 | the source's ratio rule trips iff there are at least 3 requests and twice the failures reach the requests |
| CircuitBreaker.DefaultReadyToTrip | internal/infrastructure/circuitbreaker/breaker.go:66-72 | the division-free default policy agrees with the ratio rule on every count, and never trips below 3 requests |
| CircuitBreaker.StateChangeEffects | internal/infrastructure/circuitbreaker/breaker.go:54-63 | a state change is logged first, then the user's callback, when present, runs exactly once with the same name and states |
| CircuitBreaker.NewSettings | internal/infrastructure/circuitbreaker/breaker.go:48-72 | name, maxRequests, interval and timeout pass unchanged; a supplied trip predicate is kept, and otherwise the failure-ratio default is used; the user callback is chained |
| CircuitBreaker.GoBreaker.constructor | internal/infrastructure/circuitbreaker/breaker.go:75 | the inner breaker is built from the computed settings |
| CircuitBreaker.CircuitBreakerWrapper.constructor | internal/infrastructure/circuitbreaker/breaker.go:47-79 | the wrapper is named after the config and owns a fresh breaker with NewSettings of it |
| CircuitBreaker.CircuitBreakerWrapper.State | internal/infrastructure/circuitbreaker/breaker.go:130-133 | the wrapper reports the inner breaker's current state |
| CircuitBreaker.CircuitBreakerWrapper.Counts | internal/infrastructure/circuitbreaker/breaker.go:138-141 | the wrapper reports the inner breaker's current counts |
| CircuitBreaker.Snapshot | internal/infrastructure/circuitbreaker/breaker.go:190-198 | a stats entry copies the state's text and the five counters |
| CircuitBreaker.Manager.constructor | internal/infrastructure/circuitbreaker/breaker.go:155-160 | a new registry is empty |
| CircuitBreaker.Manager.GetBreaker | internal/infrastructure/circuitbreaker/breaker.go:170-180 | a registered name returns its breaker and ignores the config; a new name registers a fresh breaker built from the config renamed to the key; no other entry changes, and every entry stays named after its key |
| CircuitBreaker.Manager.GetStats | internal/infrastructure/circuitbreaker/breaker.go:186-202 | exactly one entry per registered name, each the snapshot of that breaker |

## Left out

- The breaker state machine of github.com/sony/gobreaker is not part of this model. It covers the Closed, Open and HalfOpen states, the counters, the timeouts and half-open probing. `GoBreaker` only holds a state and counts, which the model reads and never changes.
- `CircuitBreakerWrapper.Execute` and its tracing and logging (breaker.go:90-124) only forward to gobreaker, so they are left out.
- Logging, tracing and metrics are left out throughout, because they do not change any result.
- The Redis and in-memory cache adapters, the Redis rate limiter and the Postgres repository are not part of this model. The service sees the cache, the client and the request log through recording stand-ins.
- The JSON encoding of cache entries is not modelled. A cache entry is the decoded report, and a miss, an expired entry and an undecodable entry all look alike.
- `generateCacheKey` (weather_service.go:188-195) is the parameter `keyOf`. Its `%.2f` rounding and MD5 hash are not modelled, so two nearby points that share a key are not modelled either.
- A cache hit returns the stored report, and the model does not relate that report's coordinates to the requested ones.
- Concurrency is not modelled. This covers the limiter's `RWMutex` and per-client `Mutex`, the double-checked registration in `Allow`, the `cleanup` ticker goroutine and the unsynchronised breaker map. Methods run one at a time.
- `Cleanup` is one sweep of the loop in `cleanup`. The five-minute ticker is not modelled.
- In the rate limiter, each client's `clientInfo` pointer is folded into the map's value. With one call at a time nothing can observe the sharing.
- Floating point is not modelled. Coordinates, temperatures and the trip ratio are reals, so NaN, infinities and rounding are absent. In the source a NaN coordinate makes both comparisons of Validate (weather.go:64-70) false, so it passes validation and reaches the NWS client; the model cannot represent that input. In the default trip predicate the float64 division cannot cross one half at these magnitudes.
- The `%f` verb in validation messages is the parameter `formatFloat`, and `time.Duration.String` is the parameter `formatDuration`.
- `strconv.ParseFloat` (`parseFloat`), `net.ParseIP` (`parseIp`) and `net.SplitHostPort` (`splitHost`) are left abstract as parameters.
- The clock (`time.Now`, `time.Since`) and `uuid.New` are parameters (`now`, `elapsedMs`, `id`).
- The HTTP transport is not modelled. This covers building the `/points/%.4f,%.4f` URL, the User-Agent header, the 10-second default timeout of `fetchForecast` and JSON decoding. Each NWS request is given as its observable result.
- Writing a response is not modelled. A response is a returned value, and a failed write (only logged by the source) is not represented.
- Strconv.Atoi: the range and syntax errors of `strconv.Atoi` are both a plain None; their error values are not modelled.
- RateLimiter.MemoryRateLimiter.Allow: it models the corrected behaviour for a limit the allocation at line 76 cannot take: a negative limit refuses and a very large one grants. The panic of the code as written is modelled by RateLimiter.MakeRequests (see Findings).
- RateLimiter.MakeRequests / RateLimiter.MemoryRateLimiter.Allow: the allocation ceiling is that of linux/amd64 (other platforms differ), and a capacity under the ceiling that the machine still cannot allocate ends in a fatal out-of-memory error, which is not modelled.

## Findings

| source | as written | input that shows it | evidently intended | confidence | as-written member | corrected member |
|---|---|---|---|---|---|---|
| internal/middleware/memory_rate_limiter.go:76 | a new client's list is made with `make([]time.Time, 0, limit)`, which panics at run time when the capacity is negative or its bytes exceed the allocation ceiling; the panic happens while `rl.mu` is write-locked (line 72) and the unlock at line 82 is not deferred; the router has no recovery middleware, so net/http's per-connection recovery aborts that request's connection and the process keeps running, but `rl.mu` stays locked for good: every later Allow blocks at line 65, Reset at line 124 and the cleanup sweep at line 143, so every rate-limited route hangs | `RATE_LIMIT_RPS=-1`, or `RATE_LIMIT_RPS=100000000000000`, with `REDIS_ENABLED=false` or Redis unreachable at start-up (so the in-memory limiter is used), then any request from a client not yet seen | a negative limit refuses every request, as a zero limit does (the `len >= limit` check already gives that), and a very large limit grants | medium; not executed | RateLimiter.OutOfRangeLimitPanics | RateLimiter.MemoryRateLimiter.Allow |
