/**
 * internal/config/config.go: configuration read from the environment with
 * defaults. The process environment is a map from variable names to values;
 * durations are nanoseconds, as Go's time.Duration is.
 */
module Config {
  import opened Wrappers
  import Strconv

  type Env = map<string, string>

  const Second: int := 1_000_000_000
  const Minute: int := 60 * Second

  /** os.Getenv: the value, or "" when the variable is unset. */
  function Getenv(env: Env, key: string): (value: string)
    ensures value != "" ==> key in env && env[key] == value
    ensures key !in env ==> value == ""
    ensures key in env ==> value == env[key]
  {
    if key in env then env[key] else ""
  }

  /** getEnv: the variable's value when it is non-empty, else the default. */
  function GetEnv(env: Env, key: string, defaultValue: string): (r: string)
    ensures key in env && env[key] != "" ==> r == env[key]
    ensures key !in env || env[key] == "" ==> r == defaultValue
  {
    var value := Getenv(env, key);
    if value != "" then value else defaultValue
  }

  /** getEnvAsInt: the variable read by strconv.Atoi, else the default. */
  function GetEnvAsInt(env: Env, key: string, defaultValue: int): (r: int)
    ensures key !in env || env[key] == "" ==> r == defaultValue
    ensures key in env && Strconv.Atoi(env[key]).Some? ==> r == Strconv.Atoi(env[key]).value
    ensures key in env && Strconv.Atoi(env[key]).None? ==> r == defaultValue
  {
    var value := Getenv(env, key);
    if value != "" then
      match Strconv.Atoi(value)
      case Some(n) => n
      case None => defaultValue
    else defaultValue
  }

  /** getEnvAsBool: the variable read by strconv.ParseBool, else the default. */
  function GetEnvAsBool(env: Env, key: string, defaultValue: bool): (r: bool)
    ensures key !in env || env[key] == "" ==> r == defaultValue
    ensures key in env && Strconv.ParseBool(env[key]).Some? ==> r == Strconv.ParseBool(env[key]).value
    ensures key in env && Strconv.ParseBool(env[key]).None? ==> r == defaultValue
  {
    var value := Getenv(env, key);
    if value != "" then
      match Strconv.ParseBool(value)
      case Some(b) => b
      case None => defaultValue
    else defaultValue
  }

  /** A variable set to the empty string reads exactly like an unset one, for every helper. */
  lemma EmptyIsUnset(env: Env, key: string, s: string, n: int, b: bool)
    ensures GetEnv(env[key := ""], key, s) == GetEnv(env - {key}, key, s) == s
    ensures GetEnvAsInt(env[key := ""], key, n) == GetEnvAsInt(env - {key}, key, n) == n
    ensures GetEnvAsBool(env[key := ""], key, b) == GetEnvAsBool(env - {key}, key, b) == b
  {
  }

  /** Any 64-bit integer written in decimal into a variable is read back by getEnvAsInt. */
  lemma GetEnvAsIntReadsDecimal(env: Env, key: string, n: int, defaultValue: int)
    requires Strconv.MinInt64 <= n <= Strconv.MaxInt64
    ensures GetEnvAsInt(env[key := Strconv.Itoa(n)], key, defaultValue) == n
  {
    Strconv.AtoiItoa(n);
  }

  /** A boolean written by strconv.FormatBool is read back by getEnvAsBool. */
  lemma GetEnvAsBoolReadsFormatted(env: Env, key: string, b: bool, defaultValue: bool)
    ensures GetEnvAsBool(env[key := Strconv.FormatBool(b)], key, defaultValue) == b
  {
    Strconv.ParseBoolFormatBool(b);
  }

  datatype ServerConfig = ServerConfig(
    port: string, metricsPort: string, environment: string,
    readTimeout: int, writeTimeout: int, idleTimeout: int)

  datatype RedisConfig = RedisConfig(
    enabled: bool, addr: string, password: string, db: int,
    poolSize: int, minIdleConns: int, maxRetries: int,
    dialTimeout: int, readTimeout: int, writeTimeout: int)

  datatype DatabaseConfig = DatabaseConfig(
    enabled: bool, host: string, port: int, user: string, password: string,
    database: string, sslMode: string,
    maxConnections: int, maxIdleConnections: int, connectionMaxLifetime: int)

  datatype ObservabilityConfig = ObservabilityConfig(
    serviceName: string, serviceVersion: string, environment: string,
    otlpEndpoint: string, sampleRate: real, jaegerHost: string)

  datatype ExternalConfig = ExternalConfig(nwsBaseUrl: string, httpTimeout: int)

  datatype RateLimitConfig = RateLimitConfig(rps: int, window: int)

  datatype Config = Config(
    server: ServerConfig,
    redis: RedisConfig,
    database: DatabaseConfig,
    observability: ObservabilityConfig,
    external: ExternalConfig,
    rateLimit: RateLimitConfig)

  /**
   * Load. Both environment fields read the same ENVIRONMENT variable, and the
   * fields not read from the environment are the same constants whatever
   * the environment holds.
   */
  function Load(env: Env): (c: Config)
    ensures c.server.environment == c.observability.environment
    ensures c.server.readTimeout == 15 * Second && c.server.writeTimeout == 15 * Second
    ensures c.server.idleTimeout == 60 * Second
    ensures c.redis.poolSize == 10 && c.redis.minIdleConns == 5 && c.redis.maxRetries == 3
    ensures c.redis.dialTimeout == 5 * Second && c.redis.readTimeout == 3 * Second
    ensures c.redis.writeTimeout == 3 * Second
    ensures c.database.maxConnections == 25 && c.database.maxIdleConnections == 5
    ensures c.database.connectionMaxLifetime == 5 * Minute
    ensures c.observability.serviceName == "weather-service" && c.observability.sampleRate == 0.1
    ensures c.external.httpTimeout == 30 * Second
    ensures c.rateLimit.window == Minute
  {
    Config(
      ServerConfig(
        GetEnv(env, "PORT", "8080"),
        GetEnv(env, "METRICS_PORT", "9090"),
        GetEnv(env, "ENVIRONMENT", "development"),
        15 * Second, 15 * Second, 60 * Second),
      RedisConfig(
        GetEnvAsBool(env, "REDIS_ENABLED", true),
        GetEnv(env, "REDIS_ADDR", "localhost:6379"),
        GetEnv(env, "REDIS_PASSWORD", ""),
        GetEnvAsInt(env, "REDIS_DB", 0),
        10, 5, 3,
        5 * Second, 3 * Second, 3 * Second),
      DatabaseConfig(
        GetEnvAsBool(env, "DATABASE_ENABLED", false),
        GetEnv(env, "DB_HOST", "localhost"),
        GetEnvAsInt(env, "DB_PORT", 5432),
        GetEnv(env, "DB_USER", "weather"),
        GetEnv(env, "DB_PASSWORD", ""),
        GetEnv(env, "DB_NAME", "weather_service"),
        GetEnv(env, "DB_SSLMODE", "disable"),
        25, 5, 5 * Minute),
      ObservabilityConfig(
        "weather-service",
        GetEnv(env, "VERSION", "1.0.0"),
        GetEnv(env, "ENVIRONMENT", "development"),
        GetEnv(env, "OTEL_EXPORTER_OTLP_ENDPOINT", "localhost:4317"),
        0.1,
        GetEnv(env, "JAEGER_AGENT_HOST", "localhost")),
      ExternalConfig(
        GetEnv(env, "NWS_BASE_URL", "https://api.weather.gov"),
        30 * Second),
      RateLimitConfig(
        GetEnvAsInt(env, "RATE_LIMIT_RPS", 100),
        Minute))
  }

  /** With nothing set, Load gives the documented defaults. */
  lemma LoadDefaults()
    ensures var c := Load(map[]);
      && c.server.port == "8080" && c.server.metricsPort == "9090" && c.server.environment == "development"
      && c.redis.enabled && c.redis.addr == "localhost:6379" && c.redis.db == 0
      && !c.database.enabled && c.database.port == 5432 && c.database.sslMode == "disable"
      && c.redis.password == ""
      && c.database.host == "localhost" && c.database.user == "weather" && c.database.password == ""
      && c.database.database == "weather_service"
      && c.observability.serviceVersion == "1.0.0" && c.observability.environment == "development"
      && c.observability.otlpEndpoint == "localhost:4317" && c.observability.jaegerHost == "localhost"
      && c.external.nwsBaseUrl == "https://api.weather.gov"
      && c.rateLimit.rps == 100 && c.rateLimit.window == Minute
  {
  }

  /** RATE_LIMIT_RPS set to a decimal number is the configured rate, and nothing else changes the window. */
  lemma RateFromEnvironment(env: Env, n: int)
    requires Strconv.MinInt64 <= n <= Strconv.MaxInt64
    ensures Load(env["RATE_LIMIT_RPS" := Strconv.Itoa(n)]).rateLimit == RateLimitConfig(n, Minute)
  {
    GetEnvAsIntReadsDecimal(env, "RATE_LIMIT_RPS", n, 100);
  }
}
