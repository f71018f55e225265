/**
 * internal/infrastructure/circuitbreaker/breaker.go: the circuit-breaker
 * wrapper and the registry of named breakers. The breaker itself
 * (github.com/sony/gobreaker: the Closed/Open/HalfOpen state machine, its
 * counters, timeouts and half-open probing) is not part of this model; it
 * appears as GoBreaker, whose state and counts are only read, never
 * predicted. Logging and tracing are not modelled beyond the order of the
 * state-change effects.
 */
module CircuitBreaker {
  import opened Wrappers

  newtype uint32 = x: int | 0 <= x < 0x1_0000_0000

  /** gobreaker.Counts. */
  datatype Counts = Counts(requests: uint32, totalSuccesses: uint32, totalFailures: uint32,
                           consecutiveSuccesses: uint32, consecutiveFailures: uint32)

  /** gobreaker.State with the text State.String gives it. */
  datatype State = Closed | HalfOpen | Open {
    function Name(): (s: string)
      ensures this == Closed <==> s == "closed"
      ensures this == HalfOpen <==> s == "half-open"
      ensures this == Open <==> s == "open"
    {
      match this
      case Closed => "closed"
      case HalfOpen => "half-open"
      case Open => "open"
    }
  }

  lemma StateNameInjective(a: State, b: State)
    ensures a.Name() == b.Name() ==> a == b
  {
  }

  /** The user's OnStateChange callback, told apart by a tag. */
  datatype Hook = Hook(tag: string)

  /** Config: the breaker's thresholds and the optional callbacks (nil is None). */
  datatype Config = Config(name: string, maxRequests: uint32, interval: int, timeout: int,
                           readyToTrip: Option<Counts -> bool>, onStateChange: Option<Hook>)

  /**
   * gobreaker.Settings as NewCircuitBreaker builds them. The OnStateChange
   * closure is represented by the user hook it chains to; its effects are
   * StateChangeEffects.
   */
  datatype Settings = Settings(name: string, maxRequests: uint32, interval: int, timeout: int,
                               readyToTrip: Counts -> bool, userHook: Option<Hook>)

  /** The default trip policy as the source writes it: at least 3 requests and a failure ratio of at least one half. */
  function RatioReadyToTrip(c: Counts): (trip: bool)
    ensures trip <==> c.requests >= 3 && 2 * (c.totalFailures as int) >= c.requests as int
  {
    var f := c.totalFailures as real;
    var r := c.requests as real;
    if c.requests >= 3 then
      assert (2 * (c.totalFailures as int)) as real == 2.0 * f;
      assert (c.requests as int) as real == r;
      HalfRatio(f, r);
      f / r >= 0.5
    else false
  }

  /**
   * The default trip policy stated without division; it agrees with the
   * source's ratio form on every count. (The float64 division
   * in the source is exact enough here: a ratio below one half with at most
   * 2^32 requests is below it by far more than a rounding step.)
   */
  function DefaultReadyToTrip(c: Counts): (trip: bool)
    ensures trip == RatioReadyToTrip(c)
    ensures c.requests < 3 ==> !trip
  {
    c.requests >= 3 && 2 * (c.totalFailures as int) >= c.requests as int
  }

  /** A ratio is at least one half exactly when twice the numerator reaches the denominator. */
  lemma HalfRatio(f: real, r: real)
    requires r > 0.0
    ensures f / r >= 0.5 <==> 2.0 * f >= r
  {
    var q := f / r;
    assert q * r == f;
    ScaleByPositive(q, 0.5, r);
  }

  /** Multiplying both sides by a positive number keeps a strict order. */
  lemma ScaleByPositive(a: real, b: real, r: real)
    requires r > 0.0
    ensures a < b <==> a * r < b * r
  {
    assert a * r - b * r == (a - b) * r;
  }

  /** An effect of a state change: the log line, then the user's callback. */
  datatype Effect =
    | Logged(breakerName: string, fromName: string, toName: string)
    | Called(hook: Hook, name: string, from: State, to: State)

  /**
   * The OnStateChange closure of NewCircuitBreaker: it logs the change with
   * the states' names, then calls the user's callback, if there is one,
   * exactly once with the same arguments.
   */
  function StateChangeEffects(s: Settings, name: string, from: State, to: State): (effects: seq<Effect>)
    ensures |effects| >= 1 && effects[0] == Logged(name, from.Name(), to.Name())
    ensures forall i :: 1 <= i < |effects| ==> s.userHook.Some? && effects[i] == Called(s.userHook.value, name, from, to)
    ensures |effects| == 2 <==> s.userHook.Some?
    ensures |effects| <= 2
  {
    var log := [Logged(name, from.Name(), to.Name())];
    match s.userHook
    case None => log
    case Some(h) => log + [Called(h, name, from, to)]
  }

  /**
   * The settings NewCircuitBreaker hands to gobreaker: name, maxRequests,
   * interval and timeout unchanged, the supplied trip predicate kept, and
   * the default one when none was supplied.
   */
  function NewSettings(cfg: Config): (s: Settings)
    ensures s.name == cfg.name && s.maxRequests == cfg.maxRequests
    ensures s.interval == cfg.interval && s.timeout == cfg.timeout
    ensures cfg.readyToTrip.Some? ==> s.readyToTrip == cfg.readyToTrip.value
    ensures cfg.readyToTrip.None? ==> forall c :: s.readyToTrip(c) == RatioReadyToTrip(c)
    ensures s.userHook == cfg.onStateChange
  {
    var trip := if cfg.readyToTrip.Some? then cfg.readyToTrip.value else DefaultReadyToTrip;
    Settings(cfg.name, cfg.maxRequests, cfg.interval, cfg.timeout, trip, cfg.onStateChange)
  }

  /**
   * gobreaker.CircuitBreaker, seen from outside: the settings it was built
   * with, and its current state and counts. How they evolve is gobreaker's
   * business and is not modelled.
   */
  class GoBreaker {
    const settings: Settings
    var state: State
    var counts: Counts

    constructor (settings: Settings)
      ensures this.settings == settings
    {
      this.settings := settings;
      state := Closed;
      counts := Counts(0, 0, 0, 0, 0);
    }
  }

  /** CircuitBreakerWrapper: a gobreaker breaker and its name. */
  class CircuitBreakerWrapper {
    const breaker: GoBreaker
    const name: string

    /** NewCircuitBreaker: a fresh gobreaker with NewSettings(cfg), named cfg.name. */
    constructor (cfg: Config)
      ensures name == cfg.name && breaker.settings == NewSettings(cfg) && fresh(breaker)
    {
      breaker := new GoBreaker(NewSettings(cfg));
      name := cfg.name;
    }

    /** State: the inner breaker's state. */
    function State(): (s: State)
      reads breaker
      ensures s == breaker.state
    {
      breaker.state
    }

    /** Counts: the inner breaker's counts. */
    function Counts(): (c: Counts)
      reads breaker
      ensures c == breaker.counts
    {
      breaker.counts
    }
  }

  /** One GetStats entry: the state's name and the five counters. */
  datatype Stats = Stats(state: string, requests: uint32, totalSuccesses: uint32, totalFailures: uint32,
                         consecutiveSuccesses: uint32, consecutiveFailures: uint32)

  /** The GetStats entry of one breaker, read from its current state and counts. */
  function Snapshot(b: CircuitBreakerWrapper): (s: Stats)
    reads b.breaker
    ensures s.state == b.State().Name()
    ensures s.requests == b.Counts().requests && s.totalSuccesses == b.Counts().totalSuccesses
    ensures s.totalFailures == b.Counts().totalFailures
    ensures s.consecutiveSuccesses == b.Counts().consecutiveSuccesses
    ensures s.consecutiveFailures == b.Counts().consecutiveFailures
  {
    var c := b.Counts();
    Stats(b.State().Name(), c.requests, c.totalSuccesses, c.totalFailures,
          c.consecutiveSuccesses, c.consecutiveFailures)
  }

  /** Manager: the registry of breakers by name. */
  class Manager {
    var breakers: map<string, CircuitBreakerWrapper>

    /** Every registered breaker carries the name it is registered under. */
    predicate Valid()
      reads this
    {
      forall n :: n in breakers ==> breakers[n].name == n
    }

    /** NewManager: an empty registry. */
    constructor ()
      ensures breakers == map[] && Valid()
    {
      breakers := map[];
    }

    /**
     * GetBreaker. A registered name returns its breaker and the config is
     * ignored; a new name builds a breaker from cfg with its name replaced
     * by the key, and registers it; no other entry changes.
     */
    method GetBreaker(name: string, cfg: Config) returns (b: CircuitBreakerWrapper)
      requires Valid()
      modifies this
      ensures Valid()
      ensures name in old(breakers) ==> b == old(breakers)[name] && breakers == old(breakers)
      ensures name !in old(breakers) ==>
        && fresh(b) && b.name == name && b.breaker.settings == NewSettings(cfg.(name := name))
        && breakers == old(breakers)[name := b]
      ensures name in breakers && breakers[name] == b
    {
      if name in breakers {
        return breakers[name];
      }
      b := new CircuitBreakerWrapper(cfg.(name := name));
      breakers := breakers[name := b];
    }

    /**
     * GetStats: one entry per registered name, each a snapshot of that
     * breaker's state and counts; the registry is not changed.
     */
    method GetStats() returns (stats: map<string, Stats>)
      ensures stats.Keys == breakers.Keys
      ensures forall n :: n in stats ==> stats[n] == Snapshot(breakers[n])
    {
      stats := map[];
      var pending := breakers.Keys;
      while pending != {}
        invariant pending <= breakers.Keys
        invariant stats.Keys == breakers.Keys - pending
        invariant forall n :: n in stats ==> stats[n] == Snapshot(breakers[n])
        decreases pending
      {
        var n :| n in pending;
        stats := stats[n := Snapshot(breakers[n])];
        pending := pending - {n};
      }
    }
  }
}
