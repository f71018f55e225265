/**
 * internal/middleware/ratelimit.go: the HTTP rate-limiting middleware. For
 * each request it asks the limiter about the client's identifier with the
 * configured limit and window, then fails open on a limiter error, answers
 * 429 on a refusal, and otherwise sets the rate-limit headers and passes the
 * request on. Logging is not modelled; time.Duration.String is the
 * parameter formatDuration.
 */
module RateLimitMiddleware {
  import opened Wrappers
  import opened Domain
  import Strconv
  import ClientIp

  const StatusTooManyRequests: int := 429
  const RejectionBody: string := "{\"error\":\"RATE_LIMIT_EXCEEDED\",\"message\":\"Too many requests\"}"

  /** RateLimitMiddleware's configuration: requests allowed per window (nanoseconds). */
  datatype Middleware = Middleware(limit: int, window: int)

  /** What the limiter is asked: rateLimiter.Allow(ctx, identifier, limit, window). */
  datatype Query = Query(identifier: string, limit: int, window: int)

  /** The limiter's answer: (allowed, err). */
  datatype Verdict = Verdict(allowed: bool, err: Option<Error>)

  /**
   * What happens to the request: the next handler runs once, with the
   * headers set so far, or the middleware answers itself and the next
   * handler does not run.
   */
  datatype Decision =
    | CallNext(headers: map<string, string>)
    | Respond(status: int, headers: map<string, string>, body: string)

  /** The limiter query for a request: the identifier from GetClientIP, limit and window unchanged. */
  function LimiterQuery(m: Middleware, r: ClientIp.Request, parseIp: string -> bool,
                        splitHost: string -> Option<string>): (q: Query)
    ensures q.limit == m.limit && q.window == m.window
    ensures q.identifier == ClientIp.GetClientIp(r, parseIp, splitHost)
  {
    Query(ClientIp.GetClientIp(r, parseIp, splitHost), m.limit, m.window)
  }

  /** The two rate-limit headers, limit in decimal and the window as Duration.String gives it. */
  function RateLimitHeaders(m: Middleware, formatDuration: int -> string): (h: map<string, string>)
    ensures h.Keys == {"X-RateLimit-Limit", "X-RateLimit-Window"}
    ensures h["X-RateLimit-Limit"] == Strconv.Itoa(m.limit) && h["X-RateLimit-Window"] == formatDuration(m.window)
  {
    map["X-RateLimit-Limit" := Strconv.Itoa(m.limit), "X-RateLimit-Window" := formatDuration(m.window)]
  }

  /**
   * The branch on the limiter's verdict. An error fails open without any
   * header; a refusal is a 429 with JSON content type, the rate-limit
   * headers and the fixed body; a grant passes on with the rate-limit
   * headers.
   */
  function Decide(m: Middleware, v: Verdict, formatDuration: int -> string): (d: Decision)
    ensures v.err.Some? ==> d == CallNext(map[])
    ensures d.CallNext? <==> v.err.Some? || v.allowed
    ensures d.Respond? ==>
      && d.status == StatusTooManyRequests && d.body == RejectionBody
      && d.headers.Keys == {"Content-Type", "X-RateLimit-Limit", "X-RateLimit-Window"}
      && d.headers["Content-Type"] == "application/json"
    ensures v.err.None? ==>
      && "X-RateLimit-Limit" in d.headers && "X-RateLimit-Window" in d.headers
      && d.headers["X-RateLimit-Limit"] == Strconv.Itoa(m.limit)
      && d.headers["X-RateLimit-Window"] == formatDuration(m.window)
    ensures v.err.None? && v.allowed ==> d.headers.Keys == {"X-RateLimit-Limit", "X-RateLimit-Window"}
  {
    if v.err.Some? then CallNext(map[])
    else if !v.allowed then
      Respond(StatusTooManyRequests, RateLimitHeaders(m, formatDuration)["Content-Type" := "application/json"],
              RejectionBody)
    else CallNext(RateLimitHeaders(m, formatDuration))
  }

  /** Middleware: the request's query put to the limiter, and the decision on its verdict. */
  function Handle(m: Middleware, r: ClientIp.Request, parseIp: string -> bool, splitHost: string -> Option<string>,
                  limiter: Query -> Verdict, formatDuration: int -> string): (d: Decision)
    ensures d == Decide(m, limiter(Query(ClientIp.GetClientIp(r, parseIp, splitHost), m.limit, m.window)),
                        formatDuration)
  {
    Decide(m, limiter(LimiterQuery(m, r, parseIp, splitHost)), formatDuration)
  }

  /**
   * The X-RateLimit-Limit header of any non-error answer reads back as the
   * configured limit.
   */
  lemma LimitHeaderReadsBack(m: Middleware, v: Verdict, formatDuration: int -> string)
    requires Strconv.MinInt64 <= m.limit <= Strconv.MaxInt64
    requires v.err.None?
    ensures Strconv.Atoi(Decide(m, v, formatDuration).headers["X-RateLimit-Limit"]) == Some(m.limit)
  {
    Strconv.AtoiItoa(m.limit);
  }

  /**
   * Two requests whose first X-Forwarded-For entry is the same address are
   * counted against the same client, whatever the rest of the header says.
   */
  lemma SameForwardedClientSameQuery(m: Middleware, first: string, rest1: string, rest2: string,
                                     xRealIp: string, remoteAddr: string,
                                     parseIp: string -> bool, splitHost: string -> Option<string>)
    requires ',' !in first
    ensures LimiterQuery(m, ClientIp.Request(first + [','] + rest1, xRealIp, remoteAddr), parseIp, splitHost)
         == LimiterQuery(m, ClientIp.Request(first + [','] + rest2, xRealIp, remoteAddr), parseIp, splitHost)
  {
    ClientIp.LaterForwardedEntriesIgnored(first, rest1, rest2, xRealIp, remoteAddr, parseIp, splitHost);
  }
}
