/**
 * Fetching the search-result page: the generic worker's bounded retry loop with its delay
 * strategy, the Vecteezy variant, the single-attempt fetch of the Bing and Google crawlers,
 * and the table that explains an HTTP error status.
 */
module Fetching {
  import opened Wrappers
  import opened Text

  /** What one attempt to fetch the page produced: a response, or an exception. */
  datatype FetchOutcome = Response(status: int, body: string) | Raised

  /**
   * The statuses the worker retries: 403 (section 15.5.4 of RFC 9110), 429 (section 4 of
   * RFC 6585) and 500, 502, 503, 504 (section 15.6 of RFC 9110).
   */
  predicate Retryable(status: int) {
    status == 403 || status == 429 || status == 500 || status == 502 || status == 503 || status == 504
  }

  function Pow2(k: nat): (r: nat)
    ensures r >= 1
  {
    if k == 0 then 1 else 2 * Pow2(k - 1)
  }

  /**
   * `random.uniform(a, b)`: `a + (b - a) * u` for the generator's next value `u` in [0, 1),
   * which is taken as the parameter.
   */
  function Uniform(a: real, b: real, u: real): real {
    a + (b - a) * u
  }

  /** A draw lies between the two bounds whenever the generator's value lies in [0, 1]. */
  lemma UniformBounds(a: real, b: real, u: real)
    requires a <= b && 0.0 <= u <= 1.0
    ensures a <= Uniform(a, b, u) <= b
  {
    var d := b - a;
    assert d * u == d - d * (1.0 - u);
    assert 0.0 <= d * u;
    assert 0.0 <= d * (1.0 - u);
  }

  /**
   * `_apply_retry_strategy`: `base * 2**attempt` for "exponential", `base * (attempt + 1)` for
   * "linear", `random.uniform(base, base * 3)` for "random" (the generator's value being
   * `draw`), and the linear delay when no strategy, or an unknown one, is set.
   */
  function RetryDelay(strategy: Option<string>, attempt: nat, base: real, draw: real): (d: real)
    ensures strategy == Some("exponential") ==> d == base * Pow2(attempt) as real
    ensures strategy == Some("random") ==> d == Uniform(base, base * 3.0, draw)
    ensures strategy != Some("exponential") && strategy != Some("random") ==> d == base * (attempt + 1) as real
  {
    match strategy
    case Some(s) =>
      if s == "exponential" then base * Pow2(attempt) as real
      else if s == "linear" then base * (attempt + 1) as real
      else if s == "random" then Uniform(base, base * 3.0, draw)
      else base * (attempt + 1) as real
    case None => base * (attempt + 1) as real
  }

  lemma {:induction false} Pow2AtLeastSucc(k: nat)
    ensures Pow2(k) >= k + 1
  {
    if k > 0 {
      Pow2AtLeastSucc(k - 1);
    }
  }

  /** With a non-negative base, exponential back-off never waits less than linear back-off. */
  lemma ExponentialAtLeastLinear(attempt: nat, base: real, draw: real)
    requires base >= 0.0
    ensures RetryDelay(Some("exponential"), attempt, base, draw) >= RetryDelay(Some("linear"), attempt, base, draw)
    ensures RetryDelay(Some("linear"), attempt, base, draw) == RetryDelay(None, attempt, base, draw)
  {
    Pow2AtLeastSucc(attempt);
    assert Pow2(attempt) as real >= (attempt + 1) as real;
  }

  /** With a non-negative base, the "random" delay lies between base and three times base. */
  lemma RandomDelayBounds(attempt: nat, base: real, draw: real)
    requires base >= 0.0 && 0.0 <= draw <= 1.0
    ensures base <= RetryDelay(Some("random"), attempt, base, draw) <= base * 3.0
  {
    UniformBounds(base, base * 3.0, draw);
  }

  /** `method.upper()` is GET or POST; any other method raises before a request is sent. */
  predicate Supported(httpMethod: string) {
    Upper(httpMethod) == "GET" || Upper(httpMethod) == "POST"
  }

  /** What the loop sees at attempt `k`: the network's answer, or the `ValueError` of an unsupported method. */
  function AttemptOutcome(httpMethod: string, respond: nat -> FetchOutcome, k: nat): FetchOutcome {
    if Supported(httpMethod) then respond(k) else Raised
  }

  /** An outcome after which `fetch_html` tries again, unless it was the last attempt. */
  predicate Transient(o: FetchOutcome) {
    o.Raised? || Retryable(o.status)
  }

  /** The sleep before the attempt after a transient outcome at attempt `k`. */
  function BackoffWait(o: FetchOutcome, k: nat, strategy: Option<string>, base: real, draw: nat -> real): real {
    if o.Raised? then base * (k + 1) as real else RetryDelay(strategy, k, base, draw(k))
  }

  /** The outcome of a fetch: the body, the attempts made, the requests sent, the errors counted and the back-off waits between attempts. */
  datatype FetchRun = FetchRun(body: Option<string>, attempts: nat, requests: nat, errors: nat, waits: seq<real>)

  /**
   * `fetch_html` outside Vecteezy: up to `maxRetries` attempts. Status 200 returns the body;
   * a retryable status or an exception sleeps and tries again unless it was the last attempt,
   * which counts one error and gives nothing; any other status counts one error at once.
   */
  predicate RetryFetched(httpMethod: string, maxRetries: int, retryDelay: real, strategy: Option<string>,
                         respond: nat -> FetchOutcome, draw: nat -> real, run: FetchRun)
  {
    && (maxRetries <= 0 ==> run == FetchRun(None, 0, 0, 0, []))
    && (maxRetries > 0 ==> 1 <= run.attempts <= maxRetries)
    && (forall k :: 0 <= k < run.attempts - 1 ==> Transient(AttemptOutcome(httpMethod, respond, k)))
    && (run.attempts > 0 ==>
          var last := AttemptOutcome(httpMethod, respond, run.attempts - 1);
          && run.body == (if last.Response? && last.status == 200 then Some(last.body) else None)
          && (Transient(last) ==> run.attempts == maxRetries))
    && run.errors == (if maxRetries > 0 && run.body.None? then 1 else 0)
    && run.requests == (if Supported(httpMethod) then run.attempts else 0)
    && |run.waits| == (if run.attempts > 0 then run.attempts - 1 else 0)
    && (forall k :: 0 <= k < |run.waits| ==>
          run.waits[k] == BackoffWait(AttemptOutcome(httpMethod, respond, k), k, strategy, retryDelay, draw))
  }

  /** The retry loop of `fetch_html` outside Vecteezy. */
  method RetryFetch(httpMethod: string, maxRetries: int, retryDelay: real, strategy: Option<string>,
                    respond: nat -> FetchOutcome, draw: nat -> real) returns (run: FetchRun)
    ensures RetryFetched(httpMethod, maxRetries, retryDelay, strategy, respond, draw, run)
  {
    var waits: seq<real> := [];
    var requests := 0;
    var attempt := 0;
    while attempt < maxRetries
      invariant 0 <= attempt && (attempt > 0 ==> attempt < maxRetries)
      invariant forall k :: 0 <= k < attempt ==> Transient(AttemptOutcome(httpMethod, respond, k))
      invariant |waits| == attempt
      invariant forall k :: 0 <= k < attempt ==>
        waits[k] == BackoffWait(AttemptOutcome(httpMethod, respond, k), k, strategy, retryDelay, draw)
      invariant requests == if Supported(httpMethod) then attempt else 0
      decreases maxRetries - attempt
    {
      var outcome := Raised;
      if Upper(httpMethod) == "GET" || Upper(httpMethod) == "POST" {
        outcome := respond(attempt);
        requests := requests + 1;
      }
      match outcome
      case Response(status, body) =>
        if status == 200 {
          return FetchRun(Some(body), attempt + 1, requests, 0, waits);
        } else if status == 403 || status == 429 || status in [500, 502, 503, 504] {
          if attempt < maxRetries - 1 {
            var wait := RetryDelay(strategy, attempt, retryDelay, draw(attempt));
            waits := waits + [wait];
            attempt := attempt + 1;
          } else {
            return FetchRun(None, attempt + 1, requests, 1, waits);
          }
        } else {
          return FetchRun(None, attempt + 1, requests, 1, waits);
        }
      case Raised =>
        if attempt < maxRetries - 1 {
          waits := waits + [retryDelay * (attempt + 1) as real];
          attempt := attempt + 1;
        } else {
          return FetchRun(None, attempt + 1, requests, 1, waits);
        }
    }
    return FetchRun(None, 0, 0, 0, []);
  }

  /** The Vecteezy path retries only 403 and exceptions. */
  predicate VecteezyTransient(o: FetchOutcome) {
    o.Raised? || o.status == 403
  }

  /** The Vecteezy back-off wait after attempt `k`: `base * 2**k`, plus `random.uniform(0, 1)` (from the value `draw(k)`) after a 403. */
  function VecteezyWait(o: FetchOutcome, k: nat, base: real, draw: nat -> real): real {
    if o.Raised? then base * Pow2(k) as real else base * Pow2(k) as real + Uniform(0.0, 1.0, draw(k))
  }

  /** The jitter after a 403 adds at most one second to the back-off. */
  lemma VecteezyJitterBounds(o: FetchOutcome, k: nat, base: real, draw: nat -> real)
    requires !o.Raised? && 0.0 <= draw(k) <= 1.0
    ensures var backoff := base * Pow2(k) as real;
      backoff <= VecteezyWait(o, k, base, draw) <= backoff + 1.0
  {
    assert Uniform(0.0, 1.0, draw(k)) == draw(k);
    assert VecteezyWait(o, k, base, draw) == base * Pow2(k) as real + draw(k);
  }

  /**
   * `_fetch_vecteezy_html`: an unsupported method gives nothing at once and counts no error;
   * otherwise status 200 returns the body, 403 and exceptions are retried with exponential
   * back-off until the last attempt, which counts one error, and any other status counts one error.
   */
  predicate VecteezyFetched(httpMethod: string, maxRetries: int, retryDelay: real,
                            respond: nat -> FetchOutcome, draw: nat -> real, run: FetchRun)
  {
    && (maxRetries <= 0 ==> run == FetchRun(None, 0, 0, 0, []))
    && (maxRetries > 0 && !Supported(httpMethod) ==> run == FetchRun(None, 1, 0, 0, []))
    && (maxRetries > 0 && Supported(httpMethod) ==>
          && 1 <= run.attempts <= maxRetries
          && run.requests == run.attempts
          && (forall k :: 0 <= k < run.attempts - 1 ==> VecteezyTransient(respond(k)))
          && var last := respond(run.attempts - 1);
          && run.body == (if last.Response? && last.status == 200 then Some(last.body) else None)
          && (VecteezyTransient(last) ==> run.attempts == maxRetries)
          && run.errors == (if run.body.None? then 1 else 0)
          && |run.waits| == run.attempts - 1
          && forall k :: 0 <= k < |run.waits| ==> run.waits[k] == VecteezyWait(respond(k), k, retryDelay, draw))
  }

  /** The retry loop of `_fetch_vecteezy_html`. */
  method VecteezyFetch(httpMethod: string, maxRetries: int, retryDelay: real,
                       respond: nat -> FetchOutcome, draw: nat -> real) returns (run: FetchRun)
    ensures VecteezyFetched(httpMethod, maxRetries, retryDelay, respond, draw, run)
  {
    var waits: seq<real> := [];
    var attempt := 0;
    while attempt < maxRetries
      invariant 0 <= attempt && (attempt > 0 ==> attempt < maxRetries && Supported(httpMethod))
      invariant forall k :: 0 <= k < attempt ==> VecteezyTransient(respond(k))
      invariant |waits| == attempt
      invariant forall k :: 0 <= k < attempt ==> waits[k] == VecteezyWait(respond(k), k, retryDelay, draw)
      decreases maxRetries - attempt
    {
      if !(Upper(httpMethod) == "GET" || Upper(httpMethod) == "POST") {
        return FetchRun(None, attempt + 1, 0, 0, waits);
      }
      match respond(attempt)
      case Response(status, body) =>
        if status == 200 {
          return FetchRun(Some(body), attempt + 1, attempt + 1, 0, waits);
        } else if status == 403 {
          if attempt < maxRetries - 1 {
            var wait := retryDelay * Pow2(attempt) as real + Uniform(0.0, 1.0, draw(attempt));
            assert wait == VecteezyWait(respond(attempt), attempt, retryDelay, draw);
            waits := waits + [wait];
            attempt := attempt + 1;
          } else {
            return FetchRun(None, attempt + 1, attempt + 1, 1, waits);
          }
        } else {
          return FetchRun(None, attempt + 1, attempt + 1, 1, waits);
        }
      case Raised =>
        if attempt < maxRetries - 1 {
          var wait := retryDelay * Pow2(attempt) as real;
          assert wait == VecteezyWait(respond(attempt), attempt, retryDelay, draw);
          waits := waits + [wait];
          attempt := attempt + 1;
        } else {
          return FetchRun(None, attempt + 1, attempt + 1, 1, waits);
        }
    }
    return FetchRun(None, 0, 0, 0, []);
  }

  /**
   * `fetch_bing_html` and `fetch_google_html`: one attempt; status 200 gives the body, any
   * other status gives nothing without counting an error, and an exception counts one error.
   */
  function SearchPageFetch(o: FetchOutcome): (run: FetchRun)
    ensures run.attempts == 1 && run.requests == 1 && run.waits == []
    ensures run.body.Some? <==> o.Response? && o.status == 200
    ensures run.body.Some? ==> run.body.value == o.body
    ensures run.errors == if o.Raised? then 1 else 0
  {
    match o
    case Raised => FetchRun(None, 1, 1, 1, [])
    case Response(status, body) => FetchRun(if status == 200 then Some(body) else None, 1, 1, 0, [])
  }

  /** `get_error_analysis`'s result. */
  datatype ErrorAnalysis = ErrorAnalysis(
    statusCode: int, url: string, description: string,
    possibleCauses: seq<string>, suggestions: seq<string>, retryRecommended: bool)

  /** The analysis of a 403: access refused, worth retrying with another identity. */
  function ForbiddenAnalysis(url: string): (a: ErrorAnalysis)
    ensures a.statusCode == 403 && a.url == url && a.retryRecommended
    ensures a.description != "" && a.possibleCauses != []
  {
    ErrorAnalysis(403, url,
      "Access Forbidden - The server understood the request but refuses to authorize it",
      ["IP address blocked or blacklisted", "User-Agent string detected as bot", "Geographic restrictions",
       "Rate limiting", "Missing or invalid authentication", "Anti-bot protection active"],
      ["Use proxy rotation", "Rotate User-Agent strings", "Add realistic browser headers",
       "Implement session rotation", "Increase delays between requests", "Use residential proxies if available"],
      true)
  }

  /** The analysis of a 429: rate limited, worth retrying more slowly. */
  function RateLimitedAnalysis(url: string): (a: ErrorAnalysis)
    ensures a.statusCode == 429 && a.url == url && a.retryRecommended
    ensures a.description != "" && a.possibleCauses != []
  {
    ErrorAnalysis(429, url, "Too Many Requests - Rate limit exceeded",
      ["Too many requests in short time", "Rate limiting by IP address", "Rate limiting by User-Agent",
       "Rate limiting by session"],
      ["Increase delays between requests", "Implement exponential backoff", "Use proxy rotation",
       "Rotate User-Agent strings", "Implement request queuing"],
      true)
  }

  /** The analysis of a 500, 502, 503 or 504: a server-side failure naming its code, worth retrying later. */
  function ServerErrorAnalysis(statusCode: int, url: string): (a: ErrorAnalysis)
    ensures a.statusCode == statusCode && a.url == url && a.retryRecommended
    ensures a.description == "Server Error (" + IntToString(statusCode) + ") - Server-side issue"
    ensures a.possibleCauses != []
  {
    ErrorAnalysis(statusCode, url, "Server Error (" + IntToString(statusCode) + ") - Server-side issue",
      ["Server overload", "Maintenance mode", "Database connection issues", "Backend service failures"],
      ["Wait and retry later", "Use exponential backoff", "Check if service is in maintenance",
       "Contact site administrators if persistent"],
      true)
  }

  /** The analysis of a 404: the resource is gone, and retrying does not help. */
  function NotFoundAnalysis(url: string): (a: ErrorAnalysis)
    ensures a.statusCode == 404 && a.url == url && !a.retryRecommended
    ensures a.description != "" && a.possibleCauses != []
  {
    ErrorAnalysis(404, url, "Not Found - Resource doesn't exist",
      ["URL is incorrect", "Resource was removed", "Typo in URL", "Site structure changed"],
      ["Verify URL correctness", "Check if resource moved", "Update URL patterns", "Implement URL validation"],
      false)
  }

  /** `get_error_analysis`: an explanation of an HTTP error status and whether a retry is worth it. */
  function AnalyzeError(statusCode: int, url: string): (a: ErrorAnalysis)
    ensures a.statusCode == statusCode && a.url == url
    ensures a.retryRecommended <==> Retryable(statusCode)
    ensures (a.description == "") <==> !(Retryable(statusCode) || statusCode == 404)
    ensures a.possibleCauses == [] <==> a.description == ""
  {
    if statusCode == 403 then ForbiddenAnalysis(url)
    else if statusCode == 429 then RateLimitedAnalysis(url)
    else if statusCode in [500, 502, 503, 504] then ServerErrorAnalysis(statusCode, url)
    else if statusCode == 404 then NotFoundAnalysis(url)
    else ErrorAnalysis(statusCode, url, "", [], [], false)
  }

  /**
   * The error table and the retry loop agree: a status the loop retries is exactly one the
   * analysis recommends retrying, and a status the loop gives up on at once is one it does not.
   */
  lemma AnalysisMatchesRetryLoop(status: int, url: string)
    ensures AnalyzeError(status, url).retryRecommended <==> Transient(Response(status, ""))
  {
  }
}
