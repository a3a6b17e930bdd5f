/** main.py: the single-file harness. Its duration helpers, its own
    field-based MetricsTracker, and the accounting of `test_api_call`. */
module MainScript {
  import opened Values
  import opened Durations
  import LoadTestClient

  /** `duration_type`, the argparse type of `--duration`: the text itself when
      the pattern matches at its start. */
  function DurationType(s: string): (r: Result<string>)
    ensures r.Ok? <==> PatternMatches(s)
    ensures r.Ok? ==> r.value == s
    ensures r.Err? ==> r.error == ArgumentTypeError("Invalid duration format")
  {
    MatchIsPattern(s);
    if MatchDuration(s).None? then Err(ArgumentTypeError("Invalid duration format")) else Ok(s)
  }

  /** main.py's `parse_duration`: as the package's, but text the pattern
      rejects raises ValueError. */
  function ParseDuration(duration: Option<string>): (r: Result<Option<nat>>)
    ensures duration.None? ==> r == Ok(None)
    ensures duration.Some? && MatchDuration(duration.value).None? ==> r == Err(ValueError(InvalidDuration))
  {
    match duration
    case None => Ok(None)
    case Some(s) =>
      match MatchDuration(s)
      case None => Err(ValueError(InvalidDuration))
      case Some(m) =>
        match Timedelta(MatchSeconds(m))
        case Err(e) => Err(e)
        case Ok(seconds) => Ok(Some(seconds))
  }

  /** The two parse_duration functions agree except in the class of the
      exception for rejected text. */
  lemma ParseDurationsAgree(duration: Option<string>)
    ensures Durations.ParseDuration(duration).Ok? ==> ParseDuration(duration) == Durations.ParseDuration(duration)
    ensures Durations.ParseDuration(duration) == Err(ArgumentTypeError(InvalidDuration))
      <==> ParseDuration(duration) == Err(ValueError(InvalidDuration))
    ensures Durations.ParseDuration(duration) == Err(OverflowError) <==> ParseDuration(duration) == Err(OverflowError)
  {
  }

  /** Text that `duration_type` let through never makes parse_duration raise
      ValueError; it parses, or overflows timedelta. */
  lemma AcceptedDurationParses(s: string)
    requires DurationType(s).Ok?
    ensures ParseDuration(Some(s)).Ok? || ParseDuration(Some(s)) == Err(OverflowError)
    ensures ParseDuration(Some(s)).Ok? ==> ParseDuration(Some(s)).value == Some(MatchSeconds(MatchDuration(s).value))
  {
  }

  /** `<n>s`, `<n>m`, `<n>h` (and anything after) give n, 60n and 3600n seconds. */
  lemma FormatParsesMain(n: nat, u: Unit, rest: string)
    requires n * UnitSeconds(u) < TimedeltaLimit
    ensures DurationType(FormatDuration(n, u) + rest) == Ok(FormatDuration(n, u) + rest)
    ensures ParseDuration(Some(FormatDuration(n, u) + rest)) == Ok(Some(n * UnitSeconds(u)))
  {
    FormatParses(n, u, rest);
    ParseDurationsAgree(Some(FormatDuration(n, u) + rest));
  }

  /** The counters of main.py's MetricsTracker, as one value. */
  datatype Counters = Counters(
    activeCalls: int,
    activeSuccessfulCalls: int,
    maxConcurrentCalls: int,
    successfulCalls: int,
    unsuccessfulCalls: int,
    maxConcurrentSuccessfulCalls: int,
    totalTpm: int,
    rateLimit: int,
    totalToken: int)

  function IntMax(a: int, b: int): int {
    if b > a then b else a
  }

  /** The state `update_max_concurrent` leaves. */
  function WithMark(c: Counters): (r: Counters)
    ensures r.maxConcurrentCalls >= c.maxConcurrentCalls && r.maxConcurrentCalls >= c.activeCalls
    ensures r.maxConcurrentCalls == c.maxConcurrentCalls || r.maxConcurrentCalls == c.activeCalls
    ensures r == c.(maxConcurrentCalls := r.maxConcurrentCalls)
  {
    c.(maxConcurrentCalls := IntMax(c.maxConcurrentCalls, c.activeCalls))
  }

  /** Marking twice is marking once, and a marked state is left alone. */
  lemma MarkIdempotent(c: Counters)
    ensures WithMark(WithMark(c)) == WithMark(c)
    ensures c.maxConcurrentCalls >= c.activeCalls ==> WithMark(c) == c
  {
  }

  /** The state `update_max_concurrent_successful` leaves. */
  function WithSuccessfulMark(c: Counters): (r: Counters)
    ensures r.maxConcurrentSuccessfulCalls >= c.maxConcurrentSuccessfulCalls
    ensures r.maxConcurrentSuccessfulCalls >= c.activeSuccessfulCalls
    ensures r.maxConcurrentSuccessfulCalls == c.maxConcurrentSuccessfulCalls
      || r.maxConcurrentSuccessfulCalls == c.activeSuccessfulCalls
    ensures r == c.(maxConcurrentSuccessfulCalls := r.maxConcurrentSuccessfulCalls)
  {
    c.(maxConcurrentSuccessfulCalls := IntMax(c.maxConcurrentSuccessfulCalls, c.activeSuccessfulCalls))
  }

  /** Taking the successful mark twice is taking it once, and a marked state
      is left alone. */
  lemma SuccessfulMarkIdempotent(c: Counters)
    ensures WithSuccessfulMark(WithSuccessfulMark(c)) == WithSuccessfulMark(c)
    ensures c.maxConcurrentSuccessfulCalls >= c.activeSuccessfulCalls ==> WithSuccessfulMark(c) == c
  {
  }

  class MetricsTracker {
    var activeCalls: int
    var activeSuccessfulCalls: int
    var maxConcurrentCalls: int
    var successfulCalls: int
    var unsuccessfulCalls: int
    var maxConcurrentSuccessfulCalls: int
    var totalTpm: int
    /** `time.time()` when the tracker was built */
    const startTime: real
    var rateLimit: int
    var totalToken: int

    function State(): Counters
      reads this
    {
      Counters(activeCalls, activeSuccessfulCalls, maxConcurrentCalls, successfulCalls, unsuccessfulCalls,
        maxConcurrentSuccessfulCalls, totalTpm, rateLimit, totalToken)
    }

    constructor (now: real)
      ensures State() == Counters(0, 0, 0, 0, 0, 0, 0, 0, 0) && startTime == now
    {
      activeCalls := 0;
      activeSuccessfulCalls := 0;
      maxConcurrentCalls := 0;
      successfulCalls := 0;
      unsuccessfulCalls := 0;
      maxConcurrentSuccessfulCalls := 0;
      totalTpm := 0;
      startTime := now;
      rateLimit := 0;
      totalToken := 0;
    }

    method UpdateMaxConcurrent()
      modifies this
      ensures State() == WithMark(old(State()))
    {
      maxConcurrentCalls := IntMax(maxConcurrentCalls, activeCalls);
    }

    method UpdateMaxConcurrentSuccessful()
      modifies this
      ensures State() == WithSuccessfulMark(old(State()))
    {
      maxConcurrentSuccessfulCalls := IntMax(maxConcurrentSuccessfulCalls, activeSuccessfulCalls);
    }

    /** `update_tpm`: the tokens are added, then reading the misspelt
        `self.total_tokens` raises AttributeError before the rate is stored. */
    method UpdateTpm(tokenCount: int) returns (raised: Option<Error>)
      modifies this
      ensures State() == old(State()).(totalToken := old(totalToken) + tokenCount)
      ensures raised == Some(AttributeError("total_tokens"))
    {
      totalToken := totalToken + tokenCount;
      raised := Some(AttributeError("total_tokens"));
    }
  }

  /** What `test_api_call` does to the counters, and the exception it lets out. */
  datatype CallResult = CallResult(counters: Counters, raised: Option<Error>)

  /** The `try` block with its two handlers, on the counters after the mark. */
  function TryEffect(c: Counters, tokenCount: int, outcome: LoadTestClient.CallOutcome): CallResult {
    match outcome
    case Completed(_, _) =>
      // update_tpm raises AttributeError, which `except Exception` catches,
      // so update_max_concurrent_successful is never reached
      var counted := c.(activeSuccessfulCalls := c.activeSuccessfulCalls + 1, successfulCalls := c.successfulCalls + 1);
      var tokens := counted.(totalToken := counted.totalToken + tokenCount);
      CallResult(tokens.(unsuccessfulCalls := tokens.unsuccessfulCalls + 1), None)
    case Raised(e) =>
      if e.HttpStatusError? then
        var failed := c.(unsuccessfulCalls := c.unsuccessfulCalls + 1);
        CallResult(if e.status == 429 then failed.(rateLimit := failed.rateLimit + 1) else failed, None)
      else if IsException(e) then CallResult(c.(unsuccessfulCalls := c.unsuccessfulCalls + 1), None)
      else CallResult(c, Some(e))
  }

  /** `test_api_call`: the count goes up, the mark is taken, the `try` block
      runs, and `finally` takes the count down again. */
  function ApiCallEffect(c: Counters, tokenCount: int, outcome: LoadTestClient.CallOutcome): CallResult {
    var started := WithMark(c.(activeCalls := c.activeCalls + 1));
    var t := TryEffect(started, tokenCount, outcome);
    CallResult(t.counters.(activeCalls := t.counters.activeCalls - 1), t.raised)
  }

  /** `test_api_call` on tracker `metrics` for a request of `tokenCount`
      tokens that ended in `outcome`. */
  method TestApiCall(metrics: MetricsTracker, tokenCount: int, outcome: LoadTestClient.CallOutcome) returns (raised: Option<Error>)
    modifies metrics
    ensures CallResult(metrics.State(), raised) == ApiCallEffect(old(metrics.State()), tokenCount, outcome)
  {
    metrics.activeCalls := metrics.activeCalls + 1;
    metrics.UpdateMaxConcurrent();
    var pending: Option<Error>;
    match outcome {
      case Completed(_, _) =>
        metrics.activeSuccessfulCalls := metrics.activeSuccessfulCalls + 1;
        metrics.successfulCalls := metrics.successfulCalls + 1;
        // update_tpm always raises, so the update_max_concurrent_successful
        // call that follows it is never reached
        pending := metrics.UpdateTpm(tokenCount);
      case Raised(e) =>
        pending := Some(e);
    }
    raised := None;
    if pending.Some? {
      var e := pending.value;
      if e.HttpStatusError? {
        metrics.unsuccessfulCalls := metrics.unsuccessfulCalls + 1;
        if e.status == 429 {
          metrics.rateLimit := metrics.rateLimit + 1;
        }
      } else if IsException(e) {
        metrics.unsuccessfulCalls := metrics.unsuccessfulCalls + 1;
      } else {
        raised := Some(e);
      }
    }
    metrics.activeCalls := metrics.activeCalls - 1;
  }

  /** The count is back where it was, and the mark was taken after the
      increment, so it covers the call itself. */
  lemma ActiveRestored(c: Counters, tokenCount: int, outcome: LoadTestClient.CallOutcome)
    ensures var r := ApiCallEffect(c, tokenCount, outcome).counters;
      && r.activeCalls == c.activeCalls
      && r.maxConcurrentCalls == IntMax(c.maxConcurrentCalls, c.activeCalls + 1)
      && r.maxConcurrentCalls >= r.activeCalls + 1
  {
  }

  /** A returned request counts as successful and, through the AttributeError
      of update_tpm, as unsuccessful too; its tokens are added, and the
      successful high-water mark never moves. */
  lemma SuccessAccounting(c: Counters, tokenCount: int, latency: real, tokens: Value)
    ensures var r := ApiCallEffect(c, tokenCount, LoadTestClient.Completed(latency, tokens));
      && r.raised == None
      && r.counters.successfulCalls == c.successfulCalls + 1
      && r.counters.activeSuccessfulCalls == c.activeSuccessfulCalls + 1
      && r.counters.totalToken == c.totalToken + tokenCount
      && r.counters.unsuccessfulCalls == c.unsuccessfulCalls + 1
      && r.counters.maxConcurrentSuccessfulCalls == c.maxConcurrentSuccessfulCalls
      && r.counters.totalTpm == c.totalTpm
      && r.counters.rateLimit == c.rateLimit
  {
  }

  /** An httpx status error: one more unsuccessful call, and one more
      rate-limited call exactly when the status is 429. */
  lemma StatusErrorAccounting(c: Counters, tokenCount: int, status: int)
    ensures var r := ApiCallEffect(c, tokenCount, LoadTestClient.Raised(HttpStatusError(status)));
      && r.raised == None
      && r.counters.unsuccessfulCalls == c.unsuccessfulCalls + 1
      && r.counters.rateLimit == c.rateLimit + (if status == 429 then 1 else 0)
      && r.counters.successfulCalls == c.successfulCalls
  {
  }

  /** Any other Exception, an openai status error with 429 included, is one
      more unsuccessful call and never a rate-limited one; cancellation
      passes through uncounted. */
  lemma OtherErrorAccounting(c: Counters, tokenCount: int, e: Error)
    requires !e.HttpStatusError?
    ensures var r := ApiCallEffect(c, tokenCount, LoadTestClient.Raised(e));
      && (r.raised == None <==> IsException(e))
      && r.counters.unsuccessfulCalls == c.unsuccessfulCalls + (if IsException(e) then 1 else 0)
      && r.counters.rateLimit == c.rateLimit
      && r.counters.successfulCalls == c.successfulCalls
  {
  }

  /** Every call that is not cancelled is counted as unsuccessful, whatever
      else happened. */
  lemma EveryCallUnsuccessful(c: Counters, tokenCount: int, outcome: LoadTestClient.CallOutcome)
    requires outcome.Raised? ==> IsException(outcome.error)
    ensures ApiCallEffect(c, tokenCount, outcome).counters.unsuccessfulCalls == c.unsuccessfulCalls + 1
  {
  }
}
