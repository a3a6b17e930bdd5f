/** load_test/client.py: the accounting one `chat_completions` call does on the
    tracker. The request itself is not modelled; its outcome is an input. */
module LoadTestClient {
  import opened Values
  import opened LoadTestMetrics

  /** The backend `__init__` selects by `client_type`. */
  datatype Backend = AzureBackend | OpenAiBackend | CustomBackend

  /** `__init__`: the encoding is checked first, then the client type;
      "custom" needs the optional `CustomClient` import to have succeeded. */
  function Configure(clientType: string, encoding: string, knownEncodings: set<string>, customAvailable: bool): (r: Result<Backend>)
    ensures r.Ok? <==> (encoding in knownEncodings
      && (clientType == "azure" || clientType == "openai" || (clientType == "custom" && customAvailable)))
    ensures encoding !in knownEncodings ==> r == Err(ValueError("Unsupported TikToken encoding: " + encoding))
    ensures r.Ok? ==> ((r.value == AzureBackend <==> clientType == "azure")
      && (r.value == OpenAiBackend <==> clientType == "openai")
      && (r.value == CustomBackend <==> clientType == "custom"))
  {
    if encoding !in knownEncodings then Err(ValueError("Unsupported TikToken encoding: " + encoding))
    else if clientType == "azure" then Ok(AzureBackend)
    else if clientType == "openai" then Ok(OpenAiBackend)
    else if clientType == "custom" then
      if customAvailable then Ok(CustomBackend) else Err(ValueError("CustomClient is not defined."))
    else Err(ValueError("Unsupported client type: " + clientType))
  }

  /** What the request to the endpoint did: it returned after `latency`
      seconds with a token count, or it raised. */
  datatype CallOutcome = Completed(latency: real, tokens: Value) | Raised(error: Error)

  /** The dictionary after a call, and the exception the call ends with, if any. */
  datatype Effect = Effect(metrics: map<string, Value>, raised: Option<Error>)

  /** `except (httpx.HTTPStatusError, APIError)`: openai's APIError covers
      both status errors and connection errors. */
  predicate Caught(e: Error) {
    e.HttpStatusError? || e.ApiStatusError? || e.ApiConnectionError?
  }

  /** `str(type(v))` for the token count. */
  function TypeName(v: Value): string {
    match v
    case Int(_) => "<class 'int'>"
    case Float(_) => "<class 'float'>"
    case Bool(_) => "<class 'bool'>"
  }

  /** `update_metric` on a name whose update cannot fail. */
  function Plus(m: map<string, Value>, name: string, value: Value): (r: map<string, Value>)
    requires Tracked(m) && name in m && name != AvgResponseTime
    ensures Tracked(r)
  {
    Update(m, name, value).value
  }

  /** The `except` block for a caught error: the status code is read from
      `e.response`, which a connection error does not have. */
  function Handled(m: map<string, Value>, e: Error): (r: Effect)
    requires Tracked(m) && Caught(e)
    ensures Tracked(r.metrics)
  {
    if !HasResponse(e) then Effect(m, Some(AttributeError("response")))
    else
      var limited := if e.status == 429 then Plus(m, RateLimitCalls, Int(1)) else m;
      Effect(Plus(limited, UnsuccessfulCalls, Int(1)), Some(e))
  }

  /** The `try` block together with its `except` block. */
  function TryEffect(m: map<string, Value>, outcome: CallOutcome): (r: Effect)
    requires Tracked(m)
    ensures Tracked(r.metrics)
  {
    var started := Plus(m, ActiveCalls, Int(1));
    match outcome
    case Raised(e) => if Caught(e) then Handled(started, e) else Effect(started, Some(e))
    case Completed(latency, tokens) =>
      match Update(started, AvgResponseTime, Float(latency))
      case Err(e) => Effect(started, Some(e))
      case Ok(timed) =>
        if !tokens.Int? then Effect(timed, Some(ValueError("Unsupported token count type: " + TypeName(tokens))))
        else Effect(Plus(timed, SuccessfulTokenCount, Add(tokens, tokens)), None)
  }

  /** The whole call: input tokens are counted before the `try`, and the
      `finally` block runs whatever the outcome. */
  function ChatEffect(m: map<string, Value>, promptTokens: nat, outcome: CallOutcome): (r: Effect)
    requires Tracked(m)
    ensures Tracked(r.metrics)
  {
    var counted := Plus(m, TotalInputTokens, Int(promptTokens));
    var t := TryEffect(counted, outcome);
    Effect(Plus(Plus(t.metrics, ActiveCalls, Int(-1)), TotalCalls, Int(1)), t.raised)
  }

  /** The value stored under `name`, as a number. */
  function Count(m: map<string, Value>, name: string): real
    requires Tracked(m) && name in NameSet
  {
    Num(m[name])
  }

  /** The running mean can absorb one more latency (it fails only when
      `successful_calls` is -1, which only set_metric could store). */
  predicate CanAverage(m: map<string, Value>) {
    Tracked(m) && Num(m[SuccessfulCalls]) != -1.0
  }

  /** `update_metric` on a name other than the two special ones changes
      that entry alone. */
  lemma PlusOther(m: map<string, Value>, name: string, value: Value)
    requires Tracked(m) && name in m && name != AvgResponseTime && name != ActiveCalls
    ensures Plus(m, name, value) == m[name := Add(m[name], value)]
  {
  }

  /** `update_metric("active_calls", v)` changes the count and the mark alone. */
  lemma PlusActive(m: map<string, Value>, value: Value)
    requires Tracked(m)
    ensures Plus(m, ActiveCalls, value)
      == m[MaxConcurrentCalls := Max(m[MaxConcurrentCalls], m[ActiveCalls])][ActiveCalls := Add(m[ActiveCalls], value)]
  {
  }

  /** What the `try` block leaves in the entries the `finally` block and the
      counting of input tokens touch. */
  lemma TryEffectFrame(m: map<string, Value>, outcome: CallOutcome)
    requires Tracked(m)
    ensures var r := TryEffect(m, outcome).metrics;
      && r[TotalCalls] == m[TotalCalls]
      && r[TotalInputTokens] == m[TotalInputTokens]
      && r[ActiveCalls] == Add(m[ActiveCalls], Int(1))
      && r[MaxConcurrentCalls] == Max(m[MaxConcurrentCalls], m[ActiveCalls])
  {
    var started := Plus(m, ActiveCalls, Int(1));
    PlusActive(m, Int(1));
    match outcome
    case Raised(e) =>
      if Caught(e) && HasResponse(e) {
        var limited := if e.status == 429 then Plus(started, RateLimitCalls, Int(1)) else started;
        PlusOther(started, RateLimitCalls, Int(1));
        PlusOther(limited, UnsuccessfulCalls, Int(1));
      }
    case Completed(latency, tokens) =>
      if Num(started[SuccessfulCalls]) != -1.0 {
        AvgResponseTimeUpdate(started, Float(latency));
        var timed := Update(started, AvgResponseTime, Float(latency)).value;
        PlusOther(timed, SuccessfulTokenCount, Add(tokens, tokens));
      }
  }

  /** Outside the entries the `finally` block and the counting of input
      tokens touch, a call does what its `try` block does. */
  lemma ChatEffectIsTryEffect(m: map<string, Value>, promptTokens: nat, outcome: CallOutcome, k: string)
    requires Tracked(m) && k in m
    requires k != TotalCalls && k != TotalInputTokens && k != ActiveCalls && k != MaxConcurrentCalls
    ensures ChatEffect(m, promptTokens, outcome).raised == TryEffect(m[TotalInputTokens := Add(m[TotalInputTokens], Int(promptTokens))], outcome).raised
    ensures ChatEffect(m, promptTokens, outcome).metrics[k] == TryEffect(m[TotalInputTokens := Add(m[TotalInputTokens], Int(promptTokens))], outcome).metrics[k]
  {
    PlusOther(m, TotalInputTokens, Int(promptTokens));
    var t := TryEffect(Plus(m, TotalInputTokens, Int(promptTokens)), outcome).metrics;
    PlusActive(t, Int(-1));
    PlusOther(Plus(t, ActiveCalls, Int(-1)), TotalCalls, Int(1));
  }

  /** Whatever the outcome: the call is counted once, the in-flight count is
      back where it was, the prompt's tokens are counted, and the high-water
      mark covers the call itself being in flight. */
  lemma EveryCallCounted(m: map<string, Value>, promptTokens: nat, outcome: CallOutcome)
    requires Tracked(m)
    ensures var r := ChatEffect(m, promptTokens, outcome).metrics;
      && Count(r, TotalCalls) == Count(m, TotalCalls) + 1.0
      && Count(r, ActiveCalls) == Count(m, ActiveCalls)
      && Count(r, TotalInputTokens) == Count(m, TotalInputTokens) + promptTokens as real
      && Count(r, MaxConcurrentCalls) >= Count(m, MaxConcurrentCalls)
      && Count(r, MaxConcurrentCalls) >= Count(m, ActiveCalls) + 1.0
      && (Count(r, MaxConcurrentCalls) == Count(m, MaxConcurrentCalls)
          || Count(r, MaxConcurrentCalls) == Count(m, ActiveCalls) + 1.0)
  {
    var counted := Plus(m, TotalInputTokens, Int(promptTokens));
    PlusOther(m, TotalInputTokens, Int(promptTokens));
    var t := TryEffect(counted, outcome).metrics;
    TryEffectFrame(counted, outcome);
    var ended := Plus(t, ActiveCalls, Int(-1));
    PlusActive(t, Int(-1));
    PlusOther(ended, TotalCalls, Int(1));
  }

  /** A completed request with an int token count: one more successful call,
      its latency folded into the mean, and the token count added twice. */
  lemma SuccessAccounting(m: map<string, Value>, promptTokens: nat, latency: real, tokens: int)
    requires CanAverage(m)
    ensures var e := ChatEffect(m, promptTokens, Completed(latency, Int(tokens)));
      && e.raised == None
      && Count(e.metrics, SuccessfulCalls) == Count(m, SuccessfulCalls) + 1.0
      && Absorbed(e.metrics) == Absorbed(m) + latency
      && Count(e.metrics, SuccessfulTokenCount) == Count(m, SuccessfulTokenCount) + 2.0 * tokens as real
      && e.metrics[UnsuccessfulCalls] == m[UnsuccessfulCalls]
      && e.metrics[RateLimitCalls] == m[RateLimitCalls]
  {
    var outcome := Completed(latency, Int(tokens));
    var counted := m[TotalInputTokens := Add(m[TotalInputTokens], Int(promptTokens))];
    var started := Plus(counted, ActiveCalls, Int(1));
    PlusActive(counted, Int(1));
    AvgResponseTimeUpdate(started, Float(latency));
    var timed := Update(started, AvgResponseTime, Float(latency)).value;
    PlusOther(timed, SuccessfulTokenCount, Int(tokens + tokens));
    ChatEffectIsTryEffect(m, promptTokens, outcome, SuccessfulCalls);
    ChatEffectIsTryEffect(m, promptTokens, outcome, AvgResponseTime);
    ChatEffectIsTryEffect(m, promptTokens, outcome, SuccessfulTokenCount);
    ChatEffectIsTryEffect(m, promptTokens, outcome, UnsuccessfulCalls);
    ChatEffectIsTryEffect(m, promptTokens, outcome, RateLimitCalls);
    var e := ChatEffect(m, promptTokens, outcome);
    assert e.raised == None;
    assert e.metrics[SuccessfulCalls] == timed[SuccessfulCalls];
    assert e.metrics[AvgResponseTime] == timed[AvgResponseTime];
    assert e.metrics[SuccessfulTokenCount] == Add(timed[SuccessfulTokenCount], Int(tokens + tokens));
  }

  /** A token count that is not exactly an int (a float, or a bool) raises
      ValueError after the call was already counted as successful; the
      tokens are not counted and the call is not counted as unsuccessful. */
  lemma NonIntTokensAccounting(m: map<string, Value>, promptTokens: nat, latency: real, tokens: Value)
    requires CanAverage(m) && !tokens.Int?
    ensures var e := ChatEffect(m, promptTokens, Completed(latency, tokens));
      && e.raised == Some(ValueError("Unsupported token count type: " + TypeName(tokens)))
      && Count(e.metrics, SuccessfulCalls) == Count(m, SuccessfulCalls) + 1.0
      && e.metrics[SuccessfulTokenCount] == m[SuccessfulTokenCount]
      && e.metrics[UnsuccessfulCalls] == m[UnsuccessfulCalls]
      && e.metrics[RateLimitCalls] == m[RateLimitCalls]
  {
    var outcome := Completed(latency, tokens);
    var counted := m[TotalInputTokens := Add(m[TotalInputTokens], Int(promptTokens))];
    var started := Plus(counted, ActiveCalls, Int(1));
    PlusActive(counted, Int(1));
    AvgResponseTimeUpdate(started, Float(latency));
    ChatEffectIsTryEffect(m, promptTokens, outcome, SuccessfulCalls);
    ChatEffectIsTryEffect(m, promptTokens, outcome, SuccessfulTokenCount);
    ChatEffectIsTryEffect(m, promptTokens, outcome, UnsuccessfulCalls);
    ChatEffectIsTryEffect(m, promptTokens, outcome, RateLimitCalls);
  }

  /** An error carrying an HTTP response: one more unsuccessful call, one more
      rate-limited call exactly when the status is 429, and the error is
      raised again. */
  lemma StatusErrorAccounting(m: map<string, Value>, promptTokens: nat, e: Error)
    requires Tracked(m) && HasResponse(e)
    ensures var r := ChatEffect(m, promptTokens, Raised(e));
      && r.raised == Some(e)
      && Count(r.metrics, UnsuccessfulCalls) == Count(m, UnsuccessfulCalls) + 1.0
      && Count(r.metrics, RateLimitCalls) == Count(m, RateLimitCalls) + (if e.status == 429 then 1.0 else 0.0)
      && r.metrics[SuccessfulCalls] == m[SuccessfulCalls]
      && r.metrics[SuccessfulTokenCount] == m[SuccessfulTokenCount]
      && r.metrics[AvgResponseTime] == m[AvgResponseTime]
  {
    var outcome := Raised(e);
    var counted := m[TotalInputTokens := Add(m[TotalInputTokens], Int(promptTokens))];
    var started := Plus(counted, ActiveCalls, Int(1));
    PlusActive(counted, Int(1));
    var limited := if e.status == 429 then Plus(started, RateLimitCalls, Int(1)) else started;
    PlusOther(started, RateLimitCalls, Int(1));
    PlusOther(limited, UnsuccessfulCalls, Int(1));
    ChatEffectIsTryEffect(m, promptTokens, outcome, SuccessfulCalls);
    ChatEffectIsTryEffect(m, promptTokens, outcome, AvgResponseTime);
    ChatEffectIsTryEffect(m, promptTokens, outcome, SuccessfulTokenCount);
    ChatEffectIsTryEffect(m, promptTokens, outcome, UnsuccessfulCalls);
    ChatEffectIsTryEffect(m, promptTokens, outcome, RateLimitCalls);
  }

  /** An APIError without a response (a connection error or a timeout): the
      handler's `e.response` raises AttributeError before anything is counted. */
  lemma ConnectionErrorAccounting(m: map<string, Value>, promptTokens: nat)
    requires Tracked(m)
    ensures var r := ChatEffect(m, promptTokens, Raised(ApiConnectionError));
      && r.raised == Some(AttributeError("response"))
      && r.metrics[UnsuccessfulCalls] == m[UnsuccessfulCalls]
      && r.metrics[RateLimitCalls] == m[RateLimitCalls]
      && r.metrics[SuccessfulCalls] == m[SuccessfulCalls]
  {
    var outcome := Raised(ApiConnectionError);
    var counted := m[TotalInputTokens := Add(m[TotalInputTokens], Int(promptTokens))];
    PlusActive(counted, Int(1));
    ChatEffectIsTryEffect(m, promptTokens, outcome, SuccessfulCalls);
    ChatEffectIsTryEffect(m, promptTokens, outcome, UnsuccessfulCalls);
    ChatEffectIsTryEffect(m, promptTokens, outcome, RateLimitCalls);
  }

  /** Any other exception, cancellation included, passes through the
      `finally` block only. */
  lemma UncaughtAccounting(m: map<string, Value>, promptTokens: nat, e: Error)
    requires Tracked(m) && !Caught(e)
    ensures var r := ChatEffect(m, promptTokens, Raised(e));
      && r.raised == Some(e)
      && forall k :: k in m && k != TotalCalls && k != TotalInputTokens && k != MaxConcurrentCalls ==>
        Count(r.metrics, k) == Count(m, k)
  {
    var counted := m[TotalInputTokens := Add(m[TotalInputTokens], Int(promptTokens))];
    PlusActive(counted, Int(1));
    forall k | k in m && k != TotalCalls && k != TotalInputTokens && k != MaxConcurrentCalls
      ensures Count(ChatEffect(m, promptTokens, Raised(e)).metrics, k) == Count(m, k)
    {
      if k != ActiveCalls {
        ChatEffectIsTryEffect(m, promptTokens, Raised(e), k);
      } else {
        EveryCallCounted(m, promptTokens, Raised(e));
      }
    }
  }

  /** Every call counted is either successful or unsuccessful. */
  predicate Balanced(m: map<string, Value>)
    requires Tracked(m)
  {
    Count(m, TotalCalls) == Count(m, SuccessfulCalls) + Count(m, UnsuccessfulCalls)
  }

  /** A call keeps the counts balanced exactly when the request completed or
      failed with an HTTP response; a connection error or any other exception
      is counted in `total_calls` only. */
  lemma BalanceKeptExactly(m: map<string, Value>, promptTokens: nat, outcome: CallOutcome)
    requires CanAverage(m) && Balanced(m)
    ensures Balanced(ChatEffect(m, promptTokens, outcome).metrics)
      <==> outcome.Completed? || HasResponse(outcome.error)
  {
    EveryCallCounted(m, promptTokens, outcome);
    match outcome
    case Completed(latency, tokens) =>
      if tokens.Int? {
        SuccessAccounting(m, promptTokens, latency, tokens.i);
      } else {
        NonIntTokensAccounting(m, promptTokens, latency, tokens);
      }
    case Raised(e) =>
      if HasResponse(e) {
        StatusErrorAccounting(m, promptTokens, e);
      } else if e.ApiConnectionError? {
        ConnectionErrorAccounting(m, promptTokens);
      } else {
        UncaughtAccounting(m, promptTokens, e);
      }
  }

  class AsyncClient {
    const tracker: MetricsTracker
    const backend: Backend

    constructor (tracker: MetricsTracker, backend: Backend)
      ensures this.tracker == tracker && this.backend == backend
    {
      this.tracker := tracker;
      this.backend := backend;
    }

    /** `chat_completions` for a prompt of `promptTokens` tokens whose request
        ended in `outcome`; `raised` is the exception the call propagates. */
    method ChatCompletions(promptTokens: nat, outcome: CallOutcome) returns (raised: Option<Error>)
      requires tracker.Valid()
      modifies tracker`metrics
      ensures tracker.Valid()
      ensures Effect(tracker.metrics, raised) == ChatEffect(old(tracker.metrics), promptTokens, outcome)
    {
      var ignored := tracker.UpdateMetric(TotalInputTokens, Int(promptTokens));
      raised := TryBlock(outcome);
      ignored := tracker.UpdateMetric(ActiveCalls, Int(-1));
      ignored := tracker.UpdateMetric(TotalCalls, Int(1));
    }

    /** The `try` block and its `except` block; returns the exception in flight. */
    method TryBlock(outcome: CallOutcome) returns (raised: Option<Error>)
      requires tracker.Valid()
      modifies tracker`metrics
      ensures tracker.Valid()
      ensures Effect(tracker.metrics, raised) == TryEffect(old(tracker.metrics), outcome)
    {
      var ignored := tracker.UpdateMetric(ActiveCalls, Int(1));
      match outcome {
        case Raised(e) =>
          if Caught(e) {
            raised := HandleError(e);
          } else {
            raised := Some(e);
          }
        case Completed(latency, tokens) =>
          raised := tracker.UpdateMetric(AvgResponseTime, Float(latency));
          if raised.None? {
            if !tokens.Int? {
              raised := Some(ValueError("Unsupported token count type: " + TypeName(tokens)));
            } else {
              raised := tracker.UpdateMetric(SuccessfulTokenCount, Add(tokens, tokens));
            }
          }
      }
    }

    /** The `except` block; returns the exception it raises. */
    method HandleError(e: Error) returns (raised: Option<Error>)
      requires tracker.Valid() && Caught(e)
      modifies tracker`metrics
      ensures tracker.Valid()
      ensures Effect(tracker.metrics, raised) == Handled(old(tracker.metrics), e)
    {
      if !HasResponse(e) {
        return Some(AttributeError("response"));
      }
      var ignored;
      if e.status == 429 {
        ignored := tracker.UpdateMetric(RateLimitCalls, Int(1));
      }
      ignored := tracker.UpdateMetric(UnsuccessfulCalls, Int(1));
      raised := Some(e);
    }
  }
}
