/** client.py: the accounting `AsyncAzureOpenAIClient.chat_completions` does
    against the root tracker. Only `httpx.HTTPStatusError` is caught, and it
    is not raised again. */
module RootClient {
  import opened Values
  import opened RootMetrics
  import LoadTestClient

  /** The running-mean key the client updates, which the root tracker lacks. */
  const AvgResponseTime: string := "avg_response_time"

  /** `update_metric` on a name the root tracker holds; it cannot fail. */
  function Plus(m: map<string, Value>, name: string, value: Value): (r: map<string, Value>)
    requires Tracked(m) && name in m
    ensures Tracked(r)
  {
    Update(m, name, value).value
  }

  /** The `try` block with its `except httpx.HTTPStatusError` block; an
      exception is returned only when it escapes them. */
  function TryEffect(m: map<string, Value>, promptTokens: nat, outcome: LoadTestClient.CallOutcome): (r: LoadTestClient.Effect)
    requires Tracked(m)
    ensures Tracked(r.metrics)
  {
    match outcome
    case Completed(latency, _) =>
      (match Update(m, AvgResponseTime, Float(latency))
       case Err(e) => LoadTestClient.Effect(m, Some(e))
       case Ok(timed) => LoadTestClient.Effect(Update(timed, TotalTokens, Int(promptTokens)).value, None))
    case Raised(e) =>
      if e.HttpStatusError? then
        var limited := if e.status == 429 then Plus(m, RateLimitCalls, Int(1)) else m;
        LoadTestClient.Effect(Plus(limited, UnsuccessfulCalls, Int(1)), None)
      else LoadTestClient.Effect(m, Some(e))
  }

  /** The whole call: `active_calls` is updated before the `try` and in the
      `finally` block. */
  function ChatEffect(m: map<string, Value>, promptTokens: nat, outcome: LoadTestClient.CallOutcome): (r: LoadTestClient.Effect)
    requires Tracked(m)
    ensures Tracked(r.metrics)
  {
    var t := TryEffect(Plus(m, ActiveCalls, Int(1)), promptTokens, outcome);
    LoadTestClient.Effect(Plus(t.metrics, ActiveCalls, Int(-1)), t.raised)
  }

  class AsyncAzureOpenAIClient {
    const tracker: MetricsTracker

    constructor (tracker: MetricsTracker)
      ensures this.tracker == tracker
    {
      this.tracker := tracker;
    }

    /** `chat_completions` for a prompt of `promptTokens` tokens whose request
        ended in `outcome`; `raised` is the exception the call propagates. */
    method ChatCompletions(promptTokens: nat, outcome: LoadTestClient.CallOutcome) returns (raised: Option<Error>)
      requires tracker.Valid()
      modifies tracker`metrics
      ensures tracker.Valid()
      ensures LoadTestClient.Effect(tracker.metrics, raised) == ChatEffect(old(tracker.metrics), promptTokens, outcome)
    {
      var ignored := tracker.UpdateMetric(ActiveCalls, Int(1));
      match outcome {
        case Completed(latency, _) =>
          raised := tracker.UpdateMetric(AvgResponseTime, Float(latency));
          if raised.None? {
            raised := tracker.UpdateMetric(TotalTokens, Int(promptTokens));
          }
        case Raised(e) =>
          if e.HttpStatusError? {
            if e.status == 429 {
              ignored := tracker.UpdateMetric(RateLimitCalls, Int(1));
            }
            ignored := tracker.UpdateMetric(UnsuccessfulCalls, Int(1));
            raised := None;
          } else {
            raised := Some(e);
          }
      }
      ignored := tracker.UpdateMetric(ActiveCalls, Int(-1));
    }
  }

  /** Whatever the outcome, `active_calls` never changes against this tracker;
      only its high-water mark may rise, to the unchanged count. */
  lemma ActiveCallsUnchanged(m: map<string, Value>, promptTokens: nat, outcome: LoadTestClient.CallOutcome)
    requires Tracked(m)
    ensures var r := ChatEffect(m, promptTokens, outcome).metrics;
      && r[ActiveCalls] == m[ActiveCalls]
      && r[MaxConcurrentCalls] == Max(m[MaxConcurrentCalls], m[ActiveCalls])
  {
    ActiveCallsMarkOnly(m, Int(1));
    var t := TryEffect(Plus(m, ActiveCalls, Int(1)), promptTokens, outcome).metrics;
    assert t[ActiveCalls] == m[ActiveCalls] && t[MaxConcurrentCalls] == Max(m[MaxConcurrentCalls], m[ActiveCalls]) by {
      var s := Plus(m, ActiveCalls, Int(1));
      match outcome
      case Completed(_, _) =>
      case Raised(e) =>
        if e.HttpStatusError? {
          var limited := if e.status == 429 then Plus(s, RateLimitCalls, Int(1)) else s;
          PlainUpdate(s, RateLimitCalls, Int(1));
          PlainUpdate(limited, UnsuccessfulCalls, Int(1));
        }
    }
    ActiveCallsMarkOnly(t, Int(-1));
  }

  /** A completed request fails on the tracker's missing running-mean key:
      KeyError propagates and no tokens are counted. */
  lemma SuccessRaisesKeyError(m: map<string, Value>, promptTokens: nat, latency: real, tokens: Value)
    requires Tracked(m)
    ensures var r := ChatEffect(m, promptTokens, LoadTestClient.Completed(latency, tokens));
      && r.raised == Some(NoSuchMetric(AvgResponseTime))
      && r.metrics[TotalTokens] == m[TotalTokens]
      && r.metrics[SuccessfulCalls] == m[SuccessfulCalls]
      && r.metrics[UnsuccessfulCalls] == m[UnsuccessfulCalls]
  {
    ActiveCallsMarkOnly(m, Int(1));
    ActiveCallsMarkOnly(Plus(m, ActiveCalls, Int(1)), Int(-1));
  }

  /** An HTTP status error is swallowed: one more unsuccessful call, and one
      more rate-limited call exactly when the status is 429. */
  lemma StatusErrorSwallowed(m: map<string, Value>, promptTokens: nat, status: int)
    requires Tracked(m)
    ensures var r := ChatEffect(m, promptTokens, LoadTestClient.Raised(HttpStatusError(status)));
      && r.raised == None
      && Num(r.metrics[UnsuccessfulCalls]) == Num(m[UnsuccessfulCalls]) + 1.0
      && Num(r.metrics[RateLimitCalls]) == Num(m[RateLimitCalls]) + (if status == 429 then 1.0 else 0.0)
      && r.metrics[SuccessfulCalls] == m[SuccessfulCalls]
      && r.metrics[TotalTokens] == m[TotalTokens]
  {
    var s := Plus(m, ActiveCalls, Int(1));
    ActiveCallsMarkOnly(m, Int(1));
    var limited := if status == 429 then Plus(s, RateLimitCalls, Int(1)) else s;
    PlainUpdate(s, RateLimitCalls, Int(1));
    PlainUpdate(limited, UnsuccessfulCalls, Int(1));
    var t := Plus(limited, UnsuccessfulCalls, Int(1));
    ActiveCallsMarkOnly(t, Int(-1));
  }

  /** Every other exception, an openai status error included, propagates and
      is counted nowhere. */
  lemma OtherErrorsPropagate(m: map<string, Value>, promptTokens: nat, e: Error)
    requires Tracked(m) && !e.HttpStatusError?
    ensures var r := ChatEffect(m, promptTokens, LoadTestClient.Raised(e));
      && r.raised == Some(e)
      && forall k :: k in m && k != MaxConcurrentCalls ==> r.metrics[k] == m[k]
  {
    ActiveCallsMarkOnly(m, Int(1));
    ActiveCallsMarkOnly(Plus(m, ActiveCalls, Int(1)), Int(-1));
  }
}
