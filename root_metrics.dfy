/** metrics_tracker.py: the older tracker the root scripts use. It keeps the
    start time and the completion flag in the dictionary itself, and its
    `update_metric("active_calls", v)` only raises the high-water mark. */
module RootMetrics {
  import opened Values
  import LoadTestMetrics

  const ActiveCalls: string := "active_calls"
  const SuccessfulCalls: string := "successful_calls"
  const UnsuccessfulCalls: string := "unsuccessful_calls"
  const MaxConcurrentCalls: string := "max_concurrent_calls"
  const TotalTokens: string := "total_tokens"
  const StartTime: string := "start_time"
  const TestComplete: string := "test_complete"
  const Tpm: string := "tpm"
  const RateLimitCalls: string := "rate_limit_calls"

  /** The keys in the dictionary's insertion order, fixed for the whole run. */
  const Names: seq<string> := [
    ActiveCalls, SuccessfulCalls, UnsuccessfulCalls, MaxConcurrentCalls, TotalTokens,
    StartTime, TestComplete, Tpm, RateLimitCalls
  ]

  const NameSet: set<string> := {
    ActiveCalls, SuccessfulCalls, UnsuccessfulCalls, MaxConcurrentCalls, TotalTokens,
    StartTime, TestComplete, Tpm, RateLimitCalls
  }

  predicate Tracked(m: map<string, Value>) {
    m.Keys == NameSet
  }

  /** The dictionary `__init__` builds at wall-clock time `now`. */
  function InitialMetrics(now: real): (m: map<string, Value>)
    ensures Tracked(m)
    ensures m[StartTime] == Float(now) && m[TestComplete] == Bool(false)
    ensures forall k :: k in m && k != StartTime && k != TestComplete ==> m[k] == Int(0)
  {
    map k | k in NameSet :: if k == StartTime then Float(now) else if k == TestComplete then Bool(false) else Int(0)
  }

  /** The new tracker has no entry for the running mean or the call total. */
  lemma InitialKeys(now: real)
    ensures |InitialMetrics(now)| == 9
    ensures "avg_response_time" !in InitialMetrics(now) && "total_calls" !in InitialMetrics(now)
  {
    assert InitialMetrics(now).Keys == NameSet;
  }

  /** `update_metric(name, value)` on any dictionary `m`. */
  function Update(m: map<string, Value>, name: string, value: Value): (r: Result<map<string, Value>>)
    ensures Tracked(m) ==> (r.Err? <==> name !in m)
    ensures Tracked(m) && r.Ok? ==> Tracked(r.value)
    ensures name !in m ==> r == Err(NoSuchMetric(name))
  {
    if name !in m then Err(NoSuchMetric(name))
    else if name == ActiveCalls then
      if MaxConcurrentCalls !in m then Err(KeyError(MaxConcurrentCalls))
      else Ok(m[MaxConcurrentCalls := Max(m[MaxConcurrentCalls], m[ActiveCalls])])
    else if name == TotalTokens then Ok(m[TotalTokens := Add(m[TotalTokens], value)])
    else Ok(m[name := Add(m[name], value)])
  }

  /** `update_metric("active_calls", v)` raises the mark to the current count
      and changes nothing else: the count itself never moves. */
  lemma ActiveCallsMarkOnly(m: map<string, Value>, value: Value)
    requires Tracked(m)
    ensures Update(m, ActiveCalls, value).Ok?
    ensures var r := Update(m, ActiveCalls, value).value;
      && r[MaxConcurrentCalls] == Max(m[MaxConcurrentCalls], m[ActiveCalls])
      && r[ActiveCalls] == m[ActiveCalls]
      && forall k :: k in m && k != MaxConcurrentCalls ==> r[k] == m[k]
  {
  }

  /** Any other known name: that entry grows by the value, nothing else changes. */
  lemma PlainUpdate(m: map<string, Value>, name: string, value: Value)
    requires Tracked(m) && name in m && name != ActiveCalls
    ensures Update(m, name, value) == Ok(m[name := Add(m[name], value)])
    ensures Num(Update(m, name, value).value[name]) == Num(m[name]) + Num(value)
  {
  }

  /** What `set_metric(name, v)` stores, `get_metric(name)` returns, and every
      other key still reads what it read before. */
  lemma SetThenGet(m: map<string, Value>, name: string, value: Value)
    requires Tracked(m) && name in NameSet
    ensures LoadTestMetrics.Set(m, name, value).Ok? && Tracked(LoadTestMetrics.Set(m, name, value).value)
    ensures LoadTestMetrics.Get(LoadTestMetrics.Set(m, name, value).value, name) == Ok(value)
    ensures forall k :: k != name ==>
      LoadTestMetrics.Get(LoadTestMetrics.Set(m, name, value).value, k) == LoadTestMetrics.Get(m, k)
  {
  }

  /** Names this tracker does not hold, among them the running mean the root
      client asks for, raise KeyError from all three accessors. */
  lemma UnknownNameRejected(m: map<string, Value>, name: string, value: Value)
    requires Tracked(m) && name !in NameSet
    ensures Update(m, name, value) == Err(NoSuchMetric(name))
    ensures LoadTestMetrics.Set(m, name, value) == Err(NoSuchMetric(name))
    ensures LoadTestMetrics.Get(m, name) == Err(NoSuchMetric(name))
  {
  }

  /** `get_metrics()`: the dictionary in its order, then `tokens_per_minute`
      computed from `total_tokens` and the stored start time. */
  function Snapshot(m: map<string, Value>, now: real): (r: seq<LoadTestMetrics.Entry>)
    requires Tracked(m)
    ensures |r| == |Names| + 1
  {
    seq(|Names|, i requires 0 <= i < |Names| => LoadTestMetrics.Entry(Names[i], m[Names[i]]))
      + [LoadTestMetrics.Entry(LoadTestMetrics.TokensPerMinute,
           LoadTestMetrics.Rate(m[TotalTokens], now - Num(m[StartTime])))]
  }

  /** A snapshot answers every key with the stored value and the derived key
      with the token rate since the stored start time. */
  lemma SnapshotAgrees(m: map<string, Value>, now: real)
    requires Tracked(m)
    ensures forall k :: k in m ==> LoadTestMetrics.Lookup(Snapshot(m, now), k) == Some(m[k])
    ensures LoadTestMetrics.Lookup(Snapshot(m, now), LoadTestMetrics.TokensPerMinute)
      == Some(LoadTestMetrics.Rate(m[TotalTokens], now - Num(m[StartTime])))
  {
    var s := Snapshot(m, now);
    forall k | k in m ensures LoadTestMetrics.Lookup(s, k) == Some(m[k]) {
      assert k in Names;
      var i :| 0 <= i < |Names| && Names[i] == k;
      LoadTestMetrics.LookupFirst(s, k, i);
    }
    LoadTestMetrics.LookupFirst(s, LoadTestMetrics.TokensPerMinute, |Names|);
  }

  class MetricsTracker {
    var metrics: map<string, Value>

    ghost predicate Valid()
      reads this
    {
      Tracked(metrics)
    }

    constructor (now: real)
      ensures Valid() && metrics == InitialMetrics(now)
    {
      metrics := InitialMetrics(now);
    }

    method UpdateMetric(name: string, value: Value) returns (raised: Option<Error>)
      modifies this`metrics
      ensures old(Valid()) ==> Valid()
      ensures match Update(old(metrics), name, value)
        case Ok(m) => raised == None && metrics == m
        case Err(e) => raised == Some(e) && metrics == old(metrics)
    {
      if name !in metrics {
        return Some(NoSuchMetric(name));
      }
      if name == ActiveCalls {
        if MaxConcurrentCalls !in metrics {
          return Some(KeyError(MaxConcurrentCalls));
        }
        metrics := metrics[MaxConcurrentCalls := Max(metrics[MaxConcurrentCalls], metrics[ActiveCalls])];
      } else if name == TotalTokens {
        metrics := metrics[TotalTokens := Add(metrics[TotalTokens], value)];
      } else {
        metrics := metrics[name := Add(metrics[name], value)];
      }
      raised := None;
    }

    method SetMetric(name: string, value: Value) returns (raised: Option<Error>)
      modifies this`metrics
      ensures old(Valid()) ==> Valid()
      ensures match LoadTestMetrics.Set(old(metrics), name, value)
        case Ok(m) => raised == None && metrics == m
        case Err(e) => raised == Some(e) && metrics == old(metrics)
    {
      if name in metrics {
        metrics := metrics[name := value];
        raised := None;
      } else {
        raised := Some(NoSuchMetric(name));
      }
    }

    method GetMetric(name: string) returns (r: Result<Value>)
      ensures r == LoadTestMetrics.Get(metrics, name)
    {
      if name in metrics {
        r := Ok(metrics[name]);
      } else {
        r := Err(NoSuchMetric(name));
      }
    }

    /** `get_metrics()` at wall-clock time `now`; reads the dictionary only. */
    method GetMetrics(now: real) returns (snapshot: seq<LoadTestMetrics.Entry>)
      requires Valid()
      ensures snapshot == Snapshot(metrics, now)
    {
      var elapsed := now - Num(metrics[StartTime]);
      var rate := if elapsed > 0.0 then Float(Num(metrics[TotalTokens]) / elapsed * 60.0) else Int(0);
      snapshot := [];
      for i := 0 to |Names|
        invariant snapshot == Snapshot(metrics, now)[..i]
      {
        snapshot := snapshot + [LoadTestMetrics.Entry(Names[i], metrics[Names[i]])];
      }
      snapshot := snapshot + [LoadTestMetrics.Entry(LoadTestMetrics.TokensPerMinute, rate)];
    }

    /** The flag is the dictionary's own `test_complete` entry, written
        through set_metric; the default argument is True. */
    method SetTestComplete(value: bool := true)
      requires Valid()
      modifies this`metrics
      ensures Valid() && metrics == old(metrics)[TestComplete := Bool(value)]
    {
      var raised := SetMetric(TestComplete, Bool(value));
    }

    /** `is_test_complete()`: the stored entry, read through get_metric. */
    method IsTestComplete() returns (r: Value)
      requires Valid()
      ensures r == metrics[TestComplete]
    {
      var got := GetMetric(TestComplete);
      r := got.value;
    }
  }

  /** What set_test_complete stores, is_test_complete reads back, and its
      truth is the flag that was set. */
  lemma TestCompleteRoundTrip(m: map<string, Value>, value: bool)
    requires Tracked(m)
    ensures LoadTestMetrics.Set(m, TestComplete, Bool(value)).Ok?
    ensures LoadTestMetrics.Get(LoadTestMetrics.Set(m, TestComplete, Bool(value)).value, TestComplete) == Ok(Bool(value))
    ensures Truthy(LoadTestMetrics.Set(m, TestComplete, Bool(value)).value[TestComplete]) <==> value
  {
  }
}
