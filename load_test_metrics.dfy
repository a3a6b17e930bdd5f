/** load_test/metrics_tracker.py: the keyed store of run statistics. Every
    method runs under one asyncio lock, so each call is one atomic transition
    of the dictionary. The pure functions below give each transition; the
    class applies them in place. */
module LoadTestMetrics {
  import opened Values

  const ActiveCalls: string := "active_calls"
  const SuccessfulCalls: string := "successful_calls"
  const UnsuccessfulCalls: string := "unsuccessful_calls"
  const TotalCalls: string := "total_calls"
  const MaxConcurrentCalls: string := "max_concurrent_calls"
  const TotalInputTokens: string := "total_input_tokens"
  /** spelled as in the dictionary */
  const SuccessfulTokenCount: string := "sucessful_token_count"
  const RateLimitCalls: string := "rate_limit_calls"
  const AvgResponseTime: string := "avg_response_time"
  /** the derived entry `get_metrics` appends */
  const TokensPerMinute: string := "tokens_per_minute"

  /** The metric names in the dictionary's insertion order. Assignments to an
      existing key keep its place, and no key is ever added or removed, so
      this is the order of the dictionary for the whole run. */
  const Names: seq<string> := [
    ActiveCalls, SuccessfulCalls, UnsuccessfulCalls, TotalCalls, MaxConcurrentCalls,
    TotalInputTokens, SuccessfulTokenCount, RateLimitCalls, AvgResponseTime
  ]

  const NameSet: set<string> := {
    ActiveCalls, SuccessfulCalls, UnsuccessfulCalls, TotalCalls, MaxConcurrentCalls,
    TotalInputTokens, SuccessfulTokenCount, RateLimitCalls, AvgResponseTime
  }

  /** The dictionary holds exactly the nine names. */
  predicate Tracked(m: map<string, Value>) {
    m.Keys == NameSet
  }

  /** The dictionary `__init__` builds. */
  function InitialMetrics(): (m: map<string, Value>)
    ensures Tracked(m)
    ensures forall k :: k in m ==> m[k] == Int(0)
  {
    map k | k in NameSet :: Int(0)
  }

  /** `update_metric(name, value)` on dictionary `m`. */
  function Update(m: map<string, Value>, name: string, value: Value): (r: Result<map<string, Value>>)
    requires Tracked(m)
    ensures r.Ok? ==> Tracked(r.value)
    ensures r.Err? <==> name !in m || (name == AvgResponseTime && Num(m[SuccessfulCalls]) == -1.0)
    ensures name !in m ==> r == Err(NoSuchMetric(name))
    ensures name in m && r.Err? ==> r.error == ZeroDivisionError
  {
    if name !in m then Err(NoSuchMetric(name))
    else if name == ActiveCalls then
      var marked := m[MaxConcurrentCalls := Max(m[MaxConcurrentCalls], m[ActiveCalls])];
      Ok(marked[ActiveCalls := Add(marked[ActiveCalls], value)])
    else if name == AvgResponseTime then
      var n := m[SuccessfulCalls];
      match TrueDiv(Add(Mul(m[AvgResponseTime], n), value), Add(n, Int(1)))
      case Err(e) => Err(e)
      case Ok(avg) =>
        var averaged := m[AvgResponseTime := avg];
        Ok(averaged[SuccessfulCalls := Add(averaged[SuccessfulCalls], Int(1))])
    else Ok(m[name := Add(m[name], value)])
  }

  /** `set_metric(name, value)` on dictionary `m`. */
  function Set(m: map<string, Value>, name: string, value: Value): (r: Result<map<string, Value>>)
    ensures r.Err? <==> name !in m
    ensures r.Err? ==> r.error == NoSuchMetric(name)
    ensures r.Ok? ==> r.value.Keys == m.Keys && r.value[name] == value
    ensures r.Ok? ==> forall k :: k in m && k != name ==> r.value[k] == m[k]
  {
    if name in m then Ok(m[name := value]) else Err(NoSuchMetric(name))
  }

  /** `get_metric(name)` on dictionary `m`. */
  function Get(m: map<string, Value>, name: string): (r: Result<Value>)
    ensures r.Err? <==> name !in m
    ensures r.Err? ==> r.error == NoSuchMetric(name)
    ensures r.Ok? ==> r.value == m[name]
  {
    if name in m then Ok(m[name]) else Err(NoSuchMetric(name))
  }

  /** One key/value pair of a dictionary returned to a caller, in order. */
  datatype Entry = Entry(key: string, value: Value)

  /** The first value stored under `key` in an ordered list of entries. */
  function Lookup(entries: seq<Entry>, key: string): Option<Value> {
    if entries == [] then None
    else if entries[0].key == key then Some(entries[0].value)
    else Lookup(entries[1..], key)
  }

  /** `tokens_per_minute`: tokens over elapsed seconds, times 60; the int 0
      when no time has elapsed. */
  function Rate(tokens: Value, elapsed: real): (r: Value)
    ensures elapsed > 0.0 ==> r.Float? && r.x * elapsed == Num(tokens) * 60.0
    ensures elapsed <= 0.0 ==> r == Int(0)
  {
    if elapsed > 0.0 then Float(Num(tokens) / elapsed * 60.0) else Int(0)
  }

  /** `get_metrics()`: a copy of the dictionary, in its order, followed by
      `tokens_per_minute`. */
  function Snapshot(m: map<string, Value>, elapsed: real): (r: seq<Entry>)
    requires Tracked(m)
    ensures |r| == |Names| + 1
  {
    seq(|Names|, i requires 0 <= i < |Names| => Entry(Names[i], m[Names[i]]))
      + [Entry(TokensPerMinute, Rate(m[SuccessfulTokenCount], elapsed))]
  }

  /** A snapshot answers every metric name with the stored value and the
      derived name with the token rate; keys are never repeated. */
  lemma SnapshotAgrees(m: map<string, Value>, elapsed: real)
    requires Tracked(m)
    ensures forall k :: k in m ==> Lookup(Snapshot(m, elapsed), k) == Some(m[k])
    ensures Lookup(Snapshot(m, elapsed), TokensPerMinute) == Some(Rate(m[SuccessfulTokenCount], elapsed))
    ensures forall i, j :: 0 <= i < j < |Snapshot(m, elapsed)| ==>
      Snapshot(m, elapsed)[i].key != Snapshot(m, elapsed)[j].key
  {
    var s := Snapshot(m, elapsed);
    forall k | k in m ensures Lookup(s, k) == Some(m[k]) {
      assert k in Names;
      var i :| 0 <= i < |Names| && Names[i] == k;
      LookupFirst(s, k, i);
    }
    LookupFirst(s, TokensPerMinute, |Names|);
  }

  /** The first entry with a key is the one Lookup finds. */
  lemma {:induction false} LookupFirst(entries: seq<Entry>, key: string, i: nat)
    requires i < |entries| && entries[i].key == key
    requires forall j :: 0 <= j < i ==> entries[j].key != key
    ensures Lookup(entries, key) == Some(entries[i].value)
  {
    if i > 0 {
      LookupFirst(entries[1..], key, i - 1);
    }
  }

  /** Two snapshots of the same dictionary differ at most in the token rate. */
  lemma SnapshotsDifferOnlyInRate(m: map<string, Value>, e1: real, e2: real)
    requires Tracked(m)
    ensures Snapshot(m, e1)[..|Names|] == Snapshot(m, e2)[..|Names|]
    ensures e1 > 0.0 && e2 > 0.0 && Num(m[SuccessfulTokenCount]) != 0.0 && e1 != e2 ==>
      Snapshot(m, e1) != Snapshot(m, e2)
  {
  }

  /** An unknown name raises KeyError from update_metric, set_metric and
      get_metric, and nothing is stored. */
  lemma UnknownNameRejected(m: map<string, Value>, name: string, value: Value)
    requires Tracked(m) && name !in NameSet
    ensures Update(m, name, value) == Err(NoSuchMetric(name))
    ensures Set(m, name, value) == Err(NoSuchMetric(name))
    ensures Get(m, name) == Err(NoSuchMetric(name))
  {
  }

  /** `update_metric("active_calls", v)` first raises the high-water mark to
      the count before the update, then adds v; nothing else changes. */
  lemma ActiveCallsUpdate(m: map<string, Value>, value: Value)
    requires Tracked(m)
    ensures Update(m, ActiveCalls, value).Ok?
    ensures var r := Update(m, ActiveCalls, value).value;
      && r[MaxConcurrentCalls] == Max(m[MaxConcurrentCalls], m[ActiveCalls])
      && Num(r[MaxConcurrentCalls]) >= Num(m[MaxConcurrentCalls])
      && Num(r[MaxConcurrentCalls]) >= Num(m[ActiveCalls])
      && Num(r[ActiveCalls]) == Num(m[ActiveCalls]) + Num(value)
      && forall k :: k in m && k != ActiveCalls && k != MaxConcurrentCalls ==> r[k] == m[k]
  {
  }

  /** `update_metric(name, v)` for any other name adds v to that entry alone. */
  lemma PlainUpdate(m: map<string, Value>, name: string, value: Value)
    requires Tracked(m) && name in m && name != ActiveCalls && name != AvgResponseTime
    ensures Update(m, name, value) == Ok(m[name := Add(m[name], value)])
    ensures Num(Update(m, name, value).value[name]) == Num(m[name]) + Num(value)
  {
  }

  /** What `set_metric(name, v)` stores, `get_metric(name)` returns, and every
      other name still reads what it read before. */
  lemma SetThenGet(m: map<string, Value>, name: string, value: Value)
    requires Tracked(m) && name in NameSet
    ensures Set(m, name, value).Ok? && Tracked(Set(m, name, value).value)
    ensures Get(Set(m, name, value).value, name) == Ok(value)
    ensures forall k :: k != name ==> Get(Set(m, name, value).value, k) == Get(m, k)
  {
  }

  /** `update_metric("avg_response_time", x)` folds x into the running mean
      and counts one more successful call: the new average times the new count
      is the old average times the old count, plus x. Nothing else changes. */
  lemma AvgResponseTimeUpdate(m: map<string, Value>, x: Value)
    requires Tracked(m) && Num(m[SuccessfulCalls]) != -1.0
    ensures Update(m, AvgResponseTime, x).Ok?
    ensures var r := Update(m, AvgResponseTime, x).value;
      && r[AvgResponseTime].Float?
      && Num(r[SuccessfulCalls]) == Num(m[SuccessfulCalls]) + 1.0
      && Absorbed(r) == Absorbed(m) + Num(x)
      && forall k :: k in m && k != AvgResponseTime && k != SuccessfulCalls ==> r[k] == m[k]
  {
  }

  function Sum(xs: seq<real>): real {
    if xs == [] then 0.0 else Sum(xs[..|xs| - 1]) + xs[|xs| - 1]
  }

  /** Recording the latencies `xs`, in order, through update_metric("avg_response_time", x). */
  function RecordLatencies(m: map<string, Value>, xs: seq<real>): (r: Result<map<string, Value>>)
    requires Tracked(m)
    ensures r.Ok? ==> Tracked(r.value)
  {
    if xs == [] then Ok(m)
    else
      match RecordLatencies(m, xs[..|xs| - 1])
      case Err(e) => Err(e)
      case Ok(m1) => Update(m1, AvgResponseTime, Float(xs[|xs| - 1]))
  }

  /** What the running mean has absorbed: the average times the count. */
  function Absorbed(m: map<string, Value>): real
    requires Tracked(m)
  {
    Num(m[AvgResponseTime]) * Num(m[SuccessfulCalls])
  }

  /** One more latency on the end of the list is one more update. */
  lemma RecordOneMore(m: map<string, Value>, xs: seq<real>, x: real)
    requires Tracked(m) && RecordLatencies(m, xs).Ok?
    ensures RecordLatencies(m, xs + [x]) == Update(RecordLatencies(m, xs).value, AvgResponseTime, Float(x))
  {
    assert (xs + [x])[..|xs|] == xs;
  }

  /** The incremental update keeps `avg * successful_calls` equal to the sum of
      everything recorded, and counts each recorded latency once. */
  lemma {:induction false} RunningMean(m: map<string, Value>, xs: seq<real>)
    requires Tracked(m) && m[SuccessfulCalls].Int? && m[SuccessfulCalls].i >= 0
    ensures RecordLatencies(m, xs).Ok?
    ensures RecordLatencies(m, xs).value[SuccessfulCalls] == Int(m[SuccessfulCalls].i + |xs|)
    ensures Absorbed(RecordLatencies(m, xs).value) == Absorbed(m) + Sum(xs)
  {
    if xs != [] {
      var init, x := xs[..|xs| - 1], xs[|xs| - 1];
      assert xs == init + [x];
      RunningMean(m, init);
      var m1 := RecordLatencies(m, init).value;
      RecordOneMore(m, init, x);
      AvgResponseTimeUpdate(m1, Float(x));
    }
  }

  /** From a fresh tracker, the average is the arithmetic mean of the latencies recorded. */
  lemma MeanOfRecordedLatencies(xs: seq<real>)
    requires |xs| > 0
    ensures RecordLatencies(InitialMetrics(), xs).Ok?
    ensures Num(RecordLatencies(InitialMetrics(), xs).value[AvgResponseTime]) == Sum(xs) / |xs| as real
  {
    var m := InitialMetrics();
    RunningMean(m, xs);
    var r := RecordLatencies(m, xs).value;
    FreshAbsorbedNothing();
    AverageOfAbsorbed(r, |xs|, Sum(xs));
  }

  lemma FreshAbsorbedNothing()
    ensures InitialMetrics()[SuccessfulCalls] == Int(0)
    ensures Absorbed(InitialMetrics()) == 0.0
  {
    assert AvgResponseTime in Names;
  }

  /** With `count` calls that absorbed `total`, the average is their mean. */
  lemma AverageOfAbsorbed(m: map<string, Value>, count: nat, total: real)
    requires Tracked(m) && m[SuccessfulCalls].Int? && m[SuccessfulCalls].i == count > 0
    requires Absorbed(m) == total
    ensures Num(m[AvgResponseTime]) == total / count as real
  {
  }

  class MetricsTracker {
    /** `time.time()` when the tracker was built */
    const startTime: real
    var testComplete: bool
    var metrics: map<string, Value>

    ghost predicate Valid()
      reads this
    {
      Tracked(metrics)
    }

    constructor (now: real)
      ensures Valid() && metrics == InitialMetrics()
      ensures !testComplete && startTime == now
    {
      startTime := now;
      testComplete := false;
      metrics := InitialMetrics();
    }

    method UpdateMetric(name: string, value: Value) returns (raised: Option<Error>)
      requires Valid()
      modifies this`metrics
      ensures Valid()
      ensures match Update(old(metrics), name, value)
        case Ok(m) => raised == None && metrics == m
        case Err(e) => raised == Some(e) && metrics == old(metrics)
    {
      if name in metrics {
        if name == ActiveCalls {
          metrics := metrics[MaxConcurrentCalls := Max(metrics[MaxConcurrentCalls], metrics[ActiveCalls])];
          metrics := metrics[ActiveCalls := Add(metrics[ActiveCalls], value)];
        } else if name == AvgResponseTime {
          var n := metrics[SuccessfulCalls];
          var avg := TrueDiv(Add(Mul(metrics[AvgResponseTime], n), value), Add(n, Int(1)));
          if avg.Err? {
            return Some(avg.error);
          }
          metrics := metrics[AvgResponseTime := avg.value];
          metrics := metrics[SuccessfulCalls := Add(metrics[SuccessfulCalls], Int(1))];
        } else {
          metrics := metrics[name := Add(metrics[name], value)];
        }
        raised := None;
      } else {
        raised := Some(NoSuchMetric(name));
      }
    }

    method SetMetric(name: string, value: Value) returns (raised: Option<Error>)
      requires Valid()
      modifies this`metrics
      ensures Valid()
      ensures match Set(old(metrics), name, value)
        case Ok(m) => raised == None && metrics == m
        case Err(e) => raised == Some(e) && metrics == old(metrics)
    {
      if name in metrics {
        metrics := metrics[name := value];
        raised := None;
      } else {
        raised := Some(NoSuchMetric(name));
      }
    }

    method GetMetric(name: string) returns (r: Result<Value>)
      ensures r == Get(metrics, name)
    {
      if name in metrics {
        r := Ok(metrics[name]);
      } else {
        r := Err(NoSuchMetric(name));
      }
    }

    /** `get_metrics()` at wall-clock time `now`; reads the dictionary only. */
    method GetMetrics(now: real) returns (snapshot: seq<Entry>)
      requires Valid()
      ensures snapshot == Snapshot(metrics, now - startTime)
    {
      var elapsed := now - startTime;
      var rate := if elapsed > 0.0 then Float(Num(metrics[SuccessfulTokenCount]) / elapsed * 60.0) else Int(0);
      snapshot := [];
      for i := 0 to |Names|
        invariant snapshot == Snapshot(metrics, elapsed)[..i]
      {
        snapshot := snapshot + [Entry(Names[i], metrics[Names[i]])];
      }
      snapshot := snapshot + [Entry(TokensPerMinute, rate)];
    }

    /** The flag lives outside the dictionary; the default argument is True. */
    method SetTestComplete(value: bool := true)
      modifies this`testComplete
      ensures IsTestComplete() == value
    {
      testComplete := value;
    }

    function IsTestComplete(): bool
      reads this
    {
      testComplete
    }
  }
}
