/** load_test/__init__.py: the end time `run_test` computes and the
    reap/backfill/shutdown loop of `manage_requests`. Tasks are ids; which of
    them finished, and what the loop's clock reads, are inputs. */
module LoadTestScheduler {
  import opened Values
  import Durations
  import LoadTestMetrics

  /** `end_time` as written: `if duration` is false for a zero timedelta, so
      a zero duration gives no end time at all. */
  function EndTime(loopTime: real, duration: Option<nat>): (r: Option<real>)
    ensures r.Some? <==> duration.Some? && duration.value != 0
    ensures r.Some? ==> r.value == loopTime + duration.value as real
  {
    if duration.Some? && duration.value != 0 then Some(loopTime + duration.value as real) else None
  }

  /** `end_time` as the help text describes it: no end time only when no
      duration was given. */
  function EndTimeIntended(loopTime: real, duration: Option<nat>): (r: Option<real>)
    ensures r.Some? <==> duration.Some?
    ensures r.Some? ==> r.value == loopTime + duration.value as real
  {
    if duration.Some? then Some(loopTime + duration.value as real) else None
  }

  /** The loop's condition `end_time is None or now < end_time`. */
  predicate BeforeDeadline(endTime: Option<real>, now: real) {
    endTime.None? || now < endTime.value
  }

  /** The two agree on every duration but zero. */
  lemma EndTimesAgree(loopTime: real, duration: Option<nat>)
    requires duration != Some(0)
    ensures EndTime(loopTime, duration) == EndTimeIntended(loopTime, duration)
  {
  }

  /** "0s" parses to a zero duration, which leaves the run without an end:
      the loop condition holds at every later time. */
  lemma ZeroDurationRunsForever(loopTime: real)
    ensures Durations.ParseDuration(Some("0s")) == Ok(Some(0))
    ensures EndTime(loopTime, Some(0)) == None
    ensures forall now :: BeforeDeadline(EndTime(loopTime, Some(0)), now)
    ensures RunTestEndTime(loopTime, Some("0s")) == Ok(None)
  {
    Durations.FormatParses(0, Durations.Second, []);
    assert Durations.FormatDuration(0, Durations.Second) == "0s";
  }

  /** With the intended end time a zero duration ends the run at once. */
  lemma ZeroDurationEndsAtOnce(loopTime: real)
    ensures RunTestEndTimeIntended(loopTime, Some("0s")) == Ok(Some(loopTime))
    ensures forall now :: now >= loopTime ==> !BeforeDeadline(EndTimeIntended(loopTime, Some(0)), now)
  {
    Durations.FormatParses(0, Durations.Second, []);
    assert Durations.FormatDuration(0, Durations.Second) == "0s";
  }

  /** `run_test`'s preamble as written: parse the `--duration` text, then the
      end time from the loop's clock; unparsable text raises here, and a zero
      duration, like a missing one, leaves no end time. */
  function RunTestEndTime(loopTime: real, durationText: Option<string>): (r: Result<Option<real>>)
    ensures durationText.None? ==> r == Ok(None)
    ensures r.Err? <==> Durations.ParseDuration(durationText).Err?
    ensures r.Ok? ==> (r.value.None? <==> Durations.ParseDuration(durationText).value in {None, Some(0)})
    ensures r.Ok? && r.value.Some? ==>
      r.value.value == loopTime + Durations.ParseDuration(durationText).value.value as real
  {
    match Durations.ParseDuration(durationText)
    case Err(e) => Err(e)
    case Ok(d) => Ok(EndTime(loopTime, d))
  }

  /** The preamble with the intended end time: only a missing duration
      leaves the run without an end. */
  function RunTestEndTimeIntended(loopTime: real, durationText: Option<string>): (r: Result<Option<real>>)
    ensures r.Err? <==> Durations.ParseDuration(durationText).Err?
    ensures r.Ok? ==> (r.value.None? <==> durationText.None?)
    ensures r.Ok? && r.value.Some? ==>
      r.value.value == loopTime + Durations.ParseDuration(durationText).value.value as real
  {
    match Durations.ParseDuration(durationText)
    case Err(e) => Err(e)
    case Ok(d) => Ok(EndTimeIntended(loopTime, d))
  }

  function Cap(concurrencyLevel: int): nat {
    if concurrencyLevel > 0 then concurrencyLevel else 0
  }

  /** One round of the outer loop: the loop's clock before it, the tasks
      `asyncio.wait` reports done, and the clock readings of the backfill. */
  datatype Round = Round(now: real, done: set<int>, clock: nat -> real)

  /** The task ids from `lo` up to but excluding `hi`. */
  function Ids(lo: int, hi: int): set<int>
    decreases hi - lo
  {
    if hi <= lo then {} else Ids(lo, hi - 1) + {hi - 1}
  }

  /** Exactly the ids from `lo` below `hi` are in the range, so it has
      `hi - lo` of them. */
  lemma {:induction false} IdsMembers(lo: int, hi: int)
    ensures forall t :: t in Ids(lo, hi) <==> lo <= t < hi
    ensures lo <= hi ==> |Ids(lo, hi)| == hi - lo
    decreases hi - lo
  {
    if hi > lo {
      IdsMembers(lo, hi - 1);
    }
  }

  /** Every id of `ids` is below `bound`. */
  predicate Below(ids: set<int>, bound: int) {
    forall t :: t in ids ==> t < bound
  }

  /** Ids from `lo` on are new to tasks that are all below `lo`: the range
      is disjoint from them and adds its whole size to their count. */
  lemma FreshIds(tasks: set<int>, lo: int, hi: int)
    requires lo <= hi && Below(tasks, lo)
    ensures tasks !! Ids(lo, hi)
    ensures |tasks + Ids(lo, hi)| == |tasks| + (hi - lo)
    ensures Below(tasks + Ids(lo, hi), hi)
  {
    IdsMembers(lo, hi);
    forall t | t in tasks
      ensures t !in Ids(lo, hi)
    {
      assert t < lo;
    }
  }

  /** Creating task `hi` extends the range by one and the count by one. */
  lemma Grow(tasks: set<int>, lo: int, hi: int)
    requires lo <= hi && Below(tasks, lo)
    ensures tasks + Ids(lo, hi + 1) == (tasks + Ids(lo, hi)) + {hi}
    ensures |tasks + Ids(lo, hi + 1)| == |tasks| + (hi + 1 - lo)
  {
    FreshIds(tasks, lo, hi + 1);
  }

  class RequestScheduler {
    const concurrencyLevel: int
    const endTime: Option<real>
    const tracker: LoadTestMetrics.MetricsTracker
    /** the in-flight tasks */
    var tasks: set<int>
    /** the id the next task gets; also the number of tasks created */
    var nextId: nat
    /** the tasks cancelled on exit */
    var cancelled: set<int>

    ghost predicate Valid()
      reads this
    {
      && |tasks| <= Cap(concurrencyLevel)
      && Below(tasks, nextId)
      && (concurrencyLevel <= 0 ==> nextId == 0)
    }

    constructor (concurrencyLevel: int, endTime: Option<real>, tracker: LoadTestMetrics.MetricsTracker)
      ensures Valid()
      ensures this.concurrencyLevel == concurrencyLevel && this.endTime == endTime && this.tracker == tracker
      ensures tasks == {} && nextId == 0 && cancelled == {}
    {
      this.concurrencyLevel := concurrencyLevel;
      this.endTime := endTime;
      this.tracker := tracker;
      tasks := {};
      nextId := 0;
      cancelled := {};
    }

    /** `tasks.difference_update(done)`, skipped when there is nothing in flight. */
    method Reap(done: set<int>)
      requires Valid()
      modifies this`tasks
      ensures Valid()
      ensures tasks == old(tasks) - done
    {
      if tasks != {} {
        tasks := tasks - done;
      }
    }

    /** The inner loop: create tasks until the cap is reached or the `i`-th
        reading of the clock is past the end time. The in-flight set is
        kept in a local and stored back after the loop. */
    method Backfill(clock: nat -> real) returns (created: set<int>)
      requires Valid()
      modifies this`tasks, this`nextId
      ensures Valid()
      ensures tasks == old(tasks) + created && created !! old(tasks)
      ensures forall t :: t in created <==> old(nextId) <= t < nextId
      ensures forall i :: 0 <= i < |created| ==> BeforeDeadline(endTime, clock(i))
      ensures |tasks| == Cap(concurrencyLevel) || !BeforeDeadline(endTime, clock(|created|))
    {
      var running, first := tasks, nextId;
      var ts, id := running, first;
      var i: nat := 0;
      while |ts| < concurrencyLevel && BeforeDeadline(endTime, clock(i))
        invariant id == first + i && ts == running + Ids(first, id)
        invariant |ts| == |running| + i <= Cap(concurrencyLevel)
        invariant forall j :: 0 <= j < i ==> BeforeDeadline(endTime, clock(j))
        decreases concurrencyLevel - |ts|
      {
        Grow(running, first, id);
        ts := ts + {id};
        id, i := id + 1, i + 1;
      }
      FreshIds(running, first, id);
      IdsMembers(first, id);
      created := Ids(first, id);
      tasks, nextId := ts, id;
    }

    /** One pass of the outer loop's body. */
    method Step(round: Round) returns (created: set<int>)
      requires Valid()
      modifies this`tasks, this`nextId
      ensures Valid()
      ensures tasks == (old(tasks) - round.done) + created
      ensures created !! old(tasks) - round.done
      ensures |created| <= Cap(concurrencyLevel) - |old(tasks) - round.done|
    {
      Reap(round.done);
      created := Backfill(round.clock);
    }

    /** The `finally` block: every remaining task is cancelled, their
        exceptions are gathered rather than raised, and the run is marked
        complete. */
    method Shutdown()
      requires Valid()
      modifies this`cancelled, tracker`testComplete
      ensures cancelled == tasks && tracker.IsTestComplete()
    {
      cancelled := tasks;
      tracker.SetTestComplete();
    }

    /** `manage_requests` over the rounds observed so far: it runs a round
        while the loop's clock is before the end time, and shuts down as soon
        as it is not. */
    method ManageRequests(rounds: seq<Round>) returns (exited: bool)
      requires Valid()
      modifies this`tasks, this`nextId, this`cancelled, tracker`testComplete
      ensures Valid()
      ensures exited <==> exists k :: 0 <= k < |rounds| && !BeforeDeadline(endTime, rounds[k].now)
      ensures exited ==> cancelled == tasks && tracker.IsTestComplete()
      ensures endTime.None? ==> !exited
      ensures concurrencyLevel <= 0 ==> tasks == {} && nextId == 0
    {
      exited := false;
      var k := 0;
      while k < |rounds| && !exited
        invariant Valid()
        invariant 0 <= k <= |rounds|
        invariant exited <==> k > 0 && !BeforeDeadline(endTime, rounds[k - 1].now)
        invariant forall j :: 0 <= j < k - 1 ==> BeforeDeadline(endTime, rounds[j].now)
        invariant !exited ==> forall j :: 0 <= j < k ==> BeforeDeadline(endTime, rounds[j].now)
        invariant concurrencyLevel <= 0 ==> tasks == {}
        decreases |rounds| - k
      {
        if BeforeDeadline(endTime, rounds[k].now) {
          var created := Step(rounds[k]);
        } else {
          exited := true;
        }
        k := k + 1;
      }
      if exited {
        Shutdown();
      }
    }
  }
}
