/** live_monitor.py: the rows of the live table, built from a snapshot of the
    root tracker, and the polling loop that redraws it. */
module LiveMonitor {
  import opened Values
  import Decimal
  import RootMetrics
  import LoadTestMetrics

  predicate IsLower(c: char) { 'a' <= c <= 'z' }
  predicate IsUpper(c: char) { 'A' <= c <= 'Z' }
  /** a letter, which `str.title` treats as cased */
  predicate IsCased(c: char) { IsLower(c) || IsUpper(c) }

  /** `c.upper()` over ASCII: a lower-case letter moves 32 code points down
      to its capital; any other character is kept. */
  function Upper(c: char): (u: char)
    ensures IsLower(c) ==> IsUpper(u) && u as int == c as int - 32
    ensures !IsLower(c) ==> u == c
    ensures IsCased(u) <==> IsCased(c)
  {
    if IsLower(c) then (c as int - 32) as char else c
  }

  /** `c.lower()` over ASCII, the mirror of `Upper`. */
  function Lower(c: char): (l: char)
    ensures IsUpper(c) ==> IsLower(l) && l as int == c as int + 32
    ensures !IsUpper(c) ==> l == c
    ensures IsCased(l) <==> IsCased(c)
  {
    if IsUpper(c) then (c as int + 32) as char else c
  }

  /** Character `i` of `s.title()`: lower-case after a cased character,
      upper-case otherwise. */
  function TitleChar(s: string, i: nat): char
    requires i < |s|
  {
    if i > 0 && IsCased(s[i - 1]) then Lower(s[i]) else Upper(s[i])
  }

  /** `s.title()` over ASCII. */
  function Title(s: string): (t: string)
    ensures |t| == |s|
    ensures forall i :: 0 <= i < |s| ==> Lower(t[i]) == Lower(s[i])
    ensures forall i :: 0 <= i < |s| ==> (IsCased(t[i]) <==> IsCased(s[i]))
    ensures forall i :: 0 <= i < |s| && IsCased(s[i]) ==>
      (IsUpper(t[i]) <==> i == 0 || !IsCased(s[i - 1]))
  {
    seq(|s|, i requires 0 <= i < |s| => TitleChar(s, i))
  }

  /** `key.replace("_", " ")`. */
  function Unscore(key: string): (r: string)
    ensures |r| == |key|
    ensures forall i :: 0 <= i < |key| ==> r[i] == if key[i] == '_' then ' ' else key[i]
  {
    seq(|key|, i requires 0 <= i < |key| => if key[i] == '_' then ' ' else key[i])
  }

  /** The label of a metric row. */
  function Label(key: string): (l: string)
    ensures |l| == |key|
    ensures forall i :: 0 <= i < |l| ==> l[i] != '_'
    ensures forall i :: 0 <= i < |l| ==> Lower(l[i]) == Lower(if key[i] == '_' then ' ' else key[i])
  {
    Title(Unscore(key))
  }

  /** Each word of a label starts upper-case and continues lower-case. */
  lemma LabelCase(key: string, i: nat)
    requires i < |key| && IsCased(key[i])
    ensures i == 0 || !IsCased(key[i - 1]) ==> IsUpper(Label(key)[i])
    ensures i > 0 && IsCased(key[i - 1]) ==> IsLower(Label(key)[i])
  {
  }

  /** Title-casing a title-cased text changes nothing. */
  lemma TitleIdempotent(s: string)
    ensures Title(Title(s)) == Title(s)
  {
  }

  /** The first label of the table. */
  lemma ActiveCallsLabel()
    ensures Label("active_calls") == "Active Calls"
  {
    var u := Unscore("active_calls");
    assert u[0] == 'a' && u[1] == 'c' && u[2] == 't' && u[3] == 'i' && u[4] == 'v' && u[5] == 'e';
    assert u[6] == ' ';
    assert u[7] == 'c' && u[8] == 'a' && u[9] == 'l' && u[10] == 'l' && u[11] == 's';
    var t := Title(u);
    assert t == "Active Calls";
  }

  /** `str(value)` as the table shows it; the digits of a float are Python's
      repr, which is not modelled, so a float cell keeps the number. */
  datatype Cell = Text(text: string) | FloatText(x: real)

  function Show(v: Value): (c: Cell)
    ensures c.Text? <==> !v.Float?
    ensures v.Int? ==> c == Text(Decimal.IntString(v.i))
    ensures v.Bool? ==> (c == Text("True") <==> v.b) && (c == Text("False") <==> !v.b)
    ensures v.Float? ==> c == FloatText(v.x)
  {
    match v
    case Int(i) => Text(Decimal.IntString(i))
    case Bool(b) => Text(if b then "True" else "False")
    case Float(x) => FloatText(x)
  }

  /** An int cell reads back as the int: an optional minus sign, then the
      digits of its magnitude without leading zeros. */
  lemma ShowIntReadsBack(i: int)
    ensures Show(Int(i)).Text?
    ensures var t := Show(Int(i)).text;
      && (i >= 0 ==> Decimal.Canonical(t) && Decimal.DigitsValue(t) == i)
      && (i < 0 ==> t[0] == '-' && Decimal.Canonical(t[1..]) && Decimal.DigitsValue(t[1..]) == -i)
  {
    if i >= 0 {
      Decimal.DecimalRoundTrip(i);
    } else {
      Decimal.DecimalRoundTrip(-i);
      assert Show(Int(i)).text[1..] == Decimal.DecimalString(-i);
    }
  }

  datatype Row = Row(heading: string, cell: Cell)

  /** The rows `update_table` adds for a snapshot, one per entry, in order. */
  function RowsOf(snapshot: seq<LoadTestMetrics.Entry>): (rows: seq<Row>)
    ensures |rows| == |snapshot|
    ensures forall i :: 0 <= i < |rows| ==>
      rows[i] == Row(Label(snapshot[i].key), Show(snapshot[i].value))
  {
    seq(|snapshot|, i requires 0 <= i < |snapshot| => Row(Label(snapshot[i].key), Show(snapshot[i].value)))
  }

  /** What one poll of the monitor sees: the tracker's dictionary and the clock. */
  datatype Poll = Poll(metrics: map<string, Value>, now: real)

  /** The poll reads a truthy completion flag. */
  predicate Completed(p: Poll) {
    RootMetrics.TestComplete in p.metrics && Truthy(p.metrics[RootMetrics.TestComplete])
  }

  /** The number of polls before the first one that reads the test complete:
      the polls the monitor shows a table for. */
  function FirstComplete(polls: seq<Poll>): (n: nat)
    ensures n <= |polls|
    ensures forall k :: 0 <= k < n ==> !Completed(polls[k])
    ensures n < |polls| ==> Completed(polls[n])
  {
    if polls == [] then 0
    else if Completed(polls[0]) then 0
    else 1 + FirstComplete(polls[1..])
  }

  class Table {
    var rows: seq<Row>

    constructor ()
      ensures rows == []
    {
      rows := [];
    }
  }

  class Monitor {
    const tracker: RootMetrics.MetricsTracker

    constructor (tracker: RootMetrics.MetricsTracker)
      ensures this.tracker == tracker
    {
      this.tracker := tracker;
    }

    /** `update_table` at wall-clock time `now`: the old rows are dropped and
        one row is added per snapshot entry. */
    method UpdateTable(table: Table, now: real)
      requires tracker.Valid()
      modifies table
      ensures table.rows == RowsOf(RootMetrics.Snapshot(tracker.metrics, now))
    {
      var snapshot := tracker.GetMetrics(now);
      table.rows := [];
      for i := 0 to |snapshot|
        invariant table.rows == RowsOf(snapshot)[..i]
      {
        table.rows := table.rows + [Row(Label(snapshot[i].key), Show(snapshot[i].value))];
      }
    }

    /** `monitor_metrics` over the polls it makes. Between polls other tasks
        write the tracker; what it holds at poll k, and the clock then, are
        `polls[k]`. At each poll the flag is read, and while it is falsy a
        fresh table is built and shown. */
    method MonitorMetrics(polls: seq<Poll>) returns (shown: seq<seq<Row>>)
      requires forall k :: 0 <= k < |polls| ==> RootMetrics.Tracked(polls[k].metrics)
      requires tracker.Valid()
      modifies tracker`metrics
      ensures tracker.Valid()
      ensures |shown| == FirstComplete(polls)
      ensures forall k :: 0 <= k < |shown| ==>
        shown[k] == RowsOf(RootMetrics.Snapshot(polls[k].metrics, polls[k].now))
      ensures polls == [] ==> tracker.metrics == old(tracker.metrics)
      ensures polls != [] ==> tracker.metrics == polls[if |shown| < |polls| then |shown| else |polls| - 1].metrics
    {
      shown := [];
      var k := 0;
      while k < |polls|
        invariant 0 <= k <= |polls| && k <= FirstComplete(polls)
        invariant tracker.Valid()
        invariant |shown| == k
        invariant forall j :: 0 <= j < k ==> shown[j] == RowsOf(RootMetrics.Snapshot(polls[j].metrics, polls[j].now))
        invariant k == 0 ==> tracker.metrics == old(tracker.metrics)
        invariant k > 0 ==> tracker.metrics == polls[k - 1].metrics
        decreases |polls| - k
      {
        tracker.metrics := polls[k].metrics;
        var complete := tracker.IsTestComplete();
        if Truthy(complete) {
          return;
        }
        var table := new Table();
        UpdateTable(table, polls[k].now);
        shown := shown + [table.rows];
        k := k + 1;
      }
    }
  }

  /** The table has a row per tracker key and one for the token rate, labelled
      in the dictionary's order. */
  lemma TableLayout(m: map<string, Value>, now: real)
    requires RootMetrics.Tracked(m)
    ensures var rows := RowsOf(RootMetrics.Snapshot(m, now));
      && |rows| == |RootMetrics.Names| + 1
      && (forall i :: 0 <= i < |RootMetrics.Names| ==>
           rows[i] == Row(Label(RootMetrics.Names[i]), Show(m[RootMetrics.Names[i]])))
      && rows[|RootMetrics.Names|].heading == Label(LoadTestMetrics.TokensPerMinute)
  {
  }
}
