# Azure OpenAI load tester: the measurement bookkeeping

This project models the load tester's run statistics, and what each part of
the tool does to them:

- the keyed metrics store `MetricsTracker` (load_test/metrics_tracker.py). It holds
  the active-call count and its high-water mark, the successful, unsuccessful,
  total and rate-limited call counts, the prompt-token count, the count of
  tokens of successful calls (`usage.total_tokens`, prompt plus completion,
  which the code adds twice), and a running mean of response times;
- the accounting one `chat_completions` call does on that store (load_test/client.py),
  with the request's outcome as an input;
- the `--duration` parser and the end time of `run_test` (load_test/util.py,
  load_test/__init__.py);
- the reap/backfill loop of `manage_requests`, which keeps at most
  `concurrency_level` requests in flight;
- the prompt generator `generate_template_string` (load_test/util.py);
- the client-type flags of the command line (load_test/parse_args.py);
- the older single-script tool (main.py), its metrics tracker (metrics_tracker.py),
  its client (client.py) and its live table (live_monitor.py).

Python values are the tower int, float and bool (`Values.Value`), with Python's
promotion rules for `+`, `*`, `/` and `max`. Floats are reals. Exceptions are the
`Values.Error` datatype. A function that may raise returns `Result`. A method
returns the exception it lets out as `raised`.

Pure code (parsers, selectors, string helpers) is modelled as functions and
lemmas. The trackers, clients, scheduler and monitor update objects in place.
They are modelled as classes whose methods are proved against specification
functions:

| method | specification function |
|---|---|
| `UpdateMetric` | `Update` |
| `ChatCompletions` | `ChatEffect` |
| `TestApiCall` | `ApiCallEffect` |
| `AdjustWordCount` | `Adjusted` |
| `UpdateTable` | `RowsOf` of `Snapshot` |

The lemmas then state what each specification function promises.

Two behaviours of the code differ from what the tool's documentation says about it:

- **The call balance.** The documentation says `total_calls` equals
  `successful_calls + unsuccessful_calls` once every request has finished.
  While a call is in flight `total_calls` lags, since the `finally` block
  counts it last. In load_test/client.py a finished call keeps the balance
  only when it completed or failed with an HTTP response.
  `LoadTestClient.BalanceKeptExactly` proves the exact condition.
  - An `APIConnectionError` has no `.response`, so the handler raises
    `AttributeError` before counting it.
  - A non-`Exception` error, such as cancellation, is counted in `total_calls` only.
  - A completed request whose token count is not an int raises `ValueError`
    after it was already counted as successful.
- **The root client.py and main.py.** Neither counts a completed request as
  intended:
  - client.py updates `avg_response_time`, a key its tracker does not hold,
    so every completed request raises `KeyError` (`RootClient.SuccessRaisesKeyError`);
  - main.py's `update_tpm` reads the misspelled `total_tokens`, so every
    completed request is also counted as unsuccessful (`MainScript.SuccessAccounting`).

  These are modelled as written.

The `parse_duration` of util.py is the same code as load_test/util.py's, and
`Durations.ParseDuration` models both. main.py's own copy raises `ValueError`
instead of `ArgumentTypeError` (`MainScript.ParseDuration`).

## Model

| member | source | states |
|---|---|---|
| Values.Add | load_test/metrics_tracker.py:41-42 | `a + b` has the numeric sum, and is a float exactly when an operand is |
| Values.TrueDiv | load_test/metrics_tracker.py:34-38 | `/` raises ZeroDivisionError exactly for a zero divisor; otherwise the float quotient times the divisor is the dividend |
| Values.Max | load_test/metrics_tracker.py:28-31 | `max(a, b)` is one of its arguments, at least both, and the first one on a tie |
| Decimal.DecimalRoundTrip | load_test/util.py:37-38 | `int()` of the text `str(n)` is n again |
| Decimal.DigitsRoundTrip | load_test/util.py:37-38 | `str(int(s))` is s for a digit string without leading zeros |
| Decimal.LeadingZero | load_test/util.py:37-38 | `int()` ignores leading zeros |
| Durations.MatchDuration | load_test/util.py:31 | a match is a non-empty digit run followed by the unit letter, at the start of the text |
| Durations.MatchIsPattern | load_test/util.py:31-35 | the match succeeds exactly when some digit prefix is followed by `s`, `m` or `h` |
| Durations.MatchIgnoresSuffix | load_test/util.py:31 | `re.match` anchors only at the start: text after the unit does not change the match |
| Durations.Timedelta | load_test/util.py:40-45 | a timedelta holds fewer than 999999999 days of seconds; beyond that OverflowError |
| Durations.ParseDuration | load_test/util.py:27-45 | None gives None; text the pattern rejects raises ArgumentTypeError with the help message; otherwise a duration |
| Durations.FormatParses | load_test/util.py:37-45 | `<n>s`, `<n>m`, `<n>h`, followed by anything, parse to n, 60n and 3600n seconds |
| Durations.ParsedDuration | util.py:31-39 | any accepted text parses to its digits' value times the unit's seconds, below the timedelta bound |
| Durations.RejectedIffNoPattern | util.py:25-29 | ArgumentTypeError is raised exactly when the pattern does not match; otherwise the text parses or overflows |
| Durations.RejectedExamples | load_test/util.py:31-35 | "", "10", "10d", " 10s" and "-5s" are rejected |
| Durations.TrailingTextExample | load_test/util.py:31-41 | "10sx" is ten seconds |
| Durations.LeadingZerosExample | load_test/util.py:37-43 | "007m" is 420 seconds |
| LoadTestMetrics.InitialMetrics | load_test/metrics_tracker.py:7-21 | the dictionary holds exactly the nine metric names, each the int 0 |
| LoadTestMetrics.Update | load_test/metrics_tracker.py:23-45 | an unknown name raises KeyError "Metric <name> does not exist."; a known name fails only on a zero divisor in the mean; the keys never change |
| LoadTestMetrics.Set | load_test/metrics_tracker.py:47-52 | a known name now holds the value and every other entry is unchanged; an unknown one raises KeyError |
| LoadTestMetrics.Get | load_test/metrics_tracker.py:54-59 | a known name yields its stored value; an unknown one raises KeyError |
| LoadTestMetrics.Rate | load_test/metrics_tracker.py:63-68 | tokens per minute times elapsed seconds is 60 times the token count; the int 0 when no time elapsed |
| LoadTestMetrics.Snapshot | load_test/metrics_tracker.py:61-73 | one entry per metric plus the derived rate |
| LoadTestMetrics.SnapshotAgrees | load_test/metrics_tracker.py:61-73 | the snapshot answers each metric with its stored value and `tokens_per_minute` with the rate; no key repeats |
| LoadTestMetrics.SnapshotsDifferOnlyInRate | load_test/metrics_tracker.py:63-72 | snapshots of the same dictionary taken at different times differ only in the rate, and do differ when tokens were counted |
| LoadTestMetrics.UnknownNameRejected | load_test/metrics_tracker.py:44-59 | update, set and get all raise KeyError for a name outside the nine |
| LoadTestMetrics.ActiveCallsUpdate | load_test/metrics_tracker.py:27-32 | the high-water mark becomes the max of itself and the count before the update, then the count grows by the value; nothing else changes |
| LoadTestMetrics.AvgResponseTimeUpdate | load_test/metrics_tracker.py:33-39 | average times count grows by the latency, the count by one, and nothing else changes |
| LoadTestMetrics.PlainUpdate | load_test/metrics_tracker.py:41-42 | any name but active_calls and avg_response_time: exactly that entry grows by the value |
| LoadTestMetrics.SetThenGet | load_test/metrics_tracker.py:47-59 | what set_metric stores, get_metric returns; every other name reads what it read before |
| LoadTestMetrics.RecordLatencies | load_test/metrics_tracker.py:33-39 | recording latencies one after another keeps the nine keys |
| LoadTestMetrics.RunningMean | load_test/metrics_tracker.py:33-39 | after recording xs, successful_calls has grown by the number of latencies, and average times count by their sum |
| LoadTestMetrics.MeanOfRecordedLatencies | load_test/metrics_tracker.py:33-39 | from a fresh tracker, avg_response_time is the arithmetic mean of the recorded latencies |
| LoadTestMetrics.MetricsTracker.constructor | load_test/metrics_tracker.py:7-21 | the tracker starts with every metric 0, not complete, at the given start time |
| LoadTestMetrics.MetricsTracker.UpdateMetric | load_test/metrics_tracker.py:23-45 | the dictionary becomes `Update`'s result, or is left alone when that raises |
| LoadTestMetrics.MetricsTracker.SetMetric | load_test/metrics_tracker.py:47-52 | the dictionary becomes `Set`'s result, or is left alone on KeyError |
| LoadTestMetrics.MetricsTracker.GetMetric | load_test/metrics_tracker.py:54-59 | returns what `Get` gives for the dictionary |
| LoadTestMetrics.MetricsTracker.GetMetrics | load_test/metrics_tracker.py:61-73 | builds the ordered snapshot with the rate over the time since start |
| LoadTestMetrics.MetricsTracker.SetTestComplete | load_test/metrics_tracker.py:75-79 | `is_test_complete` then answers the value set |
| LoadTestClient.Configure | load_test/client.py:32-58 | an unknown encoding raises first; then "azure", "openai" and (when importable) "custom" select their backend and anything else raises ValueError |
| LoadTestClient.Handled | load_test/client.py:103-113 | the `except` block keeps the nine keys |
| LoadTestClient.TryEffect | load_test/client.py:74-113 | the `try` block keeps the nine keys |
| LoadTestClient.ChatEffect | load_test/client.py:60-116 | a whole call keeps the nine keys |
| LoadTestClient.TryEffectFrame | load_test/client.py:76-113 | the `try` block adds one active call and takes the mark, and touches neither total_calls nor total_input_tokens |
| LoadTestClient.ChatEffectIsTryEffect | load_test/client.py:70-116 | outside the four bookkeeping keys, a call does what its `try` block does |
| LoadTestClient.EveryCallCounted | load_test/client.py:70-116 | every call adds one to total_calls and its prompt tokens to total_input_tokens, restores active_calls, and raises the mark to at least the in-flight count |
| LoadTestClient.SuccessAccounting | load_test/client.py:89-101 | a completed call with an int token count: no exception, one more success, its latency folded into the mean, twice the tokens counted, no failure counted |
| LoadTestClient.NonIntTokensAccounting | load_test/client.py:91-98 | a float or bool token count raises ValueError naming its type after the success was counted; tokens and failures are not counted |
| LoadTestClient.StatusErrorAccounting | load_test/client.py:103-113 | an error with a response: one more failure, one more rate-limited call exactly on 429, the error re-raised, successes untouched |
| LoadTestClient.ConnectionErrorAccounting | load_test/client.py:103-107 | an error without a response raises AttributeError from the handler and counts nothing |
| LoadTestClient.UncaughtAccounting | load_test/client.py:74-116 | any other exception passes through only the `finally` block |
| LoadTestClient.BalanceKeptExactly | load_test/client.py:91-116 | total = successful + unsuccessful is kept by a call exactly when it completed or failed with an HTTP response |
| LoadTestClient.AsyncClient.constructor | load_test/client.py:16-58 | the client holds the tracker and the selected backend |
| LoadTestClient.AsyncClient.ChatCompletions | load_test/client.py:60-116 | the tracker's dictionary and the raised exception are those of `ChatEffect` |
| LoadTestClient.AsyncClient.TryBlock | load_test/client.py:74-113 | the tracker's dictionary and the raised exception are those of `TryEffect` |
| LoadTestClient.AsyncClient.HandleError | load_test/client.py:103-113 | the tracker's dictionary and the raised exception are those of `Handled` |
| RootMetrics.InitialMetrics | metrics_tracker.py:7-19 | nine keys: start_time is the float clock, test_complete is False, the rest are int 0 |
| RootMetrics.InitialKeys | metrics_tracker.py:7-19 | there are nine keys, and neither avg_response_time nor total_calls is one of them |
| RootMetrics.Update | metrics_tracker.py:21-36 | raises KeyError exactly for an unknown name; keeps the keys |
| RootMetrics.ActiveCallsMarkOnly | metrics_tracker.py:25-29 | updating active_calls only raises the mark: the count itself never changes |
| RootMetrics.PlainUpdate | metrics_tracker.py:30-33 | any other known name grows by the value |
| RootMetrics.SetThenGet | metrics_tracker.py:38-50 | what set_metric stores, get_metric returns; every other key reads what it read before |
| RootMetrics.UnknownNameRejected | metrics_tracker.py:35-50 | update, set and get raise KeyError for an unknown name |
| RootMetrics.Snapshot | metrics_tracker.py:52-60 | one entry per key plus the token rate |
| RootMetrics.SnapshotAgrees | metrics_tracker.py:52-60 | the snapshot answers each key with its value and the rate of total_tokens since start_time |
| RootMetrics.TestCompleteRoundTrip | metrics_tracker.py:62-66 | after `set_test_complete(v)`, `is_test_complete` reads Bool(v), truthy exactly when v |
| RootMetrics.MetricsTracker.constructor | metrics_tracker.py:7-19 | the dictionary starts as `InitialMetrics` |
| RootMetrics.MetricsTracker.UpdateMetric | metrics_tracker.py:21-36 | the dictionary becomes `Update`'s result, or is left alone when that raises |
| RootMetrics.MetricsTracker.SetMetric | metrics_tracker.py:38-43 | the dictionary becomes `Set`'s result, or is left alone on KeyError |
| RootMetrics.MetricsTracker.GetMetric | metrics_tracker.py:45-50 | returns what `Get` gives |
| RootMetrics.MetricsTracker.GetMetrics | metrics_tracker.py:52-60 | builds the ordered snapshot |
| RootMetrics.MetricsTracker.SetTestComplete | metrics_tracker.py:62-63 | stores Bool(value) under test_complete and nothing else |
| RootMetrics.MetricsTracker.IsTestComplete | metrics_tracker.py:65-66 | reads the test_complete entry |
| RootClient.Plus | client.py:44-66 | an update of a known key keeps the keys |
| RootClient.TryEffect | client.py:47-64 | the `try` block keeps the keys |
| RootClient.ChatEffect | client.py:44-66 | a whole call keeps the keys |
| RootClient.AsyncAzureOpenAIClient.constructor | client.py:10-32 | the client holds its tracker |
| RootClient.AsyncAzureOpenAIClient.ChatCompletions | client.py:34-66 | the tracker's dictionary and the raised exception are those of `ChatEffect` |
| RootClient.ActiveCallsUnchanged | client.py:44-66 | active_calls never moves, since its update only takes the mark; the mark is the max of itself and the count |
| RootClient.SuccessRaisesKeyError | client.py:53-56 | a completed request raises KeyError for avg_response_time; neither tokens nor successes are counted |
| RootClient.StatusErrorSwallowed | client.py:58-64 | an HTTP status error counts one failure, plus one rate-limited call exactly on 429, and is not re-raised |
| RootClient.OtherErrorsPropagate | client.py:47-66 | any other exception propagates with only the mark taken |
| MainScript.DurationType | main.py:18-24 | the text is returned unchanged exactly when the pattern matches; otherwise ArgumentTypeError "Invalid duration format" |
| MainScript.ParseDuration | main.py:63-81 | None gives None; rejected text raises ValueError with the help message |
| MainScript.ParseDurationsAgree | main.py:63-81 | main.py's parser agrees with load_test/util.py's except that it raises ValueError where the other raises ArgumentTypeError |
| MainScript.AcceptedDurationParses | main.py:18-81 | text `duration_type` accepts is parsed (or overflows timedelta) |
| MainScript.FormatParsesMain | main.py:18-81 | `<n><unit>` passes `duration_type` and parses to its seconds |
| MainScript.WithMark | main.py:136-137 | the mark becomes the max of itself and the active count; no other counter changes |
| MainScript.MarkIdempotent | main.py:136-137 | taking the mark twice is taking it once, and changes nothing once the mark is at least the count |
| MainScript.WithSuccessfulMark | main.py:139-142 | the successful mark becomes the max of itself and the active successful count; no other counter changes |
| MainScript.SuccessfulMarkIdempotent | main.py:139-142 | taking the successful mark twice is taking it once, and changes nothing once the mark is at least the count |
| MainScript.MetricsTracker.constructor | main.py:121-134 | every counter starts at 0 |
| MainScript.MetricsTracker.UpdateMaxConcurrent | main.py:136-137 | the counters become `WithMark` of the old ones |
| MainScript.MetricsTracker.UpdateMaxConcurrentSuccessful | main.py:139-142 | the counters become `WithSuccessfulMark` of the old ones |
| MainScript.MetricsTracker.UpdateTpm | main.py:144-148 | total_token grows by the count, then AttributeError on `total_tokens` |
| MainScript.TestApiCall | main.py:152-184 | the counters and the raised exception are those of `ApiCallEffect` |
| MainScript.ActiveRestored | main.py:160-184 | active_calls is restored and the mark is at least one more than it |
| MainScript.SuccessAccounting | main.py:164-182 | a completed request counts a success, an active success and its tokens, and also a failure, since `update_tpm` raises |
| MainScript.StatusErrorAccounting | main.py:173-177 | an HTTP status error counts one failure and one rate-limited call exactly on 429, and is swallowed |
| MainScript.OtherErrorAccounting | main.py:179-184 | any other Exception counts one failure and is swallowed; a non-Exception propagates and counts nothing |
| MainScript.EveryCallUnsuccessful | main.py:164-182 | every call that ends in an Exception or completes adds one to unsuccessful_calls |
| LoadTestScheduler.EndTime | load_test/__init__.py:19-23 | as written: an end time exactly for a non-zero duration, at loop time plus the duration |
| LoadTestScheduler.EndTimeIntended | load_test/__init__.py:19-23 | an end time exactly when a duration was given |
| LoadTestScheduler.EndTimesAgree | load_test/__init__.py:19-23 | the two agree on every duration but zero |
| LoadTestScheduler.ZeroDurationRunsForever | load_test/__init__.py:18-32 | "0s" parses to zero seconds, which leaves `run_test` without an end time, so the loop condition always holds |
| LoadTestScheduler.ZeroDurationEndsAtOnce | load_test/__init__.py:18-32 | with the intended preamble "0s" ends at the loop time, so the loop stops at once |
| LoadTestScheduler.RunTestEndTime | load_test/__init__.py:18-23 | as written: the preamble raises exactly when the duration text does not parse; a missing or zero duration gives no end time, any other the loop time plus the duration |
| LoadTestScheduler.RunTestEndTimeIntended | load_test/__init__.py:18-23 | the intended preamble: no end time exactly when no duration was given, otherwise the loop time plus the duration |
| LoadTestScheduler.RequestScheduler.constructor | load_test/__init__.py:29-30 | no tasks, nothing cancelled |
| LoadTestScheduler.RequestScheduler.Reap | load_test/__init__.py:33-37 | finished tasks leave the set |
| LoadTestScheduler.RequestScheduler.Backfill | load_test/__init__.py:39-43 | fresh tasks are added, each while the deadline was not reached, until the set is full or the deadline has passed; never more than the concurrency level |
| LoadTestScheduler.RequestScheduler.Step | load_test/__init__.py:33-45 | one round: reap, then backfill up to the concurrency level |
| LoadTestScheduler.RequestScheduler.Shutdown | load_test/__init__.py:46-50 | every remaining task is cancelled and the test is marked complete |
| LoadTestScheduler.RequestScheduler.ManageRequests | load_test/__init__.py:29-50 | the loop exits exactly when some round's clock reaches the end time, and then cancels every task and marks the test complete; without an end time it never exits; a non-positive level never starts a task |
| LoadTestUtil.IndexOf | load_test/util.py:136 | the first occurrence at or after `from`, or none at all |
| LoadTestUtil.ReplaceFirst | load_test/util.py:137 | `replace(slot, text, 1)` swaps the first occurrence and keeps the rest; no occurrence leaves the text alone |
| LoadTestUtil.FillSlots | load_test/util.py:135-137 | the loop fills the slots in the fillers' order, as `Filled` states |
| LoadTestUtil.Split | load_test/util.py:140 | `split()` returns non-empty words without whitespace |
| LoadTestUtil.SplitAfterSpace | load_test/util.py:140 | leading whitespace does not change the split |
| LoadTestUtil.SplitJoin | load_test/util.py:140-146 | splitting the space-joined words gives the words back |
| LoadTestUtil.WordRunPrefix | load_test/util.py:140 | a word followed by whitespace or the end is exactly the run `split()` takes |
| LoadTestUtil.Adjusted | load_test/util.py:141-144 | a non-negative target gives exactly that many words; a negative one raises IndexError from `pop` |
| LoadTestUtil.AdjustWordCount | load_test/util.py:141-144 | the two loops keep the first words, pad with generated words and cut to the target, as `Adjusted` states |
| LoadTestUtil.GenerateTemplateString | load_test/util.py:86-146 | fails exactly for a negative target; otherwise the join of the adjusted words of the filled template |
| LoadTestUtil.TemplateWordCount | load_test/util.py:140-146 | the returned text splits back into exactly the target number of words |
| LoadTestArgs.SelectClientType | load_test/parse_args.py:95-111 | two or more flags raise ValueError; otherwise the flag given selects its type, and none gives "azure" |
| LoadTestArgs.Parse | load_test/parse_args.py:95-123 | fails exactly on conflicting flags, and the tuple carries the selected type |
| LoadTestArgs.ParseCopies | load_test/parse_args.py:113-123 | every other field is copied unchanged |
| LoadTestArgs.DefaultIsAzure | load_test/parse_args.py:107-111 | no flag or `--azure-openai` gives "azure"; `--openai` and `--custom` give their type |
| LoadTestArgs.SelectedTypeAccepted | load_test/parse_args.py:107-111 | the type chosen is one the client accepts |
| LiveMonitor.Upper | live_monitor.py:28 | a lower-case letter becomes its capital, 32 code points down; anything else is kept |
| LiveMonitor.Lower | live_monitor.py:28 | a capital becomes its lower-case letter, 32 code points up; anything else is kept |
| LiveMonitor.Title | live_monitor.py:28 | `title()` keeps every character up to case; a letter is upper case exactly when it starts a word |
| LiveMonitor.Unscore | live_monitor.py:28 | underscores become spaces, all else is kept |
| LiveMonitor.Label | live_monitor.py:28 | the heading is the key with underscores as spaces, up to case, and has no underscore |
| LiveMonitor.LabelCase | live_monitor.py:28 | a letter that starts a word is upper case, any other letter lower case |
| LiveMonitor.TitleIdempotent | live_monitor.py:28 | title-casing twice is title-casing once |
| LiveMonitor.ActiveCallsLabel | live_monitor.py:28 | "active_calls" is shown as "Active Calls" |
| LiveMonitor.Show | live_monitor.py:28 | an int is shown as `str(i)`, a bool as "True" or "False", a float as its number |
| LiveMonitor.ShowIntReadsBack | live_monitor.py:28 | an int's text is an optional minus sign and canonical digits that read back as the int |
| LiveMonitor.RowsOf | live_monitor.py:27-28 | one row per snapshot entry, in order, with its label and value |
| LiveMonitor.Table.constructor | live_monitor.py:17-22 | a new table has no rows |
| LiveMonitor.Monitor.constructor | live_monitor.py:11-16 | the monitor holds its tracker |
| LiveMonitor.Monitor.UpdateTable | live_monitor.py:24-28 | the table's rows become the rows of the tracker's snapshot |
| LiveMonitor.FirstComplete | live_monitor.py:32 | the polls before the first one that reads the test complete, none of which reads it |
| LiveMonitor.Monitor.MonitorMetrics | live_monitor.py:30-36 | a fresh table of that poll's snapshot is shown for exactly the polls before the first one that reads the test complete |
| LiveMonitor.TableLayout | live_monitor.py:24-28 | a row per key in dictionary order, then the token rate |

## Left out

- The request to the endpoint is not modelled. Its latency, its token count and the exception it raises are inputs (`CallOutcome`).
- Clocks, `asyncio.sleep`, the event loop, task scheduling, locks and cancellation are not modelled. Times are parameters. Each tracker method is one atomic step, as its asyncio lock makes it. Which tasks finished in a round is an input.
- The tokenizer is not modelled: prompt token counts are inputs. `random.choice` and the random words are inputs too (template index, picks, `extra`).
- `rich` rendering, printing and logging are left out. Only the rows a table holds are modelled.
- The argparse definitions are left out. The parsed flags are a record (`RawArgs`).
- LoadTestMetrics.MetricsTracker.SetMetric: values are int, float or bool only. Python would store any object.
- LiveMonitor.Monitor.MonitorMetrics: what other tasks write to the tracker between polls is an input, one dictionary per poll. The flag and the snapshot of a poll are read from the same dictionary, although the source reads them in two separate locked calls.
- LiveMonitor.Show: the text of a float is its `repr`, which is not modelled. Floats become a `FloatText` cell carrying the number.
- LiveMonitor.Title: only ASCII letters are cased. Unicode case mapping is not modelled.
- LoadTestUtil.IsSpace: only ASCII whitespace is split on. Unicode spaces are not.
- Durations.MatchDuration: `\d` matches only ASCII digits here. Python's pattern also accepts other Unicode digits.
- Durations.ParseDuration: `int()`'s limit on very long digit strings is not modelled. That limit depends on the Python version.
- LoadTestClient.Handled: `e.response` is read as the status only. A response whose body cannot be decoded is not modelled.
- LoadTestScheduler.RequestScheduler.ManageRequests: the outer loop runs over a given list of rounds, each with its own clock reading, rather than until the clock passes the end.
- `AzureOpenAILoadTester.__init__` is modelled as `LoadTestClient.Configure` plus the constructor. The SDK clients it builds are not modelled.
- main.py's `update_max_concurrent_successful` after `update_tpm` is never reached, because `update_tpm` always raises. The method is modelled, but the unreachable call is not.
- client.py's `total_tokens` update after the `avg_response_time` update is never reached, because that update always raises. It is kept in the method, and no lemma depends on it.
- The root parse_args.py, `generate_random_string`, `generate_test_string`, main.py's `main` and `perform_tests`, and the monitor's `create_table`, `final_update` and `update_live_table` are left out. They are argument wiring, random text and rendering, with no bookkeeping.

## Findings

| source | as written | input that shows it | evidently intended | confidence | as-written member | corrected member |
|---|---|---|---|---|---|---|
| load_test/__init__.py:19-23 | `if duration` tests the timedelta's truth value, and `timedelta(0)` is false, so a zero duration gives no end time and the test runs until interrupted | `--duration 0s` | no end time only when no duration was given, so a zero duration ends the run at once | not executed | LoadTestScheduler.ZeroDurationRunsForever | LoadTestScheduler.ZeroDurationEndsAtOnce |
