/** The duration strings of the command line: `re.match(r"(\d+)(s|m|h)", s)`
    (anchored at the start only, ASCII digits), conversion to seconds, and
    the `parse_duration` helper that load_test/util.py and util.py define
    identically. */
module Durations {
  import opened Values
  import opened Decimal

  datatype Unit = Second | Minute | Hour

  function UnitOf(c: char): Option<Unit> {
    if c == 's' then Some(Second)
    else if c == 'm' then Some(Minute)
    else if c == 'h' then Some(Hour)
    else None
  }

  function UnitChar(u: Unit): (c: char)
    ensures UnitOf(c) == Some(u)
  {
    match u
    case Second => 's'
    case Minute => 'm'
    case Hour => 'h'
  }

  function UnitSeconds(u: Unit): nat {
    match u
    case Second => 1
    case Minute => 60
    case Hour => 3600
  }

  /** Length of the longest run of digits at the start of `s` (what greedy `\d+` consumes). */
  function DigitRun(s: string): (k: nat)
    ensures k <= |s| && AllDigits(s[..k])
    ensures k < |s| ==> !IsDigit(s[k])
  {
    if s == [] || !IsDigit(s[0]) then 0
    else
      var k := 1 + DigitRun(s[1..]);
      assert s[..k] == [s[0]] + s[1..][..k - 1];
      k
  }

  /** The two groups of a successful match. */
  datatype Match = Match(digits: string, unit: Unit)

  /** `re.match(r"(\d+)(s|m|h)", s)`; text after the unit is not looked at. */
  function MatchDuration(s: string): (r: Option<Match>)
    ensures r.Some? ==> 1 <= |r.value.digits| < |s| && AllDigits(r.value.digits)
    ensures r.Some? ==> s[..|r.value.digits| + 1] == r.value.digits + [UnitChar(r.value.unit)]
  {
    var k := DigitRun(s);
    if 1 <= k < |s| && UnitOf(s[k]).Some? then
      assert s[..k + 1] == s[..k] + [s[k]];
      Some(Match(s[..k], UnitOf(s[k]).value))
    else None
  }

  /** The pattern as a regular-expression reader states it: some non-empty
      digit prefix is followed by one of the three unit letters. */
  ghost predicate PatternMatches(s: string) {
    exists k :: 1 <= k < |s| && AllDigits(s[..k]) && UnitOf(s[k]).Some?
  }

  /** MatchDuration succeeds exactly when the pattern matches at the start. */
  lemma MatchIsPattern(s: string)
    ensures MatchDuration(s).Some? <==> PatternMatches(s)
  {
    var k := DigitRun(s);
    if PatternMatches(s) {
      var j :| 1 <= j < |s| && AllDigits(s[..j]) && UnitOf(s[j]).Some?;
      assert j == k;
    }
  }

  /** Only a prefix is matched, so anything after it is ignored. */
  lemma MatchIgnoresSuffix(s: string, rest: string)
    requires MatchDuration(s).Some?
    ensures MatchDuration(s + rest) == MatchDuration(s)
  {
    var k := DigitRun(s);
    var k' := DigitRun(s + rest);
    assert (s + rest)[..k] == s[..k];
    assert (s + rest)[k] == s[k];
    assert (s + rest)[..k'] == s[..k];
  }

  /** The number of seconds a match stands for. */
  function MatchSeconds(m: Match): nat
    requires AllDigits(m.digits)
  {
    DigitsValue(m.digits) * UnitSeconds(m.unit)
  }

  /** timedelta accepts at most 999999999 days: this many seconds overflow. */
  const TimedeltaLimit: nat := 86_400 * 1_000_000_000

  /** `timedelta(seconds=n)`, kept as its whole number of seconds. */
  function Timedelta(seconds: nat): (r: Result<nat>)
    ensures r.Ok? <==> seconds < TimedeltaLimit
    ensures r.Ok? ==> r.value == seconds
    ensures r.Err? ==> r.error == OverflowError
  {
    if seconds < TimedeltaLimit then Ok(seconds) else Err(OverflowError)
  }

  const InvalidDuration: string :=
    "Invalid duration format. Use 's' for seconds, 'm' for minutes, and 'h' for hours. E.g., '60s', '2m', '1h'."

  /** `parse_duration`: None for no duration, otherwise the duration in seconds;
      text the pattern rejects raises ArgumentTypeError. */
  function ParseDuration(duration: Option<string>): (r: Result<Option<nat>>)
    ensures duration.None? ==> r == Ok(None)
    ensures r.Ok? && duration.Some? ==> r.value.Some?
    ensures duration.Some? && MatchDuration(duration.value).None? ==> r == Err(ArgumentTypeError(InvalidDuration))
  {
    match duration
    case None => Ok(None)
    case Some(s) =>
      match MatchDuration(s)
      case None => Err(ArgumentTypeError(InvalidDuration))
      case Some(m) =>
        match Timedelta(MatchSeconds(m))
        case Err(e) => Err(e)
        case Ok(seconds) => Ok(Some(seconds))
  }

  /** The text `<n><unit>` as a user types it. */
  function FormatDuration(n: nat, u: Unit): string {
    DecimalString(n) + [UnitChar(u)]
  }

  /** `<n>s`, `<n>m`, `<n>h` followed by anything read back as n, 60n and 3600n seconds. */
  lemma FormatParses(n: nat, u: Unit, rest: string)
    requires n * UnitSeconds(u) < TimedeltaLimit
    ensures ParseDuration(Some(FormatDuration(n, u) + rest)) == Ok(Some(n * UnitSeconds(u)))
  {
    var s := FormatDuration(n, u);
    var d := DecimalString(n);
    assert DigitRun(s) == |d| by {
      assert s[..|d|] == d;
    }
    assert s[|d|] == UnitChar(u);
    MatchIgnoresSuffix(s, rest);
    DecimalRoundTrip(n);
  }

  /** Whatever the text, a parsed duration is the digits' value times the unit's seconds. */
  lemma ParsedDuration(s: string)
    requires ParseDuration(Some(s)).Ok?
    ensures MatchDuration(s).Some?
    ensures ParseDuration(Some(s)).value == Some(MatchSeconds(MatchDuration(s).value))
    ensures MatchSeconds(MatchDuration(s).value) < TimedeltaLimit
  {
  }

  /** parse_duration raises ArgumentTypeError exactly for text that does not
      start with digits followed by a unit letter; everything else parses or
      overflows timedelta. */
  lemma RejectedIffNoPattern(s: string)
    ensures ParseDuration(Some(s)) == Err(ArgumentTypeError(InvalidDuration)) <==> !PatternMatches(s)
    ensures PatternMatches(s) ==> ParseDuration(Some(s)).Ok? || ParseDuration(Some(s)) == Err(OverflowError)
  {
    MatchIsPattern(s);
  }

  /** Texts the pattern rejects: empty, no unit, an unknown unit, a leading space, a sign. */
  lemma RejectedExamples()
    ensures ParseDuration(Some("")).Err?
    ensures ParseDuration(Some("10")).Err?
    ensures ParseDuration(Some("10d")).Err?
    ensures ParseDuration(Some(" 10s")).Err?
    ensures ParseDuration(Some("-5s")).Err?
  {
    assert DigitRun("10") == 2 by { assert "10"[1..] == "0"; assert DigitRun("0") == 1; }
    assert DigitRun("10d") == 2 by { assert "10d"[1..] == "0d"; assert "0d"[1..] == "d"; }
  }

  /** Text after the unit is ignored: "10sx" is ten seconds. */
  lemma TrailingTextExample()
    ensures ParseDuration(Some("10sx")) == Ok(Some(10))
  {
    assert DigitRun("10sx") == 2 by { assert "10sx"[1..] == "0sx"; assert "0sx"[1..] == "sx"; }
    assert "10sx"[..2] == "10";
    assert DigitsValue("10") == 10 by { assert "10"[..1] == "1"; }
  }

  /** Leading zeros are accepted: "007m" is 420 seconds. */
  lemma LeadingZerosExample()
    ensures ParseDuration(Some("007m")) == Ok(Some(420))
  {
    assert DigitRun("007m") == 3 by {
      assert "007m"[1..] == "07m"; assert "07m"[1..] == "7m"; assert "7m"[1..] == "m";
    }
    assert "007m"[..3] == "007";
    assert DigitsValue("007") == 7 by {
      assert "007"[..2] == "00"; assert "00"[..1] == "0";
    }
  }
}
