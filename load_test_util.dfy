/** load_test/util.py, `generate_template_string`: a template is picked, its
    slots are filled, and its words are padded or cut to the target count.
    The random picks and the random words are inputs. (`parse_duration` of
    the same file is in the Durations module.) */
module LoadTestUtil {
  import opened Values

  const Templates: seq<string> := [
    "Write a brief summary about {topic}.",
    "Explain the concept of {concept} in simple terms.",
    "What are the main differences between {thing1} and {thing2}?",
    "Generate a short story involving a {character} and a {setting}."
  ]

  /** A slot and the texts that may fill it. */
  datatype Filler = Filler(slot: string, options: seq<string>)

  /** The fillers in the dictionary's order. */
  const Fillers: seq<Filler> := [
    Filler("{topic}", ["global warming", "quantum computing", "machine learning", "the industrial revolution"]),
    Filler("{concept}", ["entropy", "blockchain", "evolution", "artificial intelligence"]),
    Filler("{thing1}", ["cats", "dogs", "democracy", "autocracy", "Python", "JavaScript", "coffee", "tea"]),
    Filler("{thing2}", ["dogs", "cats", "autocracy", "democracy", "JavaScript", "Python", "tea", "coffee"]),
    Filler("{character}", ["wizard", "detective", "astronaut", "pirate"]),
    Filler("{setting}", ["on Mars", "in the deep ocean", "during the Renaissance", "in a parallel universe"])
  ]

  /** `sub` occurs in `s` at index `i`. */
  predicate OccursAt(s: string, sub: string, i: nat) {
    i + |sub| <= |s| && s[i..i + |sub|] == sub
  }

  /** The index of the first occurrence of `sub` in `s`, searching from `from`. */
  function IndexOf(s: string, sub: string, from: nat := 0): (r: Option<nat>)
    ensures r.Some? ==> from <= r.value && OccursAt(s, sub, r.value)
    ensures r.Some? ==> forall j :: from <= j < r.value ==> !OccursAt(s, sub, j)
    ensures r.None? ==> forall j :: from <= j ==> !OccursAt(s, sub, j)
    decreases |s| - from
  {
    if from + |sub| > |s| then None
    else if s[from..from + |sub|] == sub then Some(from)
    else IndexOf(s, sub, from + 1)
  }

  /** `s.replace(slot, text, 1)`: the first occurrence of `slot`, if any, becomes `text`. */
  function ReplaceFirst(s: string, slot: string, text: string): (r: string)
    ensures IndexOf(s, slot).None? ==> r == s
    ensures IndexOf(s, slot).Some? ==> var i := IndexOf(s, slot).value;
      && |r| == |s| - |slot| + |text|
      && r[..i] == s[..i]
      && r[i..i + |text|] == text
      && r[i + |text|..] == s[i + |slot|..]
  {
    match IndexOf(s, slot)
    case None => s
    case Some(i) => s[..i] + text + s[i + |slot|..]
  }

  /** The template after the first `k` fillers, `picks[j]` being the option
      `random.choice` returned for the `j`-th slot. */
  function Filled(template: string, picks: seq<nat>, k: nat): string
    requires k <= |Fillers| && |picks| == |Fillers|
    requires forall j :: 0 <= j < |Fillers| ==> picks[j] < |Fillers[j].options|
  {
    if k == 0 then template
    else
      var before := Filled(template, picks, k - 1);
      var f := Fillers[k - 1];
      if IndexOf(before, f.slot).Some? then ReplaceFirst(before, f.slot, f.options[picks[k - 1]]) else before
  }

  /** The slot-filling loop. */
  method FillSlots(template: string, picks: seq<nat>) returns (filled: string)
    requires |picks| == |Fillers|
    requires forall j :: 0 <= j < |Fillers| ==> picks[j] < |Fillers[j].options|
    ensures filled == Filled(template, picks, |Fillers|)
  {
    filled := template;
    for k := 0 to |Fillers|
      invariant filled == Filled(template, picks, k)
    {
      var f := Fillers[k];
      if IndexOf(filled, f.slot).Some? {
        filled := ReplaceFirst(filled, f.slot, f.options[picks[k]]);
      }
    }
  }

  /** The characters `str.split()` splits on (the ASCII ones). */
  predicate IsSpace(c: char) {
    c == ' ' || c == '\t' || c == '\n' || c == '\r' || c == '\U{0B}' || c == '\U{0C}'
      || c == '\U{1C}' || c == '\U{1D}' || c == '\U{1E}' || c == '\U{1F}'
  }

  /** A word as `split()` returns it: non-empty, without whitespace. */
  predicate IsWord(w: string) {
    |w| > 0 && forall i :: 0 <= i < |w| ==> !IsSpace(w[i])
  }

  /** Length of the run of whitespace at the start of `s`. */
  function SpaceRun(s: string): (k: nat)
    ensures k <= |s|
    ensures forall i :: 0 <= i < k ==> IsSpace(s[i])
    ensures k < |s| ==> !IsSpace(s[k])
  {
    if s == [] || !IsSpace(s[0]) then 0 else 1 + SpaceRun(s[1..])
  }

  /** Length of the run of non-whitespace at the start of `s`. */
  function WordRun(s: string): (k: nat)
    ensures k <= |s|
    ensures forall i :: 0 <= i < k ==> !IsSpace(s[i])
    ensures k < |s| ==> IsSpace(s[k])
  {
    if s == [] || IsSpace(s[0]) then 0 else 1 + WordRun(s[1..])
  }

  /** `s.split()`: the maximal runs of non-whitespace, in order. */
  function Split(s: string): (ws: seq<string>)
    ensures forall i :: 0 <= i < |ws| ==> IsWord(ws[i])
    decreases |s|
  {
    var t := s[SpaceRun(s)..];
    if t == [] then []
    else
      var k := WordRun(t);
      assert 0 < k by { assert t[0] == s[SpaceRun(s)]; }
      var w := t[..k];
      assert IsWord(w);
      [w] + Split(t[k..])
  }

  /** `" ".join(ws)`. */
  function Join(ws: seq<string>): string {
    if ws == [] then ""
    else if |ws| == 1 then ws[0]
    else ws[0] + " " + Join(ws[1..])
  }

  /** Leading whitespace does not change the split. */
  lemma SplitAfterSpace(s: string)
    ensures Split(" " + s) == Split(s)
  {
    assert (" " + s)[1..] == s;
    assert (" " + s)[SpaceRun(" " + s)..] == s[SpaceRun(s)..];
  }

  /** Splitting what was joined gives the words back. */
  lemma {:induction false} SplitJoin(ws: seq<string>)
    requires forall i :: 0 <= i < |ws| ==> IsWord(ws[i])
    ensures Split(Join(ws)) == ws
  {
    if |ws| == 1 {
      SplitWordThen(ws[0], "");
      assert ws[0] + "" == ws[0];
    } else if |ws| > 1 {
      var rest := Join(ws[1..]);
      SplitWordThen(ws[0], " " + rest);
      assert ws[0] + " " + rest == ws[0] + (" " + rest);
      SplitAfterSpace(rest);
      SplitJoin(ws[1..]);
      assert ws == [ws[0]] + ws[1..];
    }
  }

  /** A word followed by whitespace or by nothing is split off first. */
  lemma SplitWordThen(w: string, rest: string)
    requires IsWord(w)
    requires rest == [] || IsSpace(rest[0])
    ensures Split(w + rest) == [w] + Split(rest)
  {
    var s := w + rest;
    assert SpaceRun(s) == 0 by {
      assert s[0] == w[0];
    }
    assert s[..|w|] == w;
    assert WordRun(s) == |w| by {
      WordRunPrefix(s, |w|);
    }
    assert s[|w|..] == rest;
  }

  /** A non-whitespace prefix followed by whitespace or the end is the word run. */
  lemma {:induction false} WordRunPrefix(s: string, k: nat)
    requires k <= |s|
    requires forall i :: 0 <= i < k ==> !IsSpace(s[i])
    requires k < |s| ==> IsSpace(s[k])
    ensures WordRun(s) == k
  {
    if k > 0 {
      WordRunPrefix(s[1..], k - 1);
    }
  }

  /** The first `n` padding words. */
  function Padding(extra: nat -> string, n: nat): (p: seq<string>)
    ensures |p| == n && forall i :: 0 <= i < n ==> p[i] == extra(i)
  {
    if n == 0 then [] else Padding(extra, n - 1) + [extra(n - 1)]
  }

  /** The word list after padding with `extra(0), extra(1), ...` or cutting
      from the end; cutting below zero pops from an empty list. */
  function Adjusted(words: seq<string>, target: int, extra: nat -> string): (r: Result<seq<string>>)
    ensures r.Ok? <==> target >= 0
    ensures r.Err? ==> r.error == IndexError("pop from empty list")
    ensures r.Ok? ==> |r.value| == target
  {
    if target < 0 then Err(IndexError("pop from empty list"))
    else if |words| >= target then Ok(words[..target])
    else Ok(words + Padding(extra, target - |words|))
  }

  /** The two loops of `generate_template_string` that pad and cut the word list. */
  method AdjustWordCount(words: seq<string>, target: int, extra: nat -> string) returns (r: Result<seq<string>>)
    ensures r == Adjusted(words, target, extra)
    ensures r.Ok? ==> |r.value| == target
    ensures r.Ok? ==> forall i :: 0 <= i < |words| && i < target ==> r.value[i] == words[i]
    ensures r.Ok? ==> forall i :: |words| <= i < target ==> r.value[i] == extra(i - |words|)
  {
    var ws := words;
    var n: nat := 0;
    while |ws| < target
      invariant |words| <= |ws| && n == |ws| - |words|
      invariant |ws| <= target || n == 0
      invariant ws == words + Padding(extra, n)
      decreases target - |ws|
    {
      ws := ws + [extra(n)];
      n := n + 1;
    }
    while |ws| > target
      invariant |ws| <= |words| + n && ws == (words + Padding(extra, n))[..|ws|]
      invariant n > 0 ==> |ws| == target
      invariant |ws| >= target
      decreases |ws|
    {
      if ws == [] {
        return Err(IndexError("pop from empty list"));
      }
      ws := ws[..|ws| - 1];
    }
    r := Ok(ws);
  }

  /** `generate_template_string(target)` with template `Templates[t]`, the
      slot picks `picks` and the padding words `extra`. */
  method GenerateTemplateString(target: int, t: nat, picks: seq<nat>, extra: nat -> string) returns (r: Result<string>)
    requires t < |Templates|
    requires |picks| == |Fillers|
    requires forall j :: 0 <= j < |Fillers| ==> picks[j] < |Fillers[j].options|
    ensures r.Ok? <==> target >= 0
    ensures r.Ok? ==> exists ws :: Adjusted(Split(Filled(Templates[t], picks, |Fillers|)), target, extra) == Ok(ws) && r.value == Join(ws)
  {
    var filled := FillSlots(Templates[t], picks);
    var words := Split(filled);
    var adjusted := AdjustWordCount(words, target, extra);
    match adjusted
    case Err(e) => r := Err(e);
    case Ok(ws) => r := Ok(Join(ws));
  }

  /** When the padding words are words, the result splits back into exactly
      `target` words: the template's, then the padding. */
  lemma TemplateWordCount(filled: string, target: nat, extra: nat -> string)
    requires forall i :: IsWord(extra(i))
    ensures var ws := Adjusted(Split(filled), target, extra).value;
      && |Split(Join(ws))| == target
      && Split(Join(ws)) == ws
  {
    var words := Split(filled);
    var ws := Adjusted(words, target, extra).value;
    forall i | 0 <= i < |ws| ensures IsWord(ws[i]) {
      if i >= |words| {
        assert ws[i] == extra(i - |words|);
      }
    }
    SplitJoin(ws);
  }
}
