/** CPU lists as text: the kernel's range form, masks, and command-line
    parameters (lib/sigmond/cpu.py). */
module CpuText {
  import opened Lists
  import opened Text

  /** `range(lo, hi + 1)` */
  function Span(lo: int, hi: int): (r: set<int>)
    ensures forall i :: i in r <==> lo <= i <= hi
    decreases hi - lo
  {
    if lo > hi then {} else {lo} + Span(lo + 1, hi)
  }

  // ---- reading ----

  /** The CPUs one token names: a number or an inclusive range; anything else
      names none. */
  function TokenCpus(token: string): set<int> {
    if '-' in token then
      match (ParseInt(Before(token, '-')), ParseInt(After(token, '-')))
      case (Some(a), Some(b)) => Span(a, b)
      case _ => {}
    else
      match ParseInt(token)
      case Some(n) => {n}
      case None => {}
  }

  function TokensCpus(tokens: seq<string>): set<int> {
    set t, c | t in tokens && c in TokenCpus(t) :: c
  }

  lemma TokensCpusAppend(tokens: seq<string>, t: string)
    ensures TokensCpus(tokens + [t]) == TokensCpus(tokens) + TokenCpus(t)
  {
    var more := tokens + [t];
    assert more[|tokens|] == t;
    assert forall u :: u in tokens ==> u in more;
    assert forall u :: u in more ==> u in tokens || u == t;
  }

  function MaskCpus(s: string): set<int> {
    TokensCpus(Words(Replace(s, ',', ' ')))
  }

  method ParseCpuMask(s: string) returns (parts: set<int>)
    ensures parts == MaskCpus(s)
  {
    assert TokensCpus([]) == {};
    hide TokensCpus, Words, Replace, ParseInt, Before, After, Span;
    parts := {};
    var tokens := Words(Replace(s, ',', ' '));
    for k := 0 to |tokens|
      invariant parts == TokensCpus(tokens[..k])
    {
      var token := tokens[k];
      if '-' in token {
        var a, b := ParseInt(Before(token, '-')), ParseInt(After(token, '-'));
        if a.Some? && b.Some? {
          parts := parts + Span(a.value, b.value);
        }
      } else {
        var n := ParseInt(token);
        if n.Some? {
          parts := parts + {n.value};
        }
      }
      TokensCpusAppend(tokens[..k], token);
      assert tokens[..k + 1] == tokens[..k] + [token];
    }
    assert tokens[..|tokens|] == tokens;
  }

  predicate StartsWith(s: string, prefix: string) {
    prefix <= s
  }

  function ChunksCpus(chunks: seq<string>): set<int> {
    set ch, c | ch in chunks && c in MaskCpus(Strip(ch)) :: c
  }

  lemma ChunksCpusAppend(chunks: seq<string>, ch: string)
    ensures ChunksCpus(chunks + [ch]) == ChunksCpus(chunks) + MaskCpus(Strip(ch))
  {
    var more := chunks + [ch];
    assert more[|chunks|] == ch;
    assert forall u :: u in chunks ==> u in more;
    assert forall u :: u in more ==> u in chunks || u == ch;
  }

  /** What one command-line token adds to the set of parameter `key`: each
      comma-separated chunk is read as a mask, so flags add nothing. */
  function ParameterCpus(token: string, key: string): set<int> {
    if StartsWith(token, key + "=") then ChunksCpus(SplitOn(After(token, '='), ',')) else {}
  }

  function ParametersCpus(tokens: seq<string>, key: string): set<int> {
    set t, c | t in tokens && c in ParameterCpus(t, key) :: c
  }

  lemma ParametersCpusConcat(a: seq<string>, b: seq<string>, key: string)
    ensures ParametersCpus(a + b, key) == ParametersCpus(a, key) + ParametersCpus(b, key)
  {
    assert forall u :: u in a + b <==> u in a || u in b;
  }

  lemma ParametersCpusOne(t: string, key: string)
    ensures ParametersCpus([t], key) == ParameterCpus(t, key)
  {
    assert t in [t];
  }

  function CmdlineCpus(cmdline: string, key: string): set<int> {
    ParametersCpus(Words(cmdline), key)
  }

  lemma NothingNamed(key: string)
    ensures ParametersCpus([], key) == {} && ChunksCpus([]) == {}
  {
  }

  method ParseCmdlineCpuParam(cmdline: string, key: string) returns (result: set<int>)
    ensures result == CmdlineCpus(cmdline, key)
  {
    NothingNamed(key);
    hide ParametersCpus, ChunksCpus, MaskCpus, StartsWith, After, SplitOn, Strip, Words;
    result := {};
    var tokens := Words(cmdline);
    for k := 0 to |tokens|
      invariant result == ParametersCpus(tokens[..k], key)
    {
      var token := tokens[k];
      assert tokens[..k + 1] == tokens[..k] + [token];
      ParametersCpusConcat(tokens[..k], [token], key);
      ParametersCpusOne(token, key);
      if !StartsWith(token, key + "=") {
        continue;
      }
      var chunks := SplitOn(After(token, '='), ',');
      ghost var before := result;
      for m := 0 to |chunks|
        invariant result == before + ChunksCpus(chunks[..m])
      {
        assert chunks[..m + 1] == chunks[..m] + [chunks[m]];
        ChunksCpusAppend(chunks[..m], chunks[m]);
        var parsed := ParseCpuMask(Strip(chunks[m]));
        if parsed != {} {
          result := result + parsed;
        }
      }
      assert chunks[..|chunks|] == chunks;
    }
    assert tokens[..|tokens|] == tokens;
  }

  /** True when the running kernel does not isolate all of `want` yet. */
  predicate RebootPending(want: set<int>, cmdline: string) {
    want != {} && !(want <= CmdlineCpus(cmdline, "isolcpus"))
  }

  // ---- printing ----

  predicate Ascending(s: seq<int>) {
    forall i, j :: 0 <= i < j < |s| ==> s[i] <= s[j]
  }

  predicate StrictlyAscending(s: seq<int>) {
    forall i, j :: 0 <= i < j < |s| ==> s[i] < s[j]
  }

  function Insert(x: nat, s: seq<nat>): (r: seq<nat>)
    ensures multiset(r) == multiset{x} + multiset(s)
    ensures r != [] && (r[0] == x || (s != [] && r[0] == s[0]))
  {
    if s == [] || x <= s[0] then [x] + s
    else
      assert s == [s[0]] + s[1..];
      [s[0]] + Insert(x, s[1..])
  }

  lemma AscendingCons(x: int, s: seq<int>)
    requires Ascending(s) && (s == [] || x <= s[0])
    ensures Ascending([x] + s)
  {
  }

  lemma {:induction false} InsertAscends(x: nat, s: seq<nat>)
    requires Ascending(s)
    ensures Ascending(Insert(x, s))
  {
    if s == [] || x <= s[0] {
      AscendingCons(x, s);
    } else {
      InsertAscends(x, s[1..]);
      AscendingCons(s[0], Insert(x, s[1..]));
    }
  }

  /** `sorted(s)` */
  function Sorted(s: seq<nat>): (r: seq<nat>)
    ensures multiset(r) == multiset(s)
    ensures Ascending(r)
  {
    if s == [] then []
    else
      assert s == [s[0]] + s[1..];
      InsertAscends(s[0], Sorted(s[1..]));
      Insert(s[0], Sorted(s[1..]))
  }

  function SetOf(s: seq<int>): set<int> {
    set x | x in s
  }

  datatype Run = Run(lo: nat, hi: nat)

  /** Where the run of consecutive numbers that begins at position `i` ends. */
  function RunEnd(s: seq<nat>, i: nat): (j: nat)
    requires i < |s|
    ensures i <= j < |s|
    ensures forall k :: i <= k <= j ==> s[k] == s[i] + (k - i)
    ensures j + 1 < |s| ==> s[j + 1] != s[j] + 1
    decreases |s| - i
  {
    if i + 1 < |s| && s[i + 1] == s[i] + 1 then RunEnd(s, i + 1) else i
  }

  /** The runs of `s` from position `i` on. */
  function Runs(s: seq<nat>, i: nat): seq<Run>
    requires i <= |s|
    decreases |s| - i
  {
    if i == |s| then []
    else
      var j := RunEnd(s, i);
      [Run(s[i], s[j])] + Runs(s, j + 1)
  }

  function RunText(r: Run): string {
    if r.lo == r.hi then ToDecimal(r.lo) else ToDecimal(r.lo) + "-" + ToDecimal(r.hi)
  }

  function RunTexts(runs: seq<Run>): seq<string> {
    if runs == [] then [] else [RunText(runs[0])] + RunTexts(runs[1..])
  }

  lemma {:induction false} RunTextsAt(runs: seq<Run>)
    ensures |RunTexts(runs)| == |runs|
    ensures forall k :: 0 <= k < |runs| ==> RunTexts(runs)[k] == RunText(runs[k])
  {
    if runs == [] {
    } else {
      RunTextsAt(runs[1..]);
    }
  }

  /** The kernel's form of a CPU list: `0-6,8-14` */
  function RangeText(s: seq<nat>): string {
    Join(RunTexts(Runs(Sorted(s), 0)), ',')
  }

  ghost predicate Printed(runs: seq<Run>, texts: seq<string>) {
    |texts| == |runs| && forall k :: 0 <= k < |runs| ==> texts[k] == RunText(runs[k])
  }

  lemma PrintedAppend(runs: seq<Run>, texts: seq<string>, r: Run)
    requires Printed(runs, texts)
    ensures Printed(runs + [r], texts + [RunText(r)])
  {
  }

  lemma RangeTextIs(cpus: seq<nat>, texts: seq<string>)
    requires Printed(Runs(Sorted(cpus), 0), texts)
    ensures Join(texts, ',') == RangeText(cpus)
  {
    RunTextsAt(Runs(Sorted(cpus), 0));
    assert texts == RunTexts(Runs(Sorted(cpus), 0));
  }

  /** The runs found so far and the runs still to come. */
  ghost function Extended(runs: seq<Run>, s: seq<nat>, i: nat): seq<Run>
    requires i <= |s|
  {
    runs + Runs(s, i)
  }

  lemma ExtendedEnds(runs: seq<Run>, s: seq<nat>)
    ensures Extended(runs, s, |s|) == runs && Extended([], s, 0) == Runs(s, 0)
  {
    assert Runs(s, |s|) == [];
  }

  lemma RunsStep(s: seq<nat>, i: nat)
    requires i < |s|
    ensures Runs(s, i) == [Run(s[i], s[RunEnd(s, i)])] + Runs(s, RunEnd(s, i) + 1)
  {
  }

  lemma ExtendedStep(runs: seq<Run>, s: seq<nat>, i: nat, j: nat)
    requires i < |s| && RunEnd(s, i) == j
    ensures Extended(runs + [Run(s[i], s[j])], s, j + 1) == Extended(runs, s, i)
  {
    RunsStep(s, i);
    hide Runs, RunEnd;
    AppendOne(runs, Run(s[i], s[j]), Runs(s, j + 1));
  }

  method PrintRuns(s: seq<nat>) returns (out: seq<string>)
    ensures Printed(Runs(s, 0), out)
  {
    out := [];
    ghost var runs: seq<Run> := [];
    var i := 0;
    while i < |s|
      invariant 0 <= i <= |s|
      invariant Extended(runs, s, i) == Extended([], s, 0)
      invariant Printed(runs, out)
    {
      var j := i;
      while j + 1 < |s| && s[j + 1] == s[j] + 1
        invariant i <= j < |s|
        invariant RunEnd(s, i) == RunEnd(s, j)
      {
        j := j + 1;
      }
      ExtendedStep(runs, s, i, j);
      var run := Run(s[i], s[j]);
      PrintedAppend(runs, out, run);
      runs := runs + [run];
      out := out + [RunText(run)];
      i := j + 1;
    }
    ExtendedEnds(runs, s);
  }

  method CpusToRangeStr(cpus: seq<nat>) returns (text: string)
    ensures text == RangeText(cpus)
  {
    var s := Sorted(cpus);
    var out := PrintRuns(s);
    RangeTextIs(cpus, out);
    text := Join(out, ',');
  }

  ghost function RunSet(r: Run): set<int> {
    Span(r.lo, r.hi)
  }

  ghost function RunsSet(runs: seq<Run>): set<int> {
    set k, i | 0 <= k < |runs| && i in RunSet(runs[k]) :: i
  }

  /** Runs are non-empty, in order, and separated by at least one missing CPU. */
  predicate Maximal(runs: seq<Run>) {
    && (forall k :: 0 <= k < |runs| ==> runs[k].lo <= runs[k].hi)
    && (forall k :: 0 <= k < |runs| - 1 ==> runs[k].hi + 1 < runs[k + 1].lo)
  }

  lemma RunsSetCons(r: Run, rest: seq<Run>)
    ensures RunsSet([r] + rest) == RunSet(r) + RunsSet(rest)
  {
    var whole := [r] + rest;
    forall i | i in RunSet(r) ensures i in RunsSet(whole) {
      assert whole[0] == r;
    }
    forall i | i in RunsSet(rest) ensures i in RunsSet(whole) {
      var k :| 0 <= k < |rest| && i in RunSet(rest[k]);
      assert whole[k + 1] == rest[k];
    }
  }

  lemma RunCovers(s: seq<nat>, i: nat, j: nat)
    requires i <= j < |s|
    requires forall k :: i <= k <= j ==> s[k] == s[i] + (k - i)
    ensures SetOf(s[i..]) == RunSet(Run(s[i], s[j])) + SetOf(s[j + 1..])
  {
    assert s[i..] == s[i..j + 1] + s[j + 1..];
    forall c | c in RunSet(Run(s[i], s[j])) ensures c in s[i..j + 1] {
      assert s[i..j + 1][c - s[i]] == s[i + (c - s[i])] == c;
    }
  }

  lemma {:induction false} RunsNonEmpty(s: seq<nat>, i: nat)
    requires i <= |s|
    ensures forall k :: 0 <= k < |Runs(s, i)| ==> Runs(s, i)[k].lo <= Runs(s, i)[k].hi
    decreases |s| - i
  {
    if i < |s| {
      RunsNonEmpty(s, RunEnd(s, i) + 1);
    }
  }

  lemma RunsCoverNothing(s: seq<nat>)
    ensures RunsSet(Runs(s, |s|)) == SetOf(s[|s|..])
  {
  }

  /** The printed ranges name exactly the CPUs of the list. */
  lemma {:induction false} RunsCover(s: seq<nat>, i: nat)
    requires i <= |s|
    ensures RunsSet(Runs(s, i)) == SetOf(s[i..])
    decreases |s| - i
  {
    hide *;
    if i < |s| {
      var j := RunEnd(s, i);
      RunsCover(s, j + 1);
      RunsStep(s, i);
      RunsSetCons(Run(s[i], s[j]), Runs(s, j + 1));
      RunCovers(s, i, j);
    } else {
      RunsCoverNothing(s);
    }
  }

  /** ... and no two of them could be merged or reordered. */
  lemma {:induction false} RunsMaximal(s: seq<nat>, i: nat)
    requires StrictlyAscending(s) && i <= |s|
    ensures Maximal(Runs(s, i))
    ensures i < |s| ==> Runs(s, i) != [] && Runs(s, i)[0].lo == s[i]
    decreases |s| - i
  {
    if i < |s| {
      RunsMaximal(s, RunEnd(s, i) + 1);
    }
  }

  /** The printed form of a list without repeats is canonical: maximal ranges
      in ascending order. */
  lemma RangesAreMaximal(s: seq<nat>)
    requires NoDup(s)
    ensures Maximal(Runs(Sorted(s), 0))
  {
    var t := Sorted(s);
    MultisetNoDup(s, t);
    RunsMaximal(t, 0);
  }

  lemma DecimalIsToken(n: nat)
    ensures ParseInt(ToDecimal(n)) == Some(n) && IsWord(ToDecimal(n))
    ensures '-' !in ToDecimal(n) && ',' !in ToDecimal(n)
  {
    ParseOfDecimal(n);
    DigitsAreNotSpace(ToDecimal(n));
    hide ToDecimal, ParseInt, IsSpace;
  }

  lemma RangeToken(lo: string, hi: string, a: int, b: int)
    requires ParseInt(lo) == Some(a) && ParseInt(hi) == Some(b)
    requires IsWord(lo) && IsWord(hi) && '-' !in lo && ',' !in lo && ',' !in hi
    ensures TokenCpus(lo + "-" + hi) == Span(a, b)
    ensures IsWord(lo + "-" + hi) && ',' !in lo + "-" + hi
  {
    PartitionAt(lo, '-', hi);
    assert (lo + "-" + hi)[|lo|] == '-';
    hide ParseInt, Before, After, Span;
  }

  lemma RunTextCpus(r: Run)
    requires r.lo <= r.hi
    ensures TokenCpus(RunText(r)) == RunSet(r)
    ensures IsWord(RunText(r)) && ',' !in RunText(r)
  {
    DecimalIsToken(r.lo);
    if r.lo != r.hi {
      DecimalIsToken(r.hi);
      RangeToken(ToDecimal(r.lo), ToDecimal(r.hi), r.lo, r.hi);
    }
    hide ParseInt, ToDecimal, IsWord, Before, After;
  }

  lemma RunTextsCpus(runs: seq<Run>)
    requires forall k :: 0 <= k < |runs| ==> runs[k].lo <= runs[k].hi
    ensures TokensCpus(RunTexts(runs)) == RunsSet(runs)
    ensures forall p :: p in RunTexts(runs) ==> IsWord(p) && ',' !in p
  {
    var texts := RunTexts(runs);
    RunTextsAt(runs);
    forall k | 0 <= k < |runs|
      ensures TokenCpus(texts[k]) == RunSet(runs[k]) && IsWord(texts[k]) && ',' !in texts[k]
    {
      RunTextCpus(runs[k]);
    }
    forall i | i in RunsSet(runs) ensures i in TokensCpus(texts) {
      var k :| 0 <= k < |runs| && i in RunSet(runs[k]);
      assert texts[k] in texts && i in TokenCpus(texts[k]);
    }
    hide TokenCpus, RunTexts, IsWord;
  }

  lemma SortedSet(s: seq<nat>)
    ensures SetOf(Sorted(s)) == SetOf(s)
  {
    forall x: int ensures x in Sorted(s) <==> x in s {
      if x >= 0 {
        assert x in multiset(Sorted(s)) <==> x in multiset(s);
      }
    }
  }

  /** Reading a printed CPU list gives the same CPUs back. */
  lemma MaskOfRangeText(s: seq<nat>)
    ensures MaskCpus(RangeText(s)) == SetOf(s)
  {
    var runs := Runs(Sorted(s), 0);
    RunsCover(Sorted(s), 0);
    RunsNonEmpty(Sorted(s), 0);
    RunTextsCpus(runs);
    ReplaceInJoin(RunTexts(runs), ',', ' ');
    WordsOfJoin(RunTexts(runs));
    SortedSet(s);
    assert Sorted(s)[0..] == Sorted(s);
  }

  lemma MaskOfRunText(r: Run)
    requires r.lo <= r.hi
    ensures MaskCpus(Strip(RunText(r))) == RunSet(r)
  {
    RunTextCpus(r);
    var t := RunText(r);
    assert Strip(t) == t;
    assert Replace(t, ',', ' ') == t;
    WordsCons(t, []);
    assert t + [] == t;
  }

  lemma ChunksOfRuns(runs: seq<Run>)
    requires forall k :: 0 <= k < |runs| ==> runs[k].lo <= runs[k].hi
    ensures ChunksCpus(RunTexts(runs)) == RunsSet(runs)
  {
    var texts := RunTexts(runs);
    RunTextsAt(runs);
    forall k | 0 <= k < |runs| ensures MaskCpus(Strip(texts[k])) == RunSet(runs[k]) {
      MaskOfRunText(runs[k]);
    }
    forall i | i in RunsSet(runs) ensures i in ChunksCpus(texts) {
      var k :| 0 <= k < |runs| && i in RunSet(runs[k]);
      assert texts[k] in texts && i in MaskCpus(Strip(texts[k]));
    }
  }

  lemma ChunksOfRangeText(s: seq<nat>)
    ensures ChunksCpus(SplitOn(RangeText(s), ',')) == SetOf(s)
  {
    var runs := Runs(Sorted(s), 0);
    RunsCover(Sorted(s), 0);
    RunsNonEmpty(Sorted(s), 0);
    SortedSet(s);
    assert Sorted(s)[0..] == Sorted(s);
    if runs == [] {
      assert SplitOn(RangeText(s), ',') == [[]];
      assert Strip([]) == [] && Replace([], ',', ' ') == [] && Words([]) == [];
    } else {
      RunTextsCpus(runs);
      SplitOfJoin(RunTexts(runs), ',');
      ChunksOfRuns(runs);
    }
  }

  /** `name=<ranges>`, as a kernel command line carries it */
  function Parameter(name: string, s: seq<nat>): string {
    name + "=" + RangeText(s)
  }

  lemma ParameterOfRangeText(s: seq<nat>, name: string, key: string)
    requires '=' !in key && '=' !in name
    ensures ParameterCpus(Parameter(name, s), key) == if name == key then SetOf(s) else {}
  {
    var token := Parameter(name, s);
    PartitionAt(name, '=', RangeText(s));
    ChunksOfRangeText(s);
    if StartsWith(token, key + "=") {
      PartitionAt(key, '=', token[|key| + 1..]);
      assert token == key + "=" + token[|key| + 1..];
    }
  }

  lemma RangeTextIsOneWord(name: string, s: seq<nat>)
    requires NoSpace(name)
    ensures Words(Parameter(name, s)) == [Parameter(name, s)]
  {
    var runs := Runs(Sorted(s), 0);
    RunsCover(Sorted(s), 0);
    RunsNonEmpty(Sorted(s), 0);
    RunTextsCpus(runs);
    JoinHasNoSpace(RunTexts(runs), ',');
    var token := Parameter(name, s);
    WordsCons(token, []);
    assert token + [] == token;
  }

  lemma {:induction false} JoinHasNoSpace(parts: seq<string>, sep: char)
    requires !IsSpace(sep) && forall p :: p in parts ==> NoSpace(p)
    ensures NoSpace(Join(parts, sep))
  {
    if parts == [] {
    } else {
      assert parts[0] in parts;
      if |parts| > 1 {
        JoinHasNoSpace(parts[1..], sep);
      }
    }
  }

  /** The command line after booting with the grub drop-in that isolates `s`. */
  function BootedCmdline(base: string, s: seq<nat>): string {
    base + " " + (Parameter("isolcpus", s) + " " + (Parameter("nohz_full", s) + " " + Parameter("rcu_nocbs", s)))
  }

  lemma WordsOfFour(base: string, a: string, b: string, c: string)
    requires Words(a) == [a] && Words(b) == [b] && Words(c) == [c]
    ensures Words(base + " " + (a + " " + (b + " " + c))) == Words(base) + [a, b, c]
  {
    WordsConcat(base, a + " " + (b + " " + c));
    WordsConcat(a, b + " " + c);
    WordsConcat(b, c);
  }

  lemma ParametersOfThree(words: seq<string>, a: string, b: string, c: string, key: string)
    ensures ParametersCpus(words + [a, b, c], key)
      == ParametersCpus(words, key) + ParameterCpus(a, key) + ParameterCpus(b, key) + ParameterCpus(c, key)
  {
    ParametersCpusConcat(words + [a, b], [c], key);
    ParametersCpusConcat(words + [a], [b], key);
    ParametersCpusConcat(words, [a], key);
    assert words + [a] + [b] == words + [a, b] && words + [a, b] + [c] == words + [a, b, c];
    ParametersCpusOne(a, key);
    ParametersCpusOne(b, key);
    ParametersCpusOne(c, key);
  }

  /** A printed list needs no stripping. */
  lemma RangeTextIsStripped(s: seq<nat>)
    ensures NoSpace(RangeText(s)) && Strip(RangeText(s)) == RangeText(s)
  {
    var runs := Runs(Sorted(s), 0);
    RunsNonEmpty(Sorted(s), 0);
    RunTextsCpus(runs);
    JoinHasNoSpace(RunTexts(runs), ',');
    StrippedStays(RangeText(s));
    hide Strip, Runs, RunTexts, Join, IsSpace;
  }

  /** Booting with the staged drop-in isolates the staged CPUs, and beyond
      them only what the rest of the command line already isolated. */
  lemma BootIsolatesStagedCpus(base: string, s: seq<nat>)
    ensures CmdlineCpus(BootedCmdline(base, s), "isolcpus") == CmdlineCpus(base, "isolcpus") + SetOf(s)
    ensures !RebootPending(SetOf(s), BootedCmdline(base, s))
  {
    var isol, nohz, rcu := "isolcpus", "nohz_full", "rcu_nocbs";
    assert |isol| == 8 && |nohz| == 9 && |rcu| == 9;
    assert NoSpace(isol) && NoSpace(nohz) && NoSpace(rcu) && '=' !in isol && '=' !in nohz && '=' !in rcu;
    RangeTextIsOneWord(isol, s);
    RangeTextIsOneWord(nohz, s);
    RangeTextIsOneWord(rcu, s);
    WordsOfFour(base, Parameter(isol, s), Parameter(nohz, s), Parameter(rcu, s));
    ParametersOfThree(Words(base), Parameter(isol, s), Parameter(nohz, s), Parameter(rcu, s), isol);
    ParameterOfRangeText(s, isol, isol);
    ParameterOfRangeText(s, nohz, isol);
    ParameterOfRangeText(s, rcu, isol);
  }

  /** A reboot is pending exactly when some wanted CPU is not isolated yet. */
  lemma RebootIsPendingWhen(want: set<int>, cmdline: string)
    ensures RebootPending(want, cmdline) <==> exists c :: c in want && c !in CmdlineCpus(cmdline, "isolcpus")
  {
    var isolated := CmdlineCpus(cmdline, "isolcpus");
    hide CmdlineCpus;
    if !(want <= isolated) {
      var c := Outside(want, isolated);
    }
  }
}
