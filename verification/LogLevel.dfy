/** Log levels in coordination.env, raised for a time and put back
    (lib/sigmond/log_cmd.py). The file is its list of lines; a file that does
    not exist has none. Each rewrite replaces the whole file at once. */
module LogLevel {
  import opened Lists
  import opened Text

  // ---- lines ----

  /** What stands before the first `=`. */
  function Name(line: string): string {
    Strip(Before(line, '='))
  }

  predicate Commented(line: string) {
    var t := LStrip(line);
    t != [] && t[0] == '#'
  }

  predicate Assigns(line: string) {
    '=' in line && !Commented(line)
  }

  /** The line `KEY=VALUE` */
  function Assignment(key: string, value: string): string {
    key + ['='] + value
  }

  /** The line is written as `KEY=` and more. */
  predicate IsExact(line: string, key: string) {
    key + ['='] <= line
  }

  predicate Blank(line: string) {
    Strip(line) == []
  }

  /** The settings as read: of several lines for a key the last one counts. */
  function Env(lines: seq<string>): map<string, string> {
    if lines == [] then map[]
    else
      var n := |lines| - 1;
      EnvStep(Env(lines[..n]), lines[n])
  }

  function EnvStep(env: map<string, string>, line: string): map<string, string> {
    if Assigns(line) then env[Name(line) := Strip(After(line, '='))] else env
  }

  function Get(env: map<string, string>, key: string): Option<string> {
    if key in env then Some(env[key]) else None
  }

  function Value(lines: seq<string>, key: string): Option<string> {
    Get(Env(lines), key)
  }

  lemma EnvAppend(lines: seq<string>, line: string)
    ensures Env(lines + [line]) == EnvStep(Env(lines), line)
  {
    assert (lines + [line])[..|lines|] == lines;
  }

  // ---- the two ways to change the file ----

  /** The first line that is exactly for `key`, or the number of lines. */
  function FirstExact(lines: seq<string>, key: string): (i: nat)
    ensures i <= |lines| && (i < |lines| ==> IsExact(lines[i], key))
    ensures forall j :: 0 <= j < i ==> !IsExact(lines[j], key)
  {
    if lines == [] || IsExact(lines[0], key) then 0 else 1 + FirstExact(lines[1..], key)
  }

  /** A blank line goes before a line added after a plain one. */
  function Gap(lines: seq<string>): seq<string> {
    if lines != [] && !("#" <= lines[|lines| - 1]) && !Blank(lines[|lines| - 1]) then [[]] else []
  }

  function Upsert(lines: seq<string>, key: string, value: string): seq<string> {
    var i := FirstExact(lines, key);
    if i < |lines| then lines[..i] + [Assignment(key, value)] + lines[i + 1..]
    else lines + Gap(lines) + [Assignment(key, value)]
  }

  /** What becomes of one line: dropped, rewritten, or kept. */
  function Edited(line: string, drop: set<string>, sets: map<string, string>): seq<string> {
    var k := Name(line);
    if k in drop then [] else if k in sets then [Assignment(k, sets[k])] else [line]
  }

  function EditedLines(lines: seq<string>, drop: set<string>, sets: map<string, string>): seq<string> {
    if lines == [] then []
    else
      var n := |lines| - 1;
      EditedLines(lines[..n], drop, sets) + Edited(lines[n], drop, sets)
  }

  function TrimBlank(lines: seq<string>): seq<string> {
    if lines != [] && Blank(lines[|lines| - 1]) then TrimBlank(lines[..|lines| - 1]) else lines
  }

  function Rewrite(lines: seq<string>, drop: set<string>, sets: map<string, string>): seq<string> {
    TrimBlank(EditedLines(lines, drop, sets))
  }

  function Dropped(lines: seq<string>, keys: set<string>): seq<string> {
    if keys * Env(lines).Keys == {} then lines else Rewrite(lines, keys, map[])
  }

  // ---- setting a level ----

  const LEVELS := {"DEBUG", "INFO", "WARNING", "ERROR", "CRITICAL"}

  function Until(key: string): string {
    key + "_UNTIL"
  }

  function Routine(key: string): string {
    key + "_ROUTINE"
  }

  /** The file after the first `n` of the writes that set a level, plainly. */
  function PlainWrites(lines: seq<string>, key: string, level: string, n: nat): seq<string> {
    if n == 0 then lines
    else
      var dropped := Dropped(lines, {Until(key), Routine(key)});
      if n == 1 then dropped else Upsert(dropped, key, level)
  }

  /** The same for a level raised until a time: what to go back to, unless
      that is recorded already, then the time, then the level. */
  function RaiseWrites(lines: seq<string>, key: string, level: string, until: string, n: nat): seq<string> {
    if n == 0 then lines
    else
      var first := if Value(lines, Routine(key)).Some? then lines
                   else Upsert(lines, Routine(key), Value(lines, key).GetOr([]));
      if n == 1 then first
      else
        var second := Upsert(first, Until(key), until);
        if n == 2 then second else Upsert(second, key, level)
  }

  // ---- expiry ----

  predicate EndsWith(s: string, suffix: string) {
    |suffix| <= |s| && s[|s| - |suffix|..] == suffix
  }

  predicate IsExpiry(name: string) {
    EndsWith(name, "_LOG_LEVEL_UNTIL")
  }

  /** `name` without its `_UNTIL` */
  function KeyOf(name: string): string
    requires IsExpiry(name)
  {
    name[..|name| - 6]
  }

  /** Reading a time stamp; None where it is not one. */
  type Parse = string -> Option<int>

  predicate IsDue(until: Option<string>, parse: Parse, now: int) {
    until.Some? && parse(until.value).Some? && parse(until.value).value <= now
  }

  function RoutineOf(env: map<string, string>, key: string): string {
    Get(env, Routine(key)).GetOr([])
  }

  function DueNames(env: map<string, string>, parse: Parse, now: int): set<string> {
    set name | name in env && IsExpiry(name) && IsDue(Some(env[name]), parse, now)
  }

  function KeysOf(names: set<string>): set<string>
    requires forall name :: name in names ==> IsExpiry(name)
  {
    set name | name in names :: KeyOf(name)
  }

  function DropsOf(env: map<string, string>, keys: set<string>): set<string> {
    (set k | k in keys :: Until(k)) + (set k | k in keys :: Routine(k)) + set k | k in keys && RoutineOf(env, k) == []
  }

  function SetsOf(env: map<string, string>, keys: set<string>): map<string, string> {
    map k | k in keys && RoutineOf(env, k) != [] :: RoutineOf(env, k)
  }

  function Expired(lines: seq<string>, parse: Parse, now: int): seq<string> {
    var env := Env(lines);
    var keys := KeysOf(DueNames(env, parse, now));
    if keys == {} then lines else Rewrite(lines, DropsOf(env, keys), SetsOf(env, keys))
  }

  lemma ExpiryName(name: string)
    requires IsExpiry(name)
    ensures name == Until(KeyOf(name))
  {
    var suffix := "_LOG_LEVEL_UNTIL";
    assert |suffix| == 16 && suffix[10..] == "_UNTIL";
    assert name[|name| - 6..] == suffix[10..];
  }

  /** The keys due among the names `seen`. */
  function DueKeys(env: map<string, string>, seen: set<string>, parse: Parse, now: int): set<string> {
    KeysOf(DueNames(env, parse, now) * seen)
  }

  lemma AllDueKeys(env: map<string, string>, parse: Parse, now: int)
    ensures DueKeys(env, env.Keys, parse, now) == KeysOf(DueNames(env, parse, now))
    ensures DueKeys(env, {}, parse, now) == {}
  {
    assert DueNames(env, parse, now) * env.Keys == DueNames(env, parse, now);
  }

  lemma NotDue(env: map<string, string>, seen: set<string>, parse: Parse, now: int, name: string)
    requires name in env && !(IsExpiry(name) && IsDue(Some(env[name]), parse, now))
    ensures DueKeys(env, seen + {name}, parse, now) == DueKeys(env, seen, parse, now)
  {
    assert DueNames(env, parse, now) * (seen + {name}) == DueNames(env, parse, now) * seen;
  }

  lemma OneMoreDue(env: map<string, string>, seen: set<string>, parse: Parse, now: int, name: string)
    requires name in env && IsExpiry(name) && IsDue(Some(env[name]), parse, now)
    ensures name == Until(KeyOf(name))
    ensures DueKeys(env, seen + {name}, parse, now) == DueKeys(env, seen, parse, now) + {KeyOf(name)}
  {
    ExpiryName(name);
    assert DueNames(env, parse, now) * (seen + {name}) == DueNames(env, parse, now) * seen + {name};
  }

  lemma OneMoreEdit(env: map<string, string>, keys: set<string>, k: string)
    ensures DropsOf(env, keys + {k})
      == DropsOf(env, keys) + {Until(k), Routine(k)} + if RoutineOf(env, k) == [] then {k} else {}
    ensures SetsOf(env, keys + {k})
      == if RoutineOf(env, k) == [] then SetsOf(env, keys) else SetsOf(env, keys)[k := RoutineOf(env, k)]
  {
  }

  lemma NoEdits(env: map<string, string>)
    ensures DropsOf(env, {}) == {} && SetsOf(env, {}) == map[]
  {
  }

  class EnvFile {
    var lines: seq<string>
    const stamp: int -> string
    const parse: Parse

    constructor (lines: seq<string>, stamp: int -> string, parse: Parse)
      ensures this.lines == lines && this.stamp == stamp && this.parse == parse
    {
      this.lines, this.stamp, this.parse := lines, stamp, parse;
    }

    method ReadEnv() returns (env: map<string, string>)
      ensures env == Env(lines)
    {
      env := map[];
      for k := 0 to |lines|
        invariant env == Env(lines[..k])
      {
        assert lines[..k + 1][..k] == lines[..k];
        var line := lines[k];
        if '=' in line && !Commented(line) {
          env := env[Strip(Before(line, '=')) := Strip(After(line, '='))];
        }
      }
      assert lines[..|lines|] == lines;
    }

    method UpsertEnvLine(key: string, value: string)
      modifies this`lines
      ensures lines == Upsert(old(lines), key, value)
    {
      var found := false;
      var out := lines;
      var i := 0;
      while i < |out| && !found
        invariant 0 <= i <= |lines|
        invariant forall j :: 0 <= j < i - (if found then 1 else 0) ==> !IsExact(lines[j], key)
        invariant !found ==> out == lines
        invariant found ==> i > 0 && IsExact(lines[i - 1], key) && out == lines[i - 1 := Assignment(key, value)]
        decreases |lines| - i, !found
      {
        if IsExact(out[i], key) {
          out := out[i := Assignment(key, value)];
          found := true;
        }
        i := i + 1;
      }
      ghost var first := FirstExact(lines, key);
      if found {
        assert first == i - 1;
        assert out == lines[..first] + [Assignment(key, value)] + lines[first + 1..];
      } else {
        assert first == |lines|;
        if out != [] && !("#" <= out[|out| - 1]) && !Blank(out[|out| - 1]) {
          out := out + [[]];
        }
        out := out + [Assignment(key, value)];
        assert lines + [] + [Assignment(key, value)] == lines + [Assignment(key, value)];
      }
      lines := out;
    }

    method RewriteEnv(drop: set<string>, sets: map<string, string>)
      modifies this`lines
      ensures lines == Rewrite(old(lines), drop, sets)
    {
      var out: seq<string> := [];
      for i := 0 to |lines|
        invariant out == EditedLines(lines[..i], drop, sets)
      {
        assert lines[..i + 1][..i] == lines[..i];
        var k := Name(lines[i]);
        if k in drop {
          continue;
        }
        out := out + [if k in sets then Assignment(k, sets[k]) else lines[i]];
      }
      assert lines[..|lines|] == lines;
      while out != [] && Blank(out[|out| - 1])
        invariant TrimBlank(out) == Rewrite(lines, drop, sets)
        decreases |out|
      {
        out := out[..|out| - 1];
      }
      lines := out;
    }

    method DropEnvKeys(keys: set<string>)
      modifies this`lines
      ensures lines == Dropped(old(lines), keys)
    {
      var env := ReadEnv();
      hide Rewrite, Env;
      if keys * env.Keys != {} {
        RewriteEnv(keys, map[]);
      }
    }

    /** `smd admin log --level`; `level` is in upper case. An unknown level is
        refused before anything is written. */
    method SetLogLevel(key: string, level: string, until: Option<int>) returns (ok: bool)
      modifies this`lines
      ensures ok == (level in LEVELS)
      ensures !ok ==> lines == old(lines)
      ensures ok && until.None? ==> lines == PlainWrites(old(lines), key, level, 2)
      ensures ok && until.Some? ==> lines == RaiseWrites(old(lines), key, level, stamp(until.value), 3)
    {
      hide Upsert, Dropped, Env, Until, Routine;
      if level !in LEVELS {
        return false;
      }
      if until.None? {
        DropEnvKeys({Until(key), Routine(key)});
      } else {
        var current := ReadEnv();
        if Routine(key) !in current {
          UpsertEnvLine(Routine(key), Get(current, key).GetOr([]));
        }
        UpsertEnvLine(Until(key), stamp(until.value));
      }
      UpsertEnvLine(key, level);
      ok := true;
    }

    method ExpireLogLevels(now: int) returns (restored: set<string>)
      modifies this`lines
      ensures lines == Expired(old(lines), parse, now)
      ensures restored == KeysOf(DueNames(Env(old(lines)), parse, now))
    {
      var env := ReadEnv();
      restored := {};
      var drop: set<string> := {};
      var sets: map<string, string> := map[];
      var todo := env.Keys;
      AllDueKeys(env, parse, now);
      NoEdits(env);
      hide Env, Rewrite, DueKeys, DropsOf, SetsOf, DueNames;
      assert env.Keys - todo == {};
      while todo != {}
        invariant lines == old(lines) && todo <= env.Keys
        invariant restored == DueKeys(env, env.Keys - todo, parse, now)
        invariant drop == DropsOf(env, restored) && sets == SetsOf(env, restored)
        decreases todo
      {
        var name :| name in todo;
        ghost var seen := env.Keys - todo;
        todo := todo - {name};
        assert env.Keys - todo == seen + {name};
        if !IsExpiry(name) {
          NotDue(env, seen, parse, now, name);
          continue;
        }
        var key := KeyOf(name);
        var when := parse(env[name]);
        if when.None? || when.value > now {
          NotDue(env, seen, parse, now, name);
          continue;
        }
        OneMoreDue(env, seen, parse, now, name);
        OneMoreEdit(env, restored, key);
        var routine := RoutineOf(env, key);
        if routine != [] {
          sets := sets[key := routine];
        } else {
          drop := drop + {key};
        }
        drop := drop + {name, Routine(key)};
        restored := restored + {key};
      }
      assert env.Keys - todo == env.Keys;
      if restored == {} {
        return;
      }
      RewriteEnv(drop, sets);
    }
  }

  // ---- reading back what was written ----

  /** A key as client names give it: no `=`, no white space around it, no
      comment sign in front. */
  predicate PlainKey(k: string) {
    k != [] && '=' !in k && Stripped(k) && k[0] != '#'
  }

  lemma AssignmentIs(key: string, value: string)
    requires PlainKey(key)
    ensures Name(Assignment(key, value)) == key && Assigns(Assignment(key, value))
    ensures After(Assignment(key, value), '=') == value && IsExact(Assignment(key, value), key)
  {
    var line := Assignment(key, value);
    PartitionAt(key, '=', value);
    StrippedStays(key);
    assert line[0] == key[0] && line[|key|] == '=';
    assert LStrip(line) == line;
  }

  lemma ExactIs(line: string, key: string)
    requires PlainKey(key) && IsExact(line, key)
    ensures Name(line) == key && Assigns(line)
  {
    assert line == Assignment(key, line[|key| + 1..]);
    AssignmentIs(key, line[|key| + 1..]);
  }

  lemma BlankAssignsNothing(line: string)
    requires Blank(line)
    ensures !Assigns(line)
  {
    StripIs(line);
  }

  /** The value of a key comes from the later part, if that has one. */
  lemma {:induction false} ValueConcat(a: seq<string>, b: seq<string>, key: string)
    ensures Value(a + b, key) == if Value(b, key).Some? then Value(b, key) else Value(a, key)
  {
    if b == [] {
      assert a + b == a;
    } else {
      var n := |b| - 1;
      ValueConcat(a, b[..n], key);
      assert (a + b)[..|a + b| - 1] == a + b[..n];
    }
  }

  lemma ValueOfOne(line: string, key: string)
    ensures Value([line], key) == if Assigns(line) && Name(line) == key then Some(Strip(After(line, '='))) else None
  {
    EnvAppend([], line);
    assert [] + [line] == [line];
  }

  lemma ValueOfThree(a: seq<string>, x: string, c: seq<string>, key: string)
    ensures Value(a + [x] + c, key) ==
      if Value(c, key).Some? then Value(c, key)
      else if Assigns(x) && Name(x) == key then Some(Strip(After(x, '=')))
      else Value(a, key)
  {
    ValueConcat(a + [x], c, key);
    ValueConcat(a, [x], key);
    ValueOfOne(x, key);
  }

  lemma SplitAtExact(lines: seq<string>, i: nat)
    requires i < |lines|
    ensures lines == lines[..i] + [lines[i]] + lines[i + 1..]
  {
  }

  /** The line that a write replaces is not the last one for its key. */
  predicate Masked(lines: seq<string>, key: string) {
    var i := FirstExact(lines, key);
    i < |lines| && Value(lines[i + 1..], key).Some?
  }

  lemma GapHasNoValue(lines: seq<string>, key: string)
    ensures Value(Gap(lines), key) == None
  {
    assert Strip([]) == [];
    ValueOfOne([], key);
  }

  lemma AppendedValue(lines: seq<string>, key: string, value: string, other: string)
    requires PlainKey(key)
    ensures Value(lines + Gap(lines) + [Assignment(key, value)], other)
      == if other == key then Some(Strip(value)) else Value(lines, other)
  {
    AssignmentIs(key, value);
    ValueConcat(lines + Gap(lines), [Assignment(key, value)], other);
    ValueOfOne(Assignment(key, value), other);
    ValueConcat(lines, Gap(lines), other);
    GapHasNoValue(lines, other);
  }

  /** Writing a value makes it the one read back, unless a further line for
      the key stands below the one replaced: then the write changes nothing.
      No other key is touched. */
  lemma UpsertIsRead(lines: seq<string>, key: string, value: string, other: string)
    requires PlainKey(key)
    ensures Value(Upsert(lines, key, value), key)
      == if Masked(lines, key) then Value(lines, key) else Some(Strip(value))
    ensures other != key ==> Value(Upsert(lines, key, value), other) == Value(lines, other)
  {
    var i := FirstExact(lines, key);
    if i < |lines| {
      var a, x, c := lines[..i], lines[i], lines[i + 1..];
      var y := Assignment(key, value);
      ExactIs(x, key);
      AssignmentIs(key, value);
      SplitAtExact(lines, i);
      ValueOfThree(a, x, c, key);
      ValueOfThree(a, y, c, key);
      ValueOfThree(a, x, c, other);
      ValueOfThree(a, y, c, other);
    } else {
      AppendedValue(lines, key, value, key);
      AppendedValue(lines, key, value, other);
    }
  }

  /** A file with two lines for a key, where a write is not read back. */
  lemma MaskedWriteIsIdle(key: string, first: string, second: string, value: string) returns (lines: seq<string>)
    requires PlainKey(key) && Strip(value) != Strip(second)
    ensures lines == [Assignment(key, first), Assignment(key, second)] && Masked(lines, key)
    ensures Value(Upsert(lines, key, value), key) == Some(Strip(second)) != Some(Strip(value))
  {
    var x, y := Assignment(key, first), Assignment(key, second);
    lines := [x] + [y];
    AssignmentIs(key, first);
    AssignmentIs(key, second);
    ValueOfOne(y, key);
    ValueConcat([x], [y], key);
    hide Value, Strip, Name, Upsert, Assignment, Assigns, Before, After;
    assert lines[0] == x && lines[1..] == [y];
    UpsertIsRead(lines, key, value, key);
  }

  /** At most one line is named `key`, and it is written `KEY=...`. */
  ghost predicate Tidy(lines: seq<string>, key: string) {
    && (forall i :: 0 <= i < |lines| && Name(lines[i]) == key ==> IsExact(lines[i], key))
    && (forall i, j :: 0 <= i < j < |lines| ==> Name(lines[i]) != key || Name(lines[j]) != key)
  }

  ghost predicate Nameless(lines: seq<string>, key: string) {
    forall i :: 0 <= i < |lines| ==> Name(lines[i]) != key
  }

  lemma TidyAppend(lines: seq<string>, line: string, key: string)
    ensures Nameless(lines + [line], key) <==> Nameless(lines, key) && Name(line) != key
    ensures Tidy(lines + [line], key)
      <==> Tidy(lines, key) && (Name(line) == key ==> IsExact(line, key) && Nameless(lines, key))
  {
    var more := lines + [line];
    assert more[|lines|] == line;
    assert forall i :: 0 <= i < |lines| ==> more[i] == lines[i];
  }

  lemma AllButLast(lines: seq<string>)
    requires lines != []
    ensures lines[..|lines| - 1] + [lines[|lines| - 1]] == lines
  {
  }

  lemma {:induction false} NoNameNoValue(lines: seq<string>, key: string)
    requires Nameless(lines, key)
    ensures Value(lines, key) == None
  {
    if lines == [] {
    } else {
      NoNameNoValue(lines[..|lines| - 1], key);
    }
  }

  lemma TidyIsNotMasked(lines: seq<string>, key: string)
    requires Tidy(lines, key) && PlainKey(key)
    ensures !Masked(lines, key)
  {
    var i := FirstExact(lines, key);
    if i < |lines| {
      ExactIs(lines[i], key);
      var below := lines[i + 1..];
      forall j | 0 <= j < |below| ensures Name(below[j]) != key {
        assert below[j] == lines[i + 1 + j];
      }
      NoNameNoValue(below, key);
    }
  }

  /** The name of the line added between. */
  lemma GapIsNameless(lines: seq<string>, key: string)
    requires PlainKey(key)
    ensures Nameless(Gap(lines), key)
  {
    assert Before([], '=') == [] && Strip([]) == [];
  }

  lemma SameNamesStayTidy(a: seq<string>, b: seq<string>, key: string)
    requires |a| == |b| && Tidy(a, key)
    requires forall i :: 0 <= i < |a| ==> Name(b[i]) == Name(a[i]) && (IsExact(a[i], key) ==> IsExact(b[i], key))
    ensures Tidy(b, key)
  {
  }

  lemma NoExactNoName(lines: seq<string>, key: string)
    requires Tidy(lines, key) && FirstExact(lines, key) == |lines|
    ensures Nameless(lines, key)
  {
    forall j | 0 <= j < |lines| ensures Name(lines[j]) != key {
      assert !IsExact(lines[j], key);
    }
  }

  lemma GapStaysTidy(lines: seq<string>, key: string)
    requires PlainKey(key) && Tidy(lines, key)
    ensures Tidy(lines + Gap(lines), key)
    ensures Nameless(lines, key) ==> Nameless(lines + Gap(lines), key)
  {
    GapIsNameless(lines, key);
    if Gap(lines) == [] {
      assert lines + Gap(lines) == lines;
    } else {
      assert Gap(lines) == [Gap(lines)[0]];
      TidyAppend(lines, Gap(lines)[0], key);
    }
  }

  lemma ReplaceStaysTidy(lines: seq<string>, i: nat, key: string, value: string, other: string)
    requires PlainKey(key) && Tidy(lines, other) && i < |lines| && IsExact(lines[i], key)
    ensures Tidy(lines[..i] + [Assignment(key, value)] + lines[i + 1..], other)
  {
    AssignmentIs(key, value);
    ExactIs(lines[i], key);
    var after := lines[..i] + [Assignment(key, value)] + lines[i + 1..];
    assert forall j :: 0 <= j < |lines| && j != i ==> after[j] == lines[j];
    if other == key {
      SameNamesStayTidy(lines, after, other);
    }
  }

  lemma UpsertIs(lines: seq<string>, key: string, value: string)
    ensures var i := FirstExact(lines, key);
      Upsert(lines, key, value)
      == if i < |lines| then lines[..i] + [Assignment(key, value)] + lines[i + 1..]
         else lines + Gap(lines) + [Assignment(key, value)]
  {
  }

  /** A write replaces the first line that begins with the key and the equals
      sign, and leaves all others; without such a line it adds one at the end,
      after a blank line unless the file ends with one, or with a comment. */
  lemma UpsertChangesOneLine(lines: seq<string>, key: string, value: string)
    ensures var after, line := Upsert(lines, key, value), key + "=" + value;
      if exists i :: 0 <= i < |lines| && key + "=" <= lines[i]
      then exists i :: 0 <= i < |lines| && key + "=" <= lines[i] && after == lines[i := line]
             && forall j :: 0 <= j < i ==> !(key + "=" <= lines[j])
      else if lines == [] || "#" <= lines[|lines| - 1] || Strip(lines[|lines| - 1]) == "" then after == lines + [line]
      else after == lines + [""] + [line]
  {
    var i := FirstExact(lines, key);
    if i < |lines| {
      assert lines[i := Assignment(key, value)] == lines[..i] + [Assignment(key, value)] + lines[i + 1..];
    }
    hide FirstExact, Strip;
  }

  lemma AppendStaysTidy(lines: seq<string>, key: string, value: string, other: string)
    requires PlainKey(key) && PlainKey(other) && Tidy(lines, other) && FirstExact(lines, key) == |lines|
    ensures Tidy(lines + Gap(lines) + [Assignment(key, value)], other)
  {
    AssignmentIs(key, value);
    hide *;
    GapStaysTidy(lines, other);
    if other == key {
      NoExactNoName(lines, key);
    }
    TidyAppend(lines + Gap(lines), Assignment(key, value), other);
  }

  lemma UpsertStaysTidy(lines: seq<string>, key: string, value: string, other: string)
    requires PlainKey(key) && PlainKey(other) && Tidy(lines, other)
    ensures Tidy(Upsert(lines, key, value), other)
  {
    hide *;
    UpsertIs(lines, key, value);
    if FirstExact(lines, key) < |lines| {
      ReplaceStaysTidy(lines, FirstExact(lines, key), key, value, other);
    } else {
      AppendStaysTidy(lines, key, value, other);
    }
  }

  lemma TrimBlankStep(lines: seq<string>)
    requires lines != [] && Blank(lines[|lines| - 1])
    ensures TrimBlank(lines) == TrimBlank(lines[..|lines| - 1])
    ensures Env(lines) == Env(lines[..|lines| - 1])
  {
    BlankAssignsNothing(lines[|lines| - 1]);
  }

  lemma {:induction false} TrimKeepsValues(lines: seq<string>, key: string)
    ensures Value(TrimBlank(lines), key) == Value(lines, key)
    ensures Tidy(lines, key) ==> Tidy(TrimBlank(lines), key)
  {
    if lines != [] && Blank(lines[|lines| - 1]) {
      var n := |lines| - 1;
      BlankAssignsNothing(lines[n]);
      EnvAppend(lines[..n], lines[n]);
      AllButLast(lines);
      TrimBlankStep(lines);
      hide *;
      TrimKeepsValues(lines[..n], key);
      TidyAppend(lines[..n], lines[n], key);
    } else {
      hide Tidy;
    }
  }

  /** The value a rewrite leaves a key with. */
  function EditedValue(v: Option<string>, key: string, drop: set<string>, sets: map<string, string>): Option<string> {
    if key in drop then None
    else if key in sets && v.Some? then Some(Strip(sets[key]))
    else v
  }

  lemma EditedLineValue(env: map<string, string>, env': map<string, string>, line: string, key: string,
                        drop: set<string>, sets: map<string, string>)
    requires PlainKey(key) && Get(env', key) == EditedValue(Get(env, key), key, drop, sets)
    requires Name(line) == key ==> Assigns(line)
    ensures var e := Edited(line, drop, sets);
      Get(if e == [] then env' else EnvStep(env', e[0]), key)
        == EditedValue(Get(EnvStep(env, line), key), key, drop, sets)
  {
    if Name(line) == key && key in sets {
      AssignmentIs(key, sets[key]);
    } else if Name(line) != key && Name(line) !in drop && Name(line) in sets {
      RewrittenName(line, sets[Name(line)]);
    }
  }

  /** A rewritten line of another name is of another name still. */
  lemma RewrittenName(line: string, value: string)
    ensures Assigns(Assignment(Name(line), value)) ==> Name(Assignment(Name(line), value)) == Name(line)
    ensures Name(Assignment(Name(line), value)) == Name(line)
  {
    var k := Name(line);
    NameHasNoEquals(line);
    PartitionAt(k, '=', value);
    StripIs(Before(line, '='));
    StrippedStays(k);
  }

  lemma {:induction false} LStripDrops(s: string, c: char)
    requires c !in s
    ensures c !in LStrip(s)
  {
    if s != [] && IsSpace(s[0]) {
      LStripDrops(s[1..], c);
    }
  }

  lemma {:induction false} RStripDrops(s: string, c: char)
    requires c !in s
    ensures c !in RStrip(s)
  {
    if s != [] && IsSpace(s[|s| - 1]) {
      RStripDrops(s[..|s| - 1], c);
    }
  }

  lemma NameHasNoEquals(line: string)
    ensures '=' !in Name(line)
  {
    LStripDrops(Before(line, '='), '=');
    RStripDrops(LStrip(Before(line, '=')), '=');
  }

  /** Every line named `key` assigns it. */
  ghost predicate NoBareLine(lines: seq<string>, key: string) {
    forall i :: 0 <= i < |lines| && Name(lines[i]) == key ==> Assigns(lines[i])
  }

  lemma TidyHasNoBareLine(lines: seq<string>, key: string)
    requires Tidy(lines, key) && PlainKey(key)
    ensures NoBareLine(lines, key)
  {
    forall i | 0 <= i < |lines| && Name(lines[i]) == key ensures Assigns(lines[i]) {
      ExactIs(lines[i], key);
    }
  }

  lemma {:induction false} EditedValues(lines: seq<string>, key: string, drop: set<string>, sets: map<string, string>)
    requires PlainKey(key) && NoBareLine(lines, key)
    ensures Value(EditedLines(lines, drop, sets), key) == EditedValue(Value(lines, key), key, drop, sets)
  {
    if lines == [] {
    } else {
      var n := |lines| - 1;
      var rest, e := EditedLines(lines[..n], drop, sets), Edited(lines[n], drop, sets);
      EditedValues(lines[..n], key, drop, sets);
      EditedLineValue(Env(lines[..n]), Env(rest), lines[n], key, drop, sets);
      if e != [] {
        assert e == [e[0]];
        EnvAppend(rest, e[0]);
      } else {
        assert rest + e == rest;
      }
    }
  }

  lemma EditedName(line: string, drop: set<string>, sets: map<string, string>)
    ensures var e := Edited(line, drop, sets); e == [] || (|e| == 1 && Name(e[0]) == Name(line))
  {
    if Name(line) !in drop && Name(line) in sets {
      RewrittenName(line, sets[Name(line)]);
    }
  }

  /** Where each remaining line was. */
  lemma {:induction false} EditedStaysTidy(lines: seq<string>, key: string, drop: set<string>,
      sets: map<string, string>)
    requires PlainKey(key) && Tidy(lines, key)
    ensures Tidy(EditedLines(lines, drop, sets), key)
    ensures Nameless(lines, key) ==> Nameless(EditedLines(lines, drop, sets), key)
  {
    if lines == [] {
    } else {
      var n := |lines| - 1;
      AllButLast(lines);
      TidyAppend(lines[..n], lines[n], key);
      EditedName(lines[n], drop, sets);
      EditedExact(lines[n], key, drop, sets);
      var rest, e := EditedLines(lines[..n], drop, sets), Edited(lines[n], drop, sets);
      assert EditedLines(lines, drop, sets) == rest + e;
      hide *;
      EditedStaysTidy(lines[..n], key, drop, sets);
      if e == [] {
        assert rest + e == rest;
      } else {
        assert e == [e[0]];
        TidyAppend(rest, e[0], key);
      }
    }
  }

  lemma EditedExact(line: string, key: string, drop: set<string>, sets: map<string, string>)
    requires PlainKey(key) && (Name(line) == key ==> IsExact(line, key))
    ensures var e := Edited(line, drop, sets); e != [] && Name(line) == key ==> IsExact(e[0], key)
  {
    if Name(line) == key && key in sets {
      AssignmentIs(key, sets[key]);
    }
  }

  /** A rewrite changes what it names and nothing else. */
  lemma RewriteIsRead(lines: seq<string>, key: string, drop: set<string>, sets: map<string, string>)
    requires PlainKey(key) && Tidy(lines, key)
    ensures Value(Rewrite(lines, drop, sets), key) == EditedValue(Value(lines, key), key, drop, sets)
    ensures Tidy(Rewrite(lines, drop, sets), key)
  {
    TidyHasNoBareLine(lines, key);
    EditedValues(lines, key, drop, sets);
    EditedStaysTidy(lines, key, drop, sets);
    TrimKeepsValues(EditedLines(lines, drop, sets), key);
  }
}
