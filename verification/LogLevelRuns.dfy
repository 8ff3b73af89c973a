/** Any interleaving of level changes and expiries, over many clients: each
    client's three lines of coordination.env behave as a small state machine
    (lib/sigmond/log_cmd.py). */
module LogLevelRuns {
  import opened Lists
  import opened Text
  import opened LogLevel

  /** A client's level, when it expires, and what it then goes back to. */
  datatype Level = Level(value: Option<string>, until: Option<string>, routine: Option<string>)

  function LevelOf(lines: seq<string>, k: string): Level {
    Level(Value(lines, k), Value(lines, Until(k)), Value(lines, Routine(k)))
  }

  /** The key of a client, as `client_env_key` makes it. */
  predicate LogKey(k: string) {
    PlainKey(k) && EndsWith(k, "_LOG_LEVEL")
  }

  /** What may happen to the file; `n` is how many of its writes an operation
      lives to make. */
  datatype Op =
    | Plain(key: string, level: string, n: nat)
    | Raise(key: string, level: string, until: string, n: nat)
    | Expire(now: int)

  predicate ForClient(op: Op) {
    op.Expire? || LogKey(op.key)
  }

  function Step(lines: seq<string>, op: Op, parse: Parse): seq<string> {
    match op
    case Plain(key, level, n) => PlainWrites(lines, key, level, n)
    case Raise(key, level, until, n) => RaiseWrites(lines, key, level, until, n)
    case Expire(now) => Expired(lines, parse, now)
  }

  function AfterPlain(s: Level, level: string, n: nat): Level {
    if n == 0 then s
    else Level(if n == 1 then s.value else Some(Strip(level)), None, None)
  }

  function AfterRaise(s: Level, level: string, until: string, n: nat): Level {
    if n == 0 then s
    else
      Level(if n < 3 then s.value else Some(Strip(level)),
            if n < 2 then s.until else Some(Strip(until)),
            Some(s.routine.GetOr(s.value.GetOr([]))))
  }

  function AfterExpiry(s: Level, parse: Parse, now: int): Level {
    if !IsDue(s.until, parse, now) then s
    else
      var routine := s.routine.GetOr([]);
      Level(if routine == [] then None else if s.value.Some? then Some(routine) else None, None, None)
  }

  /** What an operation does to client `k`. */
  function LevelStep(s: Level, k: string, op: Op, parse: Parse): Level {
    match op
    case Plain(key, level, n) => if key == k then AfterPlain(s, level, n) else s
    case Raise(key, level, until, n) => if key == k then AfterRaise(s, level, until, n) else s
    case Expire(now) => AfterExpiry(s, parse, now)
  }

  // ---- names ----

  lemma SuffixesDiffer(a: string, b: string)
    requires EndsWith(a, "_LOG_LEVEL") && EndsWith(b, "_LOG_LEVEL")
    ensures a != Until(b) && a != Routine(b) && Until(a) != Routine(b)
    ensures Until(a) == Until(b) ==> a == b
    ensures Routine(a) == Routine(b) ==> a == b
  {
    var level, until, routine := "_LOG_LEVEL", "_UNTIL", "_ROUTINE";
    assert a[|a| - 1] == level[9] && a[|a| - 2] == level[8];
    assert Until(b)[|b| + 4] == until[4] && Routine(b)[|b| + 7] == routine[7];
    assert Until(a)[|a| + 5] == until[5];
    assert Until(a)[..|a|] == a && Until(b)[..|b|] == b;
    assert Routine(a)[..|a|] == a && Routine(b)[..|b|] == b;
  }

  lemma SuffixedIsPlain(k: string)
    requires PlainKey(k)
    ensures PlainKey(Until(k)) && PlainKey(Routine(k))
  {
    var until, routine := "_UNTIL", "_ROUTINE";
    assert Until(k)[|k| + 5] == until[5] && Routine(k)[|k| + 7] == routine[7];
    assert Until(k)[0] == k[0] && Routine(k)[0] == k[0];
  }

  /** The three keys of a client may each be set in one line at most. */
  ghost predicate TidyFor(lines: seq<string>, k: string) {
    Tidy(lines, k) && Tidy(lines, Until(k)) && Tidy(lines, Routine(k))
  }

  // ---- one write ----

  function Replaced(v: Option<string>, key: string, written: string, value: string): Option<string> {
    if key == written then Some(Strip(value)) else v
  }

  lemma UpsertOne(lines: seq<string>, written: string, value: string, key: string)
    requires PlainKey(written) && PlainKey(key) && Tidy(lines, key)
    ensures Value(Upsert(lines, written, value), key) == Replaced(Value(lines, key), key, written, value)
    ensures Tidy(Upsert(lines, written, value), key)
  {
    UpsertStaysTidy(lines, written, value, key);
    UpsertIsRead(lines, written, value, key);
    if key == written {
      TidyIsNotMasked(lines, key);
    }
  }

  lemma UpsertLevel(lines: seq<string>, written: string, value: string, k: string)
    requires PlainKey(written) && LogKey(k) && TidyFor(lines, k)
    ensures TidyFor(Upsert(lines, written, value), k)
    ensures var s := LevelOf(lines, k);
      LevelOf(Upsert(lines, written, value), k) == Level(Replaced(s.value, k, written, value),
        Replaced(s.until, Until(k), written, value), Replaced(s.routine, Routine(k), written, value))
  {
    SuffixedIsPlain(k);
    hide Tidy, Value, Upsert;
    UpsertOne(lines, written, value, k);
    UpsertOne(lines, written, value, Until(k));
    UpsertOne(lines, written, value, Routine(k));
  }

  lemma RewriteLevel(lines: seq<string>, drop: set<string>, sets: map<string, string>, k: string)
    requires LogKey(k) && TidyFor(lines, k)
    ensures TidyFor(Rewrite(lines, drop, sets), k)
    ensures var s := LevelOf(lines, k);
      LevelOf(Rewrite(lines, drop, sets), k) == Level(EditedValue(s.value, k, drop, sets),
        EditedValue(s.until, Until(k), drop, sets), EditedValue(s.routine, Routine(k), drop, sets))
  {
    SuffixedIsPlain(k);
    hide Tidy, Value, Rewrite;
    RewriteIsRead(lines, k, drop, sets);
    RewriteIsRead(lines, Until(k), drop, sets);
    RewriteIsRead(lines, Routine(k), drop, sets);
  }

  lemma DropLevel(lines: seq<string>, key: string, k: string)
    requires LogKey(k) && LogKey(key) && TidyFor(lines, k)
    ensures var dropped := Dropped(lines, {Until(key), Routine(key)});
      && TidyFor(dropped, k)
      && LevelOf(dropped, k) == if key == k then Level(Value(lines, k), None, None) else LevelOf(lines, k)
  {
    SuffixesDiffer(k, key);
    SuffixesDiffer(key, k);
    var keys := {Until(key), Routine(key)};
    DroppedIs(lines, keys);
    hide *;
    if keys * Env(lines).Keys == {} {
      NothingDropped(lines, key, k);
    } else {
      RewriteLevel(lines, keys, map[], k);
      DroppedLevel(lines, key, k);
    }
  }

  lemma DroppedIs(lines: seq<string>, keys: set<string>)
    ensures Dropped(lines, keys) == if keys * Env(lines).Keys == {} then lines else Rewrite(lines, keys, map[])
  {
  }

  lemma NothingDropped(lines: seq<string>, key: string, k: string)
    requires {Until(key), Routine(key)} * Env(lines).Keys == {}
    ensures key == k ==> LevelOf(lines, k) == Level(Value(lines, k), None, None)
  {
    assert Until(key) !in {Until(key), Routine(key)} * Env(lines).Keys;
    assert Routine(key) !in {Until(key), Routine(key)} * Env(lines).Keys;
  }

  lemma DroppedLevel(lines: seq<string>, key: string, k: string)
    requires k != Until(key) && k != Routine(key) && Until(k) != Routine(key) && Until(key) != Routine(k)
    requires (Until(k) == Until(key) ==> k == key) && (Routine(k) == Routine(key) ==> k == key)
    ensures var keys := {Until(key), Routine(key)};
      Level(EditedValue(Value(lines, k), k, keys, map[]),
            EditedValue(Value(lines, Until(k)), Until(k), keys, map[]),
            EditedValue(Value(lines, Routine(k)), Routine(k), keys, map[]))
      == if key == k then Level(Value(lines, k), None, None) else LevelOf(lines, k)
  {
    hide Value, Until, Routine;
  }

  lemma PlainRefines(lines: seq<string>, key: string, level: string, n: nat, k: string)
    requires LogKey(k) && LogKey(key) && TidyFor(lines, k)
    ensures var after := PlainWrites(lines, key, level, n);
      && TidyFor(after, k)
      && LevelOf(after, k) == if key == k then AfterPlain(LevelOf(lines, k), level, n) else LevelOf(lines, k)
  {
    SuffixesDiffer(k, key);
    SuffixesDiffer(key, k);
    PlainWritesAre(lines, key, level, n);
    hide Dropped, Upsert, Value, Until, Routine, TidyFor, PlainWrites;
    DropLevel(lines, key, k);
    UpsertLevel(Dropped(lines, {Until(key), Routine(key)}), key, level, k);
  }

  lemma PlainWritesAre(lines: seq<string>, key: string, level: string, n: nat)
    ensures PlainWrites(lines, key, level, n) ==
      if n == 0 then lines
      else if n == 1 then Dropped(lines, {Until(key), Routine(key)})
      else Upsert(Dropped(lines, {Until(key), Routine(key)}), key, level)
  {
  }

  lemma {:induction false} ValueIsStripped(lines: seq<string>, key: string)
    ensures Stripped(Value(lines, key).GetOr([]))
  {
    if lines == [] {
    } else {
      var n := |lines| - 1;
      ValueIsStripped(lines[..n], key);
      StripIs(After(lines[n], '='));
    }
  }

  lemma RecordRoutine(lines: seq<string>, key: string, k: string)
    requires LogKey(k) && LogKey(key) && TidyFor(lines, k)
    ensures var after := RaiseWrites(lines, key, [], [], 1);
      && TidyFor(after, k)
      && LevelOf(after, k) == if key == k then AfterRaise(LevelOf(lines, k), [], [], 1) else LevelOf(lines, k)
  {
    SuffixesDiffer(k, key);
    SuffixesDiffer(key, k);
    SuffixedIsPlain(key);
    ValueIsStripped(lines, key);
    StrippedStays(Value(lines, key).GetOr([]));
    hide Upsert, Value, Until, Routine, TidyFor, Strip;
    if Value(lines, Routine(key)).None? {
      UpsertLevel(lines, Routine(key), Value(lines, key).GetOr([]), k);
    }
  }

  lemma RaiseWritesAre(lines: seq<string>, key: string, level: string, until: string, n: nat)
    ensures var first := RaiseWrites(lines, key, [], [], 1);
      RaiseWrites(lines, key, level, until, n) ==
        if n == 0 then lines
        else if n == 1 then first
        else if n == 2 then Upsert(first, Until(key), until)
        else Upsert(Upsert(first, Until(key), until), key, level)
  {
  }

  lemma RaiseRefines(lines: seq<string>, key: string, level: string, until: string, n: nat, k: string)
    requires LogKey(k) && LogKey(key) && TidyFor(lines, k)
    ensures var after := RaiseWrites(lines, key, level, until, n);
      && TidyFor(after, k)
      && LevelOf(after, k) == if key == k then AfterRaise(LevelOf(lines, k), level, until, n) else LevelOf(lines, k)
  {
    SuffixesDiffer(k, key);
    SuffixesDiffer(key, k);
    SuffixedIsPlain(key);
    RaiseWritesAre(lines, key, level, until, n);
    hide Upsert, Value, Until, Routine, TidyFor, RaiseWrites;
    var first := RaiseWrites(lines, key, [], [], 1);
    RecordRoutine(lines, key, k);
    UpsertLevel(first, Until(key), until, k);
    UpsertLevel(Upsert(first, Until(key), until), key, level, k);
  }

  // ---- expiry ----

  lemma ExpiryKey(name: string)
    requires IsExpiry(name)
    ensures name == Until(KeyOf(name)) && EndsWith(KeyOf(name), "_LOG_LEVEL")
  {
    ExpiryName(name);
    var suffix := "_LOG_LEVEL_UNTIL";
    var k := KeyOf(name);
    assert suffix[..10] == "_LOG_LEVEL";
    assert k[|k| - 10..] == name[|name| - 16..][..10];
  }

  lemma UntilIsExpiry(k: string)
    requires LogKey(k)
    ensures IsExpiry(Until(k)) && KeyOf(Until(k)) == k
  {
    var suffix := "_LOG_LEVEL_UNTIL";
    assert suffix == "_LOG_LEVEL" + "_UNTIL";
    assert Until(k)[|k| - 10..] == k[|k| - 10..] + "_UNTIL";
  }

  /** The keys that expire are exactly those whose time has passed. */
  lemma DueKey(env: map<string, string>, parse: Parse, now: int, k: string)
    requires LogKey(k)
    ensures k in KeysOf(DueNames(env, parse, now)) <==> IsDue(Get(env, Until(k)), parse, now)
    ensures forall j :: j in KeysOf(DueNames(env, parse, now)) ==> EndsWith(j, "_LOG_LEVEL")
  {
    UntilIsExpiry(k);
    forall name | name in DueNames(env, parse, now)
      ensures EndsWith(KeyOf(name), "_LOG_LEVEL") && name == Until(KeyOf(name))
    {
      ExpiryKey(name);
    }
    if IsDue(Get(env, Until(k)), parse, now) {
      assert Until(k) in DueNames(env, parse, now);
    }
  }

  /** Expiring other clients does not name this one's lines. */
  lemma EditsOf(env: map<string, string>, keys: set<string>, k: string)
    requires EndsWith(k, "_LOG_LEVEL") && forall j :: j in keys ==> EndsWith(j, "_LOG_LEVEL")
    ensures Until(k) in DropsOf(env, keys) <==> k in keys
    ensures Routine(k) in DropsOf(env, keys) <==> k in keys
    ensures k in DropsOf(env, keys) <==> k in keys && RoutineOf(env, k) == []
    ensures k in SetsOf(env, keys) <==> k in keys && RoutineOf(env, k) != []
    ensures k in SetsOf(env, keys) ==> SetsOf(env, keys)[k] == RoutineOf(env, k)
    ensures Until(k) !in SetsOf(env, keys) && Routine(k) !in SetsOf(env, keys)
  {
    forall j | j in keys
      ensures k != Until(j) && k != Routine(j) && Until(k) != Routine(j) && Routine(k) != Until(j)
      ensures Until(k) != j && Routine(k) != j
      ensures (Until(k) == Until(j) ==> k == j) && (Routine(k) == Routine(j) ==> k == j)
    {
      SuffixesDiffer(k, j);
      SuffixesDiffer(j, k);
    }
    hide Until, Routine, EndsWith;
  }

  lemma ExpireRefines(lines: seq<string>, parse: Parse, now: int, k: string)
    requires LogKey(k) && TidyFor(lines, k)
    ensures TidyFor(Expired(lines, parse, now), k)
    ensures LevelOf(Expired(lines, parse, now), k) == AfterExpiry(LevelOf(lines, k), parse, now)
  {
    var env := Env(lines);
    var keys := KeysOf(DueNames(env, parse, now));
    DueKey(env, parse, now, k);
    ValueIsStripped(lines, Routine(k));
    StrippedStays(RoutineOf(env, k));
    hide Env, Rewrite, TidyFor, DueNames, KeysOf, Until, Routine, EndsWith, DropsOf, SetsOf, Strip, Stripped, LogKey;
    EditsOf(env, keys, k);
    RewriteLevel(lines, DropsOf(env, keys), SetsOf(env, keys), k);
  }

  /** Each operation does to every client's lines what it does to its state,
      and leaves them as tidy as they were. */
  lemma StepRefines(lines: seq<string>, op: Op, parse: Parse, k: string)
    requires LogKey(k) && ForClient(op) && TidyFor(lines, k)
    ensures TidyFor(Step(lines, op, parse), k)
    ensures LevelOf(Step(lines, op, parse), k) == LevelStep(LevelOf(lines, k), k, op, parse)
  {
    hide TidyFor, LevelOf, AfterPlain, AfterRaise, AfterExpiry, LogKey;
    match op
    case Plain(key, level, n) => PlainRefines(lines, key, level, n, k);
    case Raise(key, level, until, n) => RaiseRefines(lines, key, level, until, n, k);
    case Expire(now) => ExpireRefines(lines, parse, now, k);
  }

  // ---- whole runs ----

  function Run(lines: seq<string>, ops: seq<Op>, parse: Parse): seq<string> {
    if ops == [] then lines
    else Step(Run(lines, ops[..|ops| - 1], parse), ops[|ops| - 1], parse)
  }

  function LevelRun(s: Level, k: string, ops: seq<Op>, parse: Parse): Level {
    if ops == [] then s
    else LevelStep(LevelRun(s, k, ops[..|ops| - 1], parse), k, ops[|ops| - 1], parse)
  }

  /** The file refines one state machine per client, whatever happens in
      between to it or to the others, cut-off operations included. */
  lemma {:induction false} RunRefines(lines: seq<string>, ops: seq<Op>, parse: Parse, k: string)
    requires LogKey(k) && TidyFor(lines, k) && forall i :: 0 <= i < |ops| ==> ForClient(ops[i])
    ensures TidyFor(Run(lines, ops, parse), k)
    ensures LevelOf(Run(lines, ops, parse), k) == LevelRun(LevelOf(lines, k), k, ops, parse)
  {
    if ops == [] {
    } else {
      var n := |ops| - 1;
      hide TidyFor, LevelOf, LevelStep, Step, LogKey, ForClient;
      RunRefines(lines, ops[..n], parse, k);
      StepRefines(Run(lines, ops[..n], parse), ops[n], parse, k);
    }
  }

  /** `op` does not set client `k`'s level for good. */
  predicate NotPlain(op: Op, k: string) {
    op.Plain? && op.key == k ==> op.n == 0
  }

  /** While raised, the state still knows the value `was` to go back to. */
  ghost predicate Owes(was: Option<string>, s: Level) {
    if s.routine.Some? then
      s.routine.value == was.GetOr([]) && (was.GetOr([]) != [] ==> s.value.Some?)
    else
      s.until.None? && s.value.GetOr([]) == was.GetOr([])
  }

  /** Any mix of raises, cut-off raises and expiries keeps what is owed. */
  lemma {:induction false} RaisesKeepWhatIsOwed(s: Level, k: string, ops: seq<Op>, parse: Parse)
    requires s.until.None? && s.routine.None?
    requires forall i :: 0 <= i < |ops| ==> NotPlain(ops[i], k)
    ensures Owes(s.value, LevelRun(s, k, ops, parse))
  {
    if ops == [] {
    } else {
      RaisesKeepWhatIsOwed(s, k, ops[..|ops| - 1], parse);
    }
  }

  /** When a raise runs out, the client's level is what it was before the first
      raise since the last plain setting; the key is gone when it was not set.
      That holds however many raises there were and wherever they were cut off. */
  lemma ExpiryRestores(lines: seq<string>, k: string, ops: seq<Op>, now: int, parse: Parse)
    requires LogKey(k) && TidyFor(lines, k)
    requires forall i :: 0 <= i < |ops| ==> ForClient(ops[i]) && NotPlain(ops[i], k)
    requires Value(lines, Until(k)).None? && Value(lines, Routine(k)).None?
    requires var until := Value(Run(lines, ops, parse), Until(k));
      until.Some? && parse(until.value).Some? && parse(until.value).value <= now
    ensures var after := Step(Run(lines, ops, parse), Expire(now), parse);
      var was := Value(lines, k).GetOr([]);
      LevelOf(after, k) == Level(if was == [] then None else Some(was), None, None)
  {
    RunRefines(lines, ops, parse, k);
    RaisesKeepWhatIsOwed(LevelOf(lines, k), k, ops, parse);
    StepRefines(Run(lines, ops, parse), Expire(now), parse, k);
  }

  /** An expiry ends a client's raise when its recorded time reads as one that
      has come, and then alone: the level goes back to what is recorded, if the
      level is there to be rewritten, and is removed where nothing is recorded. */
  lemma ExpiryEnds(lines: seq<string>, k: string, now: int, parse: Parse)
    requires LogKey(k) && TidyFor(lines, k)
    ensures var s, after := LevelOf(lines, k), LevelOf(Step(lines, Expire(now), parse), k);
      if s.until.Some? && parse(s.until.value).Some? && parse(s.until.value).value <= now
      then after == Level(if s.routine.GetOr("") == "" || s.value == None then None else s.routine, None, None)
      else after == s
  {
    StepRefines(lines, Expire(now), parse, k);
    hide TidyFor, LevelOf, Step, LogKey;
  }

  /** A raised level holds until its time and not a moment longer: before it the
      level reads as it was set, and from then on as it was before the raise. */
  lemma RaiseLastsUntil(lines: seq<string>, k: string, level: string, until: string, t: int, now: int, parse: Parse)
    requires LogKey(k) && TidyFor(lines, k) && Value(lines, Until(k)).None? && Value(lines, Routine(k)).None?
    requires parse(Strip(until)) == Some(t)
    ensures var raised := Step(lines, Raise(k, level, until, 3), parse);
      var was, after := Value(lines, k).GetOr(""), LevelOf(Step(raised, Expire(now), parse), k);
      && Value(raised, k) == Some(Strip(level)) && Value(raised, k + "_UNTIL") == Some(Strip(until))
      && Value(raised, k + "_ROUTINE") == Some(was)
      && (now < t ==> after == LevelOf(raised, k))
      && (t <= now ==> after == Level(if was == "" then None else Some(was), None, None))
  {
    var raised := Step(lines, Raise(k, level, until, 3), parse);
    StepRefines(lines, Raise(k, level, until, 3), parse, k);
    ExpiryEnds(raised, k, now, parse);
    assert LevelOf(raised, k) == AfterRaise(LevelOf(lines, k), level, until, 3);
    hide Step, TidyFor, LogKey, Value, Strip;
  }

  /** A plain setting supersedes any raise: the state it leaves is settled, so
      it is the one that later raises go back to. */
  lemma PlainSupersedes(lines: seq<string>, k: string, level: string, parse: Parse)
    requires LogKey(k) && TidyFor(lines, k)
    ensures LevelOf(Step(lines, Plain(k, level, 2), parse), k) == Level(Some(Strip(level)), None, None)
  {
    StepRefines(lines, Plain(k, level, 2), parse, k);
  }

  /** A plain setting cut off between its two writes forgets what to go back
      to: what is owed survives it exactly when the level was not raised. */
  lemma CutPlainForgets(was: Option<string>, s: Level, level: string)
    requires Owes(was, s)
    ensures Owes(was, AfterPlain(s, level, 1)) <==> s.value.GetOr([]) == was.GetOr([])
  {
  }

  /** A level raised and then set plainly, the setting cut off after its first
      write: the raised level stays, and no expiry ever takes it back. */
  lemma CutPlainKeepsRaised(k: string, was: string, raised: string, until: string, level: string, now: int,
      parse: Parse)
    returns (lines: seq<string>, after: seq<string>)
    requires LogKey(k) && Strip(was) != Strip(raised)
    ensures lines == [Assignment(k, was)]
    ensures after == Run(lines, [Raise(k, raised, until, 3), Plain(k, level, 1)], parse)
    ensures LevelOf(after, k) == LevelOf(Step(after, Expire(now), parse), k) == Level(Some(Strip(raised)), None, None)
    ensures Value(lines, k) == Some(Strip(was)) != Some(Strip(raised))
  {
    lines := [Assignment(k, was)];
    var first, second := Raise(k, raised, until, 3), Plain(k, level, 1);
    after := Run(lines, [first, second], parse);
    OneLineIsTidy(lines, k, was);
    hide Run, Step, LevelOf, TidyFor, LogKey, Value;
    RunRefines(lines, [first, second], parse, k);
    StepRefines(after, Expire(now), parse, k);
    assert [first, second][..1] == [first] && [first][..0] == [];
  }

  lemma OneLineIsTidy(lines: seq<string>, k: string, was: string)
    requires LogKey(k) && lines == [Assignment(k, was)]
    ensures TidyFor(lines, k) && Value(lines, k) == Some(Strip(was))
    ensures LevelOf(lines, k) == Level(Some(Strip(was)), None, None)
  {
    var until, routine := "_UNTIL", "_ROUTINE";
    AssignmentIs(k, was);
    ValueOfOne(lines[0], k);
    ValueOfOne(lines[0], Until(k));
    ValueOfOne(lines[0], Routine(k));
    assert |Until(k)| > |k| && |Routine(k)| > |k|;
  }

  // ---- the rest of the file ----

  /** Lines an operation on the named keys has no business with. */
  ghost predicate Foreign(p: string -> bool, keys: set<string>) {
    forall l :: p(l) ==> !Blank(l) && Name(l) !in keys
  }

  lemma FilterThree(a: seq<string>, x: string, c: seq<string>, p: string -> bool)
    ensures Filter(a + [x] + c, p) == Filter(a, p) + (if p(x) then [x] else []) + Filter(c, p)
  {
    FilterConcat(a + [x], c, p);
    FilterAppend(a, x, p);
  }

  lemma UpsertKeepsForeign(lines: seq<string>, key: string, value: string, p: string -> bool)
    requires PlainKey(key) && Foreign(p, {key})
    ensures Filter(Upsert(lines, key, value), p) == Filter(lines, p)
  {
    AssignmentIs(key, value);
    var i := FirstExact(lines, key);
    if i < |lines| {
      ExactIs(lines[i], key);
      SplitAtExact(lines, i);
      FilterThree(lines[..i], lines[i], lines[i + 1..], p);
      FilterThree(lines[..i], Assignment(key, value), lines[i + 1..], p);
    } else {
      FilterAppend(lines + Gap(lines), Assignment(key, value), p);
      GapKeepsForeign(lines, key, p);
    }
  }

  lemma GapKeepsForeign(lines: seq<string>, key: string, p: string -> bool)
    requires Foreign(p, {key})
    ensures Filter(lines + Gap(lines), p) == Filter(lines, p)
  {
    assert Strip([]) == [];
    if Gap(lines) == [] {
      assert lines + Gap(lines) == lines;
    } else {
      FilterAppend(lines, [], p);
    }
  }

  lemma {:induction false} EditKeepsForeign(lines: seq<string>, drop: set<string>, sets: map<string, string>,
      p: string -> bool)
    requires Foreign(p, drop + sets.Keys)
    ensures Filter(EditedLines(lines, drop, sets), p) == Filter(lines, p)
  {
    if lines == [] {
    } else {
      var n := |lines| - 1;
      EditKeepsForeign(lines[..n], drop, sets, p);
      AllButLast(lines);
      FilterAppend(lines[..n], lines[n], p);
      EditedName(lines[n], drop, sets);
      var rest, e := EditedLines(lines[..n], drop, sets), Edited(lines[n], drop, sets);
      if e == [] {
        assert rest + e == rest;
      } else {
        assert e == [e[0]];
        FilterAppend(rest, e[0], p);
      }
    }
  }

  lemma {:induction false} TrimKeepsForeign(lines: seq<string>, p: string -> bool)
    requires Foreign(p, {})
    ensures Filter(TrimBlank(lines), p) == Filter(lines, p)
  {
    if lines != [] && Blank(lines[|lines| - 1]) {
      TrimKeepsForeign(lines[..|lines| - 1], p);
      AllButLast(lines);
      FilterAppend(lines[..|lines| - 1], lines[|lines| - 1], p);
    }
  }

  lemma RewriteKeepsForeign(lines: seq<string>, drop: set<string>, sets: map<string, string>, p: string -> bool)
    requires Foreign(p, drop + sets.Keys)
    ensures Filter(Rewrite(lines, drop, sets), p) == Filter(lines, p)
  {
    EditKeepsForeign(lines, drop, sets, p);
    TrimKeepsForeign(EditedLines(lines, drop, sets), p);
  }

  /** The keys an operation may write or remove. */
  function Touched(lines: seq<string>, op: Op, parse: Parse): set<string> {
    match op
    case Plain(key, _, _) => {key, Until(key), Routine(key)}
    case Raise(key, _, _, _) => {key, Until(key), Routine(key)}
    case Expire(now) =>
      var keys := KeysOf(DueNames(Env(lines), parse, now));
      DropsOf(Env(lines), keys) + SetsOf(Env(lines), keys).Keys
  }

  /** Every line that is not blank and not for a touched key survives each
      operation, in its place among the others: comments, other clients' lines,
      and everything else in the file. */
  lemma OtherLinesStay(lines: seq<string>, op: Op, parse: Parse, p: string -> bool)
    requires ForClient(op) && Foreign(p, Touched(lines, op, parse))
    ensures Filter(Step(lines, op, parse), p) == Filter(lines, p)
  {
    match op
    case Plain(key, level, n) =>
      SuffixedIsPlain(key);
      var keys := {Until(key), Routine(key)};
      PlainWritesAre(lines, key, level, n);
      var none: map<string, string> := map[];
      assert keys + none.Keys == keys;
      hide *;
      assert Foreign(p, keys) && Foreign(p, {key}) by {
        FewerKeys(p, {key, Until(key), Routine(key)}, keys);
        FewerKeys(p, {key, Until(key), Routine(key)}, {key});
      }
      RewriteKeepsForeign(lines, keys, none, p);
      DroppedIs(lines, keys);
      UpsertKeepsForeign(Dropped(lines, keys), key, level, p);
    case Raise(key, level, until, n) =>
      SuffixedIsPlain(key);
      RaiseWritesAre(lines, key, level, until, n);
      FirstWriteIs(lines, key);
      hide *;
      var all := {key, Until(key), Routine(key)};
      FewerKeys(p, all, {key});
      FewerKeys(p, all, {Until(key)});
      FewerKeys(p, all, {Routine(key)});
      var first := RaiseWrites(lines, key, [], [], 1);
      UpsertKeepsForeign(lines, Routine(key), Value(lines, key).GetOr([]), p);
      UpsertKeepsForeign(first, Until(key), until, p);
      UpsertKeepsForeign(Upsert(first, Until(key), until), key, level, p);
    case Expire(now) =>
      var env := Env(lines);
      var keys := KeysOf(DueNames(env, parse, now));
      RewriteKeepsForeign(lines, DropsOf(env, keys), SetsOf(env, keys), p);
  }

  lemma FewerKeys(p: string -> bool, keys: set<string>, fewer: set<string>)
    requires Foreign(p, keys) && fewer <= keys
    ensures Foreign(p, fewer)
  {
  }

  lemma FirstWriteIs(lines: seq<string>, key: string)
    ensures RaiseWrites(lines, key, [], [], 1) == lines
      || RaiseWrites(lines, key, [], [], 1) == Upsert(lines, Routine(key), Value(lines, key).GetOr([]))
  {
  }
}
