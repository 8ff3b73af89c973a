/** Runs of calls that bind client instances: the file keeps a last-write-wins
    map from client instances to radiods. */
module BindingRuns {
  import opened Text
  import opened BindingText
  import opened Bindings

  datatype Call = Call(client: string, instance: string, radiod: string)

  function BindAll(es: seq<Entry>, calls: seq<Call>): seq<Entry> {
    if calls == [] then es
    else
      var n := |calls| - 1;
      Bind(BindAll(es, calls[..n]), calls[n].client, calls[n].instance, calls[n].radiod)
  }

  /** The radiod of the last call made for the instance. */
  function LastCall(calls: seq<Call>, client: string, instance: string): Option<string> {
    if calls == [] then None
    else
      var n := |calls| - 1;
      if calls[n].client == client && calls[n].instance == instance then Some(calls[n].radiod)
      else LastCall(calls[..n], client, instance)
  }

  /** No instance has two blocks. */
  predicate OnePerInstance(es: seq<Entry>) {
    forall i, j :: 0 <= i < j < |es| ==> !IsFor(es[j], es[i].client, es[i].instance)
  }

  /** The blocks of every other instance. */
  function Others(es: seq<Entry>, client: string, instance: string): seq<Entry> {
    if es == [] then []
    else (if IsFor(es[0], client, instance) then [] else [es[0]]) + Others(es[1..], client, instance)
  }

  // ---- one call ----

  lemma {:induction false} BindLookup(es: seq<Entry>, client: string, instance: string, radiod: string, c: string,
      i: string)
    ensures Lookup(Bind(es, client, instance, radiod), c, i)
      == if c == client && i == instance then Some(Some(radiod)) else Lookup(es, c, i)
  {
    if es != [] && !IsFor(es[0], client, instance) {
      BindLookup(es[1..], client, instance, radiod, c, i);
    }
  }

  lemma {:induction false} BindKeepsOthers(es: seq<Entry>, client: string, instance: string, radiod: string)
    ensures Others(Bind(es, client, instance, radiod), client, instance) == Others(es, client, instance)
  {
    if es != [] && !IsFor(es[0], client, instance) {
      BindKeepsOthers(es[1..], client, instance, radiod);
    }
  }

  /** A binding that is there already is bound to nothing new. */
  lemma {:induction false} BindSame(es: seq<Entry>, client: string, instance: string, radiod: string)
    requires Lookup(es, client, instance) == Some(Some(radiod))
    ensures Bind(es, client, instance, radiod) == es
  {
    if !IsFor(es[0], client, instance) {
      BindSame(es[1..], client, instance, radiod);
    }
  }

  lemma {:induction false} NoEntryFor(es: seq<Entry>, client: string, instance: string)
    requires Lookup(es, client, instance) == None
    ensures forall k :: 0 <= k < |es| ==> !IsFor(es[k], client, instance)
  {
    if es == [] {
    } else {
      NoEntryFor(es[1..], client, instance);
      assert forall k :: 1 <= k < |es| ==> es[k] == es[1..][k - 1];
    }
  }

  /** Binding an instance that has a block leaves every block where it is. */
  lemma {:induction false} BindInPlace(es: seq<Entry>, client: string, instance: string, radiod: string)
    requires Lookup(es, client, instance).Some?
    ensures var now := Bind(es, client, instance, radiod);
      && |now| == |es|
      && forall k :: 0 <= k < |es| ==> now[k].client == es[k].client && now[k].instance == es[k].instance
  {
    if !IsFor(es[0], client, instance) {
      BindInPlace(es[1..], client, instance, radiod);
      var now := Bind(es, client, instance, radiod);
      forall k | 0 <= k < |es| ensures now[k].client == es[k].client && now[k].instance == es[k].instance {
        if k > 0 {
          assert now[k] == Bind(es[1..], client, instance, radiod)[k - 1] && es[k] == es[1..][k - 1];
        }
      }
    }
  }

  lemma BindKeepsOne(es: seq<Entry>, client: string, instance: string, radiod: string)
    requires OnePerInstance(es)
    ensures OnePerInstance(Bind(es, client, instance, radiod))
  {
    hide Bind, Lookup;
    if Lookup(es, client, instance) == None {
      NoEntryFor(es, client, instance);
      BindAppends(es, client, instance, radiod);
    } else {
      BindInPlace(es, client, instance, radiod);
    }
  }

  // ---- the file ----

  /** The last line is ended, or is no header. */
  predicate Sound(lines: seq<string>) {
    lines == [] || Terminated(lines[|lines| - 1]) || !KindOf(lines[|lines| - 1]).Client?
  }

  lemma SoundHasNoUnendedBlock(lines: seq<string>, client: string, instance: string)
    requires Sound(lines)
    ensures !UnendedBlock(lines, client, instance)
  {
    FirstBlockMatches(Kinds(lines), client, instance);
  }

  lemma RadiodLineEnds(radiod: string)
    ensures RadiodLine(radiod) != [] && Terminated(RadiodLine(radiod))
  {
  }

  lemma AdditionEnds(lines: seq<string>, client: string, instance: string, radiod: string)
    ensures var added := Addition(lines, client, instance, radiod);
      added != [] && added[|added| - 1] == RadiodLine(radiod)
  {
    hide RadiodLine, AnyText;
  }

  lemma LastOf<T>(a: seq<T>, b: seq<T>)
    ensures b != [] ==> (a + b)[|a + b| - 1] == b[|b| - 1]
    ensures b == [] && a != [] ==> a + b == a
  {
  }

  lemma EditKeepsSound(before: seq<string>, after: seq<string>, e: Edit, client: string, instance: string,
      radiod: string)
    requires Sound(before) && Edited(before, after, e) && BindingEdit(before, e, client, instance, radiod)
    ensures Sound(after)
  {
    RadiodLineEnds(radiod);
    AdditionEnds(before, client, instance, radiod);
    hide KindOf, RadiodLine, Terminated, Addition, EndLine;
    var lines := if e.ended then EndLine(before) else before;
    var rest := lines[e.at + e.gone..];
    LastOf(lines[..e.at], e.added);
    LastOf(lines[..e.at] + e.added, rest);
    assert e.ended ==> rest == [];
    assert rest != [] ==> rest[|rest| - 1] == before[|before| - 1];
  }

  /** A call on a sound file leaves it sound and rebinds the instance; other
      instances' blocks stay as they are. */
  lemma StepBinds(before: seq<string>, after: seq<string>, client: string, instance: string, radiod: string,
      wrote: bool)
    requires Sound(before) && Step(before, after, client, instance, radiod, wrote)
    ensures Sound(after)
    ensures Entries(Kinds(after)) == Bind(Entries(Kinds(before)), client, instance, radiod)
  {
    SoundHasNoUnendedBlock(before, client, instance);
    hide Entries, Kinds, Bind, Lookup, Edited, BindingEdit, UnendedBlock, Sound;
    if wrote {
      var e :| Edited(before, after, e) && BindingEdit(before, e, client, instance, radiod);
      EditKeepsSound(before, after, e, client, instance, radiod);
    } else {
      BindSame(Entries(Kinds(before)), client, instance, radiod);
    }
  }

  /** A repeat of a call writes nothing. */
  lemma RepeatIsIdle(s: seq<string>, s': seq<string>, s'': seq<string>,
                     client: string, instance: string, radiod: string, wrote: bool, again: bool)
    requires Sound(s)
    requires Step(s, s', client, instance, radiod, wrote) && Step(s', s'', client, instance, radiod, again)
    ensures !again && s'' == s'
  {
    hide Entries, Kinds, Bind, Lookup, Edited, BindingEdit, UnendedBlock, Sound;
    StepBinds(s, s', client, instance, radiod, wrote);
    BindLookup(Entries(Kinds(s)), client, instance, radiod, client, instance);
  }

  /** On a sound file the call reports a write exactly when the map from
      instances to radiods changes. */
  lemma WroteWhenMapChanges(before: seq<string>, after: seq<string>, client: string, instance: string, radiod: string,
      wrote: bool)
    requires Sound(before) && Step(before, after, client, instance, radiod, wrote)
    ensures wrote <==> exists c, i :: Lookup(Entries(Kinds(after)), c, i) != Lookup(Entries(Kinds(before)), c, i)
  {
    hide Entries, Kinds, Bind, Lookup, Edited, BindingEdit, UnendedBlock, Sound;
    var es := Entries(Kinds(before));
    StepBinds(before, after, client, instance, radiod, wrote);
    forall c, i ensures Lookup(Entries(Kinds(after)), c, i)
      == if c == client && i == instance then Some(Some(radiod)) else Lookup(es, c, i) {
      BindLookup(es, client, instance, radiod, c, i);
    }
    assert wrote ==> Lookup(Entries(Kinds(after)), client, instance) != Lookup(es, client, instance);
  }

  // ---- runs ----

  /** `files` are the file before the first call and after each. */
  ghost predicate Run(files: seq<seq<string>>, calls: seq<Call>) {
    && |files| == |calls| + 1
    && forall k :: 0 <= k < |calls| ==> AStep(files[k], files[k + 1], calls[k])
  }

  ghost predicate AStep(before: seq<string>, after: seq<string>, call: Call) {
    exists wrote :: Step(before, after, call.client, call.instance, call.radiod, wrote)
  }

  lemma {:induction false} LastWriteWins(es: seq<Entry>, calls: seq<Call>, client: string, instance: string)
    ensures Lookup(BindAll(es, calls), client, instance)
      == match LastCall(calls, client, instance)
         case Some(radiod) => Some(Some(radiod))
         case None => Lookup(es, client, instance)
  {
    if calls == [] {
    } else {
      var n := |calls| - 1;
      LastWriteWins(es, calls[..n], client, instance);
      BindLookup(BindAll(es, calls[..n]), calls[n].client, calls[n].instance, calls[n].radiod, client, instance);
    }
  }

  lemma {:induction false} RunBinds(files: seq<seq<string>>, calls: seq<Call>)
    requires Run(files, calls) && Sound(files[0])
    ensures Sound(files[|calls|])
    ensures Entries(Kinds(files[|calls|])) == BindAll(Entries(Kinds(files[0])), calls)
    ensures OnePerInstance(Entries(Kinds(files[0]))) ==> OnePerInstance(Entries(Kinds(files[|calls|])))
    decreases |calls|
  {
    if calls == [] {
    } else {
      hide Entries, Kinds, Sound, Step, OnePerInstance, Bind;
      var n := |calls| - 1;
      RunBinds(files[..n + 1], calls[..n]);
      var call := calls[n];
      assert AStep(files[n], files[n + 1], call);
      var wrote :| Step(files[n], files[n + 1], call.client, call.instance, call.radiod, wrote);
      StepBinds(files[n], files[n + 1], call.client, call.instance, call.radiod, wrote);
      if OnePerInstance(Entries(Kinds(files[0]))) {
        BindKeepsOne(Entries(Kinds(files[n])), call.client, call.instance, call.radiod);
      }
    }
  }

  /** After any run of calls on a sound file, what is read back for an instance
      is the last radiod it was bound to, and what the file said before when it
      was not bound. */
  lemma RunRefinesMap(files: seq<seq<string>>, calls: seq<Call>, client: string, instance: string)
    requires Run(files, calls) && Sound(files[0])
    ensures Lookup(Entries(Kinds(files[|calls|])), client, instance)
      == match LastCall(calls, client, instance)
         case Some(radiod) => Some(Some(radiod))
         case None => Lookup(Entries(Kinds(files[0])), client, instance)
  {
    hide Entries, Kinds, Lookup, LastCall, BindAll, Sound;
    RunBinds(files, calls);
    LastWriteWins(Entries(Kinds(files[0])), calls, client, instance);
  }

  // ---- the unended header ----

  lemma {:induction false} LookupConcat(a: seq<Entry>, b: seq<Entry>, client: string, instance: string)
    ensures Lookup(a + b, client, instance)
      == if Lookup(a, client, instance).Some? then Lookup(a, client, instance) else Lookup(b, client, instance)
  {
    if a == [] {
      assert a + b == b;
    } else {
      assert (a + b)[1..] == a[1..] + b;
      LookupConcat(a[1..], b, client, instance);
    }
  }

  lemma LoneHeader(k: Kind, client: string, instance: string)
    requires Opens(k)
    ensures var found := Lookup(Entries([k]), client, instance); found == None || found == Some(None)
  {
    if k.Client? {
      EntriesOfBlock(k.name, [], []);
      assert [k] == [Client(k.name)] + [] + [];
      NoEntries();
    } else {
      EntriesSkip(k, []);
      NoEntries();
      assert [k] == [k] + [];
    }
  }

  lemma JoinedLineOpens(line: string, radiod: string)
    requires KindOf(line).Client?
    ensures Opens(KindOf(line + RadiodLine(radiod)))
  {
    KindsAreTheTests(line);
    assert RadiodLine(radiod)[0] == "r"[0];
    hide KindOf, Body, Bracketed, RadiodLine;
    BracketedStays(line, RadiodLine(radiod));
  }

  /** Only a lone header can be an unended block, and its instance is
      `default`. */
  lemma UnendedBlockIs(lines: seq<string>, client: string, instance: string)
    requires UnendedBlock(lines, client, instance)
    ensures instance == "default" && KindOf(lines[|lines| - 1]) == Client(client)
    ensures Lookup(Entries(Kinds(lines)), client, instance) == Some(None)
  {
    var ks := Kinds(lines);
    FirstBlockMatches(ks, client, instance);
    BlockIsLookedUp(ks, |ks| - 1, client, instance);
    assert BlockBody(ks, |ks| - 1) == [];
  }

  /** The binding joined to the header's line is not read back. */
  lemma JoinedLineIsLost(lines: seq<string>, client: string, instance: string, radiod: string)
    requires UnendedBlock(lines, client, instance)
    ensures Lookup(Entries(Kinds(JoinedLine(lines, radiod))), client, instance) != Some(Some(radiod))
  {
    var ks, last := Kinds(lines), |lines| - 1;
    var line := lines[last] + RadiodLine(radiod);
    UnendedBlockIs(lines, client, instance);
    JoinedLineOpens(lines[last], radiod);
    KindsReplaced(lines, last, line);
    assert Kinds(JoinedLine(lines, radiod)) == ks[last := KindOf(line)];
    assert Opens(ks[last]);
    hide *;
    var k := KindOf(line);
    LastReplacedIs(ks, k);
    EntriesConcat(ks[..last], [ks[last]]);
    EntriesConcat(ks[..last], [k]);
    LookupConcat(Entries(ks[..last]), Entries([ks[last]]), client, instance);
    LookupConcat(Entries(ks[..last]), Entries([k]), client, instance);
    LoneHeader(k, client, instance);
  }

  /** A file that ends with a header and no newline, for any client: the binding
      written under it is lost. */
  lemma UnendedHeaderExists(client: string, radiod: string) returns (lines: seq<string>)
    requires IsBareName(client)
    ensures lines == ["[[clients." + client + "]]"] && UnendedBlock(lines, client, "default")
    ensures Step(lines, JoinedLine(lines, radiod), client, "default", radiod, true)
    ensures Lookup(Entries(Kinds(JoinedLine(lines, radiod))), client, "default") != Some(Some(radiod))
  {
    var header := "[[clients." + client + "]]";
    lines := [header];
    HeaderLineIs(client);
    assert HeaderLine(client) == header + ['\n'];
    BodyWithNewline(header);
    KindsOfOne(header);
    BracketIsNoBreak(header);
    assert !Terminated(header);
    LoneBlockIsFirst(lines, client);
    hide *;
    JoinedLineIsLost(lines, client, "default", radiod);
    UnendedBlockIs(lines, client, "default");
    StepIs(lines, client, "default", radiod);
  }

  lemma BracketIsNoBreak(header: string)
    requires header != [] && header[|header| - 1] == ']'
    ensures !Terminated(header)
  {
  }

  lemma LoneBlockIsFirst(lines: seq<string>, client: string)
    requires |lines| == 1 && KindOf(lines[0]) == Client(client) && !Terminated(lines[0])
    ensures UnendedBlock(lines, client, "default")
  {
    hide KindOf, Terminated;
    var ks := Kinds(lines);
    assert ks[1..] == [] && BlockBody(ks, 0) == [];
    assert LastInstance([]) == "default";
  }

  lemma LastReplacedIs<T>(s: seq<T>, x: T)
    requires s != []
    ensures s == s[..|s| - 1] + [s[|s| - 1]] && s[|s| - 1 := x] == s[..|s| - 1] + [x]
  {
  }

  /** A reported write is read back, on any file, unless the instance's block
      is an unended last line: exactly then it is lost. */
  lemma WrittenIsReadBack(before: seq<string>, after: seq<string>, client: string, instance: string, radiod: string)
    requires Step(before, after, client, instance, radiod, true)
    ensures Lookup(Entries(Kinds(after)), client, instance) == Some(Some(radiod))
      <==> !UnendedBlock(before, client, instance)
  {
    hide Entries, Kinds, Bind, Lookup, Edited, BindingEdit, UnendedBlock, JoinedLine;
    if UnendedBlock(before, client, instance) {
      JoinedLineIsLost(before, client, instance, radiod);
    } else {
      BindLookup(Entries(Kinds(before)), client, instance, radiod, client, instance);
    }
  }
}
