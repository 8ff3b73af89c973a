/** Binding client instances to radiods in coordination.toml
    (lib/sigmond/coordination.py). The file is its list of lines as read, line
    ends included. */
module Bindings {
  import opened Lists
  import opened Text
  import opened BindingText

  function Kinds(lines: seq<string>): (ks: seq<Kind>)
    ensures |ks| == |lines| && forall i :: 0 <= i < |lines| ==> ks[i] == KindOf(lines[i])
  {
    if lines == [] then [] else [KindOf(lines[0])] + Kinds(lines[1..])
  }

  lemma KindsConcat(a: seq<string>, b: seq<string>)
    ensures Kinds(a + b) == Kinds(a) + Kinds(b)
  {
    hide Kinds, KindOf;
    forall i | 0 <= i < |a + b| ensures Kinds(a + b)[i] == (Kinds(a) + Kinds(b))[i] {
    }
  }

  // ---- the bindings as read back ----

  /** One `[[clients.<client>]]` block. */
  datatype Entry = Entry(client: string, instance: string, radiod: Option<string>)

  predicate Opens(k: Kind) {
    k.Client? || k.Table?
  }

  predicate NoHeader(body: seq<Kind>) {
    forall i :: 0 <= i < |body| ==> !Opens(body[i])
  }

  /** How many lines precede the next header. */
  function BodyLength(ks: seq<Kind>): (n: nat)
    ensures n <= |ks| && NoHeader(ks[..n]) && (n < |ks| ==> Opens(ks[n]))
  {
    if ks == [] || Opens(ks[0]) then 0
    else
      var n := 1 + BodyLength(ks[1..]);
      assert forall i :: 1 <= i < n ==> ks[i] == ks[1..][i - 1];
      n
  }

  function LastInstance(body: seq<Kind>): string {
    if body == [] then "default"
    else if body[|body| - 1].Instance? then body[|body| - 1].value
    else LastInstance(body[..|body| - 1])
  }

  function LastRadiod(body: seq<Kind>): Option<string> {
    if body == [] then None
    else if body[|body| - 1].Radiod? then Some(body[|body| - 1].value)
    else LastRadiod(body[..|body| - 1])
  }

  function EntryOf(client: string, body: seq<Kind>): Entry {
    Entry(client, LastInstance(body), LastRadiod(body))
  }

  function Entries(ks: seq<Kind>): seq<Entry> {
    if ks == [] then []
    else if !ks[0].Client? then Entries(ks[1..])
    else
      var n := BodyLength(ks[1..]);
      [EntryOf(ks[0].name, ks[1..][..n])] + Entries(ks[1..][n..])
  }

  /** The lines of the block that the header at `i` opens. */
  function BlockBody(ks: seq<Kind>, i: nat): seq<Kind>
    requires i < |ks|
  {
    ks[i + 1..][..BodyLength(ks[i + 1..])]
  }

  function BlockEnd(ks: seq<Kind>, i: nat): (end: nat)
    requires i < |ks|
    ensures i < end <= |ks|
  {
    i + 1 + BodyLength(ks[i + 1..])
  }

  predicate Matches(ks: seq<Kind>, i: nat, client: string, instance: string)
    requires i < |ks|
  {
    ks[i] == Client(client) && LastInstance(BlockBody(ks, i)) == instance
  }

  /** The first header whose block is the instance's. */
  function FirstBlock(ks: seq<Kind>, client: string, instance: string): (i: nat)
    ensures i <= |ks|
  {
    if ks == [] || Matches(ks, 0, client, instance) then 0 else 1 + FirstBlock(ks[1..], client, instance)
  }

  lemma {:induction false} FirstBlockIs(ks: seq<Kind>, i: nat, client: string, instance: string)
    requires i <= |ks| && forall j :: 0 <= j < i ==> !Matches(ks, j, client, instance)
    ensures i < |ks| && Matches(ks, i, client, instance) ==> FirstBlock(ks, client, instance) == i
    ensures i == |ks| ==> FirstBlock(ks, client, instance) == i
  {
    if i == 0 {
    } else {
      forall j | 0 <= j < i - 1 ensures !Matches(ks[1..], j, client, instance) {
        assert ks[1..][j + 1..] == ks[j + 2..];
        assert !Matches(ks, j + 1, client, instance);
      }
      FirstBlockIs(ks[1..], i - 1, client, instance);
      if i < |ks| {
        assert ks[1..][i..] == ks[i + 1..];
      }
      assert !Matches(ks, 0, client, instance);
    }
  }

  predicate IsFor(e: Entry, client: string, instance: string) {
    e.client == client && e.instance == instance
  }

  /** What the first block for the instance names: None when there is no block. */
  function Lookup(es: seq<Entry>, client: string, instance: string): Option<Option<string>> {
    if es == [] then None
    else if IsFor(es[0], client, instance) then Some(es[0].radiod)
    else Lookup(es[1..], client, instance)
  }

  /** The first block for the instance names `radiod`, and there is one. */
  function Bind(es: seq<Entry>, client: string, instance: string, radiod: string): seq<Entry> {
    if es == [] then [Entry(client, instance, Some(radiod))]
    else if IsFor(es[0], client, instance) then [es[0].(radiod := Some(radiod))] + es[1..]
    else [es[0]] + Bind(es[1..], client, instance, radiod)
  }

  // ---- lines ----

  predicate Terminated(line: string) {
    line != [] && IsBreak(line[|line| - 1])
  }

  predicate Blank(line: string) {
    Strip(line) == []
  }

  /** A newline is added to a last line without one. */
  function EndLine(lines: seq<string>): (r: seq<string>)
    ensures |r| == |lines|
  {
    if lines == [] then []
    else
      var last := lines[|lines| - 1];
      if last != [] && last[|last| - 1] == '\n' then lines else lines[|lines| - 1 := last + ['\n']]
  }

  predicate AnyText(lines: seq<string>) {
    exists i :: 0 <= i < |lines| && !Blank(lines[i])
  }

  function NewBlock(client: string, instance: string, radiod: string): seq<string> {
    [HeaderLine(client), InstanceLine(instance), RadiodLine(radiod)]
  }

  /** One edit: `gone` lines at `at` give way to `added`, the lines around it
      stay. `ended` when the last line was given a newline first. */
  datatype Edit = Edit(at: nat, gone: nat, added: seq<string>, ended: bool)

  predicate Edited(before: seq<string>, after: seq<string>, e: Edit) {
    var lines := if e.ended then EndLine(before) else before;
    && e.at + e.gone <= |lines| && (e.ended ==> e.at == |lines|)
    && after == lines[..e.at] + e.added + lines[e.at + e.gone..]
  }

  /** The instance's block is a last line without a line end. */
  predicate UnendedBlock(lines: seq<string>, client: string, instance: string) {
    && lines != [] && !Terminated(lines[|lines| - 1])
    && FirstBlock(Kinds(lines), client, instance) == |lines| - 1
  }

  /** The lines of a blank separator, when there is one. */
  function Separator(lines: seq<string>): seq<string> {
    if AnyText(lines) then [['\n']] else []
  }

  /** What is added when the instance has no block: a blank line first, unless
      the file is blank. */
  function Addition(lines: seq<string>, client: string, instance: string, radiod: string): seq<string> {
    Separator(lines) + NewBlock(client, instance, radiod)
  }

  /** The one edit that a call makes: another `radiod_id` line in place of one,
      one more in the block, or one more block at the end of the file. */
  predicate BindingEdit(before: seq<string>, e: Edit, client: string, instance: string, radiod: string) {
    if e.ended then e == Edit(|before|, 0, Addition(before, client, instance, radiod), true)
    else
      && e.added == [RadiodLine(radiod)]
      && (e.gone == 0 || (e.gone == 1 && e.at < |before| && KindOf(before[e.at]).Radiod?))
  }

  /** What a call that was not refused does to the file: nothing when the
      instance is bound to the radiod already; otherwise one edit, whose effect
      on the blocks is `Bind`, unless the block is an unended last line. */
  ghost predicate Step(before: seq<string>, after: seq<string>, client: string, instance: string, radiod: string,
      wrote: bool)
  {
    var es := Entries(Kinds(before));
    if !wrote then after == before && Lookup(es, client, instance) == Some(Some(radiod))
    else
      && Lookup(es, client, instance) != Some(Some(radiod))
      && if UnendedBlock(before, client, instance) then after == JoinedLine(before, radiod)
         else
           && Entries(Kinds(after)) == Bind(es, client, instance, radiod)
           && exists e :: Edited(before, after, e) && BindingEdit(before, e, client, instance, radiod)
  }

  /** The new line ends up in the header's own line. */
  function JoinedLine(lines: seq<string>, radiod: string): seq<string>
    requires lines != []
  {
    var last := |lines| - 1;
    lines[last := lines[last] + RadiodLine(radiod)]
  }

  datatype Outcome = Wrote | AlreadyBound | BadRadiod | BadClient | BadInstance

  class CoordinationFile {
    var lines: seq<string>

    constructor (lines: seq<string>)
      ensures this.lines == lines
    {
      this.lines := lines;
    }

    method EnsureClientBinding(client: string, instance: string, radiod: string) returns (r: Outcome)
      modifies this`lines
      ensures r == BadRadiod <==> !IsRadiodId(radiod)
      ensures r == BadClient <==> IsRadiodId(radiod) && !IsBareName(client)
      ensures r == BadInstance <==> IsRadiodId(radiod) && IsBareName(client) && !IsInstanceName(instance)
      ensures r != Wrote ==> lines == old(lines)
      ensures r in {Wrote, AlreadyBound} ==> Step(old(lines), lines, client, instance, radiod, r == Wrote)
    {
      hide *;
      if !IsRadiodId(radiod) {
        return BadRadiod;
      }
      if !IsBareName(client) {
        return BadClient;
      }
      if !IsInstanceName(instance) {
        return BadInstance;
      }
      ghost var ks := Kinds(lines);
      for i := 0 to |lines|
        invariant lines == old(lines)
        invariant forall j :: 0 <= j < i ==> !Matches(ks, j, client, instance)
      {
        MatchesIs(ks, i, client, instance);
        if KindOf(lines[i]) != Client(client) {
          continue;
        }
        var end, inst, radAt := ScanBlock(i);
        if inst != instance {
          continue;
        }
        FirstBlockIs(ks, i, client, instance);
        BlockIsLookedUp(ks, i, client, instance);
        WhetherUnended(lines, i, client, instance);
        StepIs(lines, client, instance, radiod);
        if radAt.Some? {
          RadiodAt(lines, i, radAt.value);
          if KindOf(lines[radAt.value]) == Radiod(radiod) {
            return AlreadyBound;
          }
          RadiodReplaced(lines, i, radAt.value, client, instance, radiod);
          lines := lines[radAt.value := RadiodLine(radiod)];
        } else if Terminated(lines[i]) || i + 1 < |lines| {
          RadiodInserted(lines, i, client, instance, radiod);
          lines := lines[..i + 1] + [RadiodLine(radiod)] + lines[i + 1..];
        } else {
          lines := lines[i := lines[i] + RadiodLine(radiod)];
        }
        return Wrote;
      }
      FirstBlockIs(ks, |lines|, client, instance);
      BlockAppended(lines, client, instance, radiod);
      WhetherUnended(lines, |lines|, client, instance);
      StepIs(lines, client, instance, radiod);
      lines := EndLine(lines) + Addition(lines, client, instance, radiod);
      r := Wrote;
    }

    /** The block that line `i` opens: where it ends, its instance, and its last
        `radiod_id` line. */
    method ScanBlock(i: nat) returns (end: nat, inst: string, radAt: Option<nat>)
      requires i < |lines| && KindOf(lines[i]).Client?
      ensures end == BlockEnd(Kinds(lines), i)
      ensures inst == LastInstance(BlockBody(Kinds(lines), i))
      ensures radAt.None? ==> LastRadiod(BlockBody(Kinds(lines), i)) == None
      ensures radAt.Some? ==> radAt.value < |lines| && IsLastRadiod(Kinds(lines), i, radAt.value)
    {
      hide *;
      ghost var ks := Kinds(lines);
      end := i + 1;
      NothingYet(ks, i);
      while end < |lines| && !Opens(KindOf(lines[end]))
        invariant i < end <= |lines|
        invariant NoHeader(ks[i + 1..end])
      {
        NoHeaderFurther(ks, i, end);
        end := end + 1;
      }
      BodyEndsAt(ks, i, end);
      inst, radAt := "default", None;
      for j := i + 1 to end
        invariant inst == LastInstance(ks[i + 1..j])
        invariant radAt.None? ==> LastRadiod(ks[i + 1..j]) == None
        invariant radAt.Some? ==>
          && i < radAt.value < j && ks[radAt.value].Radiod?
          && LastRadiod(ks[i + 1..j]) == Some(ks[radAt.value].value)
          && forall m :: radAt.value < m < j ==> !ks[m].Radiod?
      {
        LastFurther(ks, i, j);
        var k := KindOf(lines[j]);
        if k.Instance? {
          inst := k.value;
        }
        if k.Radiod? {
          radAt := Some(j);
        }
      }
      if radAt.Some? {
        ThatIsLastRadiod(ks, i, radAt.value, end);
      }
    }
  }

  /** What makes a step. */
  lemma StepIs(before: seq<string>, client: string, instance: string, radiod: string)
    ensures Lookup(Entries(Kinds(before)), client, instance) == Some(Some(radiod)) ==>
      Step(before, before, client, instance, radiod, false)
    ensures Lookup(Entries(Kinds(before)), client, instance) != Some(Some(radiod)) ==>
      && (UnendedBlock(before, client, instance) ==>
            && before != [] && Step(before, JoinedLine(before, radiod), client, instance, radiod, true)
            && JoinedLine(before, radiod) == before[|before| - 1 := before[|before| - 1] + RadiodLine(radiod)])
      && forall after, e ::
           !UnendedBlock(before, client, instance)
             && Entries(Kinds(after)) == Bind(Entries(Kinds(before)), client, instance, radiod)
             && Edited(before, after, e) && BindingEdit(before, e, client, instance, radiod)
           ==> Step(before, after, client, instance, radiod, true)
  {
    hide RadiodLine, Entries, Kinds, Bind, Lookup, Edited, BindingEdit, FirstBlock, Terminated;
  }

  /** Line `at` is the block's last `radiod_id` line. */
  ghost predicate IsLastRadiod(ks: seq<Kind>, i: nat, at: nat)
    requires i < |ks|
  {
    && i < at < BlockEnd(ks, i) && ks[at].Radiod?
    && LastRadiod(BlockBody(ks, i)) == Some(ks[at].value)
    && forall j :: at < j < BlockEnd(ks, i) ==> !ks[j].Radiod?
  }

  lemma ThatIsLastRadiod(ks: seq<Kind>, i: nat, at: nat, end: nat)
    requires i < at < end <= |ks| && end == BlockEnd(ks, i) && BlockBody(ks, i) == ks[i + 1..end]
    requires ks[at].Radiod? && LastRadiod(ks[i + 1..end]) == Some(ks[at].value)
    requires forall j :: at < j < end ==> !ks[j].Radiod?
    ensures IsLastRadiod(ks, i, at)
  {
  }

  lemma NothingYet(ks: seq<Kind>, i: nat)
    requires i < |ks|
    ensures var none := ks[i + 1..i + 1]; NoHeader(none) && LastInstance(none) == "default" && LastRadiod(none) == None
  {
  }

  lemma NoHeaderFurther(ks: seq<Kind>, i: nat, end: nat)
    requires i < end < |ks| && NoHeader(ks[i + 1..end]) && !Opens(ks[end])
    ensures NoHeader(ks[i + 1..end + 1])
  {
    assert ks[i + 1..end + 1] == ks[i + 1..end] + [ks[end]];
  }

  lemma LastFurther(ks: seq<Kind>, i: nat, j: nat)
    requires i < j < |ks|
    ensures LastInstance(ks[i + 1..j + 1]) == if ks[j].Instance? then ks[j].value else LastInstance(ks[i + 1..j])
    ensures LastRadiod(ks[i + 1..j + 1]) == if ks[j].Radiod? then Some(ks[j].value) else LastRadiod(ks[i + 1..j])
  {
    LastAppend(ks[i + 1..j], ks[j]);
    assert ks[i + 1..j + 1] == ks[i + 1..j] + [ks[j]];
  }

  lemma MatchesIs(ks: seq<Kind>, i: nat, client: string, instance: string)
    requires i < |ks|
    ensures Matches(ks, i, client, instance) <==>
      ks[i] == Client(client) && LastInstance(BlockBody(ks, i)) == instance
  {
  }

  lemma {:induction false} BodyLengthIs(ks: seq<Kind>, n: nat)
    requires n <= |ks| && NoHeader(ks[..n]) && (n < |ks| ==> Opens(ks[n]))
    ensures BodyLength(ks) == n
  {
    if n == 0 {
    } else {
      assert ks[0] == ks[..n][0];
      assert ks[1..][..n - 1] == ks[..n][1..];
      BodyLengthIs(ks[1..], n - 1);
    }
  }

  lemma BodyEndsAt(ks: seq<Kind>, i: nat, end: nat)
    requires i < end <= |ks| && NoHeader(ks[i + 1..end]) && (end < |ks| ==> Opens(ks[end]))
    ensures BlockEnd(ks, i) == end && BlockBody(ks, i) == ks[i + 1..end]
  {
    var rest := ks[i + 1..];
    assert rest[..end - i - 1] == ks[i + 1..end];
    BodyLengthIs(rest, end - i - 1);
  }

  // ---- what an edit does to the bindings ----

  lemma LastAppend(body: seq<Kind>, k: Kind)
    ensures LastInstance(body + [k]) == if k.Instance? then k.value else LastInstance(body)
    ensures LastRadiod(body + [k]) == if k.Radiod? then Some(k.value) else LastRadiod(body)
  {
    assert (body + [k])[..|body|] == body;
  }

  lemma {:induction false} LastAfterRadiod(body: seq<Kind>, radiod: string)
    requires LastRadiod(body) == None
    ensures LastInstance([Radiod(radiod)] + body) == LastInstance(body)
    ensures LastRadiod([Radiod(radiod)] + body) == Some(radiod)
  {
    if body == [] {
      assert [Radiod(radiod)] + body == [] + [Radiod(radiod)];
      LastAppend([], Radiod(radiod));
    } else {
      var n := |body| - 1;
      LastAfterRadiod(body[..n], radiod);
      assert [Radiod(radiod)] + body == ([Radiod(radiod)] + body[..n]) + [body[n]];
      LastAppend([Radiod(radiod)] + body[..n], body[n]);
    }
  }

  lemma {:induction false} LastReplaced(body: seq<Kind>, k: nat, radiod: string)
    requires k < |body| && body[k].Radiod? && forall j :: k < j < |body| ==> !body[j].Radiod?
    ensures LastInstance(body[k := Radiod(radiod)]) == LastInstance(body)
    ensures LastRadiod(body[k := Radiod(radiod)]) == Some(radiod)
  {
    var n := |body| - 1;
    if k < n {
      LastReplaced(body[..n], k, radiod);
      assert body[k := Radiod(radiod)] == body[..n][k := Radiod(radiod)] + [body[n]];
      LastAppend(body[..n][k := Radiod(radiod)], body[n]);
    } else {
      assert body[k := Radiod(radiod)] == body[..n] + [Radiod(radiod)];
      LastAppend(body[..n], Radiod(radiod));
    }
  }

  lemma EntriesOfBlock(name: string, body: seq<Kind>, rest: seq<Kind>)
    requires NoHeader(body) && (rest == [] || Opens(rest[0]))
    ensures Entries([Client(name)] + body + rest) == [EntryOf(name, body)] + Entries(rest)
  {
    var ks := [Client(name)] + body + rest;
    assert ks[1..] == body + rest;
    assert (body + rest)[..|body|] == body && (body + rest)[|body|..] == rest;
    BodyLengthIs(body + rest, |body|);
  }

  lemma EntriesSkip(k: Kind, rest: seq<Kind>)
    requires !k.Client?
    ensures Entries([k] + rest) == Entries(rest)
  {
    assert ([k] + rest)[1..] == rest;
  }

  lemma NoEntries()
    ensures Entries([]) == []
  {
  }

  /** A list that opens with a header: the header, its body, and what follows. */
  lemma SplitBlock(ks: seq<Kind>) returns (body: seq<Kind>, rest: seq<Kind>)
    requires ks != [] && ks[0].Client?
    ensures body == BlockBody(ks, 0) && |body| + 1 == BlockEnd(ks, 0)
    ensures ks[..BlockEnd(ks, 0)] == [ks[0]] + body && ks == [ks[0]] + body + rest
    ensures NoHeader(body) && (rest == [] || Opens(rest[0]))
    ensures rest == ks[BlockEnd(ks, 0)..]
  {
    var n := BodyLength(ks[1..]);
    body, rest := ks[1..][..n], ks[1..][n..];
    assert rest == ks[n + 1..];
  }

  /** The first block, followed by whatever else starts with a header. */
  lemma EntriesAfterBlock(ks: seq<Kind>, more: seq<Kind>)
    requires ks != [] && ks[0].Client? && (more == [] || Opens(more[0]))
    ensures Entries(ks[..BlockEnd(ks, 0)] + more) == [EntryOf(ks[0].name, BlockBody(ks, 0))] + Entries(more)
  {
    var body, rest := SplitBlock(ks);
    hide *;
    EntriesOfBlock(ks[0].name, body, more);
  }

  lemma SplitAt<T>(ks: seq<T>, n: nat)
    requires n <= |ks|
    ensures ks == ks[..n] + ks[n..]
  {
  }

  lemma Parts<T>(a: seq<T>, b: seq<T>)
    ensures (a + b)[..|a|] == a && (a + b)[|a|..] == b
  {
  }

  lemma BlockEndFurther(ks: seq<Kind>, n: nat, i: nat)
    requires n <= i < |ks|
    ensures BlockEnd(ks[n..], i - n) == BlockEnd(ks, i) - n && BlockBody(ks[n..], i - n) == BlockBody(ks, i)
    ensures ks[n..][i - n] == ks[i]
  {
    assert ks[n..][i - n + 1..] == ks[i + 1..];
  }

  lemma {:induction false} FirstBlockFurther(ks: seq<Kind>, n: nat, client: string, instance: string)
    requires n <= FirstBlock(ks, client, instance)
    ensures FirstBlock(ks[n..], client, instance) == FirstBlock(ks, client, instance) - n
  {
    if n > 0 {
      FirstBlockFurther(ks[1..], n - 1, client, instance);
      assert ks[1..][n - 1..] == ks[n..];
    } else {
      assert ks[0..] == ks;
    }
  }

  lemma {:induction false} FirstBlockMatches(ks: seq<Kind>, client: string, instance: string)
    ensures var i := FirstBlock(ks, client, instance);
      && (i < |ks| ==> Matches(ks, i, client, instance))
      && (0 < i ==> ks != [] && !Matches(ks, 0, client, instance))
  {
    if ks != [] && !Matches(ks, 0, client, instance) {
      FirstBlockMatches(ks[1..], client, instance);
      var i := FirstBlock(ks[1..], client, instance);
      if i < |ks[1..]| {
        BlockEndFurther(ks, 1, i + 1);
      }
    }
  }

  /** A later block's header is not in the first block's body. */
  lemma HeaderIsPastBlock(ks: seq<Kind>, i: nat)
    requires 0 < i < |ks| && Opens(ks[i])
    ensures BlockEnd(ks, 0) <= i
  {
    var n := BodyLength(ks[1..]);
    forall j | 1 <= j < n + 1 ensures !Opens(ks[j]) {
      assert ks[1..][..n][j - 1] == ks[j];
    }
  }

  /** `ks` with another body in the block that line `i` opens */
  ghost function Spliced(ks: seq<Kind>, i: nat, body: seq<Kind>): (r: seq<Kind>)
    requires i < |ks|
    ensures |r| > i && r[..i + 1] == ks[..i + 1]
  {
    ks[..i + 1] + body + ks[BlockEnd(ks, i)..]
  }

  lemma SplicedFurther(ks: seq<Kind>, n: nat, i: nat, body: seq<Kind>)
    requires n <= i < |ks|
    ensures Spliced(ks, i, body) == ks[..n] + Spliced(ks[n..], i - n, body)
    ensures Spliced(ks[n..], i - n, body) != [] && Spliced(ks[n..], i - n, body)[0] == ks[n]
  {
    BlockEndFurther(ks, n, i);
    var rest, end := ks[n..], BlockEnd(ks, i);
    assert ks[..i + 1] == ks[..n] + rest[..i - n + 1];
    assert ks[end..] == rest[end - n..];
  }

  lemma BindFirst(e: Entry, es: seq<Entry>, client: string, instance: string, radiod: string)
    ensures Bind([e] + es, client, instance, radiod)
      == if IsFor(e, client, instance) then [e.(radiod := Some(radiod))] + es
        else [e] + Bind(es, client, instance, radiod)
    ensures Lookup([e] + es, client, instance)
      == if IsFor(e, client, instance) then Some(e.radiod) else Lookup(es, client, instance)
  {
    assert ([e] + es)[1..] == es;
  }

  lemma MatchesEntry(ks: seq<Kind>, client: string, instance: string)
    requires ks != [] && ks[0].Client?
    ensures Matches(ks, 0, client, instance) <==> IsFor(EntryOf(ks[0].name, BlockBody(ks, 0)), client, instance)
  {
  }

  /** Where the first block is, one of three: here, past a line that opens no
      block, or past a block. */
  lemma PastFirst(ks: seq<Kind>, client: string, instance: string) returns (n: nat)
    requires ks != [] && 0 < FirstBlock(ks, client, instance)
    ensures 0 < n <= FirstBlock(ks, client, instance)
    ensures n == if ks[0].Client? then BlockEnd(ks, 0) else 1
    ensures FirstBlock(ks[n..], client, instance) == FirstBlock(ks, client, instance) - n
    ensures ks[0].Client? ==> !IsFor(EntryOf(ks[0].name, BlockBody(ks, 0)), client, instance)
    ensures ks[0].Client? && n < |ks| ==> Opens(ks[n])
  {
    var i := FirstBlock(ks, client, instance);
    FirstBlockMatches(ks, client, instance);
    n := 1;
    if ks[0].Client? {
      n := BlockEnd(ks, 0);
      var body, rest := SplitBlock(ks);
      MatchesEntry(ks, client, instance);
      if i < |ks| {
        HeaderIsPastBlock(ks, i);
      }
    }
    FirstBlockFurther(ks, n, client, instance);
  }

  lemma SplicedFirst(ks: seq<Kind>, body: seq<Kind>, rest: seq<Kind>)
    requires ks != [] && rest == ks[BlockEnd(ks, 0)..]
    ensures Spliced(ks, 0, body) == [ks[0]] + body + rest
  {
  }

  lemma EntryRebound(client: string, instance: string, radiod: string, was: seq<Kind>, body: seq<Kind>)
    requires LastInstance(was) == LastInstance(body) == instance && LastRadiod(body) == Some(radiod)
    ensures IsFor(EntryOf(client, was), client, instance) && EntryOf(client, was).radiod == LastRadiod(was)
    ensures EntryOf(client, body) == EntryOf(client, was).(radiod := Some(radiod))
  {
    hide LastInstance, LastRadiod;
  }

  lemma BodyReplacedHere(ks: seq<Kind>, body: seq<Kind>, client: string, instance: string,
      radiod: string)
    requires ks != [] && Matches(ks, 0, client, instance)
    requires NoHeader(body) && LastInstance(body) == instance && LastRadiod(body) == Some(radiod)
    ensures Entries(Spliced(ks, 0, body)) == Bind(Entries(ks), client, instance, radiod)
    ensures Lookup(Entries(ks), client, instance) == Some(LastRadiod(BlockBody(ks, 0)))
  {
    assert ks[0] == Client(client) && LastInstance(BlockBody(ks, 0)) == instance;
    hide *;
    var was, rest := SplitBlock(ks);
    EntriesOfBlock(client, was, rest);
    EntriesOfBlock(client, body, rest);
    SplicedFirst(ks, body, rest);
    EntryRebound(client, instance, radiod, was, body);
    BindFirst(EntryOf(client, was), Entries(rest), client, instance, radiod);
  }

  /** Putting another body into the instance's first block binds the instance
      to what the new body names, and changes no other block. */
  lemma {:induction false} BodyReplaced(ks: seq<Kind>, i: nat, body: seq<Kind>, client: string, instance: string,
      radiod: string)
    requires FirstBlock(ks, client, instance) == i < |ks|
    requires NoHeader(body) && LastInstance(body) == instance && LastRadiod(body) == Some(radiod)
    ensures Entries(Spliced(ks, i, body)) == Bind(Entries(ks), client, instance, radiod)
    ensures Lookup(Entries(ks), client, instance) == Some(LastRadiod(BlockBody(ks, i)))
    decreases |ks|
  {
    FirstBlockMatches(ks, client, instance);
    hide *;
    if i == 0 {
      BodyReplacedHere(ks, body, client, instance, radiod);
    } else {
      var n := PastFirst(ks, client, instance);
      BodyReplaced(ks[n..], i - n, body, client, instance, radiod);
      SplicedFurther(ks, n, i, body);
      BlockEndFurther(ks, n, i);
      SplitAt(ks, n);
      var later := Spliced(ks[n..], i - n, body);
      if ks[0].Client? {
        EntriesAfterBlock(ks, ks[n..]);
        EntriesAfterBlock(ks, later);
        BindFirst(EntryOf(ks[0].name, BlockBody(ks, 0)), Entries(ks[n..]), client, instance, radiod);
      } else {
        assert ks[..1] == [ks[0]];
        EntriesSkip(ks[0], ks[n..]);
        EntriesSkip(ks[0], later);
      }
    }
  }

  lemma {:induction false} NoBlockNoEntry(ks: seq<Kind>, client: string, instance: string)
    requires FirstBlock(ks, client, instance) == |ks|
    ensures Lookup(Entries(ks), client, instance) == None
    decreases |ks|
  {
    if ks == [] {
    } else {
      hide *;
      var n := PastFirst(ks, client, instance);
      NoBlockNoEntry(ks[n..], client, instance);
      SplitAt(ks, n);
      if ks[0].Client? {
        EntriesAfterBlock(ks, ks[n..]);
        BindFirst(EntryOf(ks[0].name, BlockBody(ks, 0)), Entries(ks[n..]), client, instance, []);
      } else {
        assert ks[..1] == [ks[0]];
        EntriesSkip(ks[0], ks[n..]);
      }
    }
  }

  lemma {:induction false} BindAppends(es: seq<Entry>, client: string, instance: string, radiod: string)
    requires Lookup(es, client, instance) == None
    ensures Bind(es, client, instance, radiod) == es + [Entry(client, instance, Some(radiod))]
  {
    if es == [] {
    } else {
      BindAppends(es[1..], client, instance, radiod);
    }
  }

  lemma {:induction false} EntriesConcat(a: seq<Kind>, b: seq<Kind>)
    requires b == [] || Opens(b[0])
    ensures Entries(a + b) == Entries(a) + Entries(b)
    decreases |a|
  {
    if a == [] {
      assert a + b == b;
    } else if !a[0].Client? {
      hide *;
      EntriesConcat(a[1..], b);
      EntriesSkip(a[0], a[1..]);
      EntriesSkip(a[0], a[1..] + b);
      assert a == [a[0]] + a[1..] && a + b == [a[0]] + (a[1..] + b);
    } else {
      hide *;
      EntriesConcat(a[BlockEnd(a, 0)..], b);
      ConcatPastBlock(a, b);
    }
  }

  lemma StillOpens(a: seq<Kind>, b: seq<Kind>)
    requires a != [] && a[0].Client? && (b == [] || Opens(b[0]))
    ensures var rest := a[BlockEnd(a, 0)..]; rest == [] || Opens(rest[0])
    ensures var rest := a[BlockEnd(a, 0)..]; rest + b == [] || Opens((rest + b)[0])
  {
    var body, rest := SplitBlock(a);
  }

  lemma ConcatPastBlock(a: seq<Kind>, b: seq<Kind>)
    requires a != [] && a[0].Client? && (b == [] || Opens(b[0]))
    requires var rest := a[BlockEnd(a, 0)..]; Entries(rest + b) == Entries(rest) + Entries(b)
    ensures Entries(a + b) == Entries(a) + Entries(b)
  {
    hide *;
    var n := BlockEnd(a, 0);
    var rest := a[n..];
    StillOpens(a, b);
    EntriesAfterBlock(a, rest);
    EntriesAfterBlock(a, rest + b);
    SplitAt(a, n);
    Grouped(a[..n], rest, b);
  }

  lemma {:induction false} EntriesIgnorePlain(a: seq<Kind>)
    ensures Entries(a + [Plain]) == Entries(a)
    decreases |a|
  {
    if a == [] {
      EntriesSkip(Plain, []);
      assert a + [Plain] == [Plain] + [];
    } else if !a[0].Client? {
      hide *;
      EntriesIgnorePlain(a[1..]);
      EntriesSkip(a[0], a[1..]);
      EntriesSkip(a[0], a[1..] + [Plain]);
      assert a == [a[0]] + a[1..] && a + [Plain] == [a[0]] + (a[1..] + [Plain]);
    } else {
      var body, rest := SplitBlock(a);
      if rest == [] {
        PlainInLastBlock(a[0].name, body);
        assert a == [Client(a[0].name)] + body;
      } else {
        var n := BlockEnd(a, 0);
        hide *;
        EntriesIgnorePlain(rest);
        EntriesAfterBlock(a, rest);
        EntriesAfterBlock(a, rest + [Plain]);
        SplitAt(a, n);
        assert a + [Plain] == a[..n] + (rest + [Plain]);
      }
    }
  }

  lemma PlainInLastBlock(name: string, body: seq<Kind>)
    requires NoHeader(body)
    ensures Entries([Client(name)] + body + [Plain]) == Entries([Client(name)] + body)
  {
    assert NoHeader(body + [Plain]);
    LastAppend(body, Plain);
    hide Entries, LastInstance, LastRadiod;
    EntriesOfBlock(name, body, []);
    EntriesOfBlock(name, body + [Plain], []);
    assert [Client(name)] + body + [] == [Client(name)] + body;
    assert [Client(name)] + (body + [Plain]) + [] == [Client(name)] + body + [Plain];
  }

  lemma NoQuote(s: string)
    requires IsRadiodId(s) || IsInstanceName(s)
    ensures '"' !in s
  {
  }

  /** The lines of a new block read as one. */
  lemma NewBlockIs(client: string, instance: string, radiod: string)
    requires IsRadiodId(radiod) && IsBareName(client) && IsInstanceName(instance)
    ensures Kinds(NewBlock(client, instance, radiod)) == [Client(client), Instance(instance), Radiod(radiod)]
    ensures Entries([Client(client), Instance(instance), Radiod(radiod)]) == [Entry(client, instance, Some(radiod))]
  {
    NoQuote(radiod);
    NoQuote(instance);
    HeaderLineIs(client);
    InstanceLineIs(instance);
    RadiodLineIs(radiod);
    var body := [Instance(instance), Radiod(radiod)];
    assert body == ([] + [Instance(instance)]) + [Radiod(radiod)];
    LastAppend([], Instance(instance));
    LastAppend([] + [Instance(instance)], Radiod(radiod));
    EntriesOfBlock(client, body, []);
    NoEntries();
    assert [Client(client)] + body + [] == [Client(client), Instance(instance), Radiod(radiod)];
  }

  lemma EndLineKeepsKinds(lines: seq<string>)
    ensures Kinds(EndLine(lines)) == Kinds(lines)
  {
    if lines != [] {
      BodyWithNewline(lines[|lines| - 1]);
    }
  }

  lemma SeparatorAddsNothing(lines: seq<string>)
    ensures Entries(Kinds(EndLine(lines) + Separator(lines))) == Entries(Kinds(lines))
  {
    var ks := Kinds(lines);
    EndLineKeepsKinds(lines);
    NewlineIsPlain();
    KindsOfOne(['\n']);
    hide Entries, KindOf, EndLine, AnyText, Kinds;
    KindsConcat(EndLine(lines), Separator(lines));
    if AnyText(lines) {
      EntriesIgnorePlain(ks);
    } else {
      assert EndLine(lines) + [] == EndLine(lines);
    }
  }

  lemma AdditionIs(lines: seq<string>, client: string, instance: string, radiod: string)
    ensures EndLine(lines) + Addition(lines, client, instance, radiod)
      == EndLine(lines) + Separator(lines) + NewBlock(client, instance, radiod)
  {
    hide EndLine, NewBlock, AnyText;
  }

  lemma NewBlockOpens(client: string, instance: string, radiod: string)
    ensures Opens([Client(client), Instance(instance), Radiod(radiod)][0])
  {
  }

  lemma BlockAppended(lines: seq<string>, client: string, instance: string, radiod: string)
    requires IsRadiodId(radiod) && IsBareName(client) && IsInstanceName(instance)
    requires FirstBlock(Kinds(lines), client, instance) == |lines|
    ensures Lookup(Entries(Kinds(lines)), client, instance) == None
    ensures Entries(Kinds(EndLine(lines) + Addition(lines, client, instance, radiod)))
      == Bind(Entries(Kinds(lines)), client, instance, radiod)
    ensures var e := Edit(|lines|, 0, Addition(lines, client, instance, radiod), true);
      && Edited(lines, EndLine(lines) + Addition(lines, client, instance, radiod), e)
      && BindingEdit(lines, e, client, instance, radiod)
  {
    LinesAdded(lines, |lines|, Addition(lines, client, instance, radiod), true);
    assert BindingEdit(lines, Edit(|lines|, 0, Addition(lines, client, instance, radiod), true), client, instance,
      radiod);
    assert lines[|lines|..] == [];
    hide *;
    var ks := Kinds(lines);
    NoBlockNoEntry(ks, client, instance);
    BindAppends(Entries(ks), client, instance, radiod);
    NewBlockIs(client, instance, radiod);
    NewBlockOpens(client, instance, radiod);
    SeparatorAddsNothing(lines);
    AdditionIs(lines, client, instance, radiod);
    var start := EndLine(lines) + Separator(lines);
    KindsConcat(start, NewBlock(client, instance, radiod));
    EntriesConcat(Kinds(start), Kinds(NewBlock(client, instance, radiod)));
  }

  lemma KindsReplaced(lines: seq<string>, at: nat, line: string)
    requires at < |lines|
    ensures Kinds(lines[at := line]) == Kinds(lines)[at := KindOf(line)]
  {
  }

  lemma KindsInserted(lines: seq<string>, at: nat, line: string)
    requires at <= |lines|
    ensures Kinds(lines[..at] + [line] + lines[at..]) == Kinds(lines)[..at] + [KindOf(line)] + Kinds(lines)[at..]
  {
    hide *;
    var before, after := lines[..at], lines[at..];
    KindsConcat(before + [line], after);
    KindsConcat(before, [line]);
    KindsOfOne(line);
    KindsSplit(lines, at);
  }

  lemma KindsOfOne(line: string)
    ensures Kinds([line]) == [KindOf(line)]
  {
  }

  lemma KindsSplit(lines: seq<string>, at: nat)
    requires at <= |lines|
    ensures Kinds(lines[..at]) == Kinds(lines)[..at] && Kinds(lines[at..]) == Kinds(lines)[at..]
  {
    hide *;
    SplitAt(lines, at);
    KindsConcat(lines[..at], lines[at..]);
    Parts(Kinds(lines[..at]), Kinds(lines[at..]));
  }

  lemma BodyIsSlice(ks: seq<Kind>, i: nat)
    requires i < |ks|
    ensures BlockBody(ks, i) == ks[i + 1..BlockEnd(ks, i)] && NoHeader(BlockBody(ks, i))
  {
  }

  lemma ReplacedIsSpliced(ks: seq<Kind>, i: nat, at: nat, k: Kind)
    requires i < |ks| && i < at < BlockEnd(ks, i)
    ensures at - i - 1 < |BlockBody(ks, i)|
    ensures ks[at := k] == Spliced(ks, i, BlockBody(ks, i)[at - i - 1 := k])
  {
    BodyIsSlice(ks, i);
  }

  lemma InsertedIsSpliced(ks: seq<Kind>, i: nat, k: Kind)
    requires i < |ks|
    ensures ks[..i + 1] + [k] + ks[i + 1..] == Spliced(ks, i, [k] + BlockBody(ks, i))
  {
    BodyIsSlice(ks, i);
    var end := BlockEnd(ks, i);
    assert ks[i + 1..] == ks[i + 1..end] + ks[end..];
  }

  lemma LastRadiodInBody(ks: seq<Kind>, i: nat, at: nat)
    requires i < |ks| && IsLastRadiod(ks, i, at)
    ensures var body := BlockBody(ks, i);
      && at - i - 1 < |body| && body[at - i - 1].Radiod?
      && forall j :: at - i - 1 < j < |body| ==> !body[j].Radiod?
  {
    BodyIsSlice(ks, i);
  }

  lemma LineReplaced(lines: seq<string>, at: nat, client: string, instance: string, radiod: string)
    requires at < |lines| && KindOf(lines[at]).Radiod?
    ensures var e := Edit(at, 1, [RadiodLine(radiod)], false);
      Edited(lines, lines[at := RadiodLine(radiod)], e) && BindingEdit(lines, e, client, instance, radiod)
  {
    hide KindOf, RadiodLine;
  }

  lemma LinesAdded(lines: seq<string>, at: nat, added: seq<string>, ended: bool)
    requires at <= |lines| && (ended ==> at == |lines|)
    ensures Edited(lines, (if ended then EndLine(lines) else lines[..at]) + added + lines[at..],
      Edit(at, 0, added, ended))
  {
    hide EndLine;
  }

  lemma ReplacedInKinds(ks: seq<Kind>, i: nat, at: nat, client: string, instance: string, radiod: string)
    requires FirstBlock(ks, client, instance) == i < |ks| && IsLastRadiod(ks, i, at)
    ensures at < |ks| && Entries(ks[at := Radiod(radiod)]) == Bind(Entries(ks), client, instance, radiod)
  {
    FirstBlockMatches(ks, client, instance);
    var body, k := BlockBody(ks, i), at - i - 1;
    LastRadiodInBody(ks, i, at);
    LastReplaced(body, k, radiod);
    BodyIsSlice(ks, i);
    var now := body[k := Radiod(radiod)];
    assert NoHeader(now);
    assert LastInstance(now) == instance;
    ReplacedIsSpliced(ks, i, at, Radiod(radiod));
    hide *;
    BodyReplaced(ks, i, now, client, instance, radiod);
  }

  lemma InsertedInKinds(ks: seq<Kind>, i: nat, client: string, instance: string, radiod: string)
    requires FirstBlock(ks, client, instance) == i < |ks| && LastRadiod(BlockBody(ks, i)) == None
    ensures Entries(ks[..i + 1] + [Radiod(radiod)] + ks[i + 1..]) == Bind(Entries(ks), client, instance, radiod)
  {
    FirstBlockMatches(ks, client, instance);
    var body := BlockBody(ks, i);
    LastAfterRadiod(body, radiod);
    BodyIsSlice(ks, i);
    var now := [Radiod(radiod)] + body;
    assert NoHeader(now);
    assert LastInstance(now) == instance;
    InsertedIsSpliced(ks, i, Radiod(radiod));
    hide *;
    BodyReplaced(ks, i, now, client, instance, radiod);
  }

  lemma RadiodLineOf(radiod: string)
    requires IsRadiodId(radiod)
    ensures KindOf(RadiodLine(radiod)) == Radiod(radiod)
  {
    NoQuote(radiod);
    RadiodLineIs(radiod);
  }

  lemma RadiodAt(lines: seq<string>, i: nat, at: nat)
    requires i < |lines| && IsLastRadiod(Kinds(lines), i, at)
    ensures i < at < |lines| && KindOf(lines[at]).Radiod?
    ensures LastRadiod(BlockBody(Kinds(lines), i)) == Some(KindOf(lines[at]).value)
  {
    hide KindOf, LastRadiod;
  }

  lemma RadiodReplaced(lines: seq<string>, i: nat, at: nat, client: string, instance: string, radiod: string)
    requires IsRadiodId(radiod) && FirstBlock(Kinds(lines), client, instance) == i < |lines|
    requires IsLastRadiod(Kinds(lines), i, at)
    ensures at < |lines| && Entries(Kinds(lines[at := RadiodLine(radiod)]))
      == Bind(Entries(Kinds(lines)), client, instance, radiod)
    ensures var e := Edit(at, 1, [RadiodLine(radiod)], false);
      Edited(lines, lines[at := RadiodLine(radiod)], e) && BindingEdit(lines, e, client, instance, radiod)
  {
    hide *;
    RadiodAt(lines, i, at);
    LineReplaced(lines, at, client, instance, radiod);
    RadiodLineOf(radiod);
    KindsReplaced(lines, at, RadiodLine(radiod));
    ReplacedInKinds(Kinds(lines), i, at, client, instance, radiod);
  }

  lemma RadiodInserted(lines: seq<string>, i: nat, client: string, instance: string, radiod: string)
    requires IsRadiodId(radiod) && FirstBlock(Kinds(lines), client, instance) == i < |lines|
    requires LastRadiod(BlockBody(Kinds(lines), i)) == None
    ensures Entries(Kinds(lines[..i + 1] + [RadiodLine(radiod)] + lines[i + 1..]))
      == Bind(Entries(Kinds(lines)), client, instance, radiod)
    ensures var e := Edit(i + 1, 0, [RadiodLine(radiod)], false);
      && Edited(lines, lines[..i + 1] + [RadiodLine(radiod)] + lines[i + 1..], e)
        && BindingEdit(lines, e, client, instance, radiod)
  {
    LinesAdded(lines, i + 1, [RadiodLine(radiod)], false);
    assert BindingEdit(lines, Edit(i + 1, 0, [RadiodLine(radiod)], false), client, instance, radiod);
    hide *;
    RadiodLineOf(radiod);
    KindsInserted(lines, i + 1, RadiodLine(radiod));
    InsertedInKinds(Kinds(lines), i, client, instance, radiod);
  }

  lemma WhetherUnended(lines: seq<string>, i: nat, client: string, instance: string)
    requires FirstBlock(Kinds(lines), client, instance) == i <= |lines|
    ensures UnendedBlock(lines, client, instance) <==> i + 1 == |lines| && !Terminated(lines[i])
  {
    hide FirstBlock, Kinds, Terminated;
  }

  /** The first block is what is read back. */
  lemma BlockIsLookedUp(ks: seq<Kind>, i: nat, client: string, instance: string)
    requires FirstBlock(ks, client, instance) == i < |ks|
    ensures Lookup(Entries(ks), client, instance) == Some(LastRadiod(BlockBody(ks, i)))
  {
    var body := [Instance(instance), Radiod([])];
    assert body == ([] + [Instance(instance)]) + [Radiod([])];
    LastAppend([], Instance(instance));
    LastAppend([] + [Instance(instance)], Radiod([]));
    hide *;
    assert NoHeader(body) by {
      PlainBody(instance);
    }
    BodyReplaced(ks, i, body, client, instance, []);
  }

  lemma PlainBody(instance: string)
    ensures NoHeader([Instance(instance), Radiod([])])
  {
  }

  // ---- the text that an added block leaves ----

  /** The text that the lines make up. */
  function Whole(lines: seq<string>): string {
    if lines == [] then "" else lines[0] + Whole(lines[1..])
  }

  lemma {:induction false} WholeConcat(a: seq<string>, b: seq<string>)
    ensures Whole(a + b) == Whole(a) + Whole(b)
  {
    if a == [] {
      assert a + b == b;
    } else {
      assert (a + b)[1..] == a[1..] + b;
      WholeConcat(a[1..], b);
    }
  }

  lemma WholeOne(line: string)
    ensures Whole([line]) == line
  {
    assert [line][1..] == [];
  }

  lemma WholeLast(lines: seq<string>)
    requires lines != []
    ensures Whole(lines) == Whole(lines[..|lines| - 1]) + lines[|lines| - 1]
  {
    var n := |lines| - 1;
    assert lines == lines[..n] + [lines[n]];
    WholeConcat(lines[..n], [lines[n]]);
    WholeOne(lines[n]);
  }

  predicate HasText(text: string) {
    exists i :: 0 <= i < |text| && !IsSpace(text[i])
  }

  lemma HasTextConcat(a: string, b: string)
    ensures HasText(a + b) <==> HasText(a) || HasText(b)
  {
    var s := a + b;
    if i :| 0 <= i < |a| && !IsSpace(a[i]) {
      assert !IsSpace(s[i]);
    }
    if i :| 0 <= i < |b| && !IsSpace(b[i]) {
      assert !IsSpace(s[|a| + i]);
    }
    hide IsSpace;
  }

  lemma {:induction false} AnyTextIs(lines: seq<string>)
    ensures AnyText(lines) <==> HasText(Whole(lines))
  {
    if lines == [] {
    } else {
      AnyTextIs(lines[1..]);
      HasTextConcat(lines[0], Whole(lines[1..]));
      StripsToNothing(lines[0]);
      assert Blank(lines[0]) <==> !HasText(lines[0]);
      AnyTextCons(lines[0], lines[1..]);
      assert lines == [lines[0]] + lines[1..];
      hide AnyText, HasText, Blank;
    }
  }

  lemma AnyTextCons(line: string, rest: seq<string>)
    ensures AnyText([line] + rest) <==> !Blank(line) || AnyText(rest)
  {
    var lines := [line] + rest;
    if i :| 0 <= i < |rest| && !Blank(rest[i]) {
      assert !Blank(lines[i + 1]);
    }
    if !Blank(line) {
      assert !Blank(lines[0]);
    }
    hide Blank;
  }

  lemma EndedText(lines: seq<string>)
    requires forall i :: 0 <= i < |lines| ==> lines[i] != ""
    ensures var text := Whole(lines);
      Whole(EndLine(lines)) == text + if text != "" && text[|text| - 1] != '\n' then "\n" else ""
  {
    if lines != [] {
      var n := |lines| - 1;
      WholeLast(lines);
      WholeLast(EndLine(lines));
      assert EndLine(lines)[..n] == lines[..n];
    }
    hide Whole;
  }

  /** A block is added at the end of the text, ended by a newline if it was not,
      and after a blank line if there is anything but white space. */
  lemma AddedText(before: seq<string>, after: seq<string>, e: Edit, client: string, instance: string, radiod: string)
    requires Edited(before, after, e) && BindingEdit(before, e, client, instance, radiod) && e.ended
    requires forall i :: 0 <= i < |before| ==> before[i] != ""
    ensures var text := Whole(before);
      Whole(after) == text
        + (if text != "" && text[|text| - 1] != '\n' then "\n" else "")
        + (if HasText(text) then "\n" else "")
        + (HeaderLine(client) + (InstanceLine(instance) + RadiodLine(radiod)))
  {
    hide *;
    EndedText(before);
    var ended, block := EndLine(before), NewBlock(client, instance, radiod);
    AddedLines(before, after, e, client, instance, radiod);
    WholeConcat(ended, Separator(before) + block);
    WholeConcat(Separator(before), block);
    SeparatorText(before);
    BlockText(client, instance, radiod);
  }

  lemma AddedLines(before: seq<string>, after: seq<string>, e: Edit, client: string, instance: string, radiod: string)
    requires Edited(before, after, e) && BindingEdit(before, e, client, instance, radiod) && e.ended
    ensures after == EndLine(before) + (Separator(before) + NewBlock(client, instance, radiod))
  {
    hide NewBlock, Separator, EndLine;
  }

  lemma SeparatorText(lines: seq<string>)
    ensures Whole(Separator(lines)) == if HasText(Whole(lines)) then "\n" else ""
  {
    AnyTextIs(lines);
    WholeOne("\n");
    hide AnyText, HasText;
  }

  lemma BlockText(client: string, instance: string, radiod: string)
    ensures Whole(NewBlock(client, instance, radiod))
      == HeaderLine(client) + (InstanceLine(instance) + RadiodLine(radiod))
  {
    var a, b, c := HeaderLine(client), InstanceLine(instance), RadiodLine(radiod);
    assert [a, b, c][1..] == [b, c] && [b, c][1..] == [c];
    WholeOne(c);
    hide HeaderLine, InstanceLine, RadiodLine;
  }
}
