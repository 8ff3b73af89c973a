/** The operator's catalog file, laid over the one that ships with sigmond, and
    its pruning (lib/sigmond/catalog_prune.py, lib/sigmond/catalog.py). */
module Prune {
  import opened Text

  /** A TOML value. Tables, dates and times are `Other`. */
  datatype Value =
    | Bool(b: bool)
    | Int(n: int)
    | Float(x: real)
    | Str(s: string)
    | List(items: seq<Value>)
    | Other(id: int)

  /** The number that a value counts as in Python's `==`. */
  function AsNumber(v: Value): Option<real> {
    match v
    case Bool(b) => Some(if b then 1.0 else 0.0)
    case Int(n) => Some(n as real)
    case Float(x) => Some(x)
    case _ => None
  }

  /** Python's `==` */
  predicate PyEq(v: Value, w: Value) {
    if AsNumber(v).Some? || AsNumber(w).Some? then AsNumber(v) == AsNumber(w)
    else if v.List? && w.List? then
      |v.items| == |w.items| && forall i :: 0 <= i < |v.items| ==> PyEq(v.items[i], w.items[i])
    else v == w
  }

  type Block = map<string, Value>
  type Section = map<string, Block>

  // ---- overlays ----

  function BlockOf(s: Section, name: string): Block {
    if name in s then s[name] else map[]
  }

  /** `high` laid over `low`, key by key. */
  function Overlay(low: Section, high: Section): Section {
    map name | name in low.Keys + high.Keys :: BlockOf(low, name) + BlockOf(high, name)
  }

  method LayOver(low: Section, high: Section) returns (merged: Section)
    ensures merged == Overlay(low, high)
  {
    merged := low;
    var todo := high.Keys;
    while todo != {}
      invariant todo <= high.Keys
      invariant merged.Keys == low.Keys + (high.Keys - todo)
      invariant forall name :: name in merged ==>
        merged[name] == if name in todo then BlockOf(low, name) else BlockOf(low, name) + BlockOf(high, name)
    {
      var name :| name in todo;
      merged := merged[name := BlockOf(merged, name) + high[name]];
      todo := todo - {name};
    }
  }

  /** Equal as Python compares dicts. */
  ghost predicate SameBlock(a: Block, b: Block) {
    a.Keys == b.Keys && forall key :: key in a ==> PyEq(a[key], b[key])
  }

  ghost predicate Same(a: Section, b: Section) {
    a.Keys == b.Keys && forall name :: name in a ==> SameBlock(a[name], b[name])
  }

  // ---- pruning ----

  /** The repository's block has the key with an equal value. */
  predicate Duplicates(repo: Block, op: Block, key: string)
    requires key in op
  {
    key in repo && PyEq(repo[key], op[key])
  }

  function Pruned(op: Block, repo: Block): Block {
    map key | key in op && !Duplicates(repo, op, key) :: op[key]
  }

  function Minimal(op: Section, repo: Section): Section {
    map name | name in op && (name !in repo || Pruned(op[name], repo[name]) != map[]) ::
      if name in repo then Pruned(op[name], repo[name]) else op[name]
  }

  method PruneBlock(op: Block, repo: Block) returns (out: Block)
    ensures out == Pruned(op, repo)
  {
    out := map[];
    var todo := op.Keys;
    while todo != {}
      invariant todo <= op.Keys
      invariant forall key :: key in out <==> key in op.Keys - todo && !Duplicates(repo, op, key)
      invariant forall key :: key in out ==> out[key] == op[key]
    {
      var key :| key in todo;
      todo := todo - {key};
      if key in repo && PyEq(repo[key], op[key]) {
        continue;
      }
      out := out[key := op[key]];
    }
  }

  /** What pruning one section did. */
  datatype SectionReport = SectionReport(dropped: set<string>, kept: set<string>, prunedKeys: set<(string, string)>)

  ghost predicate ReportIs(r: SectionReport, op: Section, repo: Section) {
    && r.kept == Minimal(op, repo).Keys
    && r.dropped == op.Keys - Minimal(op, repo).Keys
    && forall name, key :: (name, key) in r.prunedKeys <==> IsPruned(op, repo, name, key)
  }

  predicate IsPruned(op: Section, repo: Section, name: string, key: string) {
    name in op && name in repo && key in op[name] && Duplicates(repo[name], op[name], key)
  }

  method PruneSection(op: Section, repo: Section) returns (minimal: Section, r: SectionReport)
    ensures minimal == Minimal(op, repo) && ReportIs(r, op, repo)
  {
    minimal, r := map[], SectionReport({}, {}, {});
    var todo := op.Keys;
    while todo != {}
      invariant todo <= op.Keys
      invariant forall name :: name in minimal <==> name !in todo && name in Minimal(op, repo)
      invariant forall name :: name in minimal ==> minimal[name] == Minimal(op, repo)[name]
      invariant r.kept == minimal.Keys && r.dropped == op.Keys - todo - minimal.Keys
      invariant forall name, key :: (name, key) in r.prunedKeys <==> name !in todo && IsPruned(op, repo, name, key)
    {
      var name :| name in todo;
      todo := todo - {name};
      if name !in repo {
        minimal := minimal[name := op[name]];
        r := r.(kept := r.kept + {name});
        continue;
      }
      var pruned := PruneBlock(op[name], repo[name]);
      r := r.(prunedKeys := r.prunedKeys + set key | key in op[name].Keys && key !in pruned :: (name, key));
      if pruned != map[] {
        minimal := minimal[name := pruned];
        r := r.(kept := r.kept + {name});
      } else {
        r := r.(dropped := r.dropped + {name});
      }
    }
  }

  // ---- the operator's file ----

  datatype TomlFile = TomlFile(client: Section, deprecated: Section, profile: Section)

  /** A missing file has no blocks. */
  function Blocks(f: Option<TomlFile>): TomlFile {
    f.GetOr(TomlFile(map[], map[], map[]))
  }

  /** The values that the writer can print. */
  predicate Writable(v: Value) {
    match v
    case List(items) => forall i :: 0 <= i < |items| ==> Writable(items[i])
    case Float(_) => false
    case Other(_) => false
    case _ => true
  }

  predicate WritableSection(s: Section) {
    forall name :: name in s ==> forall key :: key in s[name] ==> Writable(s[name][key])
  }

  /** What is left of a file, in the sections that pruning reads. */
  function Left(op: TomlFile, repo: TomlFile): TomlFile {
    TomlFile(Minimal(op.client, repo.client), Minimal(op.deprecated, repo.deprecated), map[])
  }

  predicate HasWork(op: TomlFile, repo: TomlFile) {
    Left(op, repo).client != op.client || Left(op, repo).deprecated != op.deprecated
  }

  /** Some kept value cannot be printed, and printing is called for. */
  predicate Fails(op: TomlFile, repo: TomlFile) {
    var left := Left(op, repo);
    && HasWork(op, repo) && (left.client != map[] || left.deprecated != map[])
    && !(WritableSection(left.client) && WritableSection(left.deprecated))
  }

  /** The file after pruning. */
  function AfterPrune(op: Option<TomlFile>, repo: Option<TomlFile>): Option<TomlFile> {
    var left := Left(Blocks(op), Blocks(repo));
    if !HasWork(Blocks(op), Blocks(repo)) || Fails(Blocks(op), Blocks(repo)) then op
    else if left.client == map[] && left.deprecated == map[] then None
    else Some(left)
  }

  datatype Report = Report(noOp: bool, client: SectionReport, deprecated: SectionReport, backedUp: bool,
      removedFile: bool)

  lemma NoPairs(s: set<(string, string)>)
    requires forall x, y :: (x, y) !in s
    ensures s == {}
  {
    forall p: (string, string) ensures p !in s {
      assert (p.0, p.1) !in s && p == (p.0, p.1);
    }
  }

  lemma WorkIsReported(op: Section, repo: Section, r: SectionReport)
    requires ReportIs(r, op, repo)
    ensures r.dropped == {} && r.prunedKeys == {} <==> Minimal(op, repo) == op
  {
    var left := Minimal(op, repo);
    if left == op {
      forall name, key ensures (name, key) !in r.prunedKeys {
        MinimalAt(op, repo, name);
        if name in op && name in repo && key in op[name] {
          assert op[name] == Pruned(op[name], repo[name]);
          assert key in Pruned(op[name], repo[name]);
          assert !Duplicates(repo[name], op[name], key);
        }
        assert (name, key) in r.prunedKeys <==> IsPruned(op, repo, name, key);
      }
      NoPairs(r.prunedKeys);
      assert r.dropped == {};
    } else if r.dropped == {} && r.prunedKeys == {} {
      forall name | name in op ensures name in left {
        assert name !in op.Keys - left.Keys;
      }
      forall name | name in op ensures left[name] == op[name] {
        if name in repo {
          forall key | key in op[name] ensures !Duplicates(repo[name], op[name], key) {
            assert (name, key) !in r.prunedKeys;
          }
        }
      }
    }
  }

  class OperatorCatalog {
    var content: Option<TomlFile>
    var backup: Option<TomlFile>

    constructor (content: Option<TomlFile>, backup: Option<TomlFile>)
      ensures this.content == content && this.backup == backup
    {
      this.content, this.backup := content, backup;
    }

    /** None when a kept value cannot be printed: the backup is made by then. */
    method PruneOperatorCatalog(repo: Option<TomlFile>, dryRun: bool) returns (r: Option<Report>)
      modifies this`content, this`backup
      ensures content == if dryRun then old(content) else AfterPrune(old(content), repo)
      ensures backup == if !dryRun && HasWork(Blocks(old(content)), Blocks(repo)) then old(content) else old(backup)
      ensures r.None? <==> !dryRun && Fails(Blocks(old(content)), Blocks(repo))
      ensures r.Some? && !r.value.noOp ==>
        && ReportIs(r.value.client, Blocks(old(content)).client, Blocks(repo).client)
        && ReportIs(r.value.deprecated, Blocks(old(content)).deprecated, Blocks(repo).deprecated)
      ensures r.Some? ==>
        && (r.value.noOp <==> Blocks(old(content)).client == map[] && Blocks(old(content)).deprecated == map[])
        && (r.value.removedFile <==> old(content).Some? && content.None?)
        && (r.value.backedUp <==> !dryRun && HasWork(Blocks(old(content)), Blocks(repo)))
    {
      hide Minimal, IsPruned, WritableSection, ReportIs;
      NothingToPrune();
      var op, rp := Blocks(content), Blocks(repo);
      var none := SectionReport({}, {}, {});
      if op.client == map[] && op.deprecated == map[] {
        return Some(Report(true, none, none, false, false));
      }
      var client, clientReport := PruneSection(op.client, rp.client);
      var deprecated, deprecatedReport := PruneSection(op.deprecated, rp.deprecated);
      WorkIsReported(op.client, rp.client, clientReport);
      WorkIsReported(op.deprecated, rp.deprecated, deprecatedReport);
      if clientReport.dropped == {} && clientReport.prunedKeys == {}
         && deprecatedReport.dropped == {} && deprecatedReport.prunedKeys == {} {
        return Some(Report(false, clientReport, deprecatedReport, false, false));
      }
      if dryRun {
        return Some(Report(false, clientReport, deprecatedReport, false, false));
      }
      backup := content;
      if client == map[] && deprecated == map[] {
        content := None;
        return Some(Report(false, clientReport, deprecatedReport, true, true));
      }
      if !WritableSection(client) || !WritableSection(deprecated) {
        return None;
      }
      content := Some(TomlFile(client, deprecated, map[]));
      return Some(Report(false, clientReport, deprecatedReport, true, false));
    }
  }

  // ---- what the catalogs say ----

  /** The deprecated entries, from the repository's file and the operator's. */
  function DeprecatedCatalog(repo: Option<TomlFile>, op: Option<TomlFile>): Section {
    Overlay(Blocks(repo).deprecated, Blocks(op).deprecated)
  }

  /** The client entries, laid over the discovered ones, less the deprecated. */
  function ClientCatalog(discovered: Section, repo: Option<TomlFile>, op: Option<TomlFile>): Section {
    var merged := Overlay(Overlay(discovered, Blocks(repo).client), Blocks(op).client);
    merged - DeprecatedCatalog(repo, op).Keys
  }

  function Profiles(repo: Option<TomlFile>, op: Option<TomlFile>): Section {
    Overlay(Blocks(repo).profile, Blocks(op).profile)
  }

  lemma {:induction false} PyEqSelf(v: Value)
    ensures PyEq(v, v)
  {
    if v.List? {
      forall i | 0 <= i < |v.items| ensures PyEq(v.items[i], v.items[i]) {
        PyEqSelf(v.items[i]);
      }
    }
  }

  /** What lies over a block that ends with the repository's, pruned or not. */
  lemma BlockKeepsMeaning(low: Block, repo: Block, op: Block)
    ensures SameBlock(low + repo + Pruned(op, repo), low + repo + op)
  {
    var a, b := low + repo + Pruned(op, repo), low + repo + op;
    forall key | key in b ensures key in a && PyEq(a[key], b[key]) {
      PyEqSelf(b[key]);
    }
  }

  lemma OverlayAt(low: Section, high: Section, name: string)
    ensures name in Overlay(low, high) <==> name in low || name in high
    ensures BlockOf(Overlay(low, high), name) == BlockOf(low, name) + BlockOf(high, name)
  {
    var none: Block := map[];
    assert none + none == none;
  }

  lemma MinimalAt(op: Section, repo: Section, name: string)
    ensures name in Minimal(op, repo) ==> name in op
    ensures name in op && name !in Minimal(op, repo) ==> name in repo
    ensures BlockOf(Minimal(op, repo), name)
      == if name in repo then Pruned(BlockOf(op, name), repo[name]) else BlockOf(op, name)
  {
  }

  lemma SectionKeepsMeaning(low: Section, repo: Section, op: Section)
    ensures Same(Overlay(Overlay(low, repo), Minimal(op, repo)), Overlay(Overlay(low, repo), op))
  {
    var base, left := Overlay(low, repo), Minimal(op, repo);
    var a, b := Overlay(base, left), Overlay(base, op);
    hide Overlay, Minimal, Pruned, PyEq, SameBlock;
    forall name ensures (name in a <==> name in b) && SameBlock(BlockOf(a, name), BlockOf(b, name)) {
      OverlayAt(low, repo, name);
      OverlayAt(base, left, name);
      OverlayAt(base, op, name);
      MinimalAt(op, repo, name);
      if name in repo {
        BlockKeepsMeaning(BlockOf(low, name), repo[name], BlockOf(op, name));
      } else {
        BlockIsSame(BlockOf(a, name));
      }
    }
    assert forall name :: name in b ==> BlockOf(a, name) == a[name] && BlockOf(b, name) == b[name];
  }

  lemma BlockIsSame(b: Block)
    ensures SameBlock(b, b)
  {
    forall key | key in b ensures PyEq(b[key], b[key]) {
      PyEqSelf(b[key]);
    }
  }

  lemma OverNothing(s: Section)
    ensures Overlay(map[], s) == s
  {
    assert forall name :: name in s ==> map[] + s[name] == s[name];
  }

  lemma SameSelf(s: Section)
    ensures Same(s, s)
  {
    forall name, key | name in s && key in s[name] ensures PyEq(s[name][key], s[name][key]) {
      PyEqSelf(s[name][key]);
    }
  }

  /** Pruning changes what no reader of clients or deprecations sees. */
  lemma PruneKeepsMeaning(discovered: Section, repo: Option<TomlFile>, op: Option<TomlFile>)
    ensures Same(ClientCatalog(discovered, repo, AfterPrune(op, repo)), ClientCatalog(discovered, repo, op))
    ensures Same(DeprecatedCatalog(repo, AfterPrune(op, repo)), DeprecatedCatalog(repo, op))
  {
    var now := AfterPrune(op, repo);
    if now == op {
      SameSelf(ClientCatalog(discovered, repo, op));
      SameSelf(DeprecatedCatalog(repo, op));
    } else {
      var o, r := Blocks(op), Blocks(repo);
      assert Blocks(now).client == Minimal(o.client, r.client);
      assert Blocks(now).deprecated == Minimal(o.deprecated, r.deprecated);
      SectionKeepsMeaning(discovered, r.client, o.client);
      SectionKeepsMeaning(map[], r.deprecated, o.deprecated);
      OverNothing(r.deprecated);
    }
  }

  lemma MinimalOfMinimal(op: Section, repo: Section)
    ensures Minimal(Minimal(op, repo), repo) == Minimal(op, repo)
  {
    var left := Minimal(op, repo);
    forall name | name in left && name in repo ensures Pruned(left[name], repo[name]) == left[name] {
    }
  }

  /** A second pruning finds nothing to do. */
  lemma PruneTwice(op: Option<TomlFile>, repo: Option<TomlFile>)
    requires !Fails(Blocks(op), Blocks(repo))
    ensures AfterPrune(AfterPrune(op, repo), repo) == AfterPrune(op, repo)
    ensures !HasWork(Blocks(AfterPrune(op, repo)), Blocks(repo))
  {
    var o, r := Blocks(op), Blocks(repo);
    MinimalOfMinimal(o.client, r.client);
    MinimalOfMinimal(o.deprecated, r.deprecated);
    hide Minimal;
    assert forall s :: Minimal(map[], s) == map[] by {
      NothingToPrune();
    }
  }

  lemma NothingToPrune()
    ensures forall s :: Minimal(map[], s) == map[]
  {
  }

  /** What pruning keeps is in every operator section that means the same over
      the repository's: nothing kept can be left out. */
  lemma MinimalIsLeast(op: Section, repo: Section, other: Section)
    requires Same(Overlay(repo, other), Overlay(repo, op))
    ensures Minimal(op, repo).Keys <= other.Keys
    ensures forall name :: name in Minimal(op, repo) ==> Minimal(op, repo)[name].Keys <= other[name].Keys
  {
    var a, b := Overlay(repo, other), Overlay(repo, op);
    forall name | name in Minimal(op, repo)
      ensures name in other && Minimal(op, repo)[name].Keys <= other[name].Keys
    {
      assert name in b && name in a;
      assert SameBlock(a[name], b[name]);
      forall key | key in Minimal(op, repo)[name] ensures name in other && key in other[name] {
        KeptKeyIsNeeded(op, repo, other, name, key);
      }
      if name in repo {
        var key :| key in Minimal(op, repo)[name];
      }
    }
  }

  lemma KeptKeyIsNeeded(op: Section, repo: Section, other: Section, name: string, key: string)
    requires Same(Overlay(repo, other), Overlay(repo, op))
    requires name in Minimal(op, repo) && key in Minimal(op, repo)[name]
    ensures name in other && key in other[name]
  {
    var a, b := Overlay(repo, other), Overlay(repo, op);
    assert name in b && key in b[name] && b[name][key] == op[name][key];
    assert SameBlock(a[name], b[name]);
    OverlayAt(repo, other, name);
    MinimalAt(op, repo, name);
    hide Overlay, Minimal, PyEq;
    assert key in a[name] && PyEq(a[name][key], b[name][key]);
    assert key in BlockOf(repo, name) ==> !PyEq(repo[name][key], op[name][key]);
  }

  // ---- which values count as equal ----

  /** The value is this number; a truth value is one or zero. */
  predicate Counts(v: Value, x: real) {
    match v
    case Bool(b) => x == (if b then 1.0 else 0.0)
    case Int(n) => x == n as real
    case Float(f) => x == f
    case _ => false
  }

  /** The same value, two ways to write one number, or lists that differ only
      in such numbers. */
  ghost predicate Alike(v: Value, w: Value) {
    || v == w
    || (exists x :: Counts(v, x) && Counts(w, x))
    || (v.List? && w.List? && |v.items| == |w.items|
        && forall i :: 0 <= i < |v.items| ==> Alike(v.items[i], w.items[i]))
  }

  lemma NumbersAre(v: Value, x: real)
    ensures Counts(v, x) <==> AsNumber(v) == Some(x)
  {
  }

  lemma {:induction false} PyEqIsAlike(v: Value, w: Value)
    ensures PyEq(v, w) <==> Alike(v, w)
  {
    forall x ensures (Counts(v, x) <==> AsNumber(v) == Some(x)) && (Counts(w, x) <==> AsNumber(w) == Some(x)) {
      NumbersAre(v, x);
      NumbersAre(w, x);
    }
    if AsNumber(v).Some? {
      assert Counts(v, AsNumber(v).value);
    }
    if v.List? && w.List? {
      if |v.items| == |w.items| {
        forall i | 0 <= i < |v.items| ensures PyEq(v.items[i], w.items[i]) <==> Alike(v.items[i], w.items[i]) {
          PyEqIsAlike(v.items[i], w.items[i]);
        }
      }
      if v == w {
        PyEqSelf(v);
      }
    }
    hide Counts;
  }

  /** A text is like no other value, and neither is a table or a date. */
  lemma TextsAreAlikeWhenSame(v: Value, w: Value)
    requires v.Str? || v.Other?
    ensures Alike(v, w) <==> v == w
    ensures Alike(w, v) <==> v == w
  {
  }

  /** Where a merged catalog reads differently after pruning, it does so by the
      way a number is written. */
  lemma PruneRewritesOnlyNumbers(discovered: Section, repo: Option<TomlFile>, op: Option<TomlFile>, name: string,
                                 key: string)
    ensures var a, b := ClientCatalog(discovered, repo, AfterPrune(op, repo)), ClientCatalog(discovered, repo, op);
      && a.Keys == b.Keys
      && (name in a ==> a[name].Keys == b[name].Keys && (key in a[name] ==> Alike(a[name][key], b[name][key])))
  {
    var a, b := ClientCatalog(discovered, repo, AfterPrune(op, repo)), ClientCatalog(discovered, repo, op);
    PruneKeepsMeaning(discovered, repo, op);
    if name in a {
      assert SameBlock(a[name], b[name]);
      if key in a[name] {
        PyEqIsAlike(a[name][key], b[name][key]);
      }
    }
    hide ClientCatalog, AfterPrune, PyEq, Alike;
  }

  /** What the operator set to something else than the repository's file says
      stays in the operator's file, and is read as before. */
  lemma OverridesStay(discovered: Section, repo: Option<TomlFile>, op: Option<TomlFile>, name: string, key: string)
    requires name in Blocks(op).client && key in Blocks(op).client[name]
    requires var r := Blocks(repo).client;
      name in r && key in r[name] ==> !Alike(r[name][key], Blocks(op).client[name][key])
    ensures var v, left := Blocks(op).client[name][key], Blocks(AfterPrune(op, repo)).client;
      && name in left && key in left[name] && left[name][key] == v
      && var c := ClientCatalog(discovered, repo, AfterPrune(op, repo));
         name !in DeprecatedCatalog(repo, op) ==> name in c && key in c[name] && c[name][key] == v
  {
    var o, r := Blocks(op).client, Blocks(repo).client;
    if name in r && key in r[name] {
      PyEqIsAlike(r[name][key], o[name][key]);
    }
    KeptKey(o, r, name, key);
    PruneKeepsMeaning(discovered, repo, op);
    LeftIs(op, repo);
    OperatorIsRead(discovered, repo, AfterPrune(op, repo), name, key);
    hide *;
    SameNames(DeprecatedCatalog(repo, AfterPrune(op, repo)), DeprecatedCatalog(repo, op));
  }

  lemma LeftIs(op: Option<TomlFile>, repo: Option<TomlFile>)
    ensures var left := Blocks(AfterPrune(op, repo)).client;
      left == Minimal(Blocks(op).client, Blocks(repo).client) || left == Blocks(op).client
  {
    hide Minimal, HasWork, Fails;
  }

  lemma SameNames(a: Section, b: Section)
    requires Same(a, b)
    ensures a.Keys == b.Keys
  {
  }

  lemma OperatorIsRead(discovered: Section, repo: Option<TomlFile>, op: Option<TomlFile>, name: string, key: string)
    ensures name in Blocks(op).client && key in Blocks(op).client[name] && name !in DeprecatedCatalog(repo, op) ==>
      var c := ClientCatalog(discovered, repo, op);
      name in c && key in c[name] && c[name][key] == Blocks(op).client[name][key]
  {
    OverlayAt(Overlay(discovered, Blocks(repo).client), Blocks(op).client, name);
    hide Overlay, DeprecatedCatalog;
  }

  lemma KeptKey(op: Section, repo: Section, name: string, key: string)
    requires name in op && key in op[name]
    requires name in repo && key in repo[name] ==> !PyEq(repo[name][key], op[name][key])
    ensures name in Minimal(op, repo) && key in Minimal(op, repo)[name] && Minimal(op, repo)[name][key] == op[name][key]
  {
    if name in repo {
      assert key in Pruned(op[name], repo[name]);
    }
  }

  /** Values stay the very same, type included, exactly when every pruned value
      is identical to the repository's and not only equal to it. */
  lemma ExactlySameWhenIdentical(low: Section, repo: Section, op: Section)
    ensures Overlay(Overlay(low, repo), Minimal(op, repo)) == Overlay(Overlay(low, repo), op)
      <==> forall name, key :: IsPruned(op, repo, name, key) ==> op[name][key] == repo[name][key]
  {
    hide Overlay, Minimal, Pruned, Duplicates, IdenticalIn, PyEq, IsPruned;
    var base, left := Overlay(low, repo), Minimal(op, repo);
    var a, b := Overlay(base, left), Overlay(base, op);
    forall name
      ensures name in a <==> name in b
      ensures BlockOf(a, name) == BlockOf(b, name) <==> IdenticalIn(op, repo, name)
    {
      OverlayAt(low, repo, name);
      OverlayAt(base, left, name);
      OverlayAt(base, op, name);
      MinimalAt(op, repo, name);
      if name in repo {
        IdenticalWhen(BlockOf(low, name), op, repo, name);
      } else {
        NothingPrunedIn(op, repo, name);
      }
    }
    SameBlocks(a, b);
    IdenticalEverywhere(op, repo);
  }

  lemma SameBlocks(a: Section, b: Section)
    ensures a == b <==> forall name :: (name in a <==> name in b) && BlockOf(a, name) == BlockOf(b, name)
  {
    if forall name :: (name in a <==> name in b) && BlockOf(a, name) == BlockOf(b, name) {
      forall name | name in a ensures name in b && a[name] == b[name] {
        assert BlockOf(a, name) == BlockOf(b, name);
      }
    }
  }

  lemma IdenticalEverywhere(op: Section, repo: Section)
    ensures (forall name :: IdenticalIn(op, repo, name))
      <==> forall name, key :: IsPruned(op, repo, name, key) ==> op[name][key] == repo[name][key]
  {
    if forall name :: IdenticalIn(op, repo, name) {
      forall name, key | IsPruned(op, repo, name, key) ensures op[name][key] == repo[name][key] {
        assert IdenticalIn(op, repo, name);
      }
    }
  }

  ghost predicate IdenticalIn(op: Section, repo: Section, name: string) {
    forall key :: IsPruned(op, repo, name, key) ==> op[name][key] == repo[name][key]
  }

  lemma NothingPrunedIn(op: Section, repo: Section, name: string)
    requires name !in repo
    ensures IdenticalIn(op, repo, name)
  {
    assert forall key :: !IsPruned(op, repo, name, key);
    hide IsPruned;
  }

  lemma IdenticalWhen(low: Block, op: Section, repo: Section, name: string)
    requires name in repo
    ensures low + repo[name] + Pruned(BlockOf(op, name), repo[name]) == low + repo[name] + BlockOf(op, name)
      <==> IdenticalIn(op, repo, name)
  {
    var block := BlockOf(op, name);
    var a, b := low + repo[name] + Pruned(block, repo[name]), low + repo[name] + block;
    assert a.Keys == b.Keys;
    forall key | IsPruned(op, repo, name, key) ensures a[key] == repo[name][key] && b[key] == op[name][key] {
    }
    forall key | key in b && !IsPruned(op, repo, name, key) ensures a[key] == b[key] {
    }
  }

  /** `true` in the operator's file is pruned against `1` in the repository's,
      and then reads as `1`. */
  lemma TrueReadsAsOne(name: string, key: string)
    ensures var repo, op := map[name := map[key := Int(1)]], map[name := map[key := Bool(true)]];
      Minimal(op, repo) == map[] && Overlay(repo, Minimal(op, repo))[name][key] != Overlay(repo, op)[name][key]
  {
    var repo, op := map[name := map[key := Int(1)]], map[name := map[key := Bool(true)]];
    assert PyEq(Int(1), Bool(true));
    assert Pruned(op[name], repo[name]) == map[];
  }

  /** A pruned key follows the repository from then on: a later version's value
      shows, where the operator's copy hid it. */
  lemma UpstreamShows(op: Section, repo: Section, later: Section, name: string, key: string)
    requires IsPruned(op, repo, name, key) && name in later && key in later[name]
    ensures Overlay(later, Minimal(op, repo))[name][key] == later[name][key]
    ensures Overlay(later, op)[name][key] == op[name][key]
  {
  }

  /** Profiles that the operator added or changed survive exactly when pruning
      leaves the file as it is; those that say nothing new are not missed. */
  lemma ProfilesSurviveOnlyWithoutWork(op: Option<TomlFile>, repo: Option<TomlFile>)
    ensures Profiles(repo, AfterPrune(op, repo)) == Profiles(repo, op)
      <==> !HasWork(Blocks(op), Blocks(repo)) || Fails(Blocks(op), Blocks(repo))
           || Profiles(repo, op) == Blocks(repo).profile
  {
    hide Minimal, HasWork, Fails;
    OverlayOfNothing(Blocks(repo).profile);
  }

  lemma OverlayOfNothing(s: Section)
    ensures Overlay(s, map[]) == s
  {
    assert forall name :: name in s ==> s[name] + map[] == s[name];
  }

  /** A setting is the operator's, or else the repository's, or else the one that
      was discovered; and no entry that either file deprecates is listed. */
  lemma HighestLayerWins(discovered: Section, repo: Option<TomlFile>, op: Option<TomlFile>, name: string, key: string)
    ensures var c, o, r := ClientCatalog(discovered, repo, op), Blocks(op).client, Blocks(repo).client;
      && (name in c <==>
            && (name in discovered || name in r || name in o)
            && name !in Blocks(op).deprecated && name !in Blocks(repo).deprecated)
      && (name in c ==>
            (key in c[name] <==>
               key in BlockOf(o, name) || key in BlockOf(r, name) || key in BlockOf(discovered, name)))
      && (name in c && key in c[name] ==>
            c[name][key] == if key in BlockOf(o, name) then BlockOf(o, name)[key]
                            else if key in BlockOf(r, name) then BlockOf(r, name)[key]
                            else BlockOf(discovered, name)[key])
  {
    var r := Blocks(repo).client;
    OverlayAt(discovered, r, name);
    OverlayAt(Overlay(discovered, r), Blocks(op).client, name);
    OverlayAt(Blocks(repo).deprecated, Blocks(op).deprecated, name);
    hide Overlay;
  }

  // ---- when there is something to prune, and when it cannot be written ----

  /** The values that the catalog uses: texts, whole numbers, truth values, and
      lists of these. */
  predicate IsPlain(v: Value) {
    v.Str? || v.Int? || v.Bool? || (v.List? && forall i :: 0 <= i < |v.items| ==> IsPlain(v.items[i]))
  }

  lemma {:induction false} PlainIsWritable(v: Value)
    ensures Writable(v) <==> IsPlain(v)
  {
    if v.List? {
      forall i | 0 <= i < |v.items| ensures Writable(v.items[i]) <==> IsPlain(v.items[i]) {
        PlainIsWritable(v.items[i]);
      }
    }
  }

  ghost predicate AllPlain(s: Section) {
    forall name :: name in s ==> forall key :: key in s[name] ==> IsPlain(s[name][key])
  }

  lemma PlainSections(s: Section)
    ensures WritableSection(s) <==> AllPlain(s)
  {
    forall v ensures Writable(v) <==> IsPlain(v) {
      PlainIsWritable(v);
    }
    hide Writable, IsPlain;
  }

  /** Some key of the section repeats the repository's value, or some block of it
      is empty where the repository has that block. */
  ghost predicate HasRepeats(op: Section, repo: Section) {
    || (exists name, key :: IsPruned(op, repo, name, key))
    || (exists name :: name in op && name in repo && op[name] == map[])
  }

  lemma WorkIs(op: Section, repo: Section)
    ensures Minimal(op, repo) != op <==> HasRepeats(op, repo)
  {
    forall name ensures name in Minimal(op, repo) ==> name in op {
      MinimalAt(op, repo, name);
    }
    if HasRepeats(op, repo) {
      if name, key :| IsPruned(op, repo, name, key) {
        assert name in Minimal(op, repo) ==> key !in Minimal(op, repo)[name];
      } else {
        var name :| name in op && name in repo && op[name] == map[];
        assert Pruned(op[name], repo[name]) == map[];
        assert name !in Minimal(op, repo);
      }
    } else {
      forall name | name in op ensures name in Minimal(op, repo) && Minimal(op, repo)[name] == op[name] {
        NothingToPruneIn(op, repo, name);
      }
    }
  }

  lemma NothingToPruneIn(op: Section, repo: Section, name: string)
    requires !HasRepeats(op, repo) && name in op
    ensures name in Minimal(op, repo) && Minimal(op, repo)[name] == op[name]
  {
    if name in repo {
      forall key | key in op[name] ensures !Duplicates(repo[name], op[name], key) {
        assert !IsPruned(op, repo, name, key);
      }
      assert Pruned(op[name], repo[name]) == op[name];
    }
  }

  /** The file is written when something repeats the repository's; the pruning
      fails, after the backup, when it leaves a value that is not plain; and the
      file goes when nothing is left. */
  lemma PruneComesTo(op: Option<TomlFile>, repo: Option<TomlFile>)
    ensures var o, r := Blocks(op), Blocks(repo);
      var left := Left(o, r);
      && (HasWork(o, r) <==> HasRepeats(o.client, r.client) || HasRepeats(o.deprecated, r.deprecated))
      && (Fails(o, r) <==> HasWork(o, r) && !(AllPlain(left.client) && AllPlain(left.deprecated)))
      && (AfterPrune(op, repo) == None <==>
            op == None || (HasWork(o, r) && left.client == map[] && left.deprecated == map[]))
  {
    var o, r := Blocks(op), Blocks(repo);
    WorkIs(o.client, r.client);
    WorkIs(o.deprecated, r.deprecated);
    PlainSections(Left(o, r).client);
    PlainSections(Left(o, r).deprecated);
    assert AllPlain(map[]);
    hide Minimal, HasRepeats, WritableSection, AllPlain;
  }
}
