/** Install order of component dependencies (lib/sigmond/catalog.py).

    A dependency may be named by its canonical catalog name or by a topology
    alias; the depth-first visit remembers the names as they were written. */
module Catalog {

  import opened Lists
  import opened Text

  datatype Entry = Entry(deps: seq<string>)

  /** The loaded entries, and the alias table `build_alias_map` makes of them. */
  datatype Catalog = Catalog(entries: map<string, Entry>, aliases: map<string, string>)

  function ResolveName(c: Catalog, name: string): string {
    if name in c.entries then name
    else if name in c.aliases then c.aliases[name]
    else name
  }

  function GetEntry(c: Catalog, name: string): Option<Entry> {
    var canonical := ResolveName(c, name);
    if canonical in c.entries then Some(c.entries[canonical]) else None
  }

  predicate Known(c: Catalog, name: string) {
    GetEntry(c, name).Some?
  }

  /** What `name` requires, as written in its entry. */
  function Deps(c: Catalog, name: string): seq<string> {
    match GetEntry(c, name)
    case None => []
    case Some(e) => e.deps
  }

  ghost predicate IsPath(c: Catalog, a: string, b: string, p: seq<string>) {
    && |p| > 0 && p[0] == a && p[|p| - 1] == b
    && forall i :: 0 <= i < |p| - 1 ==> p[i + 1] in Deps(c, p[i])
  }

  /** `b` is `a` or one of its direct or indirect requirements. */
  ghost predicate Reaches(c: Catalog, a: string, b: string) {
    exists p :: IsPath(c, a, b, p)
  }

  /** `x` is a direct or indirect requirement of `name`. */
  ghost predicate RequiredBy(c: Catalog, name: string, x: string) {
    exists d :: d in Deps(c, name) && Reaches(c, d, x)
  }

  lemma ReachesSelf(c: Catalog, a: string)
    ensures Reaches(c, a, a)
  {
    assert IsPath(c, a, a, [a]);
  }

  lemma ReachesStep(c: Catalog, a: string, b: string, d: string)
    requires Reaches(c, a, b) && d in Deps(c, b)
    ensures Reaches(c, a, d)
  {
    var p :| IsPath(c, a, b, p);
    assert IsPath(c, a, d, p + [d]);
  }

  lemma RequiredByStep(c: Catalog, name: string, b: string, d: string)
    requires RequiredBy(c, name, b) && d in Deps(c, b)
    ensures RequiredBy(c, name, d)
  {
    var r :| r in Deps(c, name) && Reaches(c, r, b);
    ReachesStep(c, r, b, d);
  }

  /** A set closed under requirements holds everything its members reach. */
  lemma {:induction false} ClosedHoldsReachable(c: Catalog, s: set<string>, a: string, b: string, p: seq<string>)
    requires forall v, d :: v in s && d in Deps(c, v) ==> d in s
    requires a in s && IsPath(c, a, b, p)
    ensures b in s
    decreases |p|
  {
    if |p| == 1 {
    } else {
      ClosedHoldsReachable(c, s, p[1], b, p[1..]);
    }
  }

  /** Every name that a requirement list mentions. */
  ghost function Mentioned(c: Catalog): set<string> {
    set k, d | k in c.entries && d in c.entries[k].deps :: d
  }

  lemma DepsAreMentioned(c: Catalog, name: string)
    ensures forall d :: d in Deps(c, name) ==> d in Mentioned(c)
  {
  }

  /** Requirement `d` of the component at position `i` is settled: already
      listed, not listable, or on a cycle back to that component. */
  ghost predicate Settled(c: Catalog, name: string, ordered: seq<string>, i: nat, d: string)
    requires i < |ordered|
  {
    d in ordered[..i] || d == name || !Known(c, d) || Reaches(c, d, ordered[i])
  }

  ghost predicate AllSettled(c: Catalog, name: string, ordered: seq<string>) {
    forall i, d :: 0 <= i < |ordered| && d in Deps(c, ordered[i]) ==> Settled(c, name, ordered, i, d)
  }

  /** While the components in `open` are being visited, begun but not ended:
      everything met is required by `name`, and what an ended visit's component
      requires has been met. */
  ghost predicate Walked(c: Catalog, name: string, visited: set<string>, open: set<string>) {
    && open <= visited
    && (forall v, d :: v in visited && v !in open && d in Deps(c, v) ==> d in visited)
    && (forall v :: v in visited ==> RequiredBy(c, name, v))
  }

  /** The list holds, once each, the known components whose visit has ended. */
  ghost predicate Listed(c: Catalog, name: string, ordered: seq<string>, visited: set<string>, open: set<string>) {
    && NoDup(ordered)
    && (forall x :: x in ordered <==> x in visited && x !in open && x != name && Known(c, x))
    && AllSettled(c, name, ordered)
  }

  ghost predicate Consistent(c: Catalog, name: string, ordered: seq<string>, visited: set<string>, open: set<string>) {
    Walked(c, name, visited, open) && Listed(c, name, ordered, visited, open)
  }

  lemma AppendSettled(c: Catalog, name: string, ordered: seq<string>, comp: string)
    requires AllSettled(c, name, ordered)
    requires forall d :: d in Deps(c, comp) ==> d in ordered || d == name || !Known(c, d) || Reaches(c, d, comp)
    ensures AllSettled(c, name, ordered + [comp])
  {
    var after := ordered + [comp];
    forall i, d | 0 <= i < |after| && d in Deps(c, after[i]) ensures Settled(c, name, after, i, d) {
      assert after[..i] == ordered[..i];
      if i < |ordered| {
        assert Settled(c, name, ordered, i, d);
      } else {
        assert ordered[..i] == ordered;
      }
    }
  }

  lemma ListOneMore(c: Catalog, name: string, ordered: seq<string>, visited: set<string>, open: set<string>,
      comp: string)
    requires NoDup(ordered) && comp in visited && comp !in open && comp != name && Known(c, comp)
    requires forall x :: x in ordered <==> x in visited && x !in open + {comp} && x != name && Known(c, x)
    ensures NoDup(ordered + [comp])
    ensures forall x :: x in ordered + [comp] <==> x in visited && x !in open && x != name && Known(c, x)
  {
    hide *;
    assert comp !in ordered;
    NoDupAppend(ordered, comp);
  }

  lemma EndWalk(c: Catalog, name: string, visited: set<string>, open: set<string>, comp: string)
    requires Walked(c, name, visited, open + {comp})
    requires forall d :: d in Deps(c, comp) ==> d in visited
    ensures Walked(c, name, visited, open)
  {
  }

  lemma EndListing(c: Catalog, name: string, ordered: seq<string>, visited: set<string>, open: set<string>,
      comp: string)
    requires Listed(c, name, ordered, visited, open + {comp}) && comp in visited && comp !in open
    requires comp != name && Known(c, comp)
    requires forall d :: d in Deps(c, comp) ==> d in visited
    requires forall g :: g in open + {comp} ==> Reaches(c, g, comp)
    ensures Listed(c, name, ordered + [comp], visited, open)
  {
    ListOneMore(c, name, ordered, visited, open, comp);
    forall d | d in Deps(c, comp) ensures d in ordered || d == name || !Known(c, d) || Reaches(c, d, comp) {
      assert d in visited;
    }
    AppendSettled(c, name, ordered, comp);
  }

  lemma BeginVisit(c: Catalog, name: string, ordered: seq<string>, visited: set<string>, open: set<string>,
      comp: string)
    requires Consistent(c, name, ordered, visited, open) && comp !in visited && RequiredBy(c, name, comp)
    ensures comp !in open && Consistent(c, name, ordered, visited + {comp}, open + {comp})
  {
  }

  lemma EndVisit(c: Catalog, name: string, ordered: seq<string>, visited: set<string>, open: set<string>, comp: string)
    requires Consistent(c, name, ordered, visited, open + {comp}) && comp in visited && comp !in open
    requires forall d :: d in Deps(c, comp) ==> d in visited
    requires forall g :: g in open + {comp} ==> Reaches(c, g, comp)
    ensures comp == name || !Known(c, comp) ==> Consistent(c, name, ordered, visited, open)
    ensures comp != name && Known(c, comp) ==> Consistent(c, name, ordered + [comp], visited, open)
  {
    EndWalk(c, name, visited, open, comp);
    if comp != name && Known(c, comp) {
      EndListing(c, name, ordered, visited, open, comp);
    }
  }

  /** The lists `ordered` and `visited` that the recursive visit updates. */
  class Visit {
    const c: Catalog
    const name: string
    var ordered: seq<string>
    var visited: set<string>

    constructor (c: Catalog, name: string)
      ensures this.c == c && this.name == name && ordered == [] && visited == {}
    {
      this.c, this.name, ordered, visited := c, name, [], {};
    }

    method Run(comp: string, ghost open: set<string>)
      requires Consistent(c, name, ordered, visited, open)
      requires RequiredBy(c, name, comp) && comp in Mentioned(c)
      requires forall g :: g in open ==> Reaches(c, g, comp)
      modifies this
      ensures Consistent(c, name, ordered, visited, open)
      ensures comp in visited && old(visited) <= visited && old(ordered) <= ordered
      decreases Mentioned(c) - visited
    {
      hide Consistent, RequiredBy, Reaches, Mentioned;
      if comp in visited {
        return;
      }
      BeginVisit(c, name, ordered, visited, open, comp);
      visited := visited + {comp};
      ReachesSelf(c, comp);
      var entry := GetEntry(c, comp);
      if entry.None? {
        EndVisit(c, name, ordered, visited, open, comp);
        return;
      }
      DepsAreMentioned(c, comp);
      for k := 0 to |entry.value.deps|
        invariant Consistent(c, name, ordered, visited, open + {comp})
        invariant old(visited) + {comp} <= visited && old(ordered) <= ordered
        invariant forall j :: 0 <= j < k ==> entry.value.deps[j] in visited
      {
        var dep := entry.value.deps[k];
        RequiredByStep(c, name, comp, dep);
        forall g | g in open + {comp} ensures Reaches(c, g, dep) {
          ReachesStep(c, g, comp, dep);
        }
        Run(dep, open + {comp});
      }
      EndVisit(c, name, ordered, visited, open, comp);
      if comp != name {
        ordered := ordered + [comp];
      }
    }
  }

  /** Each listed component comes after everything it requires, except where
      the requirement leads back to it. */
  ghost predicate InstallOrder(c: Catalog, r: seq<string>) {
    forall i, d :: 0 <= i < |r| && d in Deps(c, r[i]) && d in r && !Reaches(c, d, r[i]) ==> d in r[..i]
  }

  /** `r` lists, once each, exactly the names with an entry that `name`
      directly or indirectly requires, `name` excluded. */
  ghost predicate ListsRequirements(c: Catalog, name: string, r: seq<string>) {
    && NoDup(r)
    && forall x :: x in r <==> x != name && Known(c, x) && RequiredBy(c, name, x)
  }

  method TransitiveRequires(c: Catalog, name: string) returns (r: seq<string>)
    ensures ListsRequirements(c, name, r)
    ensures InstallOrder(c, r)
  {
    var v := new Visit(c, name);
    var entry := GetEntry(c, name);
    if entry.Some? {
      DepsAreMentioned(c, name);
      for k := 0 to |entry.value.deps|
        invariant v.c == c && v.name == name
        invariant Consistent(c, name, v.ordered, v.visited, {})
        invariant forall j :: 0 <= j < k ==> entry.value.deps[j] in v.visited
      {
        ReachesSelf(c, entry.value.deps[k]);
        v.Run(entry.value.deps[k], {});
      }
    }
    r := v.ordered;
    forall x | RequiredBy(c, name, x) ensures x in v.visited {
      var d :| d in Deps(c, name) && Reaches(c, d, x);
      var p :| IsPath(c, d, x, p);
      ClosedHoldsReachable(c, v.visited, d, x, p);
    }
  }

  /** No component directly or indirectly requires itself. */
  ghost predicate Acyclic(c: Catalog) {
    forall a, d :: d in Deps(c, a) ==> !Reaches(c, d, a)
  }

  /** Without cycles, installing down the list never meets a component whose
      requirement, if it has an entry at all, is not yet installed. */
  lemma AcyclicInstallsRequirementsFirst(c: Catalog, name: string, r: seq<string>)
    requires Acyclic(c) && ListsRequirements(c, name, r) && InstallOrder(c, r)
    ensures forall i, d :: 0 <= i < |r| && d in Deps(c, r[i]) && Known(c, d) ==> d in r[..i]
  {
    forall i, d | 0 <= i < |r| && d in Deps(c, r[i]) && Known(c, d) ensures d in r[..i] {
      assert r[i] in r;
      RequiredByStep(c, name, r[i], d);
      if d == name {
        assert false;
      }
    }
  }

  /** Each component below `name` is required under one spelling only, and
      `name` itself only as `name`. */
  ghost predicate SpelledOneWay(c: Catalog, name: string) {
    forall x, y | Known(c, x) && RequiredBy(c, name, x) && Known(c, y) && (y == name || RequiredBy(c, name, y)) ::
      ResolveName(c, x) == ResolveName(c, y) ==> x == y
  }

  /** No component is listed twice, and `name` not at all, whatever spelling is used. */
  ghost predicate ComponentsOnce(c: Catalog, name: string, r: seq<string>) {
    && (forall i, j :: 0 <= i < j < |r| ==> ResolveName(c, r[i]) != ResolveName(c, r[j]))
    && (forall i :: 0 <= i < |r| ==> ResolveName(c, r[i]) != ResolveName(c, name))
  }

  /** The visit compares names as written, so a component written both as its
      name and as an alias is listed twice; it is listed once exactly when the
      requirement lists spell it one way. */
  lemma ComponentsOnceIffSpelledOneWay(c: Catalog, name: string, r: seq<string>)
    requires Known(c, name) && ListsRequirements(c, name, r)
    ensures ComponentsOnce(c, name, r) <==> SpelledOneWay(c, name)
  {
    if ComponentsOnce(c, name, r) {
      forall x, y | Known(c, x) && RequiredBy(c, name, x) && Known(c, y) && (y == name || RequiredBy(c, name, y))
        && ResolveName(c, x) == ResolveName(c, y)
        ensures x == y
      {
        assert (x == name || x in r) && (y == name || y in r);
      }
    }
    if SpelledOneWay(c, name) {
      forall i | 0 <= i < |r| ensures ResolveName(c, r[i]) != ResolveName(c, name) {
        assert r[i] in r;
      }
      forall i, j | 0 <= i < j < |r| ensures ResolveName(c, r[i]) != ResolveName(c, r[j]) {
        assert r[i] in r && r[j] in r;
      }
    }
  }

  /** With canonical names throughout, spelling is never an issue. */
  lemma CanonicalNamesAreSpelledOneWay(c: Catalog, name: string)
    requires name in c.entries
    requires forall k, d :: k in c.entries && d in c.entries[k].deps ==> d in c.entries
    ensures SpelledOneWay(c, name)
  {
    forall x | RequiredBy(c, name, x) ensures x in c.entries {
      var d :| d in Deps(c, name) && Reaches(c, d, x);
      var p :| IsPath(c, d, x, p);
      ClosedHoldsReachable(c, c.entries.Keys, d, x, p);
    }
  }

  lemma OneLevelRequirements(c: Catalog, name: string)
    requires forall d :: d in Deps(c, name) ==> Deps(c, d) == []
    ensures forall x :: RequiredBy(c, name, x) <==> x in Deps(c, name)
  {
    var direct := set d | d in Deps(c, name);
    forall x | RequiredBy(c, name, x) ensures x in Deps(c, name) {
      var d :| d in Deps(c, name) && Reaches(c, d, x);
      var p :| IsPath(c, d, x, p);
      ClosedHoldsReachable(c, direct, d, x, p);
    }
    forall x | x in Deps(c, name) ensures RequiredBy(c, name, x) {
      ReachesSelf(c, x);
    }
  }

  lemma ListsItsDeps(c: Catalog, name: string, r: seq<string>)
    requires Deps(c, name) == r && NoDup(r) && name !in r
    requires forall d :: d in r ==> Known(c, d) && Deps(c, d) == []
    requires forall x :: RequiredBy(c, name, x) <==> x in r
    ensures ListsRequirements(c, name, r) && InstallOrder(c, r)
  {
    assert forall i :: 0 <= i < |r| ==> r[i] in r;
  }

  lemma SpelledTwice(c: Catalog, name: string, r: seq<string>)
    requires |r| == 2 && ResolveName(c, r[0]) == ResolveName(c, r[1])
    ensures !ComponentsOnce(c, name, r)
  {
  }

  lemma AliasCatalog(app: string, lib: string, former: string) returns (c: Catalog)
    requires app != lib && lib != former && former != app
    ensures Known(c, app) && Known(c, lib) && Known(c, former)
    ensures Deps(c, app) == [lib, former] && Deps(c, lib) == [] && Deps(c, former) == []
    ensures ResolveName(c, lib) == ResolveName(c, former)
  {
    c := Catalog(map[app := Entry([lib, former]), lib := Entry([])], map[former := lib]);
  }

  /** A requirement by alias lists its component a second time. */
  lemma AliasListsComponentTwice(app: string, lib: string, former: string) returns (c: Catalog, r: seq<string>)
    requires app != lib && lib != former && former != app
    ensures Known(c, app) && ListsRequirements(c, app, r) && InstallOrder(c, r)
    ensures !ComponentsOnce(c, app, r)
  {
    c := AliasCatalog(app, lib, former);
    r := [lib, former];
    assert forall d :: d in r <==> d == lib || d == former;
    SpelledTwice(c, app, r);
    assert NoDup(r);
    hide *;
    OneLevelRequirements(c, app);
    ListsItsDeps(c, app, r);
  }
}
