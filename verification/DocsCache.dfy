/** The docs index and its cache of commit times (lib/sigmond/docs_index.py). */
module DocsCache {
  import opened Text

  // ---- git log ----

  /** The lines of one commit in `git log`: "<time> <sha>", then file names. */
  type Chunk = seq<string>

  datatype Commit = Commit(time: int, sha: string)

  /** The commit a chunk is of; None when its first line cannot be read. */
  function HeaderOf(c: Chunk): Option<Commit> {
    if c == [] then None
    else
      var words := Words(c[0]);
      if |words| < 2 then None
      else match ParseInt(words[0]) case None => None case Some(t) => Some(Commit(t, words[1]))
  }

  predicate Touches(c: Chunk, name: string) {
    HeaderOf(c).Some? && exists k :: 1 <= k < |c| && Strip(c[k]) == name
  }

  /** The first commit of the log, the newest, that touches the file. */
  function Newest(log: seq<Chunk>, name: string): Option<Commit> {
    if log == [] then None
    else if Touches(log[0], name) then HeaderOf(log[0])
    else Newest(log[1..], name)
  }

  /** `rel` is dated by its newest commit, unless history is cut off there. */
  function DateOf(log: seq<Chunk>, boundary: set<string>, prefix: string, rel: string): Option<int> {
    match Newest(log, prefix + rel)
    case None => None
    case Some(c) => if c.sha in boundary then None else Some(c.time)
  }

  type Dates = map<string, int>

  /** The dates of exactly the files that have one. */
  ghost predicate AreDates(dates: Dates, log: seq<Chunk>, boundary: set<string>, prefix: string) {
    forall rel :: (if rel in dates then Some(dates[rel]) else None) == DateOf(log, boundary, prefix, rel)
  }

  lemma DatesAreUnique(a: Dates, b: Dates, log: seq<Chunk>, boundary: set<string>, prefix: string)
    requires AreDates(a, log, boundary, prefix) && AreDates(b, log, boundary, prefix)
    ensures a == b
  {
    forall rel ensures (rel in a <==> rel in b) && (rel in a ==> a[rel] == b[rel]) {
      assert (if rel in a then Some(a[rel]) else None) == DateOf(log, boundary, prefix, rel);
    }
  }

  lemma {:induction false} NewestAppend(log: seq<Chunk>, c: Chunk, name: string)
    ensures Newest(log + [c], name)
      == if Newest(log, name).Some? then Newest(log, name) else if Touches(c, name) then HeaderOf(c) else None
  {
    if log == [] {
      assert [] + [c] == [c] && [c][1..] == [];
    } else {
      assert (log + [c])[1..] == log[1..] + [c];
      NewestAppend(log[1..], c, name);
    }
  }

  lemma TouchesLonger(c: Chunk, j: nat, name: string)
    requires 1 <= j < |c|
    ensures HeaderOf(c[..j]) == HeaderOf(c)
    ensures Touches(c[..j + 1], name) <==> Touches(c[..j], name) || (HeaderOf(c).Some? && Strip(c[j]) == name)
  {
    assert c[..j][0] == c[0] && c[..j + 1][0] == c[0];
    if HeaderOf(c).Some? {
      hide HeaderOf, Strip;
      if Touches(c[..j], name) {
        var k :| 1 <= k < |c[..j]| && Strip(c[..j][k]) == name;
        assert c[..j + 1][k] == c[..j][k];
      }
      if Strip(c[j]) == name {
        assert Strip(c[..j + 1][j]) == name;
      }
      if Touches(c[..j + 1], name) {
        var k :| 1 <= k < |c[..j + 1]| && Strip(c[..j + 1][k]) == name;
        assert k < j ==> Strip(c[..j][k]) == name;
      }
    }
  }

  /** What is known after some of a log was read. */
  ghost predicate Known(seen: set<string>, dates: Dates, log: seq<Chunk>, boundary: set<string>, prefix: string) {
    && (forall name :: name in seen <==> prefix <= name && Newest(log, name).Some?)
    && AreDates(dates, log, boundary, prefix)
  }

  lemma NothingKnown(boundary: set<string>, prefix: string)
    ensures Known({}, map[], [], boundary, prefix)
  {
  }

  lemma AsIfEmpty(seen: set<string>, dates: Dates, log: seq<Chunk>, c: Chunk, boundary: set<string>, prefix: string)
    requires Known(seen, dates, log, boundary, prefix)
    requires forall name :: !Touches(c, name)
    ensures Known(seen, dates, log + [c], boundary, prefix)
  {
    forall name ensures Newest(log + [c], name) == Newest(log, name) {
      NewestAppend(log, c, name);
    }
    hide Newest, Touches;
    forall rel ensures DateOf(log + [c], boundary, prefix, rel) == DateOf(log, boundary, prefix, rel) {
    }
  }

  /** A header alone touches nothing. */
  lemma HeaderTouchesNothing(c: Chunk, name: string)
    ensures !Touches(c[..if c == [] then 0 else 1], name)
    ensures HeaderOf(c).None? ==> !Touches(c, name)
  {
  }

  /** The names, among those read so far, whose first commit is the last one. */
  lemma OneMoreName(log: seq<Chunk>, c: Chunk, j: nat, name: string)
    requires 1 <= j < |c| && HeaderOf(c).Some?
    ensures Newest(log + [c[..j + 1]], name)
      == if Newest(log + [c[..j]], name).None? && Strip(c[j]) == name then HeaderOf(c)
         else Newest(log + [c[..j]], name)
  {
    TouchesLonger(c, j, name);
    TouchesLonger(c[..j + 1], j, name);
    assert c[..j + 1][..j] == c[..j];
    hide HeaderOf, Touches, Newest, Strip;
    NewestAppend(log, c[..j], name);
    NewestAppend(log, c[..j + 1], name);
  }

  lemma StepName(seen: set<string>, dates: Dates, log: seq<Chunk>, c: Chunk, j: nat, boundary: set<string>,
      prefix: string)
    returns (seen': set<string>, dates': Dates)
    requires 1 <= j < |c| && HeaderOf(c).Some?
    requires Known(seen, dates, log + [c[..j]], boundary, prefix)
    ensures var name := Strip(c[j]);
      if !(prefix <= name) || name in seen then seen' == seen && dates' == dates
      else
        && seen' == seen + {name}
        && dates' == if HeaderOf(c).value.sha in boundary then dates
          else dates[name[|prefix|..] := HeaderOf(c).value.time]
    ensures Known(seen', dates', log + [c[..j + 1]], boundary, prefix)
  {
    var name, head := Strip(c[j]), HeaderOf(c).value;
    var was, now := log + [c[..j]], log + [c[..j + 1]];
    forall n ensures Newest(now, n) == if Newest(was, n).None? && n == name then Some(head) else Newest(was, n) {
      OneMoreName(log, c, j, n);
    }
    seen', dates' := seen, dates;
    if prefix <= name && name !in seen {
      seen' := seen + {name};
      if head.sha !in boundary {
        dates' := dates[name[|prefix|..] := head.time];
      }
    }
    hide Newest, HeaderOf, Strip;
    forall rel ensures (if rel in dates' then Some(dates'[rel]) else None) == DateOf(now, boundary, prefix, rel) {
      assert (if rel in dates then Some(dates[rel]) else None) == DateOf(was, boundary, prefix, rel);
      assert prefix <= prefix + rel && (prefix + rel)[|prefix|..] == rel;
      assert prefix <= name ==> prefix + name[|prefix|..] == name;
    }
  }

  /** What git says of a checkout: its shallow boundary, and its log of the
      folder; None when the command fails. */
  method GitLastCommits(boundary: Option<set<string>>, log: Option<seq<Chunk>>, prefix: string)
    returns (r: Option<Dates>)
    ensures r.Some? <==> boundary.Some? && log.Some?
    ensures r.Some? ==> AreDates(r.value, log.value, boundary.value, prefix)
  {
    if boundary.None? || log.None? {
      return None;
    }
    hide *;
    var chunks, seen, dates: Dates := log.value, {}, map[];
    NothingKnown(boundary.value, prefix);
    assert chunks[..0] == [];
    for i := 0 to |chunks|
      invariant Known(seen, dates, chunks[..i], boundary.value, prefix)
    {
      var c := chunks[i];
      assert chunks[..i + 1] == chunks[..i] + [c];
      if HeaderOf(c).None? {
        forall name ensures !Touches(c, name) {
          HeaderTouchesNothing(c, name);
        }
        AsIfEmpty(seen, dates, chunks[..i], c, boundary.value, prefix);
        continue;
      }
      var head := HeaderOf(c).value;
      HeaderHasLine(c);
      forall name ensures !Touches(c[..1], name) {
        HeaderTouchesNothing(c, name);
      }
      AsIfEmpty(seen, dates, chunks[..i], c[..1], boundary.value, prefix);
      for j := 1 to |c|
        invariant Known(seen, dates, chunks[..i] + [c[..j]], boundary.value, prefix)
      {
        var name := Strip(c[j]);
        ghost var seen', dates' := StepName(seen, dates, chunks[..i], c, j, boundary.value, prefix);
        if !(prefix <= name) || name in seen {
          continue;
        }
        seen := seen + {name};
        if head.sha !in boundary.value {
          dates := dates[name[|prefix|..] := head.time];
        }
      }
      assert c[..|c|] == c;
    }
    assert chunks[..|chunks|] == chunks;
    KnownDates(seen, dates, chunks, boundary.value, prefix);
    return Some(dates);
  }

  lemma HeaderHasLine(c: Chunk)
    requires HeaderOf(c).Some?
    ensures c != []
  {
  }

  lemma KnownDates(seen: set<string>, dates: Dates, log: seq<Chunk>, boundary: set<string>, prefix: string)
    requires Known(seen, dates, log, boundary, prefix)
    ensures AreDates(dates, log, boundary, prefix)
  {
  }

  // ---- the same dates, as a function ----

  function Rels(log: seq<Chunk>, prefix: string): set<string> {
    set i, k | 0 <= i < |log| && 1 <= k < |log[i]| && prefix <= Strip(log[i][k]) :: Strip(log[i][k])[|prefix|..]
  }

  function DatesOf(log: seq<Chunk>, boundary: set<string>, prefix: string): Dates {
    map rel | rel in Rels(log, prefix) && DateOf(log, boundary, prefix, rel).Some? ::
      DateOf(log, boundary, prefix, rel).value
  }

  lemma {:induction false} NewestIsTouched(log: seq<Chunk>, name: string) returns (i: nat, k: nat)
    requires Newest(log, name).Some?
    ensures i < |log| && 1 <= k < |log[i]| && Strip(log[i][k]) == name
  {
    if Touches(log[0], name) {
      i := 0;
      k :| 1 <= k < |log[0]| && Strip(log[0][k]) == name;
    } else {
      i, k := NewestIsTouched(log[1..], name);
      i := i + 1;
    }
  }

  lemma DatesOfAreDates(log: seq<Chunk>, boundary: set<string>, prefix: string)
    ensures AreDates(DatesOf(log, boundary, prefix), log, boundary, prefix)
  {
    forall rel | DateOf(log, boundary, prefix, rel).Some? ensures rel in Rels(log, prefix) {
      var i, k := NewestIsTouched(log, prefix + rel);
      assert prefix <= Strip(log[i][k]) && Strip(log[i][k])[|prefix|..] == rel;
    }
    hide DateOf, Rels;
  }

  // ---- building the index ----

  /** What git answers while one checkout is indexed, in the order asked: HEAD,
      the shallow boundary, and for `git log` the boundary again and the log. */
  datatype GitAnswers = GitAnswers(head: Option<string>, boundary: Option<set<string>>,
                                   logBoundary: Option<set<string>>, log: Option<seq<Chunk>>)

  /** `pages` lie in docs/, `checks` in docs/operator/checks when that is a
      folder; `links` are the pages that INDEX.md links, and whether starred. */
  datatype Component = Component(name: string, checkout: string, hasDocs: bool, git: GitAnswers,
                                 pages: seq<string>, checks: Option<seq<string>>, links: map<string, bool>)

  datatype Document = Document(name: string, lastCommit: Option<int>, indexed: bool, canonical: bool)

  datatype Root = Root(name: string, listed: bool, documents: seq<Document>)

  datatype Index = Index(roots: seq<Root>, extra: seq<Root>)

  /** An entry of the cache file, or something else in its place. */
  datatype CacheEntry = Entry(head: string, commits: Dates) | Malformed

  type Cache = map<string, CacheEntry>

  const DOCS := "docs/"
  const INDEX := "INDEX.md"
  const CHECKS := "operator/checks/"

  predicate IsFull(g: GitAnswers) {
    g.head.Some? && g.boundary == Some({})
  }

  predicate Hits(cache: Option<Cache>, c: Component) {
    && IsFull(c.git) && cache.Some? && c.checkout in cache.value
    && cache.value[c.checkout].Entry? && cache.value[c.checkout].head == c.git.head.value
  }

  /** The dates without a cache. */
  function AskedDates(g: GitAnswers): Option<Dates> {
    if g.logBoundary.Some? && g.log.Some? then Some(DatesOf(g.log.value, g.logBoundary.value, DOCS)) else None
  }

  function DatesFor(c: Component, cache: Option<Cache>): Option<Dates> {
    if Hits(cache, c) then Some(cache.value[c.checkout].commits) else AskedDates(c.git)
  }

  function DocumentFor(page: string, prefix: string, links: map<string, bool>, dates: Option<Dates>): Document {
    var key := prefix + page;
    Document(page, if dates.Some? && key in dates.value then Some(dates.value[key]) else None,
             key == INDEX || key in links, key in links && links[key])
  }

  function Documents(pages: seq<string>, prefix: string, links: map<string, bool>, dates: Option<Dates>): seq<Document>
  {
    seq(|pages|, i requires 0 <= i < |pages| => DocumentFor(pages[i], prefix, links, dates))
  }

  method BuildRoot(name: string, pages: seq<string>, listed: bool, links: map<string, bool>,
                   dates: Option<Dates>, prefix: string) returns (r: Root)
    ensures r == Root(name, listed, Documents(pages, prefix, links, dates))
  {
    var docs := [];
    for i := 0 to |pages|
      invariant docs == Documents(pages, prefix, links, dates)[..i]
    {
      var key := prefix + pages[i];
      var date := if dates.Some? && key in dates.value then Some(dates.value[key]) else None;
      docs := docs + [Document(pages[i], date, key == INDEX || key in links, key in links && links[key])];
    }
    r := Root(name, listed, docs);
  }

  /** The index, component by component. */
  function IndexOf(components: seq<Component>, cache: Option<Cache>): Index {
    if components == [] then Index([], [])
    else
      var n := |components| - 1;
      var before, c := IndexOf(components[..n], cache), components[n];
      var dates := DatesFor(c, cache);
      if !c.hasDocs then before
      else
        Index(before.roots + [Root(c.name, true, Documents(c.pages, "", c.links, dates))],
              if c.name == "sigmond" && c.checks.Some?
              then before.extra + [Root("checks", false, Documents(c.checks.value, CHECKS, c.links, dates))]
              else before.extra)
  }

  function NewCache(components: seq<Component>, cache: Option<Cache>): Cache {
    if components == [] then map[]
    else
      var n := |components| - 1;
      var before, c := NewCache(components[..n], cache), components[n];
      if c.hasDocs && IsFull(c.git) && DatesFor(c, cache).Some?
      then before[c.checkout := Entry(c.git.head.value, DatesFor(c, cache).value)]
      else before
  }

  method BuildIndex(components: seq<Component>, cache: Option<Cache>) returns (index: Index, newCache: Cache)
    ensures index == IndexOf(components, cache) && newCache == NewCache(components, cache)
  {
    var roots, extra := [], [];
    newCache := map[];
    for i := 0 to |components|
      invariant Index(roots, extra) == IndexOf(components[..i], cache)
      invariant newCache == NewCache(components[..i], cache)
    {
      var c := components[i];
      assert components[..i + 1][..i] == components[..i];
      if !c.hasDocs {
        continue;
      }
      var full := c.git.head.Some? && c.git.boundary == Some({});
      var cached := if cache.Some? && c.checkout in cache.value then Some(cache.value[c.checkout]) else None;
      var dates: Option<Dates>;
      if full && cached.Some? && cached.value.Entry? && cached.value.head == c.git.head.value {
        dates := Some(cached.value.commits);
      } else {
        dates := GitLastCommits(c.git.logBoundary, c.git.log, DOCS);
        if dates.Some? {
          DatesOfAreDates(c.git.log.value, c.git.logBoundary.value, DOCS);
          DatesAreUnique(dates.value, DatesOf(c.git.log.value, c.git.logBoundary.value, DOCS),
                         c.git.log.value, c.git.logBoundary.value, DOCS);
        }
      }
      assert dates == DatesFor(c, cache);
      if full && dates.Some? {
        newCache := newCache[c.checkout := Entry(c.git.head.value, dates.value)];
      }
      var root := BuildRoot(c.name, c.pages, true, c.links, dates, "");
      roots := roots + [root];
      if c.name == "sigmond" && c.checks.Some? {
        root := BuildRoot("checks", c.checks.value, false, c.links, dates, CHECKS);
        extra := extra + [root];
      }
    }
    assert components[..|components|] == components;
    index := Index(roots, extra);
  }

  // ---- coherence ----

  /** HEAD did not move while the checkout was read, and a full clone's log is
      the history of its HEAD. */
  ghost predicate Steady(g: GitAnswers, history: string -> seq<Chunk>) {
    g.head.Some? && g.boundary == Some({}) ==>
      && (g.logBoundary.Some? ==> g.logBoundary.value == {})
      && (g.log.Some? ==> g.log.value == history(g.head.value))
  }

  function TrueDates(history: string -> seq<Chunk>, head: string): Dates {
    DatesOf(history(head), {}, DOCS)
  }

  /** Every entry holds the dates of the whole history of its HEAD. */
  ghost predicate Honest(cache: Cache, history: string -> seq<Chunk>) {
    forall key :: key in cache && cache[key].Entry? ==> cache[key].commits == TrueDates(history, cache[key].head)
  }

  /** With an honest cache a component's dates are those that git would give,
      or the true ones where git would fail. */
  lemma HonestDates(c: Component, cache: Option<Cache>, history: string -> seq<Chunk>)
    requires Steady(c.git, history) && (cache.Some? ==> Honest(cache.value, history))
    ensures AskedDates(c.git).Some? ==> DatesFor(c, cache) == AskedDates(c.git)
    ensures IsFull(c.git) && DatesFor(c, cache).Some? ==>
      DatesFor(c, cache).value == TrueDates(history, c.git.head.value)
  {
  }

  lemma {:induction false} BuildKeepsHonest(components: seq<Component>, cache: Option<Cache>,
      history: string -> seq<Chunk>)
    requires forall c :: c in components ==> Steady(c.git, history)
    requires cache.Some? ==> Honest(cache.value, history)
    ensures Honest(NewCache(components, cache), history)
  {
    if components == [] {
    } else {
      var n := |components| - 1;
      BuildKeepsHonest(components[..n], cache, history);
      HonestDates(components[n], cache, history);
      hide TrueDates, DatesFor, Steady;
    }
  }

  /** Every checkout's log can be read. */
  predicate Answered(components: seq<Component>) {
    forall c :: c in components && c.hasDocs ==> AskedDates(c.git).Some?
  }

  lemma {:induction false} HonestCacheIsInvisible(components: seq<Component>, cache: Option<Cache>,
      history: string -> seq<Chunk>)
    requires forall c :: c in components ==> Steady(c.git, history)
    requires cache.Some? ==> Honest(cache.value, history)
    requires Answered(components)
    ensures IndexOf(components, cache) == IndexOf(components, None)
  {
    if components == [] {
    } else {
      var n := |components| - 1;
      HonestCacheIsInvisible(components[..n], cache, history);
      HonestDates(components[n], cache, history);
      HonestDates(components[n], None, history);
    }
  }

  /** A cache file as read back: whole, or with entries lost or spoiled, or not
      a table at all. */
  predicate ReadFrom(found: Option<Cache>, written: Cache) {
    found.Some? ==> forall key :: key in found.value && found.value[key].Entry? ==>
      key in written && written[key] == found.value[key]
  }

  /** The cache that the build before the `k`th wrote. */
  function WrittenBefore(builds: seq<seq<Component>>, found: seq<Option<Cache>>, k: nat): Cache
    requires k < |builds| == |found|
  {
    if k == 0 then map[] else NewCache(builds[k - 1], found[k - 1])
  }

  /** Builds one after another: each writes the cache that the next one found. */
  ghost predicate Run(builds: seq<seq<Component>>, found: seq<Option<Cache>>, history: string -> seq<Chunk>) {
    && |found| == |builds|
    && (forall k :: 0 <= k < |builds| ==> forall c :: c in builds[k] ==> Steady(c.git, history))
    && forall k :: 0 <= k < |builds| ==> ReadFrom(found[k], WrittenBefore(builds, found, k))
  }

  lemma {:induction false} RunIsHonest(builds: seq<seq<Component>>, found: seq<Option<Cache>>,
      history: string -> seq<Chunk>, k: nat)
    requires Run(builds, found, history) && k < |builds|
    ensures found[k].Some? ==> Honest(found[k].value, history)
  {
    assert ReadFrom(found[k], WrittenBefore(builds, found, k));
    if k == 0 {
    } else {
      RunIsHonest(builds, found, history, k - 1);
      BuildKeepsHonest(builds[k - 1], found[k - 1], history);
    }
  }

  /** However HEADs move and clones deepen between builds, each build's index is
      the one it would have made without a cache; and where git cannot answer,
      a date it shows for a full clone is still the true one. */
  lemma CacheIsInvisible(builds: seq<seq<Component>>, found: seq<Option<Cache>>, history: string -> seq<Chunk>, k: nat)
    requires Run(builds, found, history) && k < |builds|
    ensures Answered(builds[k]) ==> IndexOf(builds[k], found[k]) == IndexOf(builds[k], None)
    ensures forall c :: c in builds[k] && IsFull(c.git) && DatesFor(c, found[k]).Some? ==>
      DatesFor(c, found[k]).value == TrueDates(history, c.git.head.value)
  {
    RunIsHonest(builds, found, history, k);
    if Answered(builds[k]) {
      HonestCacheIsInvisible(builds[k], found[k], history);
    }
    forall c | c in builds[k] && IsFull(c.git) && DatesFor(c, found[k]).Some?
      ensures DatesFor(c, found[k]).value == TrueDates(history, c.git.head.value)
    {
      HonestDates(c, found[k], history);
    }
  }

  /** When HEAD moves between the two questions, the log of the later HEAD is
      remembered for the earlier one: a build that finds the earlier HEAD again
      shows its dates, and is wrong exactly when the two histories date the
      pages differently. */
  lemma MovedHeadIsRemembered(c: Component, back: Component, history: string -> seq<Chunk>, moved: string)
    requires c.hasDocs && IsFull(c.git) && c.git.logBoundary == Some({}) && c.git.log == Some(history(moved))
    requires back.checkout == c.checkout && IsFull(back.git) && back.git.head == c.git.head
    ensures DatesFor(back, Some(NewCache([c], None))) == Some(TrueDates(history, moved))
    ensures DatesFor(back, Some(NewCache([c], None))) == Some(TrueDates(history, c.git.head.value))
      <==> TrueDates(history, moved) == TrueDates(history, c.git.head.value)
  {
    assert [c][..0] == [];
    hide DatesOf;
  }

  // ---- what the index says of a page ----

  /** Commit `n` is the newest of the log that names the file. */
  ghost predicate IsNewest(log: seq<Chunk>, name: string, n: nat) {
    n < |log| && Touches(log[n], name) && forall k :: 0 <= k < n ==> !Touches(log[k], name)
  }

  lemma {:induction false} NewestIs(log: seq<Chunk>, name: string, n: nat)
    requires IsNewest(log, name, n)
    ensures Newest(log, name) == HeaderOf(log[n])
  {
    if n > 0 {
      assert !Touches(log[0], name);
      NewestIs(log[1..], name, n - 1);
    }
  }

  lemma {:induction false} NewestExists(log: seq<Chunk>, name: string) returns (n: nat)
    requires Newest(log, name).Some?
    ensures IsNewest(log, name, n)
  {
    if Touches(log[0], name) {
      n := 0;
    } else {
      n := NewestExists(log[1..], name);
      assert forall k :: 1 <= k < n + 1 ==> log[k] == log[1..][k - 1];
      n := n + 1;
    }
  }

  /** Commit `n` dates the file: it is the newest that names it, and the history
      is not cut off there. */
  ghost predicate IsDatedBy(log: seq<Chunk>, boundary: set<string>, name: string, n: nat, t: int) {
    && IsNewest(log, name, n)
    && HeaderOf(log[n]).value.time == t && HeaderOf(log[n]).value.sha !in boundary
  }

  lemma DateOfIs(log: seq<Chunk>, boundary: set<string>, prefix: string, rel: string, t: int)
    ensures DateOf(log, boundary, prefix, rel) == Some(t)
      <==> exists n: nat :: IsDatedBy(log, boundary, prefix + rel, n, t)
  {
    if n: nat :| IsDatedBy(log, boundary, prefix + rel, n, t) {
      NewestIs(log, prefix + rel, n);
    }
    if Newest(log, prefix + rel).Some? {
      var n := NewestExists(log, prefix + rel);
      NewestIs(log, prefix + rel, n);
      assert DateOf(log, boundary, prefix, rel) == Some(t) ==> IsDatedBy(log, boundary, prefix + rel, n, t);
    }
    hide HeaderOf, Newest, Touches;
  }

  /** A page is dated by the newest commit that names it under docs/, unless the
      history is cut off there; it is marked as indexed when it is the index
      itself or linked from it, and as canonical when that link is starred. */
  lemma PageSays(c: Component, prefix: string, pages: seq<string>, i: nat, t: int)
    requires i < |pages| && c.git.log.Some? && c.git.logBoundary.Some?
    ensures var d := Documents(pages, prefix, c.links, DatesFor(c, None))[i];
      var key := prefix + pages[i];
      && d.name == pages[i]
      && (d.indexed <==> key == "INDEX.md" || key in c.links)
      && (d.canonical <==> key in c.links && c.links[key])
      && (d.lastCommit == Some(t) <==>
            exists n: nat :: IsDatedBy(c.git.log.value, c.git.logBoundary.value, "docs/" + key, n, t))
  {
    var log, boundary, key := c.git.log.value, c.git.logBoundary.value, prefix + pages[i];
    DatesOfAreDates(log, boundary, DOCS);
    var dates := DatesOf(log, boundary, DOCS);
    assert (if key in dates then Some(dates[key]) else None) == DateOf(log, boundary, DOCS, key);
    DateOfIs(log, boundary, DOCS, key, t);
    assert DatesFor(c, None) == Some(dates);
    hide DatesFor, IsDatedBy, DateOf, DatesOf, AreDates;
  }

  /** A component's root: its pages in order. */
  ghost predicate IsRootOf(c: Component, cache: Option<Cache>, root: Root) {
    c.hasDocs && root == Root(c.name, true, Documents(c.pages, "", c.links, DatesFor(c, cache)))
  }

  /** The root of sigmond's checks, which is not listed. */
  ghost predicate IsChecksOf(c: Component, cache: Option<Cache>, root: Root) {
    && c.hasDocs && c.name == "sigmond" && c.checks.Some?
    && root == Root("checks", false, Documents(c.checks.value, "operator/checks/", c.links, DatesFor(c, cache)))
  }

  lemma IndexStep(components: seq<Component>, cache: Option<Cache>, root: Root)
    requires components != []
    ensures var before, index := IndexOf(components[..|components| - 1], cache), IndexOf(components, cache);
      var c := components[|components| - 1];
      && (root in index.roots <==> root in before.roots || IsRootOf(c, cache, root))
      && (root in index.extra <==> root in before.extra || IsChecksOf(c, cache, root))
  {
    hide Documents, DatesFor;
  }

  /** The index has a root for each component with documentation, and one more
      for sigmond's checks, and no other. */
  lemma {:induction false} RootsAre(components: seq<Component>, cache: Option<Cache>, root: Root)
    ensures root in IndexOf(components, cache).roots <==> exists c :: c in components && IsRootOf(c, cache, root)
    ensures root in IndexOf(components, cache).extra <==> exists c :: c in components && IsChecksOf(c, cache, root)
  {
    if components == [] {
    } else {
      var n := |components| - 1;
      RootsAre(components[..n], cache, root);
      IndexStep(components, cache, root);
      assert components == components[..n] + [components[n]];
      assert components[n] in components;
      hide *;
    }
  }

  /** The line that git prints for a commit is read back: its time and its name. */
  lemma HeaderIsRead(t: int, sha: string, names: seq<string>)
    requires IsWord(sha)
    ensures HeaderOf([ToInt(t) + [' '] + sha] + names) == Some(Commit(t, sha))
  {
    var time := ToInt(t);
    ParseOfInt(t);
    var line := time + [' '] + sha;
    WordsCons(time, [' '] + sha);
    assert line == time + ([' '] + sha);
    assert ([' '] + sha)[1..] == sha;
    WordsCons(sha, []);
    assert sha + [] == sha;
    assert Words(line) == [time, sha];
    hide Words, ParseInt, ToInt;
  }
}
