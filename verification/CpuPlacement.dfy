/** Which physical cores the radiod units get (lib/sigmond/cpu.py). A core is
    the set of its logical CPUs; lists of cores are in the host's order. */
module CpuPlacement {
  import opened Lists

  type Core = set<int>

  /** Every core has a CPU and no CPU is in two cores. */
  predicate Disjoint(cores: seq<Core>) {
    && (forall i :: 0 <= i < |cores| ==> cores[i] != {})
    && (forall i, j :: 0 <= i < j < |cores| ==> cores[i] !! cores[j])
  }

  lemma DisjointIsNoDup(cores: seq<Core>)
    requires Disjoint(cores)
    ensures NoDup(cores)
  {
  }

  function MinOf(c: Core): (m: int)
    requires c != {}
    ensures m in c && forall x :: x in c ==> m <= x
  {
    LeastExists(c);
    var m :| m in c && forall x :: x in c ==> m <= x;
    m
  }

  lemma {:induction false} LeastExists(c: Core)
    requires c != {}
    ensures exists m :: m in c && forall x :: x in c ==> m <= x
  {
    var y := Member(c);
    if c == {y} {
      assert forall x :: x in c ==> y <= x;
    } else {
      LeastExists(c - {y});
      var m :| m in c - {y} && forall x :: x in c - {y} ==> m <= x;
      var least := if y < m then y else m;
      assert forall x :: x in c ==> x == y || x in c - {y};
      assert least in c && forall x :: x in c ==> least <= x;
    }
  }

  predicate NonEmpty(s: seq<Core>) {
    forall i :: 0 <= i < |s| ==> s[i] != {}
  }

  function InsertDescending(x: Core, s: seq<Core>): (r: seq<Core>)
    requires x != {} && NonEmpty(s)
    ensures multiset(r) == multiset{x} + multiset(s)
    ensures NonEmpty(r)
  {
    if s == [] || MinOf(s[0]) <= MinOf(x) then [x] + s
    else
      assert s == [s[0]] + s[1..];
      [s[0]] + InsertDescending(x, s[1..])
  }

  /** `sorted(s, key=min, reverse=True)`, which keeps equal keys in order. */
  function SortDescending(s: seq<Core>): (r: seq<Core>)
    requires NonEmpty(s)
    ensures multiset(r) == multiset(s)
    ensures NonEmpty(r)
  {
    if s == [] then []
    else
      assert s == [s[0]] + s[1..];
      InsertDescending(s[0], SortDescending(s[1..]))
  }

  // ---- eligible cores ----

  function FastCores(cores: seq<Core>, performance: set<int>): seq<Core> {
    if performance == {} then cores else Filter(cores, (c: Core) => c <= performance)
  }

  function OffBoot(cores: seq<Core>): seq<Core> {
    Filter(cores, (c: Core) => 0 !in c)
  }

  function Inside(cores: seq<Core>, cpus: set<int>): seq<Core> {
    Filter(cores, (c: Core) => c <= cpus)
  }

  /** The cores not in `confined`. */
  function Unconfined(offBoot: seq<Core>, confined: seq<Core>): (left: seq<Core>)
    requires forall c :: c in offBoot && c == {} ==> c in confined
    ensures NonEmpty(left)
  {
    var left := Filter(offBoot, (c: Core) => c !in confined);
    assert forall i :: 0 <= i < |left| ==> left[i] in left;
    left
  }

  /** The same, highest first. */
  function Spare(offBoot: seq<Core>, confined: seq<Core>): seq<Core>
    requires forall c :: c in offBoot && c == {} ==> c in confined
  {
    SortDescending(Unconfined(offBoot, confined))
  }

  /** The confined cores and as many spare ones as are still needed. */
  function Grown(confined: seq<Core>, spare: seq<Core>, short: nat): seq<Core> {
    confined + if short < |spare| then spare[..short] else spare
  }

  function EligibleRadiodCores(cores: seq<Core>, isolated: set<int>, need: nat, performance: set<int>): seq<Core> {
    var fast := FastCores(cores, performance);
    var offBoot := OffBoot(fast);
    var confined := Inside(offBoot, isolated);
    if offBoot == [] then fast
    else if isolated == {} || confined == [] then offBoot
    else if need <= |confined| then confined
    else
      Grown(confined, Spare(offBoot, confined), need - |confined|)
  }

  lemma SpareIsTheRest(offBoot: seq<Core>, confined: seq<Core>)
    requires NoDup(offBoot)
    requires forall c :: c in offBoot && c == {} ==> c in confined
    ensures NoDup(Spare(offBoot, confined))
    ensures forall c :: c in Spare(offBoot, confined) <==> c in offBoot && c !in confined
  {
    var left := Unconfined(offBoot, confined);
    FilterNoDup(offBoot, (c: Core) => c !in confined);
    MultisetNoDup(left, Spare(offBoot, confined));
    forall c: Core ensures c in Spare(offBoot, confined) <==> c in left {
      assert c in Elements(left) <==> c in Elements(Spare(offBoot, confined));
    }
  }

  lemma HostFiltersNoDup(cores: seq<Core>, isolated: set<int>, performance: set<int>)
    requires NoDup(cores)
    ensures var fast := FastCores(cores, performance);
      NoDup(fast) && NoDup(OffBoot(fast)) && NoDup(Inside(OffBoot(fast), isolated))
  {
    var fast := FastCores(cores, performance);
    FilterNoDup(cores, (c: Core) => c <= performance);
    FilterNoDup(fast, (c: Core) => 0 !in c);
    FilterNoDup(OffBoot(fast), (c: Core) => c <= isolated);
  }

  lemma GrownIsDistinct(confined: seq<Core>, spare: seq<Core>, short: nat)
    requires NoDup(confined) && NoDup(spare) && forall c :: c in spare ==> c !in confined
    ensures NoDup(Grown(confined, spare, short))
  {
    forall i | 0 <= i < |spare| ensures spare[i] !in confined {
      assert spare[i] in spare;
    }
  }

  lemma GrownIsOffBoot(offBoot: seq<Core>, isolated: set<int>, need: nat)
    requires NoDup(offBoot) && NoDup(Inside(offBoot, isolated)) && need > |Inside(offBoot, isolated)|
    ensures var confined := Inside(offBoot, isolated);
      var e := Grown(confined, Spare(offBoot, confined), need - |confined|);
      NoDup(e) && forall c :: c in e ==> c in offBoot
  {
    var confined := Inside(offBoot, isolated);
    var spare, short := Spare(offBoot, confined), need - |confined|;
    SpareIsTheRest(offBoot, confined);
    GrownIsDistinct(confined, spare, short);
    forall c | c in Grown(confined, spare, short) ensures c in offBoot {
      assert c in confined || c in spare;
    }
  }

  /** The four ways the list comes about. */
  lemma EligibleCases(cores: seq<Core>, isolated: set<int>, need: nat, performance: set<int>)
    ensures var fast := FastCores(cores, performance);
      var offBoot, e := OffBoot(fast), EligibleRadiodCores(cores, isolated, need, performance);
      var confined := Inside(offBoot, isolated);
      if offBoot == [] then e == fast
      else if isolated == {} || confined == [] then e == offBoot
      else if need <= |confined| then e == confined
      else e == Grown(confined, Spare(offBoot, confined), need - |confined|)
  {
    hide FastCores, OffBoot, Spare, Grown;
  }

  lemma OffBootIsFast(fast: seq<Core>, isolated: set<int>)
    ensures forall c :: c in OffBoot(fast) ==> c in fast
    ensures forall c :: c in Inside(OffBoot(fast), isolated) <==> c in OffBoot(fast) && c <= isolated
  {
  }

  lemma GrownIsLonger(confined: seq<Core>, spare: seq<Core>, short: nat)
    ensures |Grown(confined, spare, short)| == |confined| + if short < |spare| then short else |spare|
    ensures Grown(confined, spare, short)[..|confined|] == confined
  {
  }

  /** Distinct host cores give distinct eligible cores: fast ones, and off the
      boot CPU when there is any fast core off the boot CPU. */
  lemma EligibleAreHostCores(cores: seq<Core>, isolated: set<int>, need: nat, performance: set<int>)
    requires NoDup(cores)
    ensures var e, fast := EligibleRadiodCores(cores, isolated, need, performance), FastCores(cores, performance);
      && NoDup(e)
      && (forall c :: c in e ==> c in if OffBoot(fast) == [] then fast else OffBoot(fast))
      && (fast != [] ==> e != [])
  {
    hide *;
    var fast := FastCores(cores, performance);
    var offBoot := OffBoot(fast);
    var confined := Inside(offBoot, isolated);
    HostFiltersNoDup(cores, isolated, performance);
    OffBootIsFast(fast, isolated);
    EligibleCases(cores, isolated, need, performance);
    if offBoot != [] && isolated != {} && confined != [] && need > |confined| {
      GrownIsOffBoot(offBoot, isolated, need);
      GrownIsLonger(confined, Spare(offBoot, confined), need - |confined|);
    }
  }

  // ---- isolated cores first, then the highest ----

  predicate Descending(s: seq<Core>) {
    NonEmpty(s) && forall i, j :: 0 <= i < j < |s| ==> MinOf(s[i]) >= MinOf(s[j])
  }

  lemma DescendingCons(x: Core, s: seq<Core>)
    requires x != {} && Descending(s) && forall j :: 0 <= j < |s| ==> MinOf(x) >= MinOf(s[j])
    ensures Descending([x] + s)
  {
  }

  lemma DescendingTail(s: seq<Core>)
    requires Descending(s) && s != []
    ensures Descending(s[1..]) && forall j :: 0 <= j < |s| ==> MinOf(s[0]) >= MinOf(s[j])
  {
  }

  lemma {:induction false} InsertIsSorted(x: Core, s: seq<Core>)
    requires x != {} && Descending(s)
    ensures Descending(InsertDescending(x, s))
  {
    if s == [] {
      DescendingCons(x, s);
    } else if MinOf(s[0]) <= MinOf(x) {
      DescendingTail(s);
      DescendingCons(x, s);
    } else {
      DescendingTail(s);
      InsertIsSorted(x, s[1..]);
      var rest := InsertDescending(x, s[1..]);
      forall j | 0 <= j < |rest| ensures MinOf(s[0]) >= MinOf(rest[j]) {
        assert rest[j] in multiset(rest);
        assert rest[j] == x || rest[j] in s[1..];
      }
      DescendingCons(s[0], rest);
    }
  }

  lemma {:induction false} SortIsSorted(s: seq<Core>)
    requires NonEmpty(s)
    ensures Descending(SortDescending(s))
  {
    if s == [] {
    } else {
      SortIsSorted(s[1..]);
      InsertIsSorted(s[0], SortDescending(s[1..]));
    }
  }

  /** How many cores are not confined. */
  lemma SpareSize(offBoot: seq<Core>, isolated: set<int>)
    requires NoDup(offBoot)
    ensures var confined := Inside(offBoot, isolated); |Spare(offBoot, confined)| == |offBoot| - |confined|
  {
    var confined := Inside(offBoot, isolated);
    var spare := Spare(offBoot, confined);
    FilterNoDup(offBoot, (c: Core) => c <= isolated);
    SpareIsTheRest(offBoot, confined);
    SizeOfElements(offBoot);
    SizeOfElements(confined);
    SizeOfElements(spare);
    assert Elements(offBoot) == Elements(confined) + Elements(spare);
    assert Elements(confined) !! Elements(spare);
  }

  /** Once any whole core off the boot CPU is isolated, all such cores are
      eligible, and of the others just as many as are still needed, the highest
      first. Otherwise every candidate is. */
  lemma EligiblePrefersIsolated(cores: seq<Core>, isolated: set<int>, need: nat, performance: set<int>)
    requires Disjoint(cores)
    ensures var fast := FastCores(cores, performance);
      var offBoot, e := OffBoot(fast), EligibleRadiodCores(cores, isolated, need, performance);
      var confined := Inside(offBoot, isolated);
      if offBoot == [] then e == fast
      else if isolated == {} || confined == [] then e == offBoot
      else
        && |e| == (if need <= |confined| then |confined| else if need <= |offBoot| then need else |offBoot|)
        && e[..|confined|] == confined
        && forall c, d :: c in e && c !in confined && d in offBoot && d !in e && c != {} && d != {} ==>
             MinOf(c) >= MinOf(d)
  {
    var offBoot := OffBoot(FastCores(cores, performance));
    var confined := Inside(offBoot, isolated);
    hide *;
    DisjointIsNoDup(cores);
    HostFiltersNoDup(cores, isolated, performance);
    OffBootIsFast(FastCores(cores, performance), isolated);
    EligibleCases(cores, isolated, need, performance);
    if offBoot != [] && isolated != {} && confined != [] {
      if need <= |confined| {
        Whole(confined);
      } else {
        SpareSize(offBoot, isolated);
        GrownIsLonger(confined, Spare(offBoot, confined), need - |confined|);
        GrownIsHighest(offBoot, isolated, need);
      }
    }
  }

  lemma Whole<T>(s: seq<T>)
    ensures s[..|s|] == s
  {
  }

  lemma GrownIsHighest(offBoot: seq<Core>, isolated: set<int>, need: nat)
    requires NoDup(offBoot) && need > |Inside(offBoot, isolated)|
    ensures var confined := Inside(offBoot, isolated);
      var e := Grown(confined, Spare(offBoot, confined), need - |confined|);
      forall c, d :: c in e && c !in confined && d in offBoot && d !in e && c != {} && d != {} ==> MinOf(c) >= MinOf(d)
  {
    var confined := Inside(offBoot, isolated);
    var spare, short := Spare(offBoot, confined), need - |confined|;
    var e := Grown(confined, spare, short);
    SpareIsTheRest(offBoot, confined);
    SpareIsSorted(offBoot, confined);
    forall c, d | c in e && c !in confined && d in offBoot && d !in e && c != {} && d != {}
      ensures MinOf(c) >= MinOf(d) {
      assert d in spare;
      var i, j := TakenAndLeft(spare, short, c, d);
    }
  }

  lemma SpareIsSorted(offBoot: seq<Core>, confined: seq<Core>)
    requires forall c :: c in offBoot && c == {} ==> c in confined
    ensures Descending(Spare(offBoot, confined))
  {
    SortIsSorted(Unconfined(offBoot, confined));
  }

  /** What was taken from the front stands before what was left. */
  lemma TakenAndLeft(spare: seq<Core>, short: nat, c: Core, d: Core) returns (i: nat, j: nat)
    requires var taken := if short < |spare| then spare[..short] else spare; c in taken && d in spare && d !in taken
    ensures i < j < |spare| && spare[i] == c && spare[j] == d
  {
    var taken := if short < |spare| then spare[..short] else spare;
    i :| 0 <= i < |taken| && taken[i] == c;
    j :| 0 <= j < |spare| && spare[j] == d;
    assert forall k :: 0 <= k < |taken| ==> taken[k] == spare[k];
  }

  // ---- which cores are eligible, in terms of the host ----

  /** Not an efficiency core, where the host tells them apart. */
  predicate IsFast(performance: set<int>, c: Core) {
    performance == {} || c <= performance
  }

  /** Radiod may have this core: fast, and off the boot CPU unless every fast
      core is on it. */
  ghost predicate IsCandidate(cores: seq<Core>, performance: set<int>, c: Core) {
    && c in cores && IsFast(performance, c)
    && (0 in c ==> forall d :: d in cores && IsFast(performance, d) ==> 0 in d)
  }

  /** The kernel isolates some whole candidate off the boot CPU. */
  ghost predicate SomeIsolated(cores: seq<Core>, isolated: set<int>, performance: set<int>) {
    exists c :: IsCandidate(cores, performance, c) && 0 !in c && c <= isolated
  }

  lemma FastCoresAre(cores: seq<Core>, performance: set<int>)
    ensures forall c :: c in FastCores(cores, performance) <==> c in cores && IsFast(performance, c)
    ensures forall c :: c in OffBoot(FastCores(cores, performance)) <==>
      c in cores && IsFast(performance, c) && 0 !in c
  {
  }

  lemma CandidatesAre(cores: seq<Core>, performance: set<int>)
    ensures var fast := FastCores(cores, performance);
      forall c :: IsCandidate(cores, performance, c) <==> c in if OffBoot(fast) == [] then fast else OffBoot(fast)
  {
    FastCoresAre(cores, performance);
    var fast := FastCores(cores, performance);
    if OffBoot(fast) != [] {
      assert OffBoot(fast)[0] in OffBoot(fast);
    } else {
      forall c | c in fast ensures 0 in c {
        assert c !in OffBoot(fast);
      }
    }
    hide FastCores, OffBoot, IsFast;
  }

  lemma IsolatedAre(cores: seq<Core>, isolated: set<int>, performance: set<int>)
    requires Disjoint(cores)
    ensures var offBoot := OffBoot(FastCores(cores, performance));
      SomeIsolated(cores, isolated, performance)
      <==> offBoot != [] && isolated != {} && Inside(offBoot, isolated) != []
  {
    var offBoot := OffBoot(FastCores(cores, performance));
    var confined := Inside(offBoot, isolated);
    FastCoresAre(cores, performance);
    CandidatesAre(cores, performance);
    OffBootIsFast(FastCores(cores, performance), isolated);
    hide FastCores, OffBoot, Inside, IsFast, IsCandidate;
    if c :| IsCandidate(cores, performance, c) && 0 !in c && c <= isolated {
      assert c in cores && c != {};
      assert c in confined;
    }
    if confined != [] {
      assert confined[0] in confined;
    }
  }

  /** The eligible cores are candidates, each once. All are eligible unless
      some are isolated; then all the isolated ones are, and of the others just
      so many, the highest, as are missing. */
  lemma EligibleAreCandidates(cores: seq<Core>, isolated: set<int>, need: nat, performance: set<int>)
    requires Disjoint(cores)
    ensures var e := EligibleRadiodCores(cores, isolated, need, performance);
      && NoDup(e)
      && (forall c :: c in e ==> IsCandidate(cores, performance, c))
      && (forall c :: IsCandidate(cores, performance, c) && c !in e ==>
            SomeIsolated(cores, isolated, performance) && !(c <= isolated) && |e| >= need)
      && (forall c, d :: c in e && IsCandidate(cores, performance, d) && d !in e ==>
            c <= isolated || (|e| == need && MinOf(c) >= MinOf(d)))
  {
    var offBoot := OffBoot(FastCores(cores, performance));
    var e := EligibleRadiodCores(cores, isolated, need, performance);
    DisjointIsNoDup(cores);
    HostFiltersNoDup(cores, isolated, performance);
    CandidatesAre(cores, performance);
    IsolatedAre(cores, isolated, performance);
    OffBootIsFast(FastCores(cores, performance), isolated);
    EligibleCases(cores, isolated, need, performance);
    EligibleAreHostCores(cores, isolated, need, performance);
    forall c | IsCandidate(cores, performance, c) ensures c in cores && c != {} {
    }
    hide *;
    if SomeIsolated(cores, isolated, performance) && need > |Inside(offBoot, isolated)| {
      GrownIsEnough(offBoot, isolated, need);
      GrownIsHighest(offBoot, isolated, need);
    }
  }

  lemma GrownIsEnough(offBoot: seq<Core>, isolated: set<int>, need: nat)
    requires NoDup(offBoot) && need > |Inside(offBoot, isolated)|
    ensures var confined := Inside(offBoot, isolated);
      var e := Grown(confined, Spare(offBoot, confined), need - |confined|);
      && (forall c :: c in confined ==> c in e)
      && forall c :: c in offBoot && c !in e ==> |e| == need
  {
    var confined := Inside(offBoot, isolated);
    SpareIsTheRest(offBoot, confined);
    hide Inside, Spare, NoDup;
  }
}
