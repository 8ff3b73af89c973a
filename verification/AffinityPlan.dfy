/** The CPU affinity plan, and the loop it closes through the kernel: plan,
    stage `isolcpus=`, reboot, plan again (lib/sigmond/cpu.py). */
module AffinityPlan {
  import opened Lists
  import opened CpuPlacement
  import opened CpuAssign
  import CpuText
  import Text

  /** What is read from the host's topology. */
  datatype Host = Host(cores: seq<Core>, islands: seq<set<int>>, logicalCpus: nat, performance: set<int>)

  /** The `[cpu_affinity]` section. */
  datatype Config = Config(radiodCpus: string, otherCpus: string, cacheAware: bool)

  datatype Plan = Plan(radiod: Pins, otherCpus: set<int>, cacheSplit: bool, radiodL3: set<int>, reservedIdle: set<int>)

  function AllOf(pins: Pins): set<int> {
    set u, c | u in pins && c in pins[u] :: c
  }

  function Cpus(n: nat): set<int> {
    CpuText.Span(0, n - 1)
  }

  function IslandCpus(islands: seq<set<int>>, cpus: set<int>): set<int> {
    set k, c | 0 <= k < |islands| && islands[k] * cpus != {} && c in islands[k] :: c
  }

  method L3IslandCpusFor(islands: seq<set<int>>, cpus: set<int>) returns (owned: set<int>)
    ensures owned == if IslandCpus(islands, cpus) != {} then IslandCpus(islands, cpus) else cpus
  {
    owned := {};
    for k := 0 to |islands|
      invariant owned == IslandCpus(islands[..k], cpus)
    {
      IslandCpusAppend(islands[..k], islands[k], cpus);
      assert islands[..k + 1] == islands[..k] + [islands[k]];
      if islands[k] * cpus != {} {
        owned := owned + islands[k];
      }
    }
    assert islands[..|islands|] == islands;
    if owned == {} {
      owned := cpus;
    }
  }

  lemma IslandCpusAppend(islands: seq<set<int>>, isle: set<int>, cpus: set<int>)
    ensures IslandCpus(islands + [isle], cpus) == IslandCpus(islands, cpus) + if isle * cpus != {} then isle else {}
  {
    var more := islands + [isle];
    assert more[|islands|] == isle;
    forall c | c in IslandCpus(islands, cpus) ensures c in IslandCpus(more, cpus) {
      var k :| 0 <= k < |islands| && islands[k] * cpus != {} && c in islands[k];
      assert more[k] == islands[k];
    }
    if isle * cpus != {} {
      forall c | c in isle ensures c in IslandCpus(more, cpus) {
        assert more[|islands|] * cpus != {} && c in more[|islands|];
      }
    }
    forall c | c in IslandCpus(more, cpus) ensures c in IslandCpus(islands, cpus) || (isle * cpus != {} && c in isle) {
      var k :| 0 <= k < |more| && more[k] * cpus != {} && c in more[k];
      assert k < |islands| ==> islands[k] == more[k];
    }
  }

  function L3Of(islands: seq<set<int>>, cpus: set<int>): set<int> {
    if IslandCpus(islands, cpus) != {} then IslandCpus(islands, cpus) else cpus
  }

  predicate IsSplitL3(islands: seq<set<int>>, logicalCpus: nat) {
    var nonEmpty := Filter(islands, (c: set<int>) => c != {});
    |nonEmpty| > 1 && exists c :: c in nonEmpty && |c| < logicalCpus
  }

  function ComputeAffinityPlan(host: Host, config: Config, units: seq<string>, isolated: set<int>, current: Pins): Plan
  {
    var radiod := Assignment(units, config.radiodCpus, host.cores, isolated, current, host.performance);
    var radiodAll := AllOf(radiod);
    var all := Cpus(host.logicalCpus);
    var split := IsSplitL3(host.islands, host.logicalCpus);
    var l3 := if radiodAll != {} then L3Of(host.islands, radiodAll) else {};
    var segregate := split && config.cacheAware && l3 != {} && l3 != all;
    var spec := Text.Strip(config.otherCpus);
    var other := if spec != [] then CpuText.MaskCpus(spec) else if segregate then all - l3 else all - radiodAll;
    Plan(radiod, other, split, l3, if segregate then l3 - radiodAll - other else {})
  }

  function RecommendedIsolcpus(plan: Plan): set<int> {
    if plan.cacheSplit && plan.radiodL3 != {} && plan.radiodL3 !! plan.otherCpus then plan.radiodL3
    else AllOf(plan.radiod)
  }

  /** The host reports an island for each of these CPUs, or for none of them. */
  ghost predicate IslandsCover(islands: seq<set<int>>, cpus: set<int>) {
    cpus <= IslandCpus(islands, cpus) || IslandCpus(islands, cpus) == {}
  }

  /** Left to itself the plan divides the host: radiod's CPUs, everyone else's,
      and the ones kept idle are apart and together are all of it; and what the
      kernel is asked to isolate is never given to anyone else. */
  lemma PlanDividesTheHost(host: Host, config: Config, units: seq<string>, isolated: set<int>, current: Pins)
    requires Text.Strip(config.otherCpus) == []
    ensures var plan := ComputeAffinityPlan(host, config, units, isolated, current);
      var radiodAll := AllOf(plan.radiod);
      && (IslandsCover(host.islands, radiodAll) ==> radiodAll !! plan.otherCpus)
      && plan.reservedIdle !! radiodAll && plan.reservedIdle !! plan.otherCpus
      && Cpus(host.logicalCpus) <= radiodAll + plan.otherCpus + plan.reservedIdle
      && (radiodAll <= Cpus(host.logicalCpus) && plan.radiodL3 <= Cpus(host.logicalCpus) ==>
            radiodAll + plan.otherCpus + plan.reservedIdle == Cpus(host.logicalCpus))
      && (IslandsCover(host.islands, radiodAll) ==> RecommendedIsolcpus(plan) !! plan.otherCpus)
      && (IslandsCover(host.islands, radiodAll) ==> radiodAll <= RecommendedIsolcpus(plan))
  {
    hide Assignment, AllOf, IslandCpus, Cpus, IsSplitL3, CpuText.MaskCpus, Text.Strip;
  }

  /** A divided L3 is used: radiod's whole island goes to the kernel. */
  lemma SegregatedPlanIsolatesTheIsland(host: Host, config: Config, units: seq<string>, isolated: set<int>,
      current: Pins)
    requires Text.Strip(config.otherCpus) == [] && config.cacheAware && IsSplitL3(host.islands, host.logicalCpus)
    requires var cpus := AllOf(Assignment(units, config.radiodCpus, host.cores, isolated, current, host.performance));
      cpus != {} && L3Of(host.islands, cpus) != Cpus(host.logicalCpus)
    ensures var plan := ComputeAffinityPlan(host, config, units, isolated, current);
      RecommendedIsolcpus(plan) == L3Of(host.islands, AllOf(plan.radiod))
  {
  }

  /** The L3 is divided when two islands have CPUs and one has fewer than the host. */
  lemma SplitL3Is(islands: seq<set<int>>, logicalCpus: nat)
    ensures IsSplitL3(islands, logicalCpus) <==>
      && (exists i, j :: 0 <= i < j < |islands| && islands[i] != {} && islands[j] != {})
      && (exists k :: 0 <= k < |islands| && islands[k] != {} && |islands[k]| < logicalCpus)
  {
    var p := (c: set<int>) => c != {};
    KeepsTwo(islands, p);
    assert forall k :: 0 <= k < |islands| && islands[k] != {} ==> islands[k] in Filter(islands, p);
    if exists c :: c in Filter(islands, p) && |c| < logicalCpus {
      var c :| c in Filter(islands, p) && |c| < logicalCpus;
      var k :| 0 <= k < |islands| && islands[k] == c;
    }
    hide Filter;
  }

  lemma CpusAre(n: nat)
    ensures forall c :: c in Cpus(n) <==> 0 <= c < n
  {
  }

  /** What is left to everyone else, with no pool of the operator's: all but
      radiod's island where the L3 is divided, that division is wanted and the
      island is not the whole host, and nothing of the island is then used by
      others; else all but radiod's own CPUs, and nothing is kept idle. */
  lemma OthersGet(host: Host, config: Config, units: seq<string>, isolated: set<int>, current: Pins)
    requires Text.Strip(config.otherCpus) == []
    ensures var plan := ComputeAffinityPlan(host, config, units, isolated, current);
      var mine, island := AllOf(plan.radiod), L3Of(host.islands, AllOf(plan.radiod));
      if mine != {} && config.cacheAware && IsSplitL3(host.islands, host.logicalCpus)
        && island != Cpus(host.logicalCpus)
      then plan.otherCpus == Cpus(host.logicalCpus) - island && plan.reservedIdle == island - mine - plan.otherCpus
      else plan.otherCpus == Cpus(host.logicalCpus) - mine && plan.reservedIdle == {}
  {
    var mine := AllOf(ComputeAffinityPlan(host, config, units, isolated, current).radiod);
    assert L3Of(host.islands, mine) == {} ==> mine == {};
    hide Assignment, AllOf, IslandCpus, Cpus, IsSplitL3, CpuText.MaskCpus, Text.Strip;
  }

  /** A pool that the operator names is used as it stands, nothing of it is
      counted as idle, and when it reaches into radiod's island only radiod's
      own CPUs are isolated. */
  lemma PoolIsTheOperators(host: Host, config: Config, pool: seq<nat>, units: seq<string>, isolated: set<int>,
      current: Pins)
    requires pool != [] && config.otherCpus == CpuText.RangeText(pool)
    ensures var plan := ComputeAffinityPlan(host, config, units, isolated, current);
      && plan.otherCpus == CpuText.SetOf(pool) && plan.reservedIdle !! plan.otherCpus
      && (!(plan.radiodL3 !! CpuText.SetOf(pool)) ==> RecommendedIsolcpus(plan) == AllOf(plan.radiod))
  {
    CpuText.RangeTextIsStripped(pool);
    CpuText.MaskOfRangeText(pool);
    assert pool[0] in CpuText.SetOf(pool);
    if CpuText.RangeText(pool) == [] {
      NothingIsNamed();
    }
    hide Assignment, AllOf, IslandCpus, Cpus, IsSplitL3, CpuText.MaskCpus, CpuText.RangeText, Text.Strip;
  }

  lemma NothingIsNamed()
    ensures CpuText.MaskCpus("") == {}
  {
  }

  // ---- convergence ----

  /** Within these off-boot cores, radiod's are the highest. */
  ghost predicate OnTop(inside: seq<Core>, chosen: seq<Core>) {
    forall i, j :: 0 <= i < j < |inside| && inside[i] in chosen ==> inside[j] in chosen
  }

  /** The off-boot cores that booting with `isolated` fences off. */
  function FencedCores(host: Host, isolated: set<int>): seq<Core> {
    Inside(OffBoot(FastCores(host.cores, host.performance)), isolated)
  }

  lemma TopSetIsLastN(s: seq<Core>, top: seq<Core>)
    requires NoDup(s) && NoDup(top) && |top| <= |s|
    requires forall c :: c in top ==> c in s
    ensures Elements(LastN(s, |top|)) == Elements(top) <==> OnTop(s, top)
  {
    var n := |top|;
    var last := LastN(s, n);
    var d := |s| - n;
    assert last == s[d..];
    SizeOfElements(last);
    SizeOfElements(top);
    if Elements(last) == Elements(top) {
      forall i, j | 0 <= i < j < |s| && s[i] in top ensures s[j] in top {
        assert s[i] in Elements(top);
        assert i >= d;
        assert s[j] == last[j - d];
        assert s[j] in Elements(last);
      }
    }
    if OnTop(s, top) {
      forall c | c in Elements(top) ensures c in Elements(last) {
        var i :| 0 <= i < |s| && s[i] == c;
        if i < d {
          assert forall j :: i <= j < |s| ==> s[j] in top;
          SizeOfElements(s[i..]);
          LargerThanSubset(Elements(s[i..]), Elements(top));
          assert false;
        }
        assert s[i] == last[i - d];
      }
      SubsetOfSameSize(Elements(top), Elements(last));
    }
  }

  /** Cores chosen from a host whose off-boot fast cores are these. */
  lemma ChosenAreFenced(host: Host, units: seq<string>, isolated: set<int>, want: set<int>)
    requires Disjoint(host.cores)
    requires |Chosen(units, host.cores, isolated, host.performance)| == |units|
    requires forall c :: c in Chosen(units, host.cores, isolated, host.performance) ==> c <= want
    requires OffBoot(FastCores(host.cores, host.performance)) != []
    ensures NoDup(FencedCores(host, want)) && |units| <= |FencedCores(host, want)|
    ensures forall c :: c in Chosen(units, host.cores, isolated, host.performance) ==> c in FencedCores(host, want)
  {
    DisjointIsNoDup(host.cores);
    HostFiltersNoDup(host.cores, want, host.performance);
    EligibleAreHostCores(host.cores, isolated, |units|, host.performance);
    ChosenAreHostCores(units, host.cores, isolated, host.performance);
    var chosen := Chosen(units, host.cores, isolated, host.performance);
    forall c | c in chosen ensures c in FencedCores(host, want) {
      assert c in EligibleRadiodCores(host.cores, isolated, |units|, host.performance);
    }
    SizeOfElements(chosen);
    SizeOfElements(FencedCores(host, want));
    LargerThanSubset(Elements(chosen), Elements(FencedCores(host, want)));
  }

  /** Once enough whole cores are fenced off, the plan chooses the highest of them. */
  lemma FencedChoice(host: Host, units: seq<string>, want: set<int>)
    requires units != [] && want != {} && |units| <= |FencedCores(host, want)|
    ensures Chosen(units, host.cores, want, host.performance) == LastN(FencedCores(host, want), |units|)
  {
    assert FencedCores(host, want)[0] in OffBoot(FastCores(host.cores, host.performance));
  }

  /** Every unit has a core of its own: the chosen cores, one each. */
  lemma OneCoreEach(host: Host, spec: string, units: seq<string>, isolated: set<int>, current: Pins)
    requires NoDup(units) && units != [] && Disjoint(host.cores) && Override(spec) == {}
    requires RadiodCoreShortfall(units, spec, host.cores, isolated, host.performance) == 0
    ensures var out, chosen := Assignment(units, spec, host.cores, isolated, current, host.performance),
                               Chosen(units, host.cores, isolated, host.performance);
      && |chosen| == |units| && NoDup(chosen) && Injective(out) && Spread(units, out, chosen)
      && (forall c :: c in chosen ==> c <= AllOf(out))
      && CoresInUse(out) == Elements(chosen)
  {
    var chosen := Chosen(units, host.cores, isolated, host.performance);
    ChosenAreHostCores(units, host.cores, isolated, host.performance);
    DistributeConsistent(units, current, chosen);
    DistributeIsSpread(units, current, chosen);
    UnitsUseChosenCores(units, spec, host.cores, isolated, current, host.performance);
    var out := Assignment(units, spec, host.cores, isolated, current, host.performance);
    forall c, x | c in chosen && x in c ensures x in AllOf(out) {
      assert c in out.Values;
      var u :| u in out && out[u] == c;
    }
  }

  lemma SpreadIgnoresOrder(units: seq<string>, pins: Pins, chosen: seq<Core>, other: seq<Core>)
    requires Spread(units, pins, chosen) && Injective(pins) && Elements(chosen) == Elements(other)
    requires chosen != [] && other != []
    ensures Spread(units, pins, other)
  {
    forall c ensures c in chosen <==> c in other {
      assert c in Elements(chosen) <==> c in Elements(other);
    }
  }

  lemma WantIsNotEmpty(host: Host, units: seq<string>, isolated: set<int>, want: set<int>)
    requires units != [] && Disjoint(host.cores)
    requires |Chosen(units, host.cores, isolated, host.performance)| == |units|
    requires forall c :: c in Chosen(units, host.cores, isolated, host.performance) ==> c <= want
    ensures want != {}
  {
    ChosenAreHostCores(units, host.cores, isolated, host.performance);
    var c := FirstOf(Chosen(units, host.cores, isolated, host.performance));
    var x := Member(c);
  }

  /** Radiod's cores are the highest of the fenced ones. A host with nothing
      but its boot core has no choice to make. */
  ghost predicate TopOfFence(host: Host, want: set<int>, chosen: seq<Core>) {
    || OffBoot(FastCores(host.cores, host.performance)) == []
    || OnTop(FencedCores(host, want), chosen)
  }

  lemma NextChoiceIsSame(host: Host, units: seq<string>, isolated: set<int>, want: set<int>)
    requires units != [] && Disjoint(host.cores)
    requires |Chosen(units, host.cores, isolated, host.performance)| == |units|
    requires NoDup(Chosen(units, host.cores, isolated, host.performance))
    requires forall c :: c in Chosen(units, host.cores, isolated, host.performance) ==> c <= want
    ensures var chosen, next := Chosen(units, host.cores, isolated, host.performance),
                                Chosen(units, host.cores, want, host.performance);
      && next != []
      && (Elements(next) == Elements(chosen) <==> TopOfFence(host, want, chosen))
  {
    if OffBoot(FastCores(host.cores, host.performance)) != [] {
      ChosenAreFenced(host, units, isolated, want);
      WantIsNotEmpty(host, units, isolated, want);
      FencedChoice(host, units, want);
      TopSetIsLastN(FencedCores(host, want), Chosen(units, host.cores, isolated, host.performance));
    }
  }

  /** Planning again with `want` isolated keeps every unit where it is exactly
      when radiod's cores are the highest of the fenced ones. */
  lemma PlacementSurvivesReboot(host: Host, spec: string, units: seq<string>, isolated: set<int>, current: Pins,
      want: set<int>)
    requires NoDup(units) && units != [] && Disjoint(host.cores) && Override(spec) == {}
    requires RadiodCoreShortfall(units, spec, host.cores, isolated, host.performance) == 0
    requires AllOf(Assignment(units, spec, host.cores, isolated, current, host.performance)) <= want
    ensures var out := Assignment(units, spec, host.cores, isolated, current, host.performance);
      Assignment(units, spec, host.cores, want, out, host.performance) == out
      <==> TopOfFence(host, want, Chosen(units, host.cores, isolated, host.performance))
  {
    var out := Assignment(units, spec, host.cores, isolated, current, host.performance);
    var chosen := Chosen(units, host.cores, isolated, host.performance);
    var next := Chosen(units, host.cores, want, host.performance);
    OneCoreEach(host, spec, units, isolated, current);
    NextChoiceIsSame(host, units, isolated, want);
    ChosenAreHostCores(units, host.cores, want, host.performance);
    if Elements(next) == Elements(chosen) {
      SpreadIgnoresOrder(units, out, chosen, next);
      SpreadIsKept(units, out, next);
    } else {
      UnitsUseChosenCores(units, spec, host.cores, want, out, host.performance);
    }
  }

  /** The plan after booting with what `plan` recommends, where the rest of the
      command line isolates `kept`. */
  function Replan(host: Host, config: Config, units: seq<string>, plan: Plan, kept: set<int>): Plan {
    ComputeAffinityPlan(host, config, units, RecommendedIsolcpus(plan) + kept, plan.radiod)
  }

  /** What the kernel isolates when booted with `base` and the drop-in for
      `staged`. */
  function Isolated(base: string, staged: seq<nat>): set<int> {
    CpuText.CmdlineCpus(CpuText.BootedCmdline(base, staged), "isolcpus")
  }

  function IsolatedBy(base: string): set<int> {
    CpuText.CmdlineCpus(base, "isolcpus")
  }

  /** The plan made after that boot. */
  function NextPlan(host: Host, config: Config, units: seq<string>, plan: Plan, base: string, staged: seq<nat>): Plan {
    ComputeAffinityPlan(host, config, units, Isolated(base, staged), plan.radiod)
  }

  /** `staged` is what the plan recommends, as a list. */
  ghost predicate Stages(staged: seq<nat>, plan: Plan) {
    CpuText.SetOf(staged) == RecommendedIsolcpus(plan)
  }

  lemma NextPlanIsReplan(host: Host, config: Config, units: seq<string>, plan: Plan, base: string, staged: seq<nat>)
    requires Stages(staged, plan)
    ensures Isolated(base, staged) == RecommendedIsolcpus(plan) + IsolatedBy(base)
    ensures NextPlan(host, config, units, plan, base, staged) == Replan(host, config, units, plan, IsolatedBy(base))
    ensures !CpuText.RebootPending(RecommendedIsolcpus(plan), CpuText.BootedCmdline(base, staged))
  {
    hide ComputeAffinityPlan, RecommendedIsolcpus, CpuText.BootedCmdline, CpuText.CmdlineCpus;
    CpuText.BootIsolatesStagedCpus(base, staged);
  }

  /** Everything in the plan follows from the placement. */
  lemma SamePlacementSamePlan(host: Host, config: Config, units: seq<string>, isolated: set<int>, current: Pins,
      kept: set<int>)
    ensures var plan := ComputeAffinityPlan(host, config, units, isolated, current);
      Replan(host, config, units, plan, kept) == plan
      <==> Assignment(units, config.radiodCpus, host.cores, RecommendedIsolcpus(plan) + kept, plan.radiod,
        host.performance)
           == plan.radiod
  {
  }

  lemma ReplanConverges(host: Host, config: Config, units: seq<string>, isolated: set<int>, current: Pins,
      kept: set<int>)
    requires NoDup(units) && units != [] && Disjoint(host.cores) && Override(config.radiodCpus) == {}
    requires RadiodCoreShortfall(units, config.radiodCpus, host.cores, isolated, host.performance) == 0
    requires IslandsCover(host.islands, AllOf(ComputeAffinityPlan(host, config, units, isolated, current).radiod))
    ensures var plan := ComputeAffinityPlan(host, config, units, isolated, current);
      var want, next := RecommendedIsolcpus(plan), Replan(host, config, units, plan, kept);
      && (next == plan <==> TopOfFence(host, want + kept, Chosen(units, host.cores, isolated, host.performance)))
      && (next != plan ==> next.radiod != plan.radiod)
  {
    var plan := ComputeAffinityPlan(host, config, units, isolated, current);
    SamePlacementSamePlan(host, config, units, isolated, current, kept);
    PlacementSurvivesReboot(host, config.radiodCpus, units, isolated, current, RecommendedIsolcpus(plan) + kept);
  }

  /** With a core for every unit, the loop closes after one reboot exactly when
      radiod's cores are the highest of those that the booted command line
      fences off: the same plan again, and no further reboot asked for. */
  lemma RebootConverges(host: Host, config: Config, units: seq<string>, isolated: set<int>, current: Pins,
                        base: string, staged: seq<nat>)
    requires NoDup(units) && units != [] && Disjoint(host.cores) && Override(config.radiodCpus) == {}
    requires RadiodCoreShortfall(units, config.radiodCpus, host.cores, isolated, host.performance) == 0
    requires IslandsCover(host.islands, AllOf(ComputeAffinityPlan(host, config, units, isolated, current).radiod))
    requires Stages(staged, ComputeAffinityPlan(host, config, units, isolated, current))
    ensures var plan := ComputeAffinityPlan(host, config, units, isolated, current);
      var next := NextPlan(host, config, units, plan, base, staged);
      && (next == plan <==>
            TopOfFence(host, Isolated(base, staged), Chosen(units, host.cores, isolated, host.performance)))
      && (next != plan ==> next.radiod != plan.radiod)
      && (next == plan ==> !CpuText.RebootPending(RecommendedIsolcpus(next), CpuText.BootedCmdline(base, staged)))
  {
    hide *;
    var plan := ComputeAffinityPlan(host, config, units, isolated, current);
    NextPlanIsReplan(host, config, units, plan, base, staged);
    ReplanConverges(host, config, units, isolated, current, IsolatedBy(base));
  }

  /** Fencing off just radiod's own cores always converges: any prior isolated
      set, on a host whose L3 is not divided or where the plan does not use it,
      as long as the rest of the command line isolates nothing new. */
  lemma OwnCoresConverge(host: Host, config: Config, units: seq<string>, isolated: set<int>, current: Pins,
      kept: set<int>)
    requires NoDup(units) && units != [] && Disjoint(host.cores) && Override(config.radiodCpus) == {}
    requires RadiodCoreShortfall(units, config.radiodCpus, host.cores, isolated, host.performance) == 0
    requires kept <= isolated
    requires var plan := ComputeAffinityPlan(host, config, units, isolated, current);
      RecommendedIsolcpus(plan) == AllOf(plan.radiod)
    ensures var plan := ComputeAffinityPlan(host, config, units, isolated, current);
      Replan(host, config, units, plan, kept) == plan
  {
    var out := Assignment(units, config.radiodCpus, host.cores, isolated, current, host.performance);
    OneCoreEach(host, config.radiodCpus, units, isolated, current);
    ChosenAreHostCores(units, host.cores, isolated, host.performance);
    OwnCoresOnTop(host, units, isolated, out, kept);
    PlacementSurvivesReboot(host, config.radiodCpus, units, isolated, current, AllOf(out) + kept);
    SamePlacementSamePlan(host, config, units, isolated, current, kept);
  }

  lemma FencedCoreIs(host: Host, cpus: set<int>, c: Core)
    ensures c in FencedCores(host, cpus) <==> c in OffBoot(FastCores(host.cores, host.performance)) && c <= cpus
    ensures c in OffBoot(FastCores(host.cores, host.performance)) ==> c in host.cores
  {
  }

  /** Radiod's cores are on top of a fence that holds them and only CPUs that
      were fenced off when they were chosen. */
  lemma OwnCoresOnTop(host: Host, units: seq<string>, isolated: set<int>, pins: Pins, kept: set<int>)
    requires units != [] && Disjoint(host.cores) && kept <= isolated
    requires var chosen := Chosen(units, host.cores, isolated, host.performance);
      && |chosen| == |units|
      && (forall u :: u in pins ==> pins[u] in chosen) && (forall c :: c in chosen ==> c <= AllOf(pins))
    ensures TopOfFence(host, AllOf(pins) + kept, Chosen(units, host.cores, isolated, host.performance))
  {
    var chosen, fence := Chosen(units, host.cores, isolated, host.performance), AllOf(pins) + kept;
    hide Chosen, FencedCores, OffBoot, FastCores, AllOf, Disjoint;
    if isolated != {} && |units| <= |FencedCores(host, isolated)| {
      FencedChoice(host, units, isolated);
      forall u | u in pins ensures pins[u] <= isolated {
        FencedCoreIs(host, isolated, pins[u]);
        assert pins[u] in FencedCores(host, isolated);
      }
      AllOfWithin(pins, isolated);
      TopOfSmallerFence(host, units, isolated, fence);
    } else {
      var inside := FencedCores(host, fence);
      forall j | 0 <= j < |inside| ensures inside[j] in chosen {
        assert inside[j] in inside;
        FencedCoreIs(host, fence, inside[j]);
        FencedIsChosen(host, units, isolated, pins, kept, inside[j]);
      }
    }
  }

  lemma AllOfWithin(pins: Pins, cpus: set<int>)
    requires forall u :: u in pins ==> pins[u] <= cpus
    ensures AllOf(pins) <= cpus
  {
  }

  lemma PinnedCpu(pins: Pins, x: int) returns (u: string)
    requires x in AllOf(pins)
    ensures u in pins && x in pins[u]
  {
    u :| u in pins && x in pins[u];
  }

  /** ... when there were too few such CPUs to choose from. */
  lemma FencedIsChosen(host: Host, units: seq<string>, isolated: set<int>, pins: Pins, kept: set<int>, c: Core)
    requires units != [] && Disjoint(host.cores) && kept <= isolated
    requires isolated == {} || |units| > |FencedCores(host, isolated)|
    requires c in OffBoot(FastCores(host.cores, host.performance)) && c <= AllOf(pins) + kept
    requires var chosen := Chosen(units, host.cores, isolated, host.performance);
      |chosen| == |units| && forall u :: u in pins ==> pins[u] in chosen
    ensures c in Chosen(units, host.cores, isolated, host.performance)
  {
    hide Chosen, FencedCores, OffBoot, FastCores, AllOf, Disjoint;
    ChosenAreHostCores(units, host.cores, isolated, host.performance);
    FencedCoreIs(host, isolated, c);
    HostCoreHasCpu(host.cores, c);
    if c <= kept {
      var y := Member(c);
      assert y in isolated;
      ConfinedAreChosen(host, units, isolated, c);
    } else {
      var x := Outside(c, kept);
      var u := PinnedCpu(pins, x);
      SharedCpuSameCore(host.cores, c, pins[u], x);
    }
  }

  lemma HostCoreHasCpu(cores: seq<Core>, c: Core)
    requires Disjoint(cores) && c in cores
    ensures c != {}
  {
    var i :| 0 <= i < |cores| && cores[i] == c;
    assert cores[i] != {};
  }

  /** Isolated cores too few for the units are all among the chosen. */
  lemma ConfinedAreChosen(host: Host, units: seq<string>, isolated: set<int>, c: Core)
    requires |units| > |FencedCores(host, isolated)| && c in FencedCores(host, isolated) && c in host.cores
      && Disjoint(host.cores)
    requires |Chosen(units, host.cores, isolated, host.performance)| == |units|
    ensures c in Chosen(units, host.cores, isolated, host.performance)
  {
    var confined := FencedCores(host, isolated);
    var e := EligibleRadiodCores(host.cores, isolated, |units|, host.performance);
    var y := Member(c);
    assert y in isolated;
    assert confined != [] && c in OffBoot(FastCores(host.cores, host.performance));
  }

  lemma SharedCpuSameCore(cores: seq<Core>, c: Core, d: Core, x: int)
    requires Disjoint(cores) && c in cores && d in cores && x in c && x in d
    ensures c == d
  {
    var i :| 0 <= i < |cores| && cores[i] == c;
    var j :| 0 <= j < |cores| && cores[j] == d;
    assert !(cores[i] !! cores[j]);
  }

  /** A first isolation always converges, also when it takes radiod's whole L3
      island: no whole off-boot core was isolated before. */
  lemma FirstIsolationConverges(host: Host, config: Config, units: seq<string>, isolated: set<int>, current: Pins,
                                kept: set<int>)
    requires NoDup(units) && units != [] && Disjoint(host.cores) && Override(config.radiodCpus) == {}
    requires RadiodCoreShortfall(units, config.radiodCpus, host.cores, isolated, host.performance) == 0
    requires IslandsCover(host.islands, AllOf(ComputeAffinityPlan(host, config, units, isolated, current).radiod))
    requires isolated == {} || FencedCores(host, isolated) == []
    ensures var plan := ComputeAffinityPlan(host, config, units, isolated, current);
      Replan(host, config, units, plan, kept) == plan
  {
    var plan := ComputeAffinityPlan(host, config, units, isolated, current);
    var offBoot := OffBoot(FastCores(host.cores, host.performance));
    if offBoot != [] {
      DisjointIsNoDup(host.cores);
      HostFiltersNoDup(host.cores, {}, host.performance);
      InsideKeepsTop(offBoot, |units|, RecommendedIsolcpus(plan) + kept);
    }
    ReplanConverges(host, config, units, isolated, current, kept);
  }

  lemma InsideKeepsTop(s: seq<Core>, n: nat, cpus: set<int>)
    requires NoDup(s)
    ensures OnTop(Inside(s, cpus), LastN(s, n))
  {
    var last := LastN(s, n);
    var rest := s[..|s| - |last|];
    assert s == rest + last;
    var p := (c: Core) => c <= cpus;
    FilterConcat(rest, last, p);
    var low, high := Filter(rest, p), Filter(last, p);
    assert Inside(s, cpus) == low + high;
    forall i | 0 <= i < |low| ensures low[i] !in last {
      assert low[i] in low && low[i] in rest;
    }
    forall j | 0 <= j < |high| ensures high[j] in last {
      assert high[j] in high;
    }
  }

  lemma {:induction false} FilterTwice(s: seq<Core>, p: Core -> bool, q: Core -> bool)
    requires forall c :: q(c) ==> p(c)
    ensures Filter(Filter(s, p), q) == Filter(s, q)
  {
    if s == [] {
    } else {
      FilterTwice(s[1..], p, q);
      FilterConcat(if p(s[0]) then [s[0]] else [], Filter(s[1..], p), q);
      assert Filter([s[0]], q) == if q(s[0]) then [s[0]] else [];
    }
  }

  lemma InsideInside(s: seq<Core>, cpus: set<int>, fewer: set<int>)
    requires fewer <= cpus
    ensures Inside(Inside(s, cpus), fewer) == Inside(s, fewer)
  {
    FilterTwice(s, (c: Core) => c <= cpus, (c: Core) => c <= fewer);
  }

  /** The host's L3 islands do not overlap and hold all its cores, or it reports none. */
  ghost predicate WellFormedIslands(host: Host) {
    && (forall j, k :: 0 <= j < k < |host.islands| ==> host.islands[j] !! host.islands[k])
    && (host.islands == [] || forall c, x :: c in host.cores && x in c ==>
          exists k :: 0 <= k < |host.islands| && x in host.islands[k])
  }

  lemma HostCpusAreCovered(host: Host, pins: Pins)
    requires WellFormedIslands(host)
    requires forall u :: u in pins ==> pins[u] in host.cores
    ensures IslandsCover(host.islands, AllOf(pins))
  {
    if host.islands != [] {
      forall x | x in AllOf(pins) ensures x in IslandCpus(host.islands, AllOf(pins)) {
        var u :| u in pins && x in pins[u];
        var k :| 0 <= k < |host.islands| && x in host.islands[k];
        assert x in host.islands[k] * AllOf(pins);
      }
    }
  }

  /** CPUs within a union of whole islands belong to no other island. */
  lemma IslandsOfFewer(islands: seq<set<int>>, cpus: set<int>, fewer: set<int>)
    requires forall j, k :: 0 <= j < k < |islands| ==> islands[j] !! islands[k]
    requires fewer <= IslandCpus(islands, cpus)
    ensures L3Of(islands, fewer) <= IslandCpus(islands, cpus)
  {
    forall x | x in IslandCpus(islands, fewer) ensures x in IslandCpus(islands, cpus) {
      var k :| 0 <= k < |islands| && islands[k] * fewer != {} && x in islands[k];
      var y := Member(islands[k] * fewer);
      var j :| 0 <= j < |islands| && islands[j] * cpus != {} && y in islands[j];
      assert j == k;
    }
  }

  /** Fencing off less than was fenced off when these cores were taken from the
      top of the fence leaves them on top. */
  lemma TopOfSmallerFence(host: Host, units: seq<string>, want: set<int>, fewer: set<int>)
    requires units != [] && Disjoint(host.cores) && want != {} && fewer <= want
    requires OffBoot(FastCores(host.cores, host.performance)) != [] ==> |units| <= |FencedCores(host, want)|
    ensures TopOfFence(host, fewer, Chosen(units, host.cores, want, host.performance))
  {
    var offBoot := OffBoot(FastCores(host.cores, host.performance));
    if offBoot != [] {
      DisjointIsNoDup(host.cores);
      HostFiltersNoDup(host.cores, want, host.performance);
      FencedChoice(host, units, want);
      InsideInside(offBoot, want, fewer);
      InsideKeepsTop(Inside(offBoot, want), |units|, fewer);
    }
  }

  /** The second plan never asks for CPUs the first did not fence off. */
  lemma NextPlanWantsNoMore(host: Host, config: Config, units: seq<string>, plan: Plan, kept: set<int>)
    requires WellFormedIslands(host) && plan.cacheSplit && plan.radiodL3 != {}
    requires plan.radiodL3 == L3Of(host.islands, AllOf(plan.radiod))
    requires IslandCpus(host.islands, AllOf(plan.radiod)) != {}
    requires AllOf(Replan(host, config, units, plan, kept).radiod) <= plan.radiodL3
    ensures RecommendedIsolcpus(Replan(host, config, units, plan, kept)) <= plan.radiodL3
  {
    IslandsOfFewer(host.islands, AllOf(plan.radiod), AllOf(Replan(host, config, units, plan, kept).radiod));
  }

  /** What holds of the second placement when it moves radiod. */
  lemma SecondPlacementIsFenced(host: Host, spec: string, units: seq<string>, isolated: set<int>, current: Pins,
      want: set<int>)
    requires NoDup(units) && units != [] && Disjoint(host.cores) && Override(spec) == {}
    requires RadiodCoreShortfall(units, spec, host.cores, isolated, host.performance) == 0
    requires OffBoot(FastCores(host.cores, host.performance)) != []
    requires AllOf(Assignment(units, spec, host.cores, isolated, current, host.performance)) <= want
    ensures want != {} && |units| <= |FencedCores(host, want)|
    ensures RadiodCoreShortfall(units, spec, host.cores, want, host.performance) == 0
    ensures forall pins :: AllOf(Assignment(units, spec, host.cores, want, pins, host.performance)) <= want
  {
    OneCoreEach(host, spec, units, isolated, current);
    ChosenAreFenced(host, units, isolated, want);
    WantIsNotEmpty(host, units, isolated, want);
    FencedChoice(host, units, want);
    forall pins ensures AllOf(Assignment(units, spec, host.cores, want, pins, host.performance)) <= want {
      FencedPlacement(host, spec, units, want, pins);
    }
  }

  lemma FencedPlacement(host: Host, spec: string, units: seq<string>, want: set<int>, pins: Pins)
    requires NoDup(units) && units != [] && Disjoint(host.cores) && Override(spec) == {}
    requires Chosen(units, host.cores, want, host.performance) == LastN(FencedCores(host, want), |units|)
    requires RadiodCoreShortfall(units, spec, host.cores, want, host.performance) == 0
    ensures AllOf(Assignment(units, spec, host.cores, want, pins, host.performance)) <= want
  {
    OneCoreEach(host, spec, units, want, pins);
    var out := Assignment(units, spec, host.cores, want, pins, host.performance);
    forall u | u in out ensures out[u] <= want {
      assert out[u] in FencedCores(host, want);
    }
  }

  /** No core straddles two L3 islands. */
  ghost predicate WholeCores(host: Host) {
    host.islands == [] || forall c :: c in host.cores ==> exists k :: 0 <= k < |host.islands| && c <= host.islands[k]
  }

  /** Host cores and unions of islands: within, or apart. */
  lemma CoreInIslandOrApart(host: Host, cpus: set<int>, c: Core)
    requires WellFormedIslands(host) && WholeCores(host) && host.islands != [] && c in host.cores
    ensures c <= IslandCpus(host.islands, cpus) || c !! IslandCpus(host.islands, cpus)
  {
    var k :| 0 <= k < |host.islands| && c <= host.islands[k];
    if host.islands[k] * cpus != {} {
      forall x | x in c ensures x in IslandCpus(host.islands, cpus) {
        assert x in host.islands[k];
      }
    } else {
      forall x | x in c ensures x !in IslandCpus(host.islands, cpus) {
        forall j | 0 <= j < |host.islands| && host.islands[j] * cpus != {} ensures x !in host.islands[j] {
          assert j != k && x in host.islands[k];
          assert if j < k then host.islands[j] !! host.islands[k] else host.islands[k] !! host.islands[j];
        }
      }
    }
  }

  // Order in a list, and in what is filtered from it.

  ghost predicate Before<T(!new)>(s: seq<T>, x: T, y: T) {
    exists i, j :: 0 <= i < j < |s| && s[i] == x && s[j] == y
  }

  lemma {:induction false} BeforeUnfiltered(s: seq<Core>, p: Core -> bool, x: Core, y: Core)
    requires Before(Filter(s, p), x, y)
    ensures Before(s, x, y)
  {
    var r, rest := Filter(s, p), Filter(s[1..], p);
    var i, j :| 0 <= i < j < |r| && r[i] == x && r[j] == y;
    if p(s[0]) && i == 0 {
      assert y == rest[j - 1] && y in s[1..];
      var k :| 0 <= k < |s[1..]| && s[1..][k] == y;
      assert s[0] == x && s[k + 1] == y;
    } else {
      var d := if p(s[0]) then 1 else 0;
      assert rest[i - d] == x && rest[j - d] == y;
      BeforeUnfiltered(s[1..], p, x, y);
      BeforeLater(s, x, y);
    }
  }

  lemma BeforeLater(s: seq<Core>, x: Core, y: Core)
    requires s != [] && Before(s[1..], x, y)
    ensures Before(s, x, y)
  {
    var i, j :| 0 <= i < j < |s[1..]| && s[1..][i] == x && s[1..][j] == y;
    assert s[i + 1] == x && s[j + 1] == y;
  }

  lemma {:induction false} BeforeFiltered(s: seq<Core>, p: Core -> bool, x: Core, y: Core)
    requires Before(s, x, y) && p(x) && p(y)
    ensures Before(Filter(s, p), x, y)
  {
    var i, j :| 0 <= i < j < |s| && s[i] == x && s[j] == y;
    var rest := Filter(s[1..], p);
    assert s[1..][j - 1] == y;
    if i == 0 {
      assert y in rest;
      var k :| 0 <= k < |rest| && rest[k] == y;
      assert Filter(s, p)[0] == x && Filter(s, p)[k + 1] == y;
    } else {
      assert s[1..][i - 1] == x;
      BeforeFiltered(s[1..], p, x, y);
      var k, m :| 0 <= k < m < |rest| && rest[k] == x && rest[m] == y;
      var d := if p(s[0]) then 1 else 0;
      assert Filter(s, p)[k + d] == x && Filter(s, p)[m + d] == y;
    }
  }

  lemma LastHasLater(s: seq<Core>, n: nat, x: Core, y: Core)
    requires NoDup(s) && Before(s, x, y) && x in LastN(s, n)
    ensures y in LastN(s, n)
  {
    var i, j :| 0 <= i < j < |s| && s[i] == x && s[j] == y;
    LastHasNext(s, n, i, j);
  }

  lemma BeforeTheLast(s: seq<Core>, n: nat, x: Core, y: Core)
    requires x in s && x !in LastN(s, n) && y in LastN(s, n)
    ensures Before(s, x, y)
  {
    var d := |s| - |LastN(s, n)|;
    var i :| 0 <= i < |s| && s[i] == x;
    assert i < d by {
      assert forall m :: d <= m < |s| ==> s[m] == LastN(s, n)[m - d];
    }
    var k :| 0 <= k < |LastN(s, n)| && LastN(s, n)[k] == y;
    assert s[d + k] == y;
  }

  /** A fenced core below all that were chosen from another fence is not among
      the highest of this one, if all those are in it. */
  lemma LowCoreIsNotLast(offBoot: seq<Core>, isolated: set<int>, fence: set<int>, n: nat, c: Core)
    requires NoDup(offBoot) && n <= |Inside(offBoot, isolated)|
    requires c in Inside(offBoot, isolated) && c !in LastN(Inside(offBoot, isolated), n) && c <= fence
    requires forall d :: d in LastN(Inside(offBoot, isolated), n) ==> d <= fence
    ensures c !in LastN(Inside(offBoot, fence), n)
  {
    var first, second := Inside(offBoot, isolated), Inside(offBoot, fence);
    var was, now := LastN(first, n), LastN(second, n);
    FilterNoDup(offBoot, (d: Core) => d <= isolated);
    FilterNoDup(offBoot, (d: Core) => d <= fence);
    SizeOfElements(was);
    SizeOfElements(now);
    assert c !in Elements(was) && |Elements(was) + {c}| > |Elements(now)|;
    if c in now {
      forall d | d in was ensures d in now {
        HigherIsLast(offBoot, isolated, fence, n, c, d);
      }
      LargerThanSubset(Elements(was) + {c}, Elements(now));
      assert false;
    }
  }

  lemma HigherIsLast(offBoot: seq<Core>, isolated: set<int>, fence: set<int>, n: nat, c: Core, d: Core)
    requires NoDup(offBoot) && c in Inside(offBoot, isolated) && c <= fence && d <= fence
    requires c !in LastN(Inside(offBoot, isolated), n) && d in LastN(Inside(offBoot, isolated), n)
    requires c in LastN(Inside(offBoot, fence), n)
    ensures d in LastN(Inside(offBoot, fence), n)
  {
    FilterNoDup(offBoot, (e: Core) => e <= fence);
    hide LastN, NoDup, Before;
    BeforeTheLast(Inside(offBoot, isolated), n, c, d);
    BeforeUnfiltered(offBoot, (e: Core) => e <= isolated, c, d);
    BeforeFiltered(offBoot, (e: Core) => e <= fence, c, d);
    LastHasLater(Inside(offBoot, fence), n, c, d);
  }

  /** The second placement stays in the island that the first one asked for. */
  lemma SecondStaysInIsland(host: Host, units: seq<string>, isolated: set<int>, kept: set<int>, want: set<int>,
      cpus: set<int>, c: Core)
    requires units != [] && Disjoint(host.cores) && WellFormedIslands(host) && host.islands != []
    requires kept <= isolated && (kept == {} || WholeCores(host))
    requires want == IslandCpus(host.islands, cpus)
    requires |Chosen(units, host.cores, isolated, host.performance)| == |units|
    requires forall d :: d in Chosen(units, host.cores, isolated, host.performance) ==> d <= want
    requires c in LastN(FencedCores(host, want + kept), |units|)
    ensures c <= want
  {
    var offBoot := OffBoot(FastCores(host.cores, host.performance));
    assert c in FencedCores(host, want + kept);
    assert c in offBoot && c in host.cores;
    if kept != {} {
      CoreInIslandOrApart(host, cpus, c);
      if c !! want {
        assert c in FencedCores(host, isolated);
        var y := Member(c);
        if |units| > |FencedCores(host, isolated)| {
          ConfinedAreChosen(host, units, isolated, c);
        } else {
          FencedChoice(host, units, isolated);
          DisjointIsNoDup(host.cores);
          HostFiltersNoDup(host.cores, isolated, host.performance);
          assert y !in want;
          LowCoreIsNotLast(offBoot, isolated, want + kept, |units|, c);
        }
      }
    }
  }

  /** However the host was isolated before, radiod moves at most once: the plan
      made after the first reboot is the plan made after every later one. The
      rest of the command line isolates nothing that was not isolated before. */
  lemma TwoReplansSuffice(host: Host, config: Config, units: seq<string>, isolated: set<int>, current: Pins,
      kept: set<int>)
    requires NoDup(units) && units != [] && Disjoint(host.cores) && Override(config.radiodCpus) == {}
    requires RadiodCoreShortfall(units, config.radiodCpus, host.cores, isolated, host.performance) == 0
    requires WellFormedIslands(host) && kept <= isolated && (kept == {} || WholeCores(host))
    ensures var next := Replan(host, config, units, ComputeAffinityPlan(host, config, units, isolated, current), kept);
      Replan(host, config, units, next, kept) == next
  {
    var plan := ComputeAffinityPlan(host, config, units, isolated, current);
    var want := RecommendedIsolcpus(plan);
    var fence, next := want + kept, Replan(host, config, units, plan, kept);
    PlanIsCovered(host, config, units, isolated, current);
    if want == AllOf(plan.radiod) {
      OwnCoresConverge(host, config, units, isolated, current, kept);
    } else if OffBoot(FastCores(host.cores, host.performance)) == [] {
      ReplanConverges(host, config, units, isolated, current, kept);
    } else {
      SecondPlacementIsFenced(host, config.radiodCpus, units, isolated, current, fence);
      SecondPlanStaysInIsland(host, config, units, isolated, current, kept);
      NextPlanWantsNoMore(host, config, units, plan, kept);
      TopOfSmallerFence(host, units, fence, RecommendedIsolcpus(next) + kept);
      PlanIsCovered(host, config, units, fence, plan.radiod);
      ReplanConverges(host, config, units, fence, plan.radiod, kept);
    }
  }

  lemma SecondPlanStaysInIsland(host: Host, config: Config, units: seq<string>, isolated: set<int>, current: Pins,
      kept: set<int>)
    requires NoDup(units) && units != [] && Disjoint(host.cores) && Override(config.radiodCpus) == {}
    requires RadiodCoreShortfall(units, config.radiodCpus, host.cores, isolated, host.performance) == 0
    requires WellFormedIslands(host) && kept <= isolated && (kept == {} || WholeCores(host))
    requires OffBoot(FastCores(host.cores, host.performance)) != []
    requires var plan := ComputeAffinityPlan(host, config, units, isolated, current);
      RecommendedIsolcpus(plan) != AllOf(plan.radiod)
    ensures var plan := ComputeAffinityPlan(host, config, units, isolated, current);
      && plan.cacheSplit && plan.radiodL3 != {} && plan.radiodL3 == L3Of(host.islands, AllOf(plan.radiod))
      && IslandCpus(host.islands, AllOf(plan.radiod)) != {}
      && AllOf(Replan(host, config, units, plan, kept).radiod) <= plan.radiodL3
      && RecommendedIsolcpus(plan) == plan.radiodL3
  {
    var plan := ComputeAffinityPlan(host, config, units, isolated, current);
    var want := RecommendedIsolcpus(plan);
    PlanIsCovered(host, config, units, isolated, current);
    assert want == plan.radiodL3 == IslandCpus(host.islands, AllOf(plan.radiod));
    var out := Replan(host, config, units, plan, kept).radiod;
    assert out == Assignment(units, config.radiodCpus, host.cores, want + kept, plan.radiod, host.performance);
    hide ComputeAffinityPlan, RecommendedIsolcpus, Replan, Assignment, Chosen, FencedCores, IslandCpus, AllOf;
    SecondPinsStayInIsland(host, config.radiodCpus, units, isolated, current, kept, want, plan.radiod);
    AllOfWithin(out, want);
  }

  lemma SecondPinsStayInIsland(host: Host, spec: string, units: seq<string>, isolated: set<int>, current: Pins,
      kept: set<int>, want: set<int>, pins: Pins)
    requires NoDup(units) && units != [] && Disjoint(host.cores) && Override(spec) == {}
    requires RadiodCoreShortfall(units, spec, host.cores, isolated, host.performance) == 0
    requires WellFormedIslands(host) && kept <= isolated && (kept == {} || WholeCores(host))
    requires OffBoot(FastCores(host.cores, host.performance)) != []
    requires pins == Assignment(units, spec, host.cores, isolated, current, host.performance)
    requires want == IslandCpus(host.islands, AllOf(pins)) && want != {} && AllOf(pins) <= want
    ensures var out := Assignment(units, spec, host.cores, want + kept, pins, host.performance);
      forall u :: u in out ==> out[u] <= want
  {
    hide Assignment, Chosen, FencedCores, IslandCpus, AllOf, RadiodCoreShortfall, Disjoint, OffBoot, FastCores;
    OneCoreEach(host, spec, units, isolated, current);
    SecondPlacementIsFenced(host, spec, units, isolated, current, want + kept);
    FencedChoice(host, units, want + kept);
    OneCoreEach(host, spec, units, want + kept, pins);
    SomeIsland(host.islands, AllOf(pins));
    var out := Assignment(units, spec, host.cores, want + kept, pins, host.performance);
    forall u | u in out ensures out[u] <= want {
      assert out[u] in LastN(FencedCores(host, want + kept), |units|);
      SecondStaysInIsland(host, units, isolated, kept, want, AllOf(pins), out[u]);
    }
  }

  lemma SomeIsland(islands: seq<set<int>>, cpus: set<int>)
    requires IslandCpus(islands, cpus) != {}
    ensures islands != []
  {
  }

  /** The same through the command lines that are booted: whatever the rest of
      the line is, the plan after two reboots is the one after the first. */
  lemma TwoRebootsSuffice(host: Host, config: Config, units: seq<string>, isolated: set<int>, current: Pins,
                          base: string, staged: seq<nat>, restaged: seq<nat>)
    requires NoDup(units) && units != [] && Disjoint(host.cores) && Override(config.radiodCpus) == {}
    requires RadiodCoreShortfall(units, config.radiodCpus, host.cores, isolated, host.performance) == 0
    requires WellFormedIslands(host) && IsolatedBy(base) <= isolated && (IsolatedBy(base) == {} || WholeCores(host))
    requires var plan := ComputeAffinityPlan(host, config, units, isolated, current);
      Stages(staged, plan) && Stages(restaged, NextPlan(host, config, units, plan, base, staged))
    ensures var next := NextPlan(host, config, units, ComputeAffinityPlan(host, config, units, isolated, current), base,
      staged);
      && NextPlan(host, config, units, next, base, restaged) == next
      && !CpuText.RebootPending(RecommendedIsolcpus(next), CpuText.BootedCmdline(base, restaged))
  {
    hide *;
    var plan := ComputeAffinityPlan(host, config, units, isolated, current);
    NextPlanIsReplan(host, config, units, plan, base, staged);
    NextPlanIsReplan(host, config, units, NextPlan(host, config, units, plan, base, staged), base, restaged);
    TwoReplansSuffice(host, config, units, isolated, current, IsolatedBy(base));
  }

  lemma CoveredIsRecommended(host: Host, config: Config, units: seq<string>, isolated: set<int>, current: Pins)
    requires IslandsCover(host.islands,
      AllOf(Assignment(units, config.radiodCpus, host.cores, isolated, current, host.performance)))
    ensures var plan := ComputeAffinityPlan(host, config, units, isolated, current);
      AllOf(plan.radiod) <= RecommendedIsolcpus(plan)
  {
  }

  lemma PlanIsCovered(host: Host, config: Config, units: seq<string>, isolated: set<int>, current: Pins)
    requires NoDup(units) && units != [] && Disjoint(host.cores) && Override(config.radiodCpus) == {}
    requires RadiodCoreShortfall(units, config.radiodCpus, host.cores, isolated, host.performance) == 0
    requires WellFormedIslands(host)
    ensures var plan := ComputeAffinityPlan(host, config, units, isolated, current);
      && IslandsCover(host.islands, AllOf(plan.radiod))
      && AllOf(plan.radiod) <= RecommendedIsolcpus(plan)
  {
    OneCoreEach(host, config.radiodCpus, units, isolated, current);
    ChosenAreHostCores(units, host.cores, isolated, host.performance);
    HostCpusAreCovered(host, Assignment(units, config.radiodCpus, host.cores, isolated, current, host.performance));
    CoveredIsRecommended(host, config, units, isolated, current);
  }

  lemma KeepFirst(c: Core, rest: seq<Core>, p: Core -> bool)
    ensures Filter([c] + rest, p) == (if p(c) then [c] else []) + Filter(rest, p)
  {
    assert ([c] + rest)[1..] == rest;
  }

  lemma FilterTwo(a: Core, b: Core, p: Core -> bool)
    ensures Filter([a, b], p) == (if p(a) then [a] else []) + (if p(b) then [b] else [])
  {
    KeepFirst(a, [b], p);
    KeepFirst(b, [], p);
    assert [a, b] == [a] + [b] && [b] == [b] + [];
  }

  lemma FilterThree(a: Core, b: Core, c: Core, p: Core -> bool)
    ensures Filter([a, b, c], p) == (if p(a) then [a] else []) + Filter([b, c], p)
  {
    KeepFirst(a, [b, c], p);
    assert [a, b, c] == [a] + [b, c];
  }

  /** Three one-CPU cores, CPUs 1 and 2 sharing an L3 island. */
  function ThreeCoreHost(): Host {
    Host([{0}, {1}, {2}], [{0}, {1, 2}], 3, {})
  }

  lemma OffBootOfThree(a: Core, b: Core, c: Core)
    requires 0 in a && 0 !in b && 0 !in c
    ensures OffBoot([a, b, c]) == [b, c]
  {
    FilterThree(a, b, c, (d: Core) => 0 !in d);
    FilterTwo(b, c, (d: Core) => 0 !in d);
  }

  lemma InsideOfTwo(b: Core, c: Core, cpus: set<int>)
    requires b <= cpus
    ensures Inside([b, c], cpus) == if c <= cpus then [b, c] else [b]
  {
    FilterTwo(b, c, (d: Core) => d <= cpus);
  }

  /** With two cores off the boot CPU, one unit takes the first when only that
      is fenced off, the second when both are. */
  lemma ChoiceOfTwo(a: Core, b: Core, c: Core, unit: string)
    requires 0 in a && 0 !in b && 0 !in c && b != {} && !(c <= b)
    ensures Chosen([unit], [a, b, c], b, {}) == [b]
    ensures Chosen([unit], [a, b, c], b + c, {}) == [c]
  {
    OffBootOfThree(a, b, c);
    InsideOfTwo(b, c, b);
    InsideOfTwo(b, c, b + c);
  }

  lemma ThreeCoreIslands(h: Host)
    requires h == ThreeCoreHost()
    ensures Disjoint(h.cores) && IsSplitL3(h.islands, h.logicalCpus)
    ensures L3Of(h.islands, {1}) == {1, 2} != Cpus(h.logicalCpus)
  {
    TwoIslandsSplit({0}, {1, 2}, h.logicalCpus);
    assert 0 in Cpus(h.logicalCpus);
    IslandOfTwo({0}, {1, 2}, {1});
    hide IsSplitL3, L3Of, Cpus;
  }

  lemma TwoIslandsSplit(a: set<int>, b: set<int>, n: nat)
    requires a != {} && b != {} && |a| < n
    ensures IsSplitL3([a, b], n)
  {
    FilterTwo(a, b, (c: set<int>) => c != {});
    assert a in Filter([a, b], (c: set<int>) => c != {});
  }

  lemma IslandOfTwo(a: set<int>, b: set<int>, cpus: set<int>)
    requires a !! cpus && cpus <= b && cpus != {}
    ensures L3Of([a, b], cpus) == b
  {
    var islands := [a, b];
    assert islands[1] * cpus == cpus;
    forall c ensures c in IslandCpus(islands, cpus) <==> c in b {
      assert c in b ==> c in islands[1];
    }
  }

  lemma ThreeCoreChoices(h: Host, unit: string)
    requires h == ThreeCoreHost()
    ensures Chosen([unit], h.cores, {1}, h.performance) == [{1}]
    ensures Chosen([unit], h.cores, {1, 2}, h.performance) == [{2}]
  {
    var a, b, c := {0}, {1}, {2};
    assert h.cores == [a, b, c] && h.performance == {} && b + c == {1, 2};
    hide *;
    ChoiceOfTwo(a, b, c, unit);
  }

  lemma OneUnitOneCore(unit: string, spec: string, cores: seq<Core>, isolated: set<int>, current: Pins,
                       performance: set<int>, core: Core)
    requires Disjoint(cores) && Override(spec) == {} && Chosen([unit], cores, isolated, performance) == [core]
    ensures Assignment([unit], spec, cores, isolated, current, performance) == map[unit := core]
  {
    ChosenAreHostCores([unit], cores, isolated, performance);
    DistributeIsSpread([unit], current, [core]);
    var out := Distribute([unit], current, [core]);
    assert out.Keys == {unit};
    assert out[unit] in [core];
  }

  lemma AllOfOne(unit: string, core: Core)
    ensures AllOf(map[unit := core]) == core
  {
    forall c | c in core ensures c in AllOf(map[unit := core]) {
      assert unit in map[unit := core];
    }
  }

  lemma PlanThenIsland(h: Host, config: Config, unit: string, isolated: set<int>, core: Core, island: set<int>,
      next: Core)
    requires Disjoint(h.cores) && config.cacheAware && IsSplitL3(h.islands, h.logicalCpus)
    requires Override(config.radiodCpus) == {} && Text.Strip(config.otherCpus) == []
    requires core != {} && L3Of(h.islands, core) == island != Cpus(h.logicalCpus)
    requires Chosen([unit], h.cores, isolated, h.performance) == [core]
    requires Chosen([unit], h.cores, island, h.performance) == [next]
    ensures var plan := ComputeAffinityPlan(h, config, [unit], isolated, map[]);
      && plan.radiod == map[unit := core] && RecommendedIsolcpus(plan) == island
      && Replan(h, config, [unit], plan, {}).radiod == map[unit := next]
  {
    assert island + {} == island;
    OneUnitOneCore(unit, config.radiodCpus, h.cores, isolated, map[], h.performance, core);
    AllOfOne(unit, core);
    SegregatedPlanIsolatesTheIsland(h, config, [unit], isolated, map[]);
    OneUnitOneCore(unit, config.radiodCpus, h.cores, island, map[unit := core], h.performance, next);
  }

  lemma ThreeCoreExample(unit: string) returns (h: Host, isolated: set<int>, core: Core, island: set<int>, next: Core)
    ensures Disjoint(h.cores) && IsSplitL3(h.islands, h.logicalCpus)
    ensures core != {} && L3Of(h.islands, core) == island != Cpus(h.logicalCpus)
    ensures Chosen([unit], h.cores, isolated, h.performance) == [core]
    ensures Chosen([unit], h.cores, island, h.performance) == [next]
    ensures core <= isolated && core != next
  {
    h := ThreeCoreHost();
    ThreeCoreChoices(h, unit);
    ThreeCoreIslands(h);
    isolated, core, island, next := {1}, {1}, {1, 2}, {2};
  }

  /** With a core isolated before and a whole L3 island fenced off next, radiod
      can move within the island on the second plan, though every unit has a
      core of its own. */
  lemma EarlierIsolationCanMoveRadiod(config: Config, unit: string)
    returns (h: Host, isolated: set<int>, core: Core, next: Core)
    requires config.cacheAware && Override(config.radiodCpus) == {} && Text.Strip(config.otherCpus) == []
    ensures var plan := ComputeAffinityPlan(h, config, [unit], isolated, map[]);
      && core <= isolated && core != next
      && plan.radiod == map[unit := core]
      && Replan(h, config, [unit], plan, {}).radiod == map[unit := next]
  {
    var island: set<int>;
    h, isolated, core, island, next := ThreeCoreExample(unit);
    PlanThenIsland(h, config, unit, isolated, core, island, next);
  }
}
