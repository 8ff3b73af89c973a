/** Giving each radiod unit a core (lib/sigmond/cpu.py). */
module CpuAssign {
  import opened Lists
  import opened CpuPlacement
  import CpuText
  import Text

  type Pins = map<string, Core>

  /** The dictionary `out` and the list `free` that the two loops update. */
  datatype Placement = Placement(out: Pins, free: seq<Core>)

  function PinOf(current: Pins, unit: string): Core {
    if unit in current then current[unit] else {}
  }

  /** `free.remove(x)` */
  function RemoveFirst(s: seq<Core>, x: Core): (r: seq<Core>)
    requires x in s
    ensures |r| == |s| - 1
  {
    if s[0] == x then s[1..] else [s[0]] + RemoveFirst(s[1..], x)
  }

  lemma {:induction false} RemoveFirstIs(s: seq<Core>, x: Core)
    requires x in s && NoDup(s)
    ensures NoDup(RemoveFirst(s, x))
    ensures forall c :: c in RemoveFirst(s, x) <==> c in s && c != x
  {
    assert s == [s[0]] + s[1..];
    if s[0] != x {
      RemoveFirstIs(s[1..], x);
      var r := RemoveFirst(s[1..], x);
      forall j | 0 <= j < |r| ensures r[j] != s[0] {
        assert r[j] in r && s[0] !in s[1..];
      }
    } else {
      assert forall i :: 0 < i < |s| ==> s[i] != x;
    }
  }

  function LastOr(chosen: seq<Core>): Core {
    if chosen == [] then {} else chosen[|chosen| - 1]
  }

  function KeepStep(p: Placement, unit: string, current: Pins): Placement {
    var have := PinOf(current, unit);
    if have in p.free then Placement(p.out[unit := have], RemoveFirst(p.free, have)) else p
  }

  /** After the first loop: units whose pin is a free chosen core keep it. */
  function Keep(units: seq<string>, current: Pins, chosen: seq<Core>): Placement {
    if units == [] then Placement(map[], chosen)
    else KeepStep(Keep(units[..|units| - 1], current, chosen), units[|units| - 1], current)
  }

  function PlaceStep(p: Placement, unit: string, chosen: seq<Core>): Placement {
    if unit in p.out then p
    else if p.free != [] then Placement(p.out[unit := p.free[0]], p.free[1..])
    else Placement(p.out[unit := LastOr(chosen)], [])
  }

  /** After the second loop: the others take what is free, in order, and share
      the last chosen core when nothing is. */
  function Place(units: seq<string>, p: Placement, chosen: seq<Core>): Placement {
    if units == [] then p
    else PlaceStep(Place(units[..|units| - 1], p, chosen), units[|units| - 1], chosen)
  }

  function Chosen(units: seq<string>, cores: seq<Core>, isolated: set<int>, performance: set<int>): seq<Core> {
    LastN(EligibleRadiodCores(cores, isolated, |units|, performance), |units|)
  }

  function Distribute(units: seq<string>, current: Pins, chosen: seq<Core>): Pins {
    Place(units, Keep(units, current, chosen), chosen).out
  }

  /** The operator's `[cpu_affinity].radiod_cpus` text as CPUs. */
  function Override(spec: string): set<int> {
    CpuText.MaskCpus(Text.Strip(spec))
  }

  function Assignment(units: seq<string>, spec: string, cores: seq<Core>, isolated: set<int>,
                      current: Pins, performance: set<int>): Pins {
    if units == [] then map[]
    else if Override(spec) != {} then map u | u in units :: Override(spec)
    else Distribute(units, current, Chosen(units, cores, isolated, performance))
  }

  lemma KeepNext(units: seq<string>, k: nat, current: Pins, chosen: seq<Core>)
    requires k < |units|
    ensures Keep(units[..k + 1], current, chosen) == KeepStep(Keep(units[..k], current, chosen), units[k], current)
  {
    assert units[..k + 1][..k] == units[..k];
  }

  lemma PlaceNext(units: seq<string>, k: nat, p: Placement, chosen: seq<Core>)
    requires k < |units|
    ensures Place(units[..k + 1], p, chosen) == PlaceStep(Place(units[..k], p, chosen), units[k], chosen)
  {
    assert units[..k + 1][..k] == units[..k];
  }

  method DistributeCores(units: seq<string>, current: Pins, chosen: seq<Core>) returns (out: Pins)
    ensures out == Distribute(units, current, chosen)
  {
    out := map[];
    var free := chosen;
    for k := 0 to |units|
      invariant Placement(out, free) == Keep(units[..k], current, chosen)
    {
      KeepNext(units, k, current, chosen);
      var unit := units[k];
      var have := PinOf(current, unit);
      if have in free {
        out := out[unit := have];
        free := RemoveFirst(free, have);
      }
    }
    assert units[..|units|] == units;
    ghost var kept := Placement(out, free);
    for k := 0 to |units|
      invariant Placement(out, free) == Place(units[..k], kept, chosen)
    {
      PlaceNext(units, k, kept, chosen);
      var unit := units[k];
      if unit in out {
        continue;
      }
      if free != [] {
        out := out[unit := free[0]];
        free := free[1..];
      } else {
        out := out[unit := LastOr(chosen)];
      }
    }
  }

  method AssignRadiodCores(units: seq<string>, spec: string, cores: seq<Core>, isolated: set<int>,
                           current: Pins, performance: set<int>) returns (out: Pins)
    ensures out == Assignment(units, spec, cores, isolated, current, performance)
  {
    if units == [] {
      return map[];
    }
    var override := CpuText.ParseCpuMask(Text.Strip(spec));
    if override != {} {
      return map u | u in units :: override;
    }
    var chosen := LastN(EligibleRadiodCores(cores, isolated, |units|, performance), |units|);
    out := DistributeCores(units, current, chosen);
  }

  function RadiodCoreShortfall(units: seq<string>, spec: string, cores: seq<Core>, isolated: set<int>,
                               performance: set<int>): nat {
    if units == [] || Override(spec) != {} then 0
    else
      var eligible := EligibleRadiodCores(cores, isolated, |units|, performance);
      if |eligible| < |units| then |units| - |eligible| else 0
  }

  // ---- what the two loops keep ----

  predicate Injective(out: Pins) {
    forall u, v :: u in out && v in out && u != v ==> out[u] != out[v]
  }

  /** Every chosen core is either still free or in use, never both; a core is
      shared only when all are in use, and then it is the last one. */
  ghost predicate Consistent(p: Placement, chosen: seq<Core>) {
    && NoDup(p.free)
    && (forall c :: c in p.free ==> c in chosen && c !in p.out.Values)
    && (forall c :: c in chosen ==> c in p.free || c in p.out.Values)
    && (forall u :: u in p.out ==> p.out[u] in chosen || (chosen == [] && p.out[u] == {}))
    && (forall u, v :: u in p.out && v in p.out && u != v && p.out[u] == p.out[v] ==> p.out[u] == LastOr(chosen))
    && (if |p.out| <= |chosen| then |p.out| + |p.free| == |chosen| && Injective(p.out) else p.free == [])
  }

  lemma TakeFree(p: Placement, chosen: seq<Core>, unit: string, c: Core, free: seq<Core>)
    requires Consistent(p, chosen) && unit !in p.out && c in p.free
    requires NoDup(free) && |free| == |p.free| - 1 && forall d :: d in free <==> d in p.free && d != c
    ensures Consistent(Placement(p.out[unit := c], free), chosen)
  {
    var q := Placement(p.out[unit := c], free);
    assert q.out[unit] == c;
    forall d | d in q.out.Values ensures d == c || d in p.out.Values {
      var u :| u in q.out && q.out[u] == d;
      assert u != unit ==> p.out[u] == d;
    }
    forall d | d in p.out.Values ensures d in q.out.Values {
      var u :| u in p.out && p.out[u] == d;
      assert q.out[u] == d;
    }
    assert |q.out| == |p.out| + 1;
  }

  lemma ShareLast(p: Placement, chosen: seq<Core>, unit: string)
    requires Consistent(p, chosen) && unit !in p.out && p.free == []
    ensures Consistent(Placement(p.out[unit := LastOr(chosen)], []), chosen)
  {
    var q := Placement(p.out[unit := LastOr(chosen)], []);
    forall d | d in p.out.Values ensures d in q.out.Values {
      var u :| u in p.out && p.out[u] == d;
      assert q.out[u] == d;
    }
    assert |q.out| == |p.out| + 1;
  }

  lemma {:induction false} KeepConsistent(units: seq<string>, current: Pins, chosen: seq<Core>)
    requires NoDup(chosen) && NoDup(units)
    ensures Consistent(Keep(units, current, chosen), chosen)
    ensures forall u :: u in Keep(units, current, chosen).out ==> u in units
    ensures var out := Keep(units, current, chosen).out; forall u :: u in out ==> out[u] == PinOf(current, u)
  {
    if units == [] {
    } else {
      var n := |units| - 1;
      KeepConsistent(units[..n], current, chosen);
      var p := Keep(units[..n], current, chosen);
      assert units[n] !in units[..n];
      var have := PinOf(current, units[n]);
      if have in p.free {
        RemoveFirstIs(p.free, have);
        TakeFree(p, chosen, units[n], have, RemoveFirst(p.free, have));
      }
    }
  }

  lemma TakeFirstFree(p: Placement, chosen: seq<Core>, unit: string)
    requires Consistent(p, chosen) && unit !in p.out && p.free != []
    ensures Consistent(Placement(p.out[unit := p.free[0]], p.free[1..]), chosen)
  {
    assert p.free == [p.free[0]] + p.free[1..];
    TakeFree(p, chosen, unit, p.free[0], p.free[1..]);
  }

  lemma {:induction false} PlaceConsistent(units: seq<string>, p: Placement, chosen: seq<Core>)
    requires Consistent(p, chosen)
    ensures Consistent(Place(units, p, chosen), chosen)
  {
    if units == [] {
    } else {
      var n := |units| - 1;
      PlaceConsistent(units[..n], p, chosen);
      var q := Place(units[..n], p, chosen);
      if units[n] in q.out {
      } else if q.free != [] {
        TakeFirstFree(q, chosen, units[n]);
      } else {
        ShareLast(q, chosen, units[n]);
      }
    }
  }

  lemma {:induction false} PlaceAddsUnits(units: seq<string>, p: Placement, chosen: seq<Core>)
    ensures forall u :: u in Place(units, p, chosen).out <==> u in p.out || u in units
    ensures forall u :: u in p.out ==> Place(units, p, chosen).out[u] == p.out[u]
  {
    if units == [] {
    } else {
      var n := |units| - 1;
      PlaceAddsUnits(units[..n], p, chosen);
      assert units == units[..n] + [units[n]];
    }
  }

  /** What the two loops produce together. */
  lemma DistributeConsistent(units: seq<string>, current: Pins, chosen: seq<Core>)
    requires NoDup(units) && NoDup(chosen)
    ensures Consistent(Place(units, Keep(units, current, chosen), chosen), chosen)
    ensures Distribute(units, current, chosen).Keys == Elements(units)
    ensures |Distribute(units, current, chosen)| == |units|
  {
    KeepConsistent(units, current, chosen);
    PlaceConsistent(units, Keep(units, current, chosen), chosen);
    PlaceAddsUnits(units, Keep(units, current, chosen), chosen);
    SizeOfElements(units);
  }

  /** The cores in use; a unit without any core is not on one. */
  function CoresInUse(out: Pins): set<Core> {
    out.Values - {{}}
  }

  lemma ChosenAreHostCores(units: seq<string>, cores: seq<Core>, isolated: set<int>, performance: set<int>)
    requires Disjoint(cores)
    ensures var chosen := Chosen(units, cores, isolated, performance);
      && NoDup(chosen) && (forall c :: c in chosen ==> c in cores && c != {})
  {
    DisjointIsNoDup(cores);
    EligibleAreHostCores(cores, isolated, |units|, performance);
    var e := EligibleRadiodCores(cores, isolated, |units|, performance);
    forall c | c in Chosen(units, cores, isolated, performance) ensures c in cores && c != {} {
      assert c in e;
      var i :| 0 <= i < |cores| && cores[i] == c;
      assert cores[i] != {};
    }
  }

  /** Without an operator override the units use exactly the chosen cores,
      whole host cores all, so the number of units left without a core of
      their own is the shortfall. */
  lemma UnitsUseChosenCores(units: seq<string>, spec: string, cores: seq<Core>, isolated: set<int>,
                            current: Pins, performance: set<int>)
    requires NoDup(units) && Disjoint(cores) && Override(spec) == {}
    ensures var out, chosen := Assignment(units, spec, cores, isolated, current, performance),
                               Chosen(units, cores, isolated, performance);
      && out.Keys == Elements(units)
      && CoresInUse(out) == Elements(chosen)
      && (forall c :: c in chosen ==> c in cores)
      && |units| - |CoresInUse(out)| == RadiodCoreShortfall(units, spec, cores, isolated, performance)
  {
    var chosen := Chosen(units, cores, isolated, performance);
    ChosenAreHostCores(units, cores, isolated, performance);
    DistributeConsistent(units, current, chosen);
    SizeOfElements(chosen);
    var out := Assignment(units, spec, cores, isolated, current, performance);
    if units == [] {
      assert chosen == [];
      assert CoresInUse(out) == Elements(chosen);
    } else {
      ValuesOfConsistent(Place(units, Keep(units, current, chosen), chosen), chosen);
    }
  }

  lemma ValuesOfConsistent(p: Placement, chosen: seq<Core>)
    requires Consistent(p, chosen) && |p.out| >= |chosen| && {} !in chosen
    ensures CoresInUse(p.out) == Elements(chosen)
  {
    assert p.free == [];
    forall c ensures c in CoresInUse(p.out) <==> c in Elements(chosen) {
      if c in CoresInUse(p.out) {
        var u :| u in p.out && p.out[u] == c;
      }
    }
  }

  // ---- stability ----

  /** While `unit` has not been looked at, a core only it is pinned to stays free. */
  lemma {:induction false} UnsharedPinStaysFree(units: seq<string>, current: Pins, chosen: seq<Core>, pin: Core)
    requires NoDup(chosen) && NoDup(units) && pin in chosen
    requires forall v :: v in units ==> PinOf(current, v) != pin
    ensures pin in Keep(units, current, chosen).free
  {
    if units == [] {
    } else {
      var n := |units| - 1;
      assert units[n] in units;
      UnsharedPinStaysFree(units[..n], current, chosen, pin);
      KeepConsistent(units[..n], current, chosen);
      var p := Keep(units[..n], current, chosen);
      if PinOf(current, units[n]) in p.free {
        RemoveFirstIs(p.free, PinOf(current, units[n]));
      }
    }
  }

  lemma {:induction false} UnsharedPinIsKept(units: seq<string>, current: Pins, chosen: seq<Core>, unit: string)
    requires NoDup(chosen) && NoDup(units) && unit in units
    requires PinOf(current, unit) in chosen
    requires forall v :: v in units && v != unit ==> PinOf(current, v) != PinOf(current, unit)
    ensures unit in Keep(units, current, chosen).out
  {
    var n := |units| - 1;
    assert units == units[..n] + [units[n]];
    assert units[n] !in units[..n];
    if units[n] == unit {
      UnsharedPinStaysFree(units[..n], current, chosen, PinOf(current, unit));
    } else {
      UnsharedPinIsKept(units[..n], current, chosen, unit);
    }
  }

  /** A running unit is not moved off a core that is still chosen and that no
      other unit is pinned to. */
  lemma RunningUnitStaysPut(units: seq<string>, spec: string, cores: seq<Core>, isolated: set<int>,
                            current: Pins, performance: set<int>, unit: string)
    requires NoDup(units) && Disjoint(cores) && Override(spec) == {} && unit in units && unit in current
    requires current[unit] in Chosen(units, cores, isolated, performance)
    requires forall v :: v in units && v != unit ==> PinOf(current, v) != current[unit]
    ensures var out := Assignment(units, spec, cores, isolated, current, performance);
      unit in out && out[unit] == current[unit]
  {
    var chosen := Chosen(units, cores, isolated, performance);
    ChosenAreHostCores(units, cores, isolated, performance);
    KeepConsistent(units, current, chosen);
    UnsharedPinIsKept(units, current, chosen, unit);
    PlaceAddsUnits(units, Keep(units, current, chosen), chosen);
  }

  /** `pins` is how these units could have been spread over these cores: every
      core in use, and only the last one shared. */
  ghost predicate Spread(units: seq<string>, pins: Pins, chosen: seq<Core>) {
    && pins.Keys == Elements(units)
    && (forall u :: u in pins ==> pins[u] in chosen || (chosen == [] && pins[u] == {}))
    && (forall c :: c in chosen ==> c in pins.Values)
    && (forall u, v :: u in pins && v in pins && u != v && pins[u] == pins[v] ==> pins[u] == LastOr(chosen))
  }

  lemma {:induction false} KeepOfSpread(units: seq<string>, pins: Pins, chosen: seq<Core>)
    requires NoDup(units) && NoDup(chosen)
    requires forall u :: u in units ==> u in pins
    ensures forall u :: u in units ==> pins[u] !in Keep(units, pins, chosen).free
  {
    if units == [] {
    } else {
      var n := |units| - 1;
      assert forall u :: u in units ==> u in units[..n] || u == units[n];
      KeepOfSpread(units[..n], pins, chosen);
      KeepConsistent(units[..n], pins, chosen);
      assert NoDup(Keep(units[..n], pins, chosen).free);
      hide Consistent, KeepStep, NoDup;
      KeepStepTakes(Keep(units[..n], pins, chosen), units[n], pins);
    }
  }

  lemma KeepStepTakes(p: Placement, unit: string, pins: Pins)
    requires NoDup(p.free) && unit in pins
    ensures var now := KeepStep(p, unit, pins);
      pins[unit] !in now.free && forall c :: c in now.free ==> c in p.free
  {
    if pins[unit] in p.free {
      RemoveFirstIs(p.free, pins[unit]);
    }
  }

  lemma {:induction false} PlaceWithNothingFree(units: seq<string>, p: Placement, chosen: seq<Core>)
    requires p.free == []
    ensures forall u :: u in units && u !in p.out ==>
      u in Place(units, p, chosen).out && Place(units, p, chosen).out[u] == LastOr(chosen)
    ensures Place(units, p, chosen).free == []
  {
    if units == [] {
    } else {
      var n := |units| - 1;
      assert units == units[..n] + [units[n]];
      PlaceWithNothingFree(units[..n], p, chosen);
      PlaceAddsUnits(units[..n], p, chosen);
    }
  }

  /** A unit the first loop passed over shares its core with one it did not. */
  lemma PassedOverShares(units: seq<string>, pins: Pins, chosen: seq<Core>, u: string)
    requires NoDup(units) && NoDup(chosen) && Spread(units, pins, chosen) && u in units
    requires u !in Keep(units, pins, chosen).out
    ensures pins[u] == LastOr(chosen)
  {
    KeepConsistent(units, pins, chosen);
    KeepOfSpread(units, pins, chosen);
    var p := Keep(units, pins, chosen);
    if chosen != [] {
      assert pins[u] in p.out.Values;
      var v :| v in p.out && p.out[v] == pins[u];
      assert v in pins;
    }
  }

  lemma FirstOf<T>(s: seq<T>) returns (x: T)
    requires s != []
    ensures x in s
  {
    x := s[0];
  }

  lemma SpreadLeavesNothingFree(units: seq<string>, pins: Pins, chosen: seq<Core>)
    requires NoDup(units) && NoDup(chosen) && Spread(units, pins, chosen)
    ensures Keep(units, pins, chosen).free == []
  {
    KeepConsistent(units, pins, chosen);
    KeepOfSpread(units, pins, chosen);
    var free := Keep(units, pins, chosen).free;
    forall c | c in chosen ensures c !in free {
      var u :| u in pins && pins[u] == c;
      assert u in Elements(units);
    }
    if free != [] {
      var c := FirstOf(free);
      assert false;
    }
  }

  lemma SpreadUnitIsKept(units: seq<string>, pins: Pins, chosen: seq<Core>, u: string)
    requires NoDup(units) && NoDup(chosen) && Spread(units, pins, chosen) && u in units && u in pins
    ensures u in Distribute(units, pins, chosen) && Distribute(units, pins, chosen)[u] == pins[u]
  {
    var p := Keep(units, pins, chosen);
    KeepConsistent(units, pins, chosen);
    SpreadLeavesNothingFree(units, pins, chosen);
    PlaceAddsUnits(units, p, chosen);
    PlaceWithNothingFree(units, p, chosen);
    if u !in p.out {
      PassedOverShares(units, pins, chosen, u);
    }
    hide Keep, Place, NoDup, Consistent, Spread;
  }

  /** Units already spread over the chosen cores all stay where they are. */
  lemma SpreadIsKept(units: seq<string>, pins: Pins, chosen: seq<Core>)
    requires NoDup(units) && NoDup(chosen) && Spread(units, pins, chosen)
    ensures Distribute(units, pins, chosen) == pins
  {
    DistributeConsistent(units, pins, chosen);
    assert pins.Keys == Elements(units);
    forall u | u in pins ensures Distribute(units, pins, chosen)[u] == pins[u] {
      assert u in Elements(units);
      SpreadUnitIsKept(units, pins, chosen, u);
    }
    hide *;
  }

  lemma DistributeIsSpread(units: seq<string>, current: Pins, chosen: seq<Core>)
    requires NoDup(units) && NoDup(chosen) && |chosen| <= |units|
    ensures Spread(units, Distribute(units, current, chosen), chosen)
  {
    DistributeConsistent(units, current, chosen);
    assert Place(units, Keep(units, current, chosen), chosen).free == [];
  }

  /** Planning again with the placement in force moves nothing. */
  lemma PlacementIsFixpoint(units: seq<string>, spec: string, cores: seq<Core>, isolated: set<int>,
                            current: Pins, performance: set<int>)
    requires NoDup(units) && Disjoint(cores)
    ensures var out := Assignment(units, spec, cores, isolated, current, performance);
      Assignment(units, spec, cores, isolated, out, performance) == out
  {
    var chosen := Chosen(units, cores, isolated, performance);
    ChosenAreHostCores(units, cores, isolated, performance);
    DistributeIsSpread(units, current, chosen);
    SpreadIsKept(units, Distribute(units, current, chosen), chosen);
  }

  // ---- where a unit may end up, in terms of the host ----

  lemma NoCandidateNoCore(units: seq<string>, cores: seq<Core>, isolated: set<int>, performance: set<int>)
    requires Disjoint(cores)
    ensures var chosen := Chosen(units, cores, isolated, performance);
      && (forall c :: c in chosen ==> IsCandidate(cores, performance, c))
      && (units != [] ==> (chosen == [] <==> forall c :: c in cores ==> !IsFast(performance, c)))
      && ((forall c :: c in cores ==> !IsFast(performance, c)) ==>
            EligibleRadiodCores(cores, isolated, |units|, performance) == [])
  {
    var e := EligibleRadiodCores(cores, isolated, |units|, performance);
    EligibleAreCandidates(cores, isolated, |units|, performance);
    DisjointIsNoDup(cores);
    EligibleAreHostCores(cores, isolated, |units|, performance);
    FastCoresAre(cores, performance);
    if e != [] {
      assert e[0] in e;
    } else {
      forall c | c in cores ensures !IsFast(performance, c) {
        assert c !in FastCores(cores, performance);
      }
    }
    hide EligibleRadiodCores, FastCores, OffBoot, SomeIsolated, IsFast, Disjoint, NoDup;
  }

  /** Left to itself radiod runs on whole fast cores of the host, never on an
      efficiency core, and on the boot CPU's only where there is no other fast
      one. A unit gets no core exactly when no core of the host is fast, and
      then every unit is reported short of one. */
  lemma PlacedOnFastCores(units: seq<string>, spec: string, cores: seq<Core>, isolated: set<int>,
                          current: Pins, performance: set<int>, u: string)
    requires NoDup(units) && Disjoint(cores) && Override(spec) == {} && u in units
    ensures var out := Assignment(units, spec, cores, isolated, current, performance);
      && u in out
      && (out[u] != {} ==> out[u] in cores && (performance != {} ==> out[u] <= performance))
      && (out[u] != {} && 0 in out[u] ==> forall c :: c in cores && (performance == {} || c <= performance) ==> 0 in c)
      && (out[u] == {} <==> forall c :: c in cores ==> performance != {} && !(c <= performance))
      && (out[u] == {} ==> RadiodCoreShortfall(units, spec, cores, isolated, performance) == |units|)
  {
    var chosen := Chosen(units, cores, isolated, performance);
    ChosenAreHostCores(units, cores, isolated, performance);
    NoCandidateNoCore(units, cores, isolated, performance);
    DistributeConsistent(units, current, chosen);
    assert u in Elements(units);
    hide EligibleRadiodCores, Chosen, Place, Keep, Disjoint, NoDup, Override;
  }

  lemma OverrideWins(units: seq<string>, spec: string, cores: seq<Core>, isolated: set<int>, current: Pins,
                     performance: set<int>)
    requires Override(spec) != {}
    ensures var out := Assignment(units, spec, cores, isolated, current, performance);
      out.Keys == Elements(units) && forall u :: u in units ==> out[u] == Override(spec)
    ensures RadiodCoreShortfall(units, spec, cores, isolated, performance) == 0
  {
    hide Override, Distribute, Chosen, EligibleRadiodCores;
  }

  /** CPUs that the operator names are every unit's, whatever the host's cores
      and pins are; no unit is then short of a core. */
  lemma OverrideIsShared(units: seq<string>, named: seq<nat>, cores: seq<Core>, isolated: set<int>,
                         current: Pins, performance: set<int>)
    requires named != []
    ensures var out := Assignment(units, CpuText.RangeText(named), cores, isolated, current, performance);
      && out.Keys == Elements(units)
      && (forall u :: u in units ==> out[u] == CpuText.SetOf(named))
      && RadiodCoreShortfall(units, CpuText.RangeText(named), cores, isolated, performance) == 0
  {
    CpuText.RangeTextIsStripped(named);
    CpuText.MaskOfRangeText(named);
    assert Override(CpuText.RangeText(named)) == CpuText.SetOf(named);
    assert named[0] in CpuText.SetOf(named);
    hide *;
    OverrideWins(units, CpuText.RangeText(named), cores, isolated, current, performance);
  }
}
