/** Laying out a Proxmox host's CPUs for the sigmond guest, and where the
    guest's own placement then lands (lib/sigmond/cpu.py). */
module HostLayout {
  import opened Lists
  import opened CpuPlacement
  import CpuAssign

  /** The two host CPUs of one physical core, in order. */
  datatype Pair = Pair(lo: int, hi: int)

  datatype Layout = Layout(vmPairs: seq<Pair>, radiodPairs: seq<Pair>, workerPairs: seq<Pair>)

  datatype Result = Ok(layout: Layout) | NoRadiod | NotSmtPairs | TooFewPairs(need: int)

  function SortPair(p: seq<int>): Pair
    requires |p| == 2
  {
    if p[0] <= p[1] then Pair(p[0], p[1]) else Pair(p[1], p[0])
  }

  function SortPairs(pairs: seq<seq<int>>): (r: seq<Pair>)
    requires forall p :: p in pairs ==> |p| == 2
    ensures |r| == |pairs|
    ensures forall k :: 0 <= k < |pairs| ==> r[k] == SortPair(pairs[k])
  {
    if pairs == [] then []
    else
      assert pairs[0] in pairs;
      [SortPair(pairs[0])] + SortPairs(pairs[1..])
  }

  /** `s[:n]` */
  function Take<T>(s: seq<T>, n: int): seq<T> {
    if n < 0 then (if -n <= |s| then s[..|s| + n] else [])
    else if n <= |s| then s[..n] else s
  }

  function ComputeHostCpuLayout(pairs: seq<seq<int>>, radiods: int, reserve: int): Result {
    if radiods < 1 then NoRadiod
    else if pairs == [] || exists p :: p in pairs && |p| != 2 then NotSmtPairs
    else
      var need := reserve + radiods + 1;
      if |pairs| < need then TooFewPairs(need)
      else
        var vm := Take(SortPairs(pairs), |pairs| - reserve);
        var radiod := LastN(vm, radiods);
        Ok(Layout(vm, radiod, vm[..|vm| - |radiod|]))
  }

  /** The pairs' CPUs in pair order: guest CPU `i` runs on host CPU `Flat(vmPairs)[i]`. */
  function Flat(pairs: seq<Pair>): seq<int> {
    if pairs == [] then [] else [pairs[0].lo, pairs[0].hi] + Flat(pairs[1..])
  }

  lemma {:induction false} FlatAt(pairs: seq<Pair>, k: nat)
    requires k < |pairs|
    ensures |Flat(pairs)| == 2 * |pairs|
    ensures Flat(pairs)[2 * k] == pairs[k].lo && Flat(pairs)[2 * k + 1] == pairs[k].hi
  {
    if |pairs| == 1 {
      assert pairs[1..] == [];
    } else {
      FlatAt(pairs[1..], if k == 0 then 0 else k - 1);
    }
  }

  /** Host pairs share no CPU, and each has two. */
  predicate DisjointPairs(pairs: seq<seq<int>>) {
    && (forall k :: 0 <= k < |pairs| ==> |pairs[k]| == 2 && pairs[k][0] != pairs[k][1])
    && (forall j, k :: 0 <= j < k < |pairs| ==> forall x, y :: x in pairs[j] && y in pairs[k] ==> x != y)
  }

  /** One of a pair's two CPUs. */
  function Half(p: Pair, i: nat): int {
    if i % 2 == 0 then p.lo else p.hi
  }

  lemma HalfIsInPair(pairs: seq<seq<int>>, k: nat, i: nat)
    requires DisjointPairs(pairs) && k < |pairs|
    ensures Half(SortPair(pairs[k]), i) in pairs[k]
    ensures Half(SortPair(pairs[k]), 0) != Half(SortPair(pairs[k]), 1)
  {
    assert pairs[k][0] in pairs[k] && pairs[k][1] in pairs[k];
  }

  lemma HalvesDiffer(pairs: seq<seq<int>>, i: nat, j: nat)
    requires DisjointPairs(pairs) && i < j < 2 * |pairs|
    ensures Half(SortPair(pairs[i / 2]), i) != Half(SortPair(pairs[j / 2]), j)
  {
    HalfIsInPair(pairs, i / 2, i);
    HalfIsInPair(pairs, j / 2, j);
    if i / 2 == j / 2 {
      assert i % 2 == 0 && j % 2 == 1;
    }
  }

  /** The guest's pairs are the first of the host's, each in order. */
  lemma VmPairIs(pairs: seq<seq<int>>, radiods: int, reserve: int, k: nat)
    requires ComputeHostCpuLayout(pairs, radiods, reserve).Ok?
    requires k < |ComputeHostCpuLayout(pairs, radiods, reserve).layout.vmPairs|
    ensures k < |pairs| && |pairs[k]| == 2
    ensures ComputeHostCpuLayout(pairs, radiods, reserve).layout.vmPairs[k] == SortPair(pairs[k])
  {
    assert pairs[k] in pairs;
  }

  /** Distinct guest CPUs run on distinct host CPUs. */
  lemma VcpuMapIsInjective(pairs: seq<seq<int>>, radiods: int, reserve: int, i: nat, j: nat)
    requires DisjointPairs(pairs)
    requires ComputeHostCpuLayout(pairs, radiods, reserve).Ok?
    requires var vm := ComputeHostCpuLayout(pairs, radiods, reserve).layout.vmPairs;
      i < j < |Flat(vm)|
    ensures var vcpuToPcpu := Flat(ComputeHostCpuLayout(pairs, radiods, reserve).layout.vmPairs);
      vcpuToPcpu[i] != vcpuToPcpu[j]
  {
    var vm := ComputeHostCpuLayout(pairs, radiods, reserve).layout.vmPairs;
    FlatLength(vm);
    FlatIndex(vm, i);
    FlatIndex(vm, j);
    VmPairIs(pairs, radiods, reserve, i / 2);
    VmPairIs(pairs, radiods, reserve, j / 2);
    HalvesDiffer(pairs, i, j);
    hide *;
  }

  lemma {:induction false} FlatLength(pairs: seq<Pair>)
    ensures |Flat(pairs)| == 2 * |pairs|
  {
    if pairs == [] {
    } else {
      FlatLength(pairs[1..]);
    }
  }

  lemma FlatIndex(pairs: seq<Pair>, i: nat)
    requires i < 2 * |pairs|
    ensures |Flat(pairs)| == 2 * |pairs|
    ensures Flat(pairs)[i] == Half(pairs[i / 2], i)
  {
    FlatAt(pairs, i / 2);
    assert i == 2 * (i / 2) + i % 2;
  }

  /** The cores a guest with `n` of them sees: {0,1}, {2,3}, ... */
  function GuestCores(n: nat): (r: seq<Core>)
    ensures |r| == n
    ensures forall k :: 0 <= k < n ==> r[k] == {2 * k, 2 * k + 1}
  {
    if n == 0 then [] else GuestCores(n - 1) + [{2 * (n - 1), 2 * (n - 1) + 1}]
  }

  /** The host CPUs that a set of guest CPUs runs on. */
  ghost function HostCpus(guest: Core, vcpuToPcpu: seq<int>): set<int> {
    set i | i in guest && 0 <= i < |vcpuToPcpu| :: vcpuToPcpu[i]
  }

  lemma GuestCoresAreDisjoint(n: nat)
    ensures Disjoint(GuestCores(n))
  {
    var cores := GuestCores(n);
    forall i | 0 <= i < n ensures cores[i] != {} {
      assert 2 * i in cores[i];
    }
  }

  lemma {:induction false} AllButFirstPass(cores: seq<Core>)
    requires forall i :: 0 <= i < |cores| ==> 0 !in cores[i]
    ensures OffBoot(cores) == cores
  {
    if cores == [] {
    } else {
      AllButFirstPass(cores[1..]);
    }
  }

  lemma GuestOffBoot(n: nat)
    requires 0 < n
    ensures OffBoot(GuestCores(n)) == GuestCores(n)[1..]
  {
    var cores := GuestCores(n);
    assert 0 in cores[0];
    AllButFirstPass(cores[1..]);
  }

  /** A guest places radiod off its first core only. */
  lemma GuestChoice(n: nat, units: seq<string>)
    requires 0 < |units| < n
    ensures CpuAssign.Chosen(units, GuestCores(n), {}, {}) == LastN(GuestCores(n), |units|)
  {
    var cores := GuestCores(n);
    GuestOffBoot(n);
    assert EligibleRadiodCores(cores, {}, |units|, {}) == cores[1..];
  }

  lemma HostCpusOfTwo(i: int, j: int, vcpuToPcpu: seq<int>)
    requires 0 <= i < |vcpuToPcpu| && 0 <= j < |vcpuToPcpu|
    ensures HostCpus({i, j}, vcpuToPcpu) == {vcpuToPcpu[i], vcpuToPcpu[j]}
  {
    assert i in {i, j} && j in {i, j};
  }

  /** Guest core `k` lands whole on host pair `k`. */
  lemma GuestCoreLandsOnPair(vm: seq<Pair>, k: nat)
    requires k < |vm|
    ensures HostCpus(GuestCores(|vm|)[k], Flat(vm)) == {vm[k].lo, vm[k].hi}
  {
    FlatAt(vm, k);
    HostCpusOfTwo(2 * k, 2 * k + 1, Flat(vm));
  }

  lemma GuestUnitsInOrder(n: nat, units: seq<string>, k: nat)
    requires NoDup(units) && k < |units| < n
    ensures var out := CpuAssign.Distribute(units, map[], CpuAssign.Chosen(units, GuestCores(n), {}, {}));
      units[k] in out && out[units[k]] == GuestCores(n)[n - |units| + k]
  {
    GuestChoice(n, units);
    GuestCoresAreDisjoint(n);
    FreshUnitsInOrder(units, LastN(GuestCores(n), |units|), k);
    hide CpuAssign.Distribute, CpuAssign.Chosen, GuestCores, Disjoint;
  }

  lemma LayoutShape(pairs: seq<seq<int>>, radiods: int, reserve: int)
    requires reserve >= 0 && ComputeHostCpuLayout(pairs, radiods, reserve).Ok?
    ensures var layout := ComputeHostCpuLayout(pairs, radiods, reserve).layout;
      && |layout.radiodPairs| == radiods > 0 && layout.workerPairs != []
      && layout.vmPairs == layout.workerPairs + layout.radiodPairs
  {
  }

  /** The guest's own radiod placement, carried through the CPU map, is the
      host's radiod pairs: unit by unit, and never a worker or reserved pair. */
  lemma GuestPlacementIsHostLayout(pairs: seq<seq<int>>, radiods: int, reserve: int, units: seq<string>)
    requires reserve >= 0 && ComputeHostCpuLayout(pairs, radiods, reserve).Ok?
    requires NoDup(units) && |units| == radiods
    ensures var layout := ComputeHostCpuLayout(pairs, radiods, reserve).layout;
      var out := CpuAssign.Distribute(units, map[], CpuAssign.Chosen(units, GuestCores(|layout.vmPairs|), {}, {}));
      && |layout.radiodPairs| == radiods && layout.workerPairs != []
      && layout.vmPairs == layout.workerPairs + layout.radiodPairs
      && forall k :: 0 <= k < radiods ==>
           units[k] in out
           && HostCpus(out[units[k]], Flat(layout.vmPairs)) == {layout.radiodPairs[k].lo, layout.radiodPairs[k].hi}
  {
    LayoutShape(pairs, radiods, reserve);
    hide *;
    var layout := ComputeHostCpuLayout(pairs, radiods, reserve).layout;
    var n := |layout.vmPairs|;
    var out := CpuAssign.Distribute(units, map[], CpuAssign.Chosen(units, GuestCores(n), {}, {}));
    forall k | 0 <= k < radiods
      ensures units[k] in out
      ensures HostCpus(out[units[k]], Flat(layout.vmPairs)) == {layout.radiodPairs[k].lo, layout.radiodPairs[k].hi}
    {
      GuestUnitsInOrder(n, units, k);
      GuestCoreLandsOnPair(layout.vmPairs, n - radiods + k);
    }
  }

  /** Units that have no pins yet take the chosen cores in order. */
  lemma FreshUnitsInOrder(units: seq<string>, chosen: seq<Core>, k: nat)
    requires NoDup(units) && k < |units| == |chosen| && forall c :: c in chosen ==> c != {}
    ensures units[k] in CpuAssign.Distribute(units, map[], chosen)
    ensures CpuAssign.Distribute(units, map[], chosen)[units[k]] == chosen[k]
  {
    NothingKept(units, chosen);
    PlacedInOrder(units, chosen, |units|);
    assert units[..|units|] == units;
  }

  lemma {:induction false} NothingKept(units: seq<string>, chosen: seq<Core>)
    requires forall c :: c in chosen ==> c != {}
    ensures CpuAssign.Keep(units, map[], chosen) == CpuAssign.Placement(map[], chosen)
  {
    if units == [] {
    } else {
      NothingKept(units[..|units| - 1], chosen);
    }
  }

  lemma PlaceOne(units: seq<string>, u: string, p: CpuAssign.Placement, chosen: seq<Core>)
    ensures CpuAssign.Place(units + [u], p, chosen)
      == CpuAssign.PlaceStep(CpuAssign.Place(units, p, chosen), u, chosen)
  {
    assert (units + [u])[..|units|] == units;
  }

  /** The first `n` units have the first `n` cores, and the others are free. */
  ghost predicate InOrder(p: CpuAssign.Placement, units: seq<string>, chosen: seq<Core>, n: nat)
    requires n <= |units| == |chosen|
  {
    && p.free == chosen[n..]
    && (forall u :: u in p.out ==> u in units[..n])
    && forall i :: 0 <= i < n ==> units[i] in p.out && p.out[units[i]] == chosen[i]
  }

  lemma PlacesNext(p: CpuAssign.Placement, units: seq<string>, chosen: seq<Core>, n: nat)
    requires NoDup(units) && n < |units| == |chosen| && InOrder(p, units, chosen, n)
    ensures InOrder(CpuAssign.PlaceStep(p, units[n], chosen), units, chosen, n + 1)
  {
    assert units[n] !in units[..n];
    assert units[..n + 1] == units[..n] + [units[n]];
    assert chosen[n..][0] == chosen[n] && chosen[n..][1..] == chosen[n + 1..];
  }

  lemma {:induction false} PlacedInOrder(units: seq<string>, chosen: seq<Core>, n: nat)
    requires NoDup(units) && n <= |units| == |chosen|
    ensures InOrder(CpuAssign.Place(units[..n], CpuAssign.Placement(map[], chosen), chosen), units, chosen, n)
  {
    var none := CpuAssign.Placement(map[], chosen);
    if n == 0 {
    } else {
      PlacedInOrder(units, chosen, n - 1);
      assert units[..n] == units[..n - 1] + [units[n - 1]];
      PlaceOne(units[..n - 1], units[n - 1], none, chosen);
      hide *;
      PlacesNext(CpuAssign.Place(units[..n - 1], none, chosen), units, chosen, n - 1);
    }
  }

  // ---- when there is a layout ----

  /** A layout is refused exactly when there is no radiod to lay out, when some
      core has not two CPUs or there is none, or when the pairs do not cover the
      reserve, the radiods and one worker. */
  lemma LayoutExists(pairs: seq<seq<int>>, radiods: int, reserve: int)
    ensures var r := ComputeHostCpuLayout(pairs, radiods, reserve);
      && (r.Ok? <==>
            radiods >= 1 && pairs != [] && (forall p :: p in pairs ==> |p| == 2) && |pairs| > reserve + radiods)
      && (r.NoRadiod? <==> radiods <= 0)
      && (r.NotSmtPairs? ==> pairs == [] || exists p :: p in pairs && |p| != 2)
      && (r.TooFewPairs? ==> r.need == reserve + radiods + 1 > |pairs|)
  {
  }

  lemma SortedPairIs(p: seq<int>)
    requires |p| == 2
    ensures SortPair(p).lo <= SortPair(p).hi && {SortPair(p).lo, SortPair(p).hi} == Elements(p)
  {
    assert p == [p[0], p[1]];
  }

  lemma VmSize(pairs: seq<seq<int>>, radiods: int, reserve: nat)
    requires ComputeHostCpuLayout(pairs, radiods, reserve).Ok?
    ensures |ComputeHostCpuLayout(pairs, radiods, reserve).layout.vmPairs| == |pairs| - reserve
  {
    hide SortPair;
  }

  /** The guest owns all but the last `reserve` pairs, the radiods the last of
      the guest's, and the workers the rest. */
  lemma LayoutDividesThePairs(pairs: seq<seq<int>>, radiods: int, reserve: nat)
    requires ComputeHostCpuLayout(pairs, radiods, reserve).Ok?
    ensures var l := ComputeHostCpuLayout(pairs, radiods, reserve).layout;
      && |l.vmPairs| == |pairs| - reserve && |l.radiodPairs| == radiods
      && l.workerPairs + l.radiodPairs == l.vmPairs && l.workerPairs != []
      && forall k :: 0 <= k < |l.vmPairs| ==>
           l.vmPairs[k].lo <= l.vmPairs[k].hi && {l.vmPairs[k].lo, l.vmPairs[k].hi} == Elements(pairs[k])
  {
    LayoutShape(pairs, radiods, reserve);
    VmSize(pairs, radiods, reserve);
    hide *;
    var vm := ComputeHostCpuLayout(pairs, radiods, reserve).layout.vmPairs;
    forall k | 0 <= k < |vm|
      ensures vm[k].lo <= vm[k].hi && {vm[k].lo, vm[k].hi} == Elements(pairs[k]) {
      VmPairIs(pairs, radiods, reserve, k);
      SortedPairIs(pairs[k]);
    }
  }
}
