/** Rolling an update out over a fleet of stations: one canary host first, then
    the rest, stopping at the first host not seen to arrive
    (lib/sigmond/fleet.py).

    What a remote command prints is chosen freely; every command sent and every
    answer is kept in a trace. */
module Fleet {
  import opened Lists
  import opened Text

  /** A host of the inventory; `frozen` is the reason it is left alone, if any. */
  datatype Host = Host(name: string, frozen: string, canary: bool)

  predicate Live(h: Host) {
    h.frozen == ""
  }

  predicate Frozen(h: Host) {
    !Live(h)
  }

  /** The inventory is keyed by host name. */
  predicate Inventory(fleet: seq<Host>) {
    forall i, j :: 0 <= i < j < |fleet| ==> fleet[i].name != fleet[j].name
  }

  datatype Command = Probe | PlanUpdate | ApplyUpdate | Version

  datatype Reply = Reply(rc: int, out: string, err: string)

  const HELD_EXIT := 3
  const CURRENT_SENTINEL := "nothing to do"
  const NO_SMD_MARKERS := ["command not found", "No such file or directory"]

  predicate Contains(text: string, part: string) {
    exists i :: 0 <= i <= |text| - |part| && part <= text[i..]
  }

  /** The reply is taken for that of a host without smd: a failure with exit code
      127, or one that names a missing command or file anywhere. */
  predicate SmdAbsent(r: Reply) {
    && r.rc != 0
    && (r.rc == 127 || exists m :: m in NO_SMD_MARKERS && Contains(r.err + r.out, m))
  }

  /** `smd update` ended well, perhaps holding components back. */
  predicate PlanEnded(r: Reply) {
    r.rc == 0 || r.rc == HELD_EXIT
  }

  predicate SaysCurrent(r: Reply) {
    PlanEnded(r) && Contains(r.out, CURRENT_SENTINEL)
  }

  /** A failed plan whose error output is only white space: its stripped error
      text is empty, so it reads as no error. */
  predicate FailsSilently(r: Reply) {
    !PlanEnded(r) && r.err != "" && Strip(r.err) == ""
  }

  datatype Event = Ran(host: string, command: Command, reply: Reply) | Placed(host: string, behind: Option<int>)

  predicate IsRan(e: Event, c: Command) {
    e.Ran? && e.command == c
  }

  datatype HostUpdate = HostUpdate(host: Host, reachable: bool, hasSigmond: bool, skipped: bool, halted: bool,
                                   emptyPlan: bool, applied: bool, verified: Option<bool>, behind: Option<int>,
                                   error: bool)

  function Untouched(h: Host): HostUpdate {
    HostUpdate(h, true, true, false, false, false, false, None, None, false)
  }

  function Skipped(h: Host): HostUpdate {
    Untouched(h).(skipped := true)
  }

  function Halted(h: Host): HostUpdate {
    Untouched(h).(halted := true)
  }

  predicate Verified(u: HostUpdate) {
    u.verified == Some(true)
  }

  // ---- one host ----

  ghost predicate Concerns(h: Host, seg: seq<Event>) {
    forall k :: 0 <= k < |seg| ==> seg[k].host == h.name
  }

  /** The station was asked for nothing more than its version. */
  ghost predicate OnlyPlaced(seg: seq<Event>, start: nat) {
    forall k :: start <= k < |seg| ==> !IsRan(seg[k], PlanUpdate) && !IsRan(seg[k], ApplyUpdate)
  }

  ghost predicate Begun(h: Host, seg: seq<Event>, u: HostUpdate) {
    && u.host == h && !u.skipped && !u.halted
    && seg != [] && Concerns(h, seg) && IsRan(seg[0], Probe)
    && u.reachable == (seg[0].reply.rc == 0)
    && (u.reachable ==> |seg| >= 2 && IsRan(seg[1], PlanUpdate))
    && (!u.reachable ==> |seg| == 1)
  }

  /** The host was found level with main. */
  ghost predicate Level(h: Host, seg: seq<Event>) {
    seg != [] && seg[|seg| - 1] == Placed(h.name, Some(0))
  }

  /** What planning one host shows. */
  ghost predicate Planned(h: Host, positions: bool, seg: seq<Event>, u: HostUpdate) {
    && Begun(h, seg, u) && !u.applied && u.verified == None && OnlyPlaced(seg, 2)
    && (u.reachable ==>
          var r := seg[1].reply;
          && u.hasSigmond == !SmdAbsent(r)
          && u.emptyPlan == (!SmdAbsent(r) && SaysCurrent(r))
          && u.error == (!SmdAbsent(r) && !PlanEnded(r) && !FailsSilently(r))
          && (!u.emptyPlan ==> |seg| == 2)
          && (u.emptyPlan && positions ==> (u.behind == Some(0) <==> Level(h, seg))))
  }

  /** Why a host counts as arrived: it runs no sigmond, or the last thing it
      answered to an update command was that there is nothing to do, and,
      where positions can be had, it was then found level with main. */
  ghost predicate Arrived(h: Host, positions: bool, seg: seq<Event>) {
    && |seg| >= 2 && IsRan(seg[0], Probe) && seg[0].reply.rc == 0 && IsRan(seg[1], PlanUpdate)
    && (SmdAbsent(seg[1].reply) || (SaidCurrentLast(seg) && (positions ==> Level(h, seg))))
  }

  ghost predicate SaidCurrentLast(seg: seq<Event>) {
    exists k :: 0 <= k < |seg| && IsRan(seg[k], PlanUpdate) && SaysCurrent(seg[k].reply) && OnlyPlaced(seg, k + 1)
  }

  /** The update is applied when the plan was not empty and showed no error. */
  ghost predicate Applies(seg: seq<Event>) {
    && |seg| >= 2 && seg[0].Ran? && seg[0].reply.rc == 0 && seg[1].Ran?
    && var r := seg[1].reply;
      !SmdAbsent(r) && (if PlanEnded(r) then !SaysCurrent(r) else FailsSilently(r))
  }

  /** What updating one host shows. */
  ghost predicate Visited(h: Host, positions: bool, seg: seq<Event>, u: HostUpdate) {
    && Begun(h, seg, u)
    && (Verified(u) <==> Arrived(h, positions, seg))
    && (u.applied <==> Applies(seg))
    && (u.applied <==> |seg| > 2 && IsRan(seg[2], ApplyUpdate))
    && (!u.applied ==> OnlyPlaced(seg, 2))
    && forall k :: 0 <= k < |seg| && IsRan(seg[k], ApplyUpdate) ==> k == 2
  }

  class Network {
    /** Whether commits behind main can be counted. */
    const positions: bool
    var trace: seq<Event>

    constructor (positions: bool)
      ensures this.positions == positions && trace == []
    {
      this.positions, trace := positions, [];
    }

    method Run(h: Host, c: Command) returns (r: Reply)
      modifies this
      ensures trace == old(trace) + [Ran(h.name, c, r)]
    {
      r := *;
      trace := trace + [Ran(h.name, c, r)];
    }

    method TruePosition(h: Host) returns (behind: Option<int>, ghost seg: seq<Event>)
      modifies this
      ensures trace == old(trace) + seg && Concerns(h, seg) && OnlyPlaced(seg, 0)
      ensures !positions ==> seg == []
      ensures positions ==> (behind == Some(0) <==> Level(h, seg))
    {
      if !positions {
        return None, [];
      }
      var r := Run(h, Version);
      seg := [Ran(h.name, Version, r)];
      if r.rc != 0 {
        return None, seg;
      }
      behind := *;
      trace := trace + [Placed(h.name, behind)];
      seg := seg + [Placed(h.name, behind)];
    }

    method PlanOnly(h: Host) returns (u: HostUpdate, ghost seg: seq<Event>)
      modifies this
      ensures trace == old(trace) + seg && Planned(h, positions, seg, u)
    {
      var probe := Run(h, Probe);
      seg := [Ran(h.name, Probe, probe)];
      if probe.rc != 0 {
        return Untouched(h).(reachable := false, error := true), seg;
      }
      var result := Run(h, PlanUpdate);
      seg := seg + [Ran(h.name, PlanUpdate, result)];
      if SmdAbsent(result) {
        return Untouched(h).(hasSigmond := false), seg;
      }
      if !PlanEnded(result) {
        return Untouched(h).(error := !FailsSilently(result)), seg;
      }
      var empty := SaysCurrent(result);
      var behind: Option<int> := None;
      if empty {
        ghost var more;
        behind, more := TruePosition(h);
        LevelAfter(h, seg, more);
        seg := seg + more;
      }
      u := Untouched(h).(emptyPlan := empty, behind := behind);
    }

    /** Whether the host reached the target, asked after applying. */
    method HasArrived(h: Host) returns (verified: bool, ghost seg: seq<Event>)
      modifies this
      ensures trace == old(trace) + seg && Concerns(h, seg)
      ensures seg != [] && IsRan(seg[0], PlanUpdate) && OnlyPlaced(seg, 1)
      ensures verified <==> SaysCurrent(seg[0].reply) && (positions ==> Level(h, seg))
    {
      var recheck := Run(h, PlanUpdate);
      seg := [Ran(h.name, PlanUpdate, recheck)];
      if !SaysCurrent(recheck) {
        return false, seg;
      }
      if !positions {
        return true, seg;
      }
      var behind, more := TruePosition(h);
      LevelAfter(h, seg, more);
      seg := seg + more;
      verified := behind == Some(0);
    }

    method UpdateOne(h: Host) returns (u: HostUpdate, ghost seg: seq<Event>)
      modifies this
      ensures trace == old(trace) + seg && Visited(h, positions, seg, u)
    {
      u, seg := PlanOnly(h);
      if !u.reachable || u.error {
        return;
      }
      if !u.hasSigmond {
        return Untouched(h).(hasSigmond := false, verified := Some(true)), seg;
      }
      if u.emptyPlan {
        assert IsRan(seg[1], PlanUpdate) && SaysCurrent(seg[1].reply) && OnlyPlaced(seg, 2);
        var verified := !positions || u.behind == Some(0);
        return u.(verified := Some(verified), error := !verified), seg;
      }
      var applied := Run(h, ApplyUpdate);
      seg := seg + [Ran(h.name, ApplyUpdate, applied)];
      u := Untouched(h).(applied := true);
      if applied.rc != 0 {
        return u.(verified := Some(false), error := true), seg;
      }
      var verified, more := HasArrived(h);
      LevelAfter(h, seg, more);
      ghost var before := seg;
      seg := seg + more;
      assert seg[3] == more[0];
      assert verified && SaysCurrent(seg[3].reply) ==> SaidCurrentLast(seg) by {
        assert IsRan(seg[3], PlanUpdate) && OnlyPlaced(seg, 4);
      }
      u := u.(verified := Some(verified), error := !verified);
    }

    /** The hosts in `order` one after another, until one is not verified. */
    method Wave(order: seq<Host>) returns (us: seq<HostUpdate>, ghost segs: seq<seq<Event>>)
      modifies this
      ensures trace == old(trace) + Flatten(segs) && RolledOut(order, positions, segs, us)
    {
      us, segs := [], [];
      var halted := false;
      NothingRolledOut(positions);
      Nothing(trace);
      hide *;
      for k := 0 to |order|
        invariant trace == old(trace) + Flatten(segs)
        invariant RolledOut(order[..k], positions, segs, us)
        invariant halted == !AllVerified(us)
      {
        var u: HostUpdate;
        ghost var seg: seq<Event> := [];
        if halted {
          u := Halted(order[k]);
        } else {
          u, seg := UpdateOne(order[k]);
          halted := !Verified(u);
        }
        ReachedIs(order[k], positions, seg, us, u);
        RolledOutAppend(order[..k], order[k], positions, segs, seg, us, u);
        assert order[..k + 1] == order[..k] + [order[k]];
        Grouped(old(trace), Flatten(segs), seg);
        Nothing(trace);
        us, segs := us + [u], segs + [seg];
      }
      assert order[..|order|] == order;
    }

    method DryRun(hosts: seq<Host>) returns (us: seq<HostUpdate>, ghost segs: seq<seq<Event>>)
      modifies this
      ensures trace == old(trace) + Flatten(segs) && Surveyed(hosts, positions, segs, us)
    {
      us, segs := [], [];
      for k := 0 to |hosts|
        invariant trace == old(trace) + Flatten(segs)
        invariant Surveyed(hosts[..k], positions, segs, us)
      {
        var u, seg := PlanOnly(hosts[k]);
        FlattenAppend(segs, seg);
        us, segs := us + [u], segs + [seg];
      }
      assert hosts[..|hosts|] == hosts;
    }

    /** `smd fleet update`, a dry run unless `apply`. */
    method FleetUpdate(fleet: seq<Host>, apply: bool)
      returns (r: Outcome, ghost us: seq<HostUpdate>, ghost segs: seq<seq<Event>>)
      requires Inventory(fleet)
      modifies this
      ensures trace == old(trace) + Flatten(segs)
      ensures apply && !ChooseCanary(fleet).Leader? ==> r == Refused(ChooseCanary(fleet)) && segs == []
      ensures apply && ChooseCanary(fleet).Leader? ==>
        RolledOut(Contacts(fleet, ChooseCanary(fleet).host), positions, segs, us)
      ensures !apply ==> Surveyed(Filter(fleet, Live), positions, segs, us)
      ensures !apply || ChooseCanary(fleet).Leader? ==>
        && r.Report? && |r.results| == |fleet|
        && (forall i :: 0 <= i < |fleet| ==> r.results[i].host == fleet[i])
        && (forall u :: u in r.results <==> u in us || (u.host in fleet && !Live(u.host) && u == Skipped(u.host)))
    {
      var results := SkipFrozen(fleet);
      if !apply {
        var done: seq<HostUpdate>;
        done, segs := DryRun(Filter(fleet, Live));
        us := done;
        FilterNoDup(fleet, Live);
        assert Hosts(us) == Filter(fleet, Live);
        ResultsCoverFleet(fleet, Filter(fleet, Live), results, us);
        return Report(InInventoryOrder(fleet, results + done)), us, segs;
      }
      var choice := ChooseCanary(fleet);
      if !choice.Leader? {
        return Refused(choice), [], [];
      }
      var done: seq<HostUpdate>;
      done, segs := Wave(Contacts(fleet, choice.host));
      us := done;
      ContactsAreTheLiveHosts(fleet);
      HostsOfWave(Contacts(fleet, choice.host), positions, segs, us);
      ResultsCoverFleet(fleet, Contacts(fleet, choice.host), results, us);
      r := Report(InInventoryOrder(fleet, results + done));
    }
  }

  lemma LevelAfter(h: Host, seg: seq<Event>, more: seq<Event>)
    requires seg != [] && seg[|seg| - 1].Ran?
    ensures Level(h, seg + more) <==> Level(h, more)
  {
    if more != [] {
      assert (seg + more)[|seg + more| - 1] == more[|more| - 1];
    } else {
      assert seg + more == seg;
    }
  }

  // ---- who goes first ----

  datatype Choice = Leader(host: Host) | NoCanary | AmbiguousCanary

  function ChooseCanary(fleet: seq<Host>): Choice {
    var marked := Filter(fleet, (h: Host) => h.canary);
    if |marked| > 1 then AmbiguousCanary
    else if |marked| == 1 then (if Live(marked[0]) then Leader(marked[0]) else NoCanary)
    else
      var eligible := Filter(fleet, Live);
      if |eligible| == 1 then Leader(eligible[0]) else NoCanary
  }

  predicate OnlyOne(fleet: seq<Host>, p: Host -> bool, h: Host) {
    h in fleet && p(h) && forall g :: g in fleet && p(g) ==> g == h
  }

  lemma OnlyOneFiltered(fleet: seq<Host>, p: Host -> bool, h: Host)
    requires NoDup(fleet)
    ensures Filter(fleet, p) == [h] <==> OnlyOne(fleet, p, h)
  {
    var f := Filter(fleet, p);
    FilterNoDup(fleet, p);
    assert |f| > 1 ==> f[0] != f[1];
    if f == [h] {
      assert h in f;
    }
    if OnlyOne(fleet, p, h) {
      assert h in f;
      forall i | 0 <= i < |f| ensures f[i] == h {
        assert f[i] in f;
      }
      assert f == [h];
    }
  }

  /** A host leads exactly when it is not frozen and is the one host marked, or
      no host is marked and it is the only one not frozen. */
  lemma LeaderIsDeclared(fleet: seq<Host>, h: Host)
    requires Inventory(fleet)
    ensures ChooseCanary(fleet) == Leader(h) <==>
      || (h.frozen == "" && OnlyOne(fleet, (g: Host) => g.canary, h))
      || (OnlyOne(fleet, (g: Host) => g.frozen == "", h) && forall g :: g in fleet ==> !g.canary)
  {
    var marks := (g: Host) => g.canary;
    OnlyOneFiltered(fleet, marks, h);
    OnlyOneFiltered(fleet, Live, h);
    var marked, eligible := Filter(fleet, marks), Filter(fleet, Live);
    if marked == [] {
      forall g | g in fleet ensures !g.canary {
        assert g !in marked;
      }
    } else {
      assert marked[0] in marked;
    }
    assert |marked| == 1 ==> marked == [marked[0]];
    assert |eligible| == 1 ==> eligible == [eligible[0]];
  }

  // ---- the whole fleet ----

  datatype Outcome = Refused(why: Choice) | Report(results: seq<HostUpdate>)

  /** The order in which hosts are reached for: the canary, then the others. */
  function Contacts(fleet: seq<Host>, canary: Host): seq<Host> {
    [canary] + Filter(fleet, (h: Host) => Live(h) && h.name != canary.name)
  }

  function Flatten(segs: seq<seq<Event>>): seq<Event> {
    if segs == [] then [] else Flatten(segs[..|segs| - 1]) + segs[|segs| - 1]
  }

  lemma FlattenAppend(segs: seq<seq<Event>>, seg: seq<Event>)
    ensures Flatten(segs + [seg]) == Flatten(segs) + seg
  {
    assert (segs + [seg])[..|segs|] == segs;
  }

  ghost predicate AllVerified(us: seq<HostUpdate>) {
    forall k :: 0 <= k < |us| ==> Verified(us[k])
  }

  /** Each host is visited when all hosts before it were verified, and
      otherwise reported halted without being contacted. */
  ghost predicate RolledOut(order: seq<Host>, positions: bool, segs: seq<seq<Event>>, us: seq<HostUpdate>) {
    && |order| == |segs| == |us|
    && (order == [] ||
        var n := |order| - 1;
        && RolledOut(order[..n], positions, segs[..n], us[..n])
        && Reached(order[n], positions, segs[n], us[..n], us[n]))
  }

  ghost predicate Reached(h: Host, positions: bool, seg: seq<Event>, before: seq<HostUpdate>, u: HostUpdate) {
    if AllVerified(before) then Visited(h, positions, seg, u) else seg == [] && u == Halted(h)
  }

  lemma NothingRolledOut(positions: bool)
    ensures Flatten([]) == [] && RolledOut([], positions, [], []) && AllVerified([])
  {
  }

  lemma ReachedIs(h: Host, positions: bool, seg: seq<Event>, before: seq<HostUpdate>, u: HostUpdate)
    ensures AllVerified(before) && Visited(h, positions, seg, u) ==> Reached(h, positions, seg, before, u)
    ensures !AllVerified(before) && seg == [] && u == Halted(h) ==> Reached(h, positions, seg, before, u)
  {
  }

  lemma RolledOutAppend(order: seq<Host>, h: Host, positions: bool, segs: seq<seq<Event>>,
                        seg: seq<Event>, us: seq<HostUpdate>, u: HostUpdate)
    requires RolledOut(order, positions, segs, us) && Reached(h, positions, seg, us, u)
    ensures RolledOut(order + [h], positions, segs + [seg], us + [u])
    ensures AllVerified(us + [u]) <==> AllVerified(us) && Verified(u)
    ensures Flatten(segs + [seg]) == Flatten(segs) + seg
  {
    FlattenAppend(segs, seg);
    assert (order + [h])[..|order|] == order && (segs + [seg])[..|segs|] == segs && (us + [u])[..|us|] == us;
    assert (us + [u])[|us|] == u;
    if AllVerified(us + [u]) {
      assert forall k :: 0 <= k < |us| ==> us[k] == (us + [u])[k];
    }
  }

  lemma {:induction false} RolledOutAt(order: seq<Host>, positions: bool, segs: seq<seq<Event>>, us: seq<HostUpdate>,
      i: nat)
    requires RolledOut(order, positions, segs, us) && i < |order|
    ensures Reached(order[i], positions, segs[i], us[..i], us[i])
  {
    var n := |order| - 1;
    if i < n {
      RolledOutAt(order[..n], positions, segs[..n], us[..n], i);
      assert us[..n][..i] == us[..i];
    }
  }

  ghost predicate Surveyed(hosts: seq<Host>, positions: bool, segs: seq<seq<Event>>, us: seq<HostUpdate>) {
    && |hosts| == |segs| == |us|
    && forall i :: 0 <= i < |hosts| ==> Planned(hosts[i], positions, segs[i], us[i])
  }

  /** `results` reports the frozen hosts of `fleet` as skipped. */
  ghost predicate SkipsFrozen(fleet: seq<Host>, results: seq<HostUpdate>) {
    && Hosts(results) == Filter(fleet, Frozen)
    && forall i :: 0 <= i < |results| ==> results[i] == Skipped(results[i].host)
  }

  lemma SkipsFrozenAppend(fleet: seq<Host>, k: nat, results: seq<HostUpdate>)
    requires k < |fleet| && SkipsFrozen(fleet[..k], results)
    ensures SkipsFrozen(fleet[..k + 1], if Live(fleet[k]) then results else results + [Skipped(fleet[k])])
  {
    var h := fleet[k];
    assert fleet[..k + 1] == fleet[..k] + [h];
    FilterAppend(fleet[..k], h, Frozen);
    HostsConcat(results, [Skipped(h)]);
    assert Hosts([Skipped(h)]) == [h];
    assert Live(h) <==> !Frozen(h);
    hide Filter, Hosts, Frozen, Live;
  }

  method SkipFrozen(fleet: seq<Host>) returns (results: seq<HostUpdate>)
    ensures SkipsFrozen(fleet, results)
  {
    results := [];
    assert SkipsFrozen([], results);
    hide *;
    for k := 0 to |fleet|
      invariant SkipsFrozen(fleet[..k], results)
    {
      SkipsFrozenAppend(fleet, k, results);
      if !Live(fleet[k]) {
        results := results + [Skipped(fleet[k])];
      }
    }
    assert fleet[..|fleet|] == fleet;
  }

  // ---- the report's order ----

  function Hosts(us: seq<HostUpdate>): (r: seq<Host>)
    ensures |r| == |us| && forall i :: 0 <= i < |us| ==> r[i] == us[i].host
  {
    if us == [] then [] else [us[0].host] + Hosts(us[1..])
  }

  /** Where the inventory lists a name, 0 when it does not. */
  function OrderOf(fleet: seq<Host>, name: string): (n: nat) {
    if exists i :: 0 <= i < |fleet| && fleet[i].name == name then FirstOf(fleet, name) else 0
  }

  function FirstOf(fleet: seq<Host>, name: string): (n: nat)
    requires exists i :: 0 <= i < |fleet| && fleet[i].name == name
    ensures n < |fleet| && fleet[n].name == name
  {
    if fleet[0].name == name then 0
    else
      assert exists i :: 0 <= i < |fleet[1..]| && fleet[1..][i].name == name by {
        var i :| 0 <= i < |fleet| && fleet[i].name == name;
        assert fleet[1..][i - 1].name == name;
      }
      1 + FirstOf(fleet[1..], name)
  }

  function InsertInOrder(fleet: seq<Host>, u: HostUpdate, s: seq<HostUpdate>): (r: seq<HostUpdate>)
    ensures multiset(r) == multiset{u} + multiset(s)
  {
    if s == [] || OrderOf(fleet, u.host.name) <= OrderOf(fleet, s[0].host.name) then [u] + s
    else
      assert s == [s[0]] + s[1..];
      [s[0]] + InsertInOrder(fleet, u, s[1..])
  }

  /** `sorted(results, key=inventory position)` */
  function InInventoryOrder(fleet: seq<Host>, s: seq<HostUpdate>): (r: seq<HostUpdate>)
    ensures multiset(r) == multiset(s)
  {
    if s == [] then []
    else
      assert s == [s[0]] + s[1..];
      InsertInOrder(fleet, s[0], InInventoryOrder(fleet, s[1..]))
  }

  ghost predicate Ordered(fleet: seq<Host>, s: seq<HostUpdate>) {
    forall i, j :: 0 <= i < j < |s| ==> OrderOf(fleet, s[i].host.name) <= OrderOf(fleet, s[j].host.name)
  }

  lemma OrderedCons(fleet: seq<Host>, u: HostUpdate, s: seq<HostUpdate>)
    requires Ordered(fleet, s)
    requires forall v :: v in s ==> OrderOf(fleet, u.host.name) <= OrderOf(fleet, v.host.name)
    ensures Ordered(fleet, [u] + s)
  {
    hide OrderOf;
  }

  lemma OrderedTail(fleet: seq<Host>, s: seq<HostUpdate>)
    requires Ordered(fleet, s) && s != []
    ensures Ordered(fleet, s[1..])
    ensures forall v :: v in s ==> OrderOf(fleet, s[0].host.name) <= OrderOf(fleet, v.host.name)
  {
    hide OrderOf;
  }

  lemma InsertMembers(fleet: seq<Host>, u: HostUpdate, s: seq<HostUpdate>)
    ensures forall v :: v in InsertInOrder(fleet, u, s) ==> v == u || v in s
  {
    forall v | v in InsertInOrder(fleet, u, s) ensures v == u || v in s {
      assert v in multiset(InsertInOrder(fleet, u, s));
    }
  }

  lemma {:induction false} InsertOrdered(fleet: seq<Host>, u: HostUpdate, s: seq<HostUpdate>)
    requires Ordered(fleet, s)
    ensures Ordered(fleet, InsertInOrder(fleet, u, s))
  {
    if s == [] {
      OrderedCons(fleet, u, s);
    } else if OrderOf(fleet, u.host.name) > OrderOf(fleet, s[0].host.name) {
      OrderedTail(fleet, s);
      InsertOrdered(fleet, u, s[1..]);
      InsertMembers(fleet, u, s[1..]);
      OrderedCons(fleet, s[0], InsertInOrder(fleet, u, s[1..]));
    } else {
      OrderedTail(fleet, s);
      OrderedCons(fleet, u, s);
    }
    hide Ordered, OrderOf;
  }

  lemma {:induction false} SortOrders(fleet: seq<Host>, s: seq<HostUpdate>)
    ensures Ordered(fleet, InInventoryOrder(fleet, s))
  {
    if s == [] {
    } else {
      SortOrders(fleet, s[1..]);
      InsertOrdered(fleet, s[0], InInventoryOrder(fleet, s[1..]));
    }
  }

  lemma OrderOfEntry(fleet: seq<Host>, i: nat)
    requires Inventory(fleet) && i < |fleet|
    ensures OrderOf(fleet, fleet[i].name) == i
  {
    var n := OrderOf(fleet, fleet[i].name);
    assert fleet[n].name == fleet[i].name;
  }

  /** Rising numbers below `|s|` are their own positions. */
  lemma RisingIsIdentity(s: seq<nat>, n: nat, i: nat)
    requires |s| == n && i < n
    requires forall j, k :: 0 <= j < k < n ==> s[j] < s[k]
    requires forall j :: 0 <= j < n ==> s[j] < n
    ensures s[i] == i
  {
    RisingAtLeast(s, i);
    RisingAtMost(s, n, i);
  }

  lemma {:induction false} RisingAtLeast(s: seq<nat>, i: nat)
    requires i < |s| && forall j, k :: 0 <= j < k < |s| ==> s[j] < s[k]
    ensures s[i] >= i
  {
    if i == 0 {
    } else {
      RisingAtLeast(s, i - 1);
    }
  }

  lemma {:induction false} RisingAtMost(s: seq<nat>, n: nat, i: nat)
    requires i < |s| == n && forall j, k :: 0 <= j < k < n ==> s[j] < s[k]
    requires forall j :: 0 <= j < n ==> s[j] < n
    ensures s[i] <= i
    decreases n - i
  {
    if i + 1 < n {
      RisingAtMost(s, n, i + 1);
    }
  }

  /** Where each result's host stands in the inventory. */
  function Places(fleet: seq<Host>, r: seq<HostUpdate>): (places: seq<nat>)
    ensures |places| == |r| && forall i :: 0 <= i < |r| ==> places[i] == OrderOf(fleet, r[i].host.name)
  {
    if r == [] then [] else [OrderOf(fleet, r[0].host.name)] + Places(fleet, r[1..])
  }

  lemma PlaceOfResult(fleet: seq<Host>, u: HostUpdate)
    requires Inventory(fleet) && u.host in fleet
    ensures OrderOf(fleet, u.host.name) < |fleet| && fleet[OrderOf(fleet, u.host.name)] == u.host
  {
    var k :| 0 <= k < |fleet| && fleet[k] == u.host;
    OrderOfEntry(fleet, k);
  }

  /** Ordered results for all hosts, one each, list the inventory. */
  lemma {:induction false} OrderedIsInventory(fleet: seq<Host>, r: seq<HostUpdate>)
    requires Inventory(fleet) && |r| == |fleet| && Ordered(fleet, r)
    requires NoDup(Hosts(r)) && forall u :: u in r ==> u.host in fleet
    ensures forall i :: 0 <= i < |fleet| ==> r[i].host == fleet[i]
  {
    var places := Places(fleet, r);
    forall i | 0 <= i < |r| ensures places[i] < |fleet| && fleet[places[i]] == r[i].host {
      PlaceOfResult(fleet, r[i]);
    }
    forall j, k | 0 <= j < k < |places| ensures places[j] < places[k] {
      assert Hosts(r)[j] != Hosts(r)[k];
      assert places[j] != places[k];
    }
    forall i | 0 <= i < |fleet| ensures r[i].host == fleet[i] {
      RisingIsIdentity(places, |places|, i);
    }
  }

  /** Results for all hosts, one each, come out in the inventory's order. */
  lemma ReportFollowsInventory(fleet: seq<Host>, s: seq<HostUpdate>)
    requires Inventory(fleet) && |s| == |fleet|
    requires NoDup(Hosts(s)) && forall u :: u in s ==> u.host in fleet
    ensures var r := InInventoryOrder(fleet, s);
      && |r| == |fleet| && (forall u :: u in r <==> u in s)
      && forall i :: 0 <= i < |fleet| ==> r[i].host == fleet[i]
  {
    var r := InInventoryOrder(fleet, s);
    SameSize(r, s);
    SortOrders(fleet, s);
    SortKeepsHostsApart(s, r);
    OrderedIsInventory(fleet, r);
  }

  lemma SameSize(r: seq<HostUpdate>, s: seq<HostUpdate>)
    requires multiset(r) == multiset(s)
    ensures |r| == |s| && forall u :: u in r <==> u in s
  {
    assert |multiset(r)| == |multiset(s)|;
    forall u ensures u in r <==> u in s {
      assert u in multiset(r) <==> u in multiset(s);
    }
  }

  lemma SortKeepsHostsApart(s: seq<HostUpdate>, r: seq<HostUpdate>)
    requires NoDup(Hosts(s)) && multiset(r) == multiset(s)
    ensures NoDup(Hosts(r))
  {
    assert NoDup(s) by {
      forall i, j | 0 <= i < j < |s| ensures s[i] != s[j] {
        assert Hosts(s)[i] != Hosts(s)[j];
      }
    }
    MultisetNoDup(s, r);
    SameSize(r, s);
    HostsApart(s, r);
  }

  lemma HostsApart(s: seq<HostUpdate>, r: seq<HostUpdate>)
    requires NoDup(Hosts(s)) && NoDup(r) && forall u :: u in r ==> u in s
    ensures NoDup(Hosts(r))
  {
    hide Hosts;
    forall i, j | 0 <= i < j < |r| ensures Hosts(r)[i] != Hosts(r)[j] {
      assert r[i] in s && r[j] in s;
      var k :| 0 <= k < |s| && s[k] == r[i];
      var m :| 0 <= m < |s| && s[m] == r[j];
      assert Hosts(s)[k] == r[i].host && Hosts(s)[m] == r[j].host;
    }
  }

  lemma ContactsAreTheLiveHosts(fleet: seq<Host>)
    requires Inventory(fleet) && ChooseCanary(fleet).Leader?
    ensures var order := Contacts(fleet, ChooseCanary(fleet).host);
      NoDup(order) && forall h :: h in order <==> h in fleet && Live(h)
  {
    var canary := ChooseCanary(fleet).host;
    LeaderIsDeclared(fleet, canary);
    var others := (h: Host) => Live(h) && h.name != canary.name;
    FilterNoDup(fleet, others);
    var rest := Filter(fleet, others);
    forall h | h in fleet && Live(h) ensures h == canary || h in rest {
      if h.name == canary.name {
        var i :| 0 <= i < |fleet| && fleet[i] == h;
        var j :| 0 <= j < |fleet| && fleet[j] == canary;
        assert i == j;
      }
    }
    forall i | 0 <= i < |rest| ensures rest[i] != canary {
      assert rest[i] in rest;
    }
  }

  lemma HostsConcat(a: seq<HostUpdate>, b: seq<HostUpdate>)
    ensures Hosts(a + b) == Hosts(a) + Hosts(b)
  {
  }

  lemma HostIsListed(us: seq<HostUpdate>, u: HostUpdate)
    requires u in us
    ensures u.host in Hosts(us)
  {
    var i :| 0 <= i < |us| && us[i] == u;
    assert Hosts(us)[i] == u.host;
  }

  /** The frozen hosts and the others are the fleet, each once. */
  lemma FrozenAndLive(fleet: seq<Host>, order: seq<Host>)
    requires NoDup(fleet) && NoDup(order) && forall h :: h in order <==> h in fleet && Live(h)
    ensures var all := Filter(fleet, Frozen) + order;
      NoDup(all) && |all| == |fleet| && forall h :: h in all <==> h in fleet
  {
    var frozen := Filter(fleet, Frozen);
    FilterNoDup(fleet, Frozen);
    forall i, j | 0 <= i < |frozen| && 0 <= j < |order| ensures frozen[i] != order[j] {
      assert frozen[i] in frozen && order[j] in order;
    }
    SizeOfElements(frozen + order);
    SizeOfElements(fleet);
    assert Elements(frozen + order) == Elements(fleet);
  }

  lemma SkippedHosts(fleet: seq<Host>, skipped: seq<HostUpdate>, u: HostUpdate)
    requires SkipsFrozen(fleet, skipped)
    ensures u in skipped <==> u.host in fleet && !Live(u.host) && u == Skipped(u.host)
  {
    if u in skipped {
      HostIsListed(skipped, u);
    } else if u.host in Hosts(skipped) {
      var i :| 0 <= i < |skipped| && Hosts(skipped)[i] == u.host;
      assert skipped[i] in skipped;
    }
  }

  /** Frozen hosts and contacted hosts make up the report. */
  lemma ResultsCoverFleet(fleet: seq<Host>, order: seq<Host>, skipped: seq<HostUpdate>, us: seq<HostUpdate>)
    requires Inventory(fleet) && NoDup(order) && forall h :: h in order <==> h in fleet && Live(h)
    requires SkipsFrozen(fleet, skipped)
    requires Hosts(us) == order
    ensures var r := InInventoryOrder(fleet, skipped + us);
      && |r| == |fleet| && (forall i :: 0 <= i < |fleet| ==> r[i].host == fleet[i])
      && forall u :: u in r <==> u in us || (u.host in fleet && !Live(u.host) && u == Skipped(u.host))
  {
    var all := skipped + us;
    HostsConcat(skipped, us);
    FrozenAndLive(fleet, order);
    forall u | u in all ensures u.host in fleet {
      HostIsListed(all, u);
    }
    ReportFollowsInventory(fleet, all);
    forall u ensures u in skipped <==> u.host in fleet && !Live(u.host) && u == Skipped(u.host) {
      SkippedHosts(fleet, skipped, u);
    }
  }

  lemma HostsOfWave(order: seq<Host>, positions: bool, segs: seq<seq<Event>>, us: seq<HostUpdate>)
    requires RolledOut(order, positions, segs, us)
    ensures Hosts(us) == order
  {
    forall i | 0 <= i < |order| ensures us[i].host == order[i] {
      RolledOutAt(order, positions, segs, us, i);
    }
  }
}
