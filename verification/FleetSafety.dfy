/** What no roll-out over a fleet can do, whatever the hosts answer
    (lib/sigmond/fleet.py). */
module FleetSafety {
  import opened Lists
  import opened Text
  import opened Fleet

  // ---- who goes first ----

  lemma {:induction false} CountInFilter(s: seq<Host>, p: Host -> bool, x: Host)
    ensures multiset(Filter(s, p))[x] == if p(x) then multiset(s)[x] else 0
  {
    if s == [] {
    } else {
      CountInFilter(s[1..], p, x);
      FilterFirst(s, p);
      hide Filter;
      assert s == [s[0]] + s[1..];
    }
  }

  lemma FilterFirst(s: seq<Host>, p: Host -> bool)
    requires s != []
    ensures Filter(s, p) == (if p(s[0]) then [s[0]] else []) + Filter(s[1..], p)
  {
  }

  lemma SameFilter(a: seq<Host>, b: seq<Host>, p: Host -> bool)
    requires multiset(a) == multiset(b)
    ensures multiset(Filter(a, p)) == multiset(Filter(b, p))
  {
    forall x ensures multiset(Filter(a, p))[x] == multiset(Filter(b, p))[x] {
      CountInFilter(a, p, x);
      CountInFilter(b, p, x);
    }
  }

  lemma SameSingleton<T>(a: seq<T>, b: seq<T>)
    requires multiset(a) == multiset(b)
    ensures |a| == |b| && (|a| == 1 ==> a == b)
  {
    assert |multiset(a)| == |multiset(b)|;
    if |a| == 1 {
      assert a == [a[0]] && b == [b[0]];
      assert a[0] in multiset(b);
    }
  }

  /** Who leads does not depend on the order of the inventory. */
  lemma ChoiceIgnoresOrder(a: seq<Host>, b: seq<Host>)
    requires multiset(a) == multiset(b)
    ensures ChooseCanary(a) == ChooseCanary(b)
  {
    var marks := (h: Host) => h.canary;
    SameFilter(a, b, marks);
    SameFilter(a, b, Live);
    SameSingleton(Filter(a, marks), Filter(b, marks));
    SameSingleton(Filter(a, Live), Filter(b, Live));
  }

  // ---- what a roll-out can damage ----

  /** A host is contacted only after the canary and every host before it were
      verified; once one is not, no later host hears anything. */
  lemma BlastRadiusIsOne(order: seq<Host>, positions: bool, segs: seq<seq<Event>>, us: seq<HostUpdate>,
                         i: nat, j: nat)
    requires RolledOut(order, positions, segs, us) && i < j < |order|
    ensures segs[j] != [] ==> Verified(us[i]) && Visited(order[i], positions, segs[i], us[i])
    ensures !Verified(us[i]) ==> segs[j] == [] && us[j] == Halted(order[j])
  {
    RolledOutAt(order, positions, segs, us, i);
    RolledOutAt(order, positions, segs, us, j);
    assert us[..j][i] == us[i];
    if AllVerified(us[..j]) {
      assert forall k :: 0 <= k < i ==> us[..i][k] == us[..j][k];
    }
  }

  lemma {:induction false} EventOfSegment(segs: seq<seq<Event>>, p: nat) returns (i: nat, k: nat)
    requires p < |Flatten(segs)|
    ensures i < |segs| && k < |segs[i]| && segs[i][k] == Flatten(segs)[p]
    ensures p == |Flatten(segs[..i])| + k
  {
    var n := |segs| - 1;
    var before := Flatten(segs[..n]);
    if p < |before| {
      i, k := EventOfSegment(segs[..n], p);
      assert segs[..n][..i] == segs[..i];
    } else {
      i, k := n, p - |before|;
    }
  }

  lemma {:induction false} FlattenPrefix(segs: seq<seq<Event>>, i: nat)
    requires i <= |segs|
    ensures Flatten(segs[..i]) <= Flatten(segs)
  {
    if i < |segs| {
      FlattenPrefix(segs[..|segs| - 1], i);
      assert segs[..|segs| - 1][..i] == segs[..i];
    } else {
      assert segs[..i] == segs;
    }
  }

  /** Segments of later hosts come later. */
  lemma EventsInOrder(segs: seq<seq<Event>>, i: nat, k: nat, j: nat, m: nat)
    requires j < i < |segs| && k < |segs[i]| && m < |segs[j]|
    ensures |Flatten(segs[..j])| + m < |Flatten(segs[..i])| + k
  {
    FlattenAppend(segs[..j], segs[j]);
    assert segs[..j + 1] == segs[..j] + [segs[j]];
    FlattenPrefix(segs[..i], j + 1);
    assert segs[..i][..j + 1] == segs[..j + 1];
  }

  /** At the moment the apply command is sent anywhere, every host contacted
      before, the canary first among them, has been seen to arrive. */
  lemma ApplyFollowsVerification(order: seq<Host>, positions: bool, segs: seq<seq<Event>>,
                                 us: seq<HostUpdate>, p: nat) returns (i: nat)
    requires RolledOut(order, positions, segs, us)
    requires p < |Flatten(segs)| && IsRan(Flatten(segs)[p], ApplyUpdate)
    ensures i < |order| && Flatten(segs)[p].host == order[i].name
    ensures forall j :: 0 <= j < i ==> Verified(us[j]) && Arrived(order[j], positions, segs[j])
    ensures forall q :: 0 <= q < p ==> exists j :: 0 <= j <= i && Flatten(segs)[q].host == order[j].name
  {
    var k: nat;
    i, k := EventOfSegment(segs, p);
    RolledOutAt(order, positions, segs, us, i);
    forall j | 0 <= j < i ensures Verified(us[j]) && Arrived(order[j], positions, segs[j]) {
      BlastRadiusIsOne(order, positions, segs, us, j, i);
    }
    forall q | 0 <= q < p ensures exists j :: 0 <= j <= i && Flatten(segs)[q].host == order[j].name {
      var j, m := EventOfSegment(segs, q);
      if i < j {
        EventsInOrder(segs, j, m, i, k);
      } else {
        RolledOutAt(order, positions, segs, us, j);
      }
    }
  }

  lemma SameNameSameHost(fleet: seq<Host>, a: Host, b: Host)
    requires Inventory(fleet) && a in fleet && b in fleet && a.name == b.name
    ensures a == b
  {
    var i :| 0 <= i < |fleet| && fleet[i] == a;
    var j :| 0 <= j < |fleet| && fleet[j] == b;
    assert i == j;
  }

  /** No command reaches a frozen host, and the apply command reaches a host at
      most once. */
  lemma FrozenHostsHearNothing(fleet: seq<Host>, positions: bool, segs: seq<seq<Event>>,
                               us: seq<HostUpdate>, p: nat) returns (h: Host)
    requires Inventory(fleet) && ChooseCanary(fleet).Leader?
    requires RolledOut(Contacts(fleet, ChooseCanary(fleet).host), positions, segs, us) && p < |Flatten(segs)|
    ensures h in fleet && h.frozen == "" && Flatten(segs)[p].host == h.name
    ensures IsRan(Flatten(segs)[p], ApplyUpdate) ==>
      forall q :: 0 <= q < |Flatten(segs)| && q != p && IsRan(Flatten(segs)[q], ApplyUpdate) ==>
        Flatten(segs)[q].host != h.name
  {
    var order := Contacts(fleet, ChooseCanary(fleet).host);
    ContactsAreTheLiveHosts(fleet);
    var i, k := EventOfSegment(segs, p);
    RolledOutAt(order, positions, segs, us, i);
    h := order[i];
    assert h in order;
    forall q | 0 <= q < |Flatten(segs)| && Flatten(segs)[q].host == h.name
      && IsRan(Flatten(segs)[p], ApplyUpdate) && IsRan(Flatten(segs)[q], ApplyUpdate)
      ensures q == p
    {
      var j, m := EventOfSegment(segs, q);
      RolledOutAt(order, positions, segs, us, j);
      assert order[j] in order;
      SameNameSameHost(fleet, order[i], order[j]);
    }
  }

  /** A dry run sends no apply command, and none at all to a frozen host. */
  lemma DryRunOnlyLooks(fleet: seq<Host>, positions: bool, segs: seq<seq<Event>>, us: seq<HostUpdate>, p: nat)
    returns (h: Host)
    requires Surveyed(Filter(fleet, Live), positions, segs, us) && p < |Flatten(segs)|
    ensures !IsRan(Flatten(segs)[p], ApplyUpdate)
    ensures h in fleet && h.frozen == "" && Flatten(segs)[p].host == h.name
  {
    var i, k := EventOfSegment(segs, p);
    h := Filter(fleet, Live)[i];
    assert h in Filter(fleet, Live);
    assert Planned(h, positions, segs[i], us[i]) && Concerns(h, segs[i]);
    assert k < 2 ==> !IsRan(segs[i][k], ApplyUpdate);
  }

  /** A host whose plan failed is updated anyway exactly when the failure put
      nothing but white space on its error output. */
  lemma FailedPlanIsApplied(h: Host, positions: bool, seg: seq<Event>, u: HostUpdate)
    requires Visited(h, positions, seg, u) && u.reachable && !SmdAbsent(seg[1].reply) && !PlanEnded(seg[1].reply)
    ensures |seg| > 2 && IsRan(seg[2], ApplyUpdate) <==> seg[1].reply.err != "" && Strip(seg[1].reply.err) == ""
  {
  }

  /** A host whose plan failed, and not silently, counts as arrived exactly when
      the failure came with exit code 127 or names a missing command or file,
      whatever it was that was missing. */
  lemma FailedPlanIsVerified(h: Host, positions: bool, seg: seq<Event>, u: HostUpdate)
    requires Visited(h, positions, seg, u) && u.reachable
    requires !PlanEnded(seg[1].reply) && !FailsSilently(seg[1].reply)
    ensures var r := seg[1].reply;
      Verified(u) <==> r.rc == 127 || exists m :: m in NO_SMD_MARKERS && Contains(r.err + r.out, m)
    ensures |seg| == 2 || !IsRan(seg[2], ApplyUpdate)
  {
    hide Contains;
    if k :| 0 <= k < |seg| && IsRan(seg[k], PlanUpdate) && SaysCurrent(seg[k].reply) {
      assert k < 2;
    }
  }

  /** So a host that has smd, and whose plan broke over a missing file, is passed
      as one without. */
  lemma BrokenPlanPasses(name: string, positions: bool, before: string, marker: string, after: string)
    returns (seg: seq<Event>, u: HostUpdate)
    requires marker in NO_SMD_MARKERS
    ensures Visited(Host(name, "", true), positions, seg, u) && Verified(u) && !u.applied
    ensures |seg| == 2 && seg[1] == Ran(name, PlanUpdate, Reply(1, "", before + marker + after))
  {
    var h, broke := Host(name, "", true), Reply(1, "", before + marker + after);
    assert broke.err + broke.out == before + marker + after;
    assert marker <= (broke.err + broke.out)[|before|..];
    seg := [Ran(name, Probe, Reply(0, "", "")), Ran(name, PlanUpdate, broke)];
    u := Untouched(h).(hasSigmond := false, verified := Some(true));
  }

  /** A silent failure, and so such an update, can happen. */
  lemma SilentFailureExists(name: string, blank: char) returns (seg: seq<Event>, u: HostUpdate)
    requires IsSpace(blank)
    ensures Visited(Host(name, "", true), false, seg, u) && u.applied && !PlanEnded(seg[1].reply)
  {
    var h := Host(name, "", true);
    var failed, broke := Reply(1, "", [blank]), Reply(1, "", "");
    BlankIsNotAMarker(blank);
    seg := [Ran(name, Probe, Reply(0, "", "")), Ran(name, PlanUpdate, failed), Ran(name, ApplyUpdate, broke)];
    u := Untouched(h).(applied := true, verified := Some(false), error := true);
    assert [blank][1..] == [];
    assert LStrip([blank][1..]) == [];
    assert Strip([blank]) == [];
    assert FailsSilently(failed);
  }

  lemma BlankIsNotAMarker(blank: char)
    ensures !SmdAbsent(Reply(1, "", [blank]))
  {
    var r := Reply(1, "", [blank]);
    assert |r.err + r.out| == 1;
    forall m | m in NO_SMD_MARKERS ensures !Contains(r.err + r.out, m) {
      assert |m| > 1;
    }
  }

  // ---- what is looked for in a reply ----

  predicate IsCut(text: string, before: string, part: string, after: string) {
    text == before + part + after
  }

  /** A text contains a part exactly when something before it, it, and something
      after it make up the text. */
  lemma ContainsIs(text: string, part: string)
    ensures Contains(text, part) <==> exists before, after :: IsCut(text, before, part, after)
  {
    if i :| 0 <= i <= |text| - |part| && part <= text[i..] {
      assert IsCut(text, text[..i], part, text[i + |part|..]);
    }
    if before, after :| IsCut(text, before, part, after) {
      assert part <= text[|before|..];
    }
  }

  /** A reply counts as having nothing to do when the update ended well, with 0
      or the code for held components, and these words stand in its output. */
  lemma SaysCurrentIs(r: Reply)
    ensures SaysCurrent(r) <==>
      (r.rc == 0 || r.rc == 3) && exists before, after :: IsCut(r.out, before, "nothing to do", after)
  {
    ContainsIs(r.out, CURRENT_SENTINEL);
    hide Contains;
  }

  /** A reply counts as that of a host without sigmond when it failed with 127, or
      failed and names a missing command or file anywhere. */
  lemma SmdAbsentIs(r: Reply)
    ensures SmdAbsent(r) <==>
      && r.rc != 0
      && (r.rc == 127
          || (exists before, after :: IsCut(r.err + r.out, before, "command not found", after))
          || (exists before, after :: IsCut(r.err + r.out, before, "No such file or directory", after)))
  {
    ContainsIs(r.err + r.out, NO_SMD_MARKERS[0]);
    ContainsIs(r.err + r.out, NO_SMD_MARKERS[1]);
    hide Contains;
  }

  // ---- what is reported ----

  /** A host of the roll-out is reported as halted exactly when it was not
      contacted, and then as nothing else; none of them is reported as skipped. */
  lemma HaltedWereNotContacted(order: seq<Host>, positions: bool, segs: seq<seq<Event>>, us: seq<HostUpdate>, i: nat)
    requires RolledOut(order, positions, segs, us) && i < |order|
    ensures us[i].host == order[i] && !us[i].skipped
    ensures us[i].halted <==> segs[i] == []
    ensures us[i].halted ==> !us[i].applied && !us[i].error && us[i].verified == None
  {
    RolledOutAt(order, positions, segs, us, i);
  }

  lemma SkippedIsReported(h: Host)
    ensures var u := Skipped(h);
      u.host == h && u.skipped && !u.halted && !u.applied && !u.error && u.verified == None
  {
  }
}
