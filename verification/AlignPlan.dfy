/** How far a station sits from a release, component by component
    (lib/sigmond/align.py, `_sha_equal` of lib/sigmond/doctor.py). */
module AlignPlan {
  import opened Text

  const MIN_SHA_PREFIX := 4

  function Min(a: nat, b: nat): nat {
    if a <= b then a else b
  }

  /** Two abbreviated commit names agree on their common length. */
  predicate ShaEqual(a: string, b: string) {
    var n := Min(|a|, |b|);
    n >= MIN_SHA_PREFIX && a[..n] == b[..n]
  }

  datatype File = PinFile | UvLock | Pyproject | InstallSh | ScriptsInstallSh | Other(name: string)

  datatype Status = Current | Refuse | Missing | Stray | Move | Forward | Ahead | Diverged

  datatype Item = Item(component: string, status: Status, live: string, target: string)

  /** A component's HEAD as read: None when it could not be. */
  type Heads = map<string, Option<string>>

  /** What a release pins, in the manifest's order. */
  type Manifest = seq<(string, string)>

  predicate UniqueNames(m: Manifest) {
    forall i, j :: 0 <= i < j < |m| ==> m[i].0 != m[j].0
  }

  /** Dirt that stops a move: anything but a lone uv.lock. */
  predicate Refuses(dirt: set<File>) {
    var files := dirt - {PinFile};
    files != {} && files != {UvLock}
  }

  /** The station as the planner reads it. */
  datatype Reading = Reading(heads: Heads, dirty: map<string, set<File>>, unreadable: set<string>)

  function DirtOf(r: Reading, name: string): set<File> {
    if name in r.dirty then r.dirty[name] else {}
  }

  function PlanOne(r: Reading, name: string, target: string): Item {
    if name !in r.heads then Item(name, Missing, "", target)
    else
      match r.heads[name]
      case None => Item(name, Refuse, "", target)
      case Some(head) =>
        if ShaEqual(head, target) then Item(name, Current, head, target)
        else if name in r.unreadable || Refuses(DirtOf(r, name)) then Item(name, Refuse, head, target)
        else Item(name, Move, head, target)
  }

  /** When a pinned component is to move: its HEAD was read and is not the pin,
      its state was read, and nothing in it is changed but uv.lock and the pin. */
  lemma MoveIsPlanned(r: Reading, name: string, target: string)
    ensures var it := PlanOne(r, name, target);
      && it.component == name && it.target == target
      && (it.status == Missing <==> name !in r.heads)
      && (it.status == Current <==>
            name in r.heads && r.heads[name].Some? && var n := Min(|r.heads[name].value|, |target|);
              n >= 4 && r.heads[name].value[..n] == target[..n])
      && (it.status == Move <==>
            && name in r.heads && r.heads[name].Some? && !ShaEqual(r.heads[name].value, target)
            && name !in r.unreadable
            && (name in r.dirty ==> forall f :: f in r.dirty[name] ==> f == PinFile || f == UvLock))
      && it.status in {Missing, Current, Move, Refuse}
  {
    var dirt := DirtOf(r, name);
    var files := dirt - {PinFile};
    if forall f :: f in dirt ==> f == PinFile || f == UvLock {
      assert files == {} || files == {UvLock};
    } else {
      var f :| f in dirt && f != PinFile && f != UvLock;
      assert f in files;
    }
  }

  const LIBRARIES_FIRST := ["ka9q-python", "hamsci-dsp", "callhash", "hs-uploader"]

  function PositionIn(s: seq<string>, x: string): (n: nat)
    ensures n <= |s| && (n < |s| ==> s[n] == x) && forall k :: 0 <= k < n ==> s[k] != x
  {
    if s == [] || s[0] == x then 0 else 1 + PositionIn(s[1..], x)
  }

  /** sigmond first, then the shared libraries in their own order, then the rest. */
  function Rank(name: string): nat {
    if name == "sigmond" then 0
    else 1 + PositionIn(LIBRARIES_FIRST, name)
  }

  /** `a <= b` for strings */
  predicate TextLeq(a: string, b: string) {
    a == [] || (b != [] && (a[0] < b[0] || (a[0] == b[0] && TextLeq(a[1..], b[1..]))))
  }

  /** `_plan_order(a) <= _plan_order(b)` */
  predicate PlanLeq(a: string, b: string) {
    Rank(a) < Rank(b) || (Rank(a) == Rank(b) && TextLeq(a, b))
  }

  lemma {:induction false} TextLeqTotal(a: string, b: string)
    ensures TextLeq(a, b) || TextLeq(b, a)
  {
    if a != [] && b != [] {
      TextLeqTotal(a[1..], b[1..]);
    }
  }

  lemma {:induction false} TextLeqTransitive(a: string, b: string, c: string)
    requires TextLeq(a, b) && TextLeq(b, c)
    ensures TextLeq(a, c)
  {
    if a == [] {
    } else {
      if a[0] == b[0] && b[0] == c[0] {
        TextLeqTransitive(a[1..], b[1..], c[1..]);
      }
    }
  }

  predicate NameLeq(byPlan: bool, a: string, b: string) {
    if byPlan then PlanLeq(a, b) else TextLeq(a, b)
  }

  lemma NameLeqOrders(byPlan: bool)
    ensures forall a, b :: NameLeq(byPlan, a, b) || NameLeq(byPlan, b, a)
    ensures forall a, b, c :: NameLeq(byPlan, a, b) && NameLeq(byPlan, b, c) ==> NameLeq(byPlan, a, c)
  {
    forall a, b ensures NameLeq(byPlan, a, b) || NameLeq(byPlan, b, a) {
      TextLeqTotal(a, b);
    }
    forall a, b, c | NameLeq(byPlan, a, b) && NameLeq(byPlan, b, c) ensures NameLeq(byPlan, a, c) {
      if TextLeq(a, b) && TextLeq(b, c) {
        TextLeqTransitive(a, b, c);
      }
    }
  }

  predicate Ordered(byPlan: bool, s: seq<Item>) {
    forall i, j :: 0 <= i < j < |s| ==> NameLeq(byPlan, s[i].component, s[j].component)
  }

  function InsertItem(byPlan: bool, x: Item, s: seq<Item>): (r: seq<Item>)
    ensures multiset(r) == multiset{x} + multiset(s) && |r| == |s| + 1
  {
    if s == [] || NameLeq(byPlan, x.component, s[0].component) then [x] + s
    else
      assert s == [s[0]] + s[1..];
      [s[0]] + InsertItem(byPlan, x, s[1..])
  }

  /** `sorted(s, key=...)`, by plan order or by name */
  function SortItems(byPlan: bool, s: seq<Item>): (r: seq<Item>)
    ensures multiset(r) == multiset(s) && |r| == |s|
  {
    if s == [] then []
    else
      assert s == [s[0]] + s[1..];
      InsertItem(byPlan, s[0], SortItems(byPlan, s[1..]))
  }

  lemma SameMembers(a: seq<Item>, b: seq<Item>)
    requires multiset(a) == multiset(b)
    ensures forall x :: x in a <==> x in b
  {
    forall x ensures x in a <==> x in b {
      assert x in multiset(a) <==> x in multiset(b);
    }
  }

  lemma {:induction false} InsertOrdered(byPlan: bool, x: Item, s: seq<Item>)
    requires Ordered(byPlan, s)
    ensures Ordered(byPlan, InsertItem(byPlan, x, s))
  {
    NameLeqOrders(byPlan);
    if s != [] && !NameLeq(byPlan, x.component, s[0].component) {
      InsertOrdered(byPlan, x, s[1..]);
      var rest := InsertItem(byPlan, x, s[1..]);
      assert [x] + s[1..] != [];
      SameMembers(rest, [x] + s[1..]);
      forall j | 0 <= j < |rest| ensures NameLeq(byPlan, s[0].component, rest[j].component) {
        assert rest[j] in [x] + s[1..];
      }
    }
  }

  lemma {:induction false} SortOrders(byPlan: bool, s: seq<Item>)
    ensures Ordered(byPlan, SortItems(byPlan, s))
  {
    if s == [] {
    } else {
      SortOrders(byPlan, s[1..]);
      InsertOrdered(byPlan, s[0], SortItems(byPlan, s[1..]));
    }
  }

  function PlanPinned(r: Reading, m: Manifest): (items: seq<Item>)
    ensures |items| == |m|
  {
    if m == [] then []
    else PlanPinned(r, m[..|m| - 1]) + [PlanOne(r, m[|m| - 1].0, m[|m| - 1].1)]
  }

  predicate Pins(m: Manifest, name: string) {
    exists k :: 0 <= k < |m| && m[k].0 == name
  }

  /** Checkouts the release does not name, in the order they were read. */
  function PlanStrays(r: Reading, m: Manifest, names: seq<string>): seq<Item> {
    if names == [] then []
    else
      var n := names[|names| - 1];
      PlanStrays(r, m, names[..|names| - 1])
      + if Pins(m, n) || n !in r.heads then [] else [Item(n, Stray, r.heads[n].GetOr(""), "")]
  }

  /** What aligning would do; `names` are the read checkouts in reading order. */
  function Plan(r: Reading, m: Manifest, names: seq<string>): (plan: seq<Item>)
    ensures |m| <= |plan|
  {
    SortItems(true, PlanPinned(r, m)) + SortItems(false, PlanStrays(r, m, names))
  }

  method PlanAlign(r: Reading, m: Manifest, names: seq<string>) returns (plan: seq<Item>)
    requires forall n :: n in names <==> n in r.heads
    ensures plan == Plan(r, m, names)
  {
    var items: seq<Item> := [];
    for k := 0 to |m|
      invariant items == PlanPinned(r, m[..k])
    {
      assert m[..k + 1][..k] == m[..k];
      var (name, target) := m[k];
      if name !in r.heads {
        items := items + [Item(name, Missing, "", target)];
        continue;
      }
      var head := r.heads[name];
      if head.None? {
        items := items + [Item(name, Refuse, "", target)];
      } else if ShaEqual(head.value, target) {
        items := items + [Item(name, Current, head.value, target)];
      } else if name in r.unreadable {
        items := items + [Item(name, Refuse, head.value, target)];
      } else if Refuses(DirtOf(r, name)) {
        items := items + [Item(name, Refuse, head.value, target)];
      } else {
        items := items + [Item(name, Move, head.value, target)];
      }
    }
    assert m[..|m|] == m;
    var strays: seq<Item> := [];
    for k := 0 to |names|
      invariant strays == PlanStrays(r, m, names[..k])
    {
      assert names[..k + 1][..k] == names[..k];
      assert names[k] in names;
      if !Pins(m, names[k]) {
        strays := strays + [Item(names[k], Stray, r.heads[names[k]].GetOr(""), "")];
      }
    }
    assert names[..|names|] == names;
    plan := SortItems(true, items) + SortItems(false, strays);
  }

  type Ancestry = (string, string, string) -> Option<bool>

  function ClassifyOne(it: Item, isAncestor: Ancestry): Item {
    if it.status != Move then it
    else
      var fwd := isAncestor(it.component, it.live, it.target);
      var back := isAncestor(it.component, it.target, it.live);
      it.(status := if fwd.None? || back.None? then Refuse
                    else if fwd.value then Forward else if back.value then Ahead else Diverged)
  }

  /** What ancestry makes of a checkout that is not at its pin: forward when
      HEAD is an ancestor of the pin, ahead when only the pin is one of HEAD,
      diverged when neither is, and a refusal when git cannot tell. */
  lemma ClassifiedIs(it: Item, isAncestor: Ancestry)
    requires it.status == Move
    ensures var fwd, back := isAncestor(it.component, it.live, it.target), isAncestor(it.component, it.target, it.live);
      var c := ClassifyOne(it, isAncestor);
      && c.component == it.component && c.live == it.live && c.target == it.target
      && (c.status == Refuse <==> fwd == None || back == None)
      && (c.status == Forward <==> fwd == Some(true) && back != None)
      && (c.status == Ahead <==> fwd == Some(false) && back == Some(true))
      && (c.status == Diverged <==> fwd == Some(false) && back == Some(false))
  {
  }

  method Classify(items: seq<Item>, isAncestor: Ancestry) returns (out: seq<Item>)
    ensures |out| == |items| && forall k :: 0 <= k < |items| ==> out[k] == ClassifyOne(items[k], isAncestor)
  {
    out := [];
    for k := 0 to |items|
      invariant |out| == k && forall j :: 0 <= j < k ==> out[j] == ClassifyOne(items[j], isAncestor)
    {
      var it := items[k];
      if it.status != Move {
        out := out + [it];
        continue;
      }
      var fwd := isAncestor(it.component, it.live, it.target);
      var back := isAncestor(it.component, it.target, it.live);
      if fwd.None? || back.None? {
        out := out + [Item(it.component, Refuse, it.live, it.target)];
      } else if fwd.value {
        out := out + [Item(it.component, Forward, it.live, it.target)];
      } else if back.value {
        out := out + [Item(it.component, Ahead, it.live, it.target)];
      } else {
        out := out + [Item(it.component, Diverged, it.live, it.target)];
      }
    }
  }

  lemma {:induction false} PinnedMembers(r: Reading, m: Manifest, it: Item)
    ensures it in PlanPinned(r, m) <==> exists k :: 0 <= k < |m| && it == PlanOne(r, m[k].0, m[k].1)
  {
    if m == [] {
    } else {
      var n := |m| - 1;
      PinnedMembers(r, m[..n], it);
      if k :| 0 <= k < |m| && it == PlanOne(r, m[k].0, m[k].1) {
        assert k < n ==> m[..n][k] == m[k];
      }
      if k :| 0 <= k < n && it == PlanOne(r, m[..n][k].0, m[..n][k].1) {
        assert m[..n][k] == m[k];
      }
    }
  }

  lemma {:induction false} StrayMembers(r: Reading, m: Manifest, names: seq<string>, it: Item)
    ensures it in PlanStrays(r, m, names) <==>
      it.component in names && it.component in r.heads && !Pins(m, it.component)
      && it == Item(it.component, Stray, r.heads[it.component].GetOr(""), "")
  {
    if names == [] {
    } else {
      assert names == names[..|names| - 1] + [names[|names| - 1]];
      StrayMembers(r, m, names[..|names| - 1], it);
    }
  }

  /** The plan accounts for everything once: one item for each component the
      release pins, one stray for each other checkout, nothing else; pinned
      items come first, sigmond ahead of the libraries and those ahead of the
      components that import them. */
  lemma PlanCoversEverything(r: Reading, m: Manifest, names: seq<string>)
    requires forall n :: n in names <==> n in r.heads
    ensures forall it :: it in Plan(r, m, names) <==>
      || (exists k :: 0 <= k < |m| && it == PlanOne(r, m[k].0, m[k].1))
      || (it.component in r.heads && !Pins(m, it.component)
          && it == Item(it.component, Stray, r.heads[it.component].GetOr(""), ""))
    ensures forall i, j :: 0 <= i < j < |m| ==>
      Rank(Plan(r, m, names)[i].component) <= Rank(Plan(r, m, names)[j].component)
  {
    var pinned, strays := SortItems(true, PlanPinned(r, m)), SortItems(false, PlanStrays(r, m, names));
    SameMembers(pinned, PlanPinned(r, m));
    SameMembers(strays, PlanStrays(r, m, names));
    forall it ensures it in PlanPinned(r, m) <==> exists k :: 0 <= k < |m| && it == PlanOne(r, m[k].0, m[k].1) {
      PinnedMembers(r, m, it);
    }
    forall it: Item ensures it in PlanStrays(r, m, names) <==>
      it.component in r.heads && !Pins(m, it.component)
      && it == Item(it.component, Stray, r.heads[it.component].GetOr(""), "") {
      StrayMembers(r, m, names, it);
    }
    SortOrders(true, PlanPinned(r, m));
  }

  predicate UniqueComponents(items: seq<Item>) {
    forall i, j :: 0 <= i < j < |items| ==> items[i].component != items[j].component
  }

  lemma InsertMembers(byPlan: bool, x: Item, s: seq<Item>)
    ensures forall y :: y in InsertItem(byPlan, x, s) <==> y == x || y in s
  {
    SameMembers(InsertItem(byPlan, x, s), [x] + s);
  }

  lemma UniqueCons(x: Item, s: seq<Item>)
    requires UniqueComponents(s) && forall y :: y in s ==> y.component != x.component
    ensures UniqueComponents([x] + s)
  {
  }

  lemma UniqueTail(s: seq<Item>)
    requires UniqueComponents(s) && s != []
    ensures UniqueComponents(s[1..]) && forall y :: y in s[1..] ==> y in s && y.component != s[0].component
  {
  }

  lemma {:induction false} InsertUnique(byPlan: bool, x: Item, s: seq<Item>)
    requires UniqueComponents(s) && forall y :: y in s ==> y.component != x.component
    ensures UniqueComponents(InsertItem(byPlan, x, s))
  {
    if s == [] || NameLeq(byPlan, x.component, s[0].component) {
      UniqueCons(x, s);
    } else {
      UniqueTail(s);
      InsertUnique(byPlan, x, s[1..]);
      InsertMembers(byPlan, x, s[1..]);
      UniqueCons(s[0], InsertItem(byPlan, x, s[1..]));
    }
    hide UniqueComponents, NameLeq;
  }

  lemma {:induction false} SortUnique(byPlan: bool, s: seq<Item>)
    requires UniqueComponents(s)
    ensures UniqueComponents(SortItems(byPlan, s))
  {
    if s == [] {
    } else {
      SortUnique(byPlan, s[1..]);
      SameMembers(SortItems(byPlan, s[1..]), s[1..]);
      InsertUnique(byPlan, s[0], SortItems(byPlan, s[1..]));
    }
  }

  lemma {:induction false} PinnedNames(r: Reading, m: Manifest, k: nat)
    requires k < |m|
    ensures PlanPinned(r, m)[k].component == m[k].0
  {
    if k < |m| - 1 {
      PinnedNames(r, m[..|m| - 1], k);
    }
  }

  lemma {:induction false} StraysUnique(r: Reading, m: Manifest, names: seq<string>)
    requires forall i, j :: 0 <= i < j < |names| ==> names[i] != names[j]
    ensures UniqueComponents(PlanStrays(r, m, names))
  {
    if names == [] {
    } else {
      var n := |names| - 1;
      StraysUnique(r, m, names[..n]);
      var strays := PlanStrays(r, m, names[..n]);
      forall j | 0 <= j < |strays| ensures strays[j].component != names[n] {
        StrayMembers(r, m, names[..n], strays[j]);
      }
    }
  }

  /** No component is planned twice, so none is moved twice. */
  lemma PlanHasNoRepeats(r: Reading, m: Manifest, names: seq<string>)
    requires UniqueNames(m) && forall i, j :: 0 <= i < j < |names| ==> names[i] != names[j]
    ensures UniqueComponents(Plan(r, m, names))
  {
    forall k | 0 <= k < |m| ensures PlanPinned(r, m)[k].component == m[k].0 {
      PinnedNames(r, m, k);
    }
    SortUnique(true, PlanPinned(r, m));
    StraysUnique(r, m, names);
    SortUnique(false, PlanStrays(r, m, names));
    var pinned, strays := SortItems(true, PlanPinned(r, m)), SortItems(false, PlanStrays(r, m, names));
    forall i, j | 0 <= i < |pinned| && 0 <= j < |strays| ensures pinned[i].component != strays[j].component {
      PinnedAndStrayDiffer(r, m, names, pinned[i], strays[j]);
    }
  }

  lemma PinnedAndStrayDiffer(r: Reading, m: Manifest, names: seq<string>, x: Item, y: Item)
    requires x in SortItems(true, PlanPinned(r, m)) && y in SortItems(false, PlanStrays(r, m, names))
    ensures x.component != y.component
  {
    hide SortItems, PlanPinned, PlanStrays;
    SameMembers(SortItems(true, PlanPinned(r, m)), PlanPinned(r, m));
    SameMembers(SortItems(false, PlanStrays(r, m, names)), PlanStrays(r, m, names));
    PinnedMembers(r, m, x);
    StrayMembers(r, m, names, y);
  }

  // ---- the order ----

  const MOVE_FIRST := ["sigmond", "ka9q-python", "hamsci-dsp", "callhash", "hs-uploader"]

  lemma PlaceInOrder(first: string, rest: seq<string>, name: string)
    requires first !in rest && forall i, j :: 0 <= i < j < |rest| ==> rest[i] != rest[j]
    ensures var n := if name == first then 0 else 1 + PositionIn(rest, name);
      && n <= |rest| + 1
      && forall p :: 0 <= p < |rest| + 1 ==> (n == p <==> name == ([first] + rest)[p])
  {
    hide PositionIn;
  }

  lemma RankIs(name: string)
    ensures Rank(name) <= 5
    ensures forall p :: 0 <= p < 5 ==> (Rank(name) == p <==> name == MOVE_FIRST[p])
  {
    LibrariesDiffer();
    PlaceInOrder("sigmond", LIBRARIES_FIRST, name);
    assert MOVE_FIRST == ["sigmond"] + LIBRARIES_FIRST;
    hide PositionIn;
  }

  lemma LibrariesDiffer()
    ensures forall i, j :: 0 <= i < j < |LIBRARIES_FIRST| ==> LIBRARIES_FIRST[i] != LIBRARIES_FIRST[j]
    ensures "sigmond" !in LIBRARIES_FIRST
  {
    var a, b, c, d := LIBRARIES_FIRST[0], LIBRARIES_FIRST[1], LIBRARIES_FIRST[2], LIBRARIES_FIRST[3];
    assert |a| == 11 && |b| == 10 && |c| == 8 && |d| == 11 && a[0] == 'k' && d[0] == 'h' && |"sigmond"| == 7;
  }

  /** In every plan sigmond comes first, then the shared libraries in their own
      order, so none is moved after a component that uses it, and then the other
      pinned components by name. */
  lemma LibrariesComeFirst(r: Reading, m: Manifest, names: seq<string>, i: nat, j: nat)
    requires i < j < |m|
    ensures var a, b := Plan(r, m, names)[i].component, Plan(r, m, names)[j].component;
      && (forall p :: 0 <= p < 5 && b == MOVE_FIRST[p] ==> exists q :: 0 <= q <= p && a == MOVE_FIRST[q])
      && (a in MOVE_FIRST || (b !in MOVE_FIRST && TextLeq(a, b)))
  {
    var pinned := SortItems(true, PlanPinned(r, m));
    SortOrders(true, PlanPinned(r, m));
    var a, b := pinned[i].component, pinned[j].component;
    RankIs(a);
    RankIs(b);
    assert PlanLeq(a, b) by {
      assert NameLeq(true, a, b);
    }
    hide Rank, SortItems, PlanPinned, TextLeq;
    if a !in MOVE_FIRST {
      assert Rank(a) == 5;
    }
  }

  /** Names are compared as dictionaries do: one begins the other, or they part at
      a character where the first has the lower. */
  lemma {:induction false} TextLeqIs(a: string, b: string)
    ensures TextLeq(a, b) <==> a <= b || exists k :: 0 <= k < |a| && k < |b| && a[..k] == b[..k] && a[k] < b[k]
  {
    if a == [] || b == [] || a[0] != b[0] {
      if a != [] && b != [] {
        assert a[..0] == b[..0];
      }
    } else {
      var x, y := a[1..], b[1..];
      TextLeqIs(x, y);
      assert a == [a[0]] + x && b == [b[0]] + y;
      if k :| 0 <= k < |x| && k < |y| && x[..k] == y[..k] && x[k] < y[k] {
        assert a[..k + 1] == [a[0]] + x[..k] && b[..k + 1] == [b[0]] + y[..k];
        assert a[k + 1] < b[k + 1];
      }
      if k :| 0 <= k < |a| && k < |b| && a[..k] == b[..k] && a[k] < b[k] {
        assert a[..k][1..] == x[..k - 1] && b[..k][1..] == y[..k - 1];
        assert x[k - 1] < y[k - 1];
      }
    }
  }
}
