/** Running an alignment plan, and what a second plan then finds
    (lib/sigmond/align_apply.py, lib/sigmond/align.py). */
module AlignRun {
  import opened Text
  import opened AlignPlan
  import opened AlignApply

  type Diff = (Commit, Commit) -> set<File>
  type Declares = (string, Commit) -> bool

  function Lookup(repos: map<string, Repo>, n: string): Option<Repo> {
    if n in repos then Some(repos[n]) else None
  }

  predicate Moves(it: Item, ctx: Ctx) {
    it.status in {Forward, Move} || (it.status == Ahead && ctx.allowRollback)
  }

  /** What executing one item does to its own checkout. */
  ghost predicate Effect(it: Item, ctx: Ctx, diff: Diff, declares: Declares, s: Step, b: Option<Repo>, a: Option<Repo>)
  {
    if s.outcome == Skipped then a == b
    else if Moves(it, ctx) then
      if b.None? then s.outcome == Failed && a == b
      else a.Some? && exists full :: MoveEffect(it, ctx, diff, declares, s, full, b.value, a.value)
    else
      match it.status
      case Current =>
        if b.None? then s.outcome == IsCurrent && PinNotRefreshed in s.notes && a == b
        else a.Some? && Refreshed(it, ctx, declares, s, b.value, a.value)
      case Missing =>
        if s.outcome == Installed then
          ctx.hasInstallMissing && a.Some? && it.target <= a.value.head && a.value.pin == Some(a.value.head + "\n")
        else if s.outcome == Refused then !ctx.hasInstallMissing && a == b
        else s.outcome == Failed && ctx.hasInstallMissing
      case Refuse => s.outcome == Refused && a == b
      case Diverged => s.outcome == Refused && a == b
      case _ => s.outcome == Left && a == b
  }

  function Bytes(s: Step): nat {
    s.bytes.GetOr(0)
  }

  function TotalBytes(steps: seq<Step>): nat {
    if steps == [] then 0 else TotalBytes(steps[..|steps| - 1]) + Bytes(steps[|steps| - 1])
  }

  /** The run ends after these steps: one failed, or the byte budget is spent. */
  ghost predicate Stops(steps: seq<Step>, ctx: Ctx) {
    || (exists i :: 0 <= i < |steps| && steps[i].outcome == Failed)
    || (ctx.maxBytes.Some? && TotalBytes(steps) > ctx.maxBytes.value)
  }

  /** One step for each item, in order; an item is skipped exactly when the
      steps before it end the run. */
  ghost predicate InOrder(items: seq<Item>, ctx: Ctx, steps: seq<Step>) {
    && |steps| == |items|
    && forall k :: 0 <= k < |items| ==>
         && steps[k].component == items[k].component
         && (steps[k].outcome == Skipped <==> Stops(steps[..k], ctx))
  }

  ghost predicate Ran(items: seq<Item>, ctx: Ctx, diff: Diff, declares: Declares, steps: seq<Step>,
                      before: map<string, Repo>, after: map<string, Repo>) {
    && InOrder(items, ctx, steps)
    && (forall k :: 0 <= k < |items| ==>
          Effect(items[k], ctx, diff, declares, steps[k],
                 Lookup(before, items[k].component), Lookup(after, items[k].component)))
    && (forall n :: (forall k :: 0 <= k < |items| ==> items[k].component != n) ==>
          Lookup(before, n) == Lookup(after, n))
  }

  class Station {
    var repos: map<string, Repo>
    const diff: Diff
    const declares: Declares

    constructor (repos: map<string, Repo>, diff: Diff, declares: Declares)
      ensures this.repos == repos && this.diff == diff && this.declares == declares
    {
      this.repos, this.diff, this.declares := repos, diff, declares;
    }

    ghost predicate Valid()
      reads this
    {
      forall n :: n in repos ==> ValidRepo(repos[n])
    }

    /** Clone at the pin and install; a failure may leave a checkout or none. */
    method InstallMissing(it: Item) returns (ok: bool)
      requires Valid()
      modifies `repos
      ensures Valid()
      ensures forall n :: n != it.component ==> Lookup(repos, n) == Lookup(old(repos), n)
      ensures ok ==>
        && it.component in repos && it.target <= repos[it.component].head
        && repos[it.component].pin == Some(repos[it.component].head + "\n")
    {
      var fresh_: Repo := *;
      ok := *;
      var left: bool := *;
      ok := ok && ValidRepo(fresh_) && it.target <= fresh_.head;
      if ok {
        repos := repos[it.component := fresh_.(pin := Some(fresh_.head + "\n"))];
      } else if left && ValidRepo(fresh_) {
        repos := repos[it.component := fresh_];
      }
    }

    method RunCurrent(it: Item, ctx: Ctx) returns (s: Step)
      requires Valid() && it.status == Current
      modifies `repos
      ensures Valid() && s.component == it.component && s.outcome != Skipped && s.bytes == None
      ensures Effect(it, ctx, diff, declares, s, Lookup(old(repos), it.component), Lookup(repos, it.component))
      ensures forall n :: n != it.component ==> Lookup(repos, n) == Lookup(old(repos), n)
    {
      var n := it.component;
      if n !in repos {
        return Step(n, IsCurrent, {PinNotRefreshed}, None, false);
      }
      var c := new Checkout(n, repos[n], diff, declares);
      s := c.KeepCurrent(it, ctx);
      repos := repos[n := c.State()];
      hide Refreshed, MoveEffect, ValidRepo;
    }

    method RunMove(it: Item, ctx: Ctx) returns (s: Step)
      requires Valid() && Moves(it, ctx)
      modifies `repos
      ensures Valid() && s.component == it.component && s.outcome != Skipped
      ensures Effect(it, ctx, diff, declares, s, Lookup(old(repos), it.component), Lookup(repos, it.component))
      ensures forall n :: n != it.component ==> Lookup(repos, n) == Lookup(old(repos), n)
    {
      var n := it.component;
      if n !in repos {
        return Step(n, Failed, {}, None, false);
      }
      var c := new Checkout(n, repos[n], diff, declares);
      ghost var full;
      s, full := c.Move(it, ctx);
      repos := repos[n := c.State()];
    }

    method RunItem(it: Item, ctx: Ctx) returns (s: Step)
      requires Valid()
      modifies `repos
      ensures Valid() && s.component == it.component && s.outcome != Skipped
      ensures Effect(it, ctx, diff, declares, s, Lookup(old(repos), it.component), Lookup(repos, it.component))
      ensures forall n :: n != it.component ==> Lookup(repos, n) == Lookup(old(repos), n)
    {
      var n := it.component;
      if it.status == Current {
        s := RunCurrent(it, ctx);
      } else if it.status == Stray {
        s := Step(n, Left, {}, None, false);
      } else if it.status == Missing {
        if !ctx.hasInstallMissing {
          return Step(n, Refused, {}, None, false);
        }
        var ok := InstallMissing(it);
        s := Step(n, if ok then Installed else Failed, {}, None, false);
      } else if it.status == Refuse || it.status == Diverged {
        s := Step(n, Refused, {}, None, false);
      } else if it.status == Ahead && !ctx.allowRollback {
        s := Step(n, Left, {}, None, false);
      } else {
        s := RunMove(it, ctx);
      }
    }

    method ApplyPlan(items: seq<Item>, ctx: Ctx) returns (steps: seq<Step>)
      requires Valid() && UniqueComponents(items)
      modifies `repos
      ensures Valid()
      ensures Ran(items, ctx, diff, declares, steps, old(repos), repos)
    {
      steps := [];
      var stopped := false;
      var total := 0;
      NothingRan(ctx, diff, declares, repos);
      hide Ran, Stops, UniqueComponents;
      for k := 0 to |items|
        invariant Valid()
        invariant Ran(items[..k], ctx, diff, declares, steps, old(repos), repos)
        invariant total == TotalBytes(steps)
        invariant stopped == Stops(steps, ctx)
      {
        ghost var was := repos;
        ghost var done := steps;
        var it := items[k];
        var s: Step;
        if stopped {
          s := Step(it.component, Skipped, {}, None, false);
        } else {
          s := RunItem(it, ctx);
        }
        steps := steps + [s];
        total := total + Bytes(s);
        stopped := stopped || s.outcome == Failed || (ctx.maxBytes.Some? && total > ctx.maxBytes.value);
        PlanPrefix(items, k);
        StopsAppend(done, s, ctx);
        RanOneMore(items[..k], it, ctx, diff, declares, done, s, old(repos), was, repos);
      }
      assert items[..|items|] == items;
    }
  }

  lemma NothingRan(ctx: Ctx, diff: Diff, declares: Declares, repos: map<string, Repo>)
    ensures Ran([], ctx, diff, declares, [], repos, repos) && !Stops([], ctx)
  {
  }

  lemma PlanPrefix(items: seq<Item>, k: nat)
    requires UniqueComponents(items) && k < |items|
    ensures items[..k + 1] == items[..k] + [items[k]] && UniqueComponents(items[..k] + [items[k]])
  {
  }

  lemma PrefixesOfAppend(done: seq<Step>, s: Step)
    ensures forall i :: 0 <= i < |done| ==> (done + [s])[..i] == done[..i]
    ensures (done + [s])[..|done|] == done
  {
    forall i | 0 <= i < |done| ensures (done + [s])[..i] == done[..i] {
    }
  }

  lemma StopsAppend(done: seq<Step>, s: Step, ctx: Ctx)
    ensures TotalBytes(done + [s]) == TotalBytes(done) + (match s.bytes case None => 0 case Some(n) => n)
    ensures Stops(done + [s], ctx) <==>
      Stops(done, ctx) || s.outcome == Failed || (ctx.maxBytes.Some? && TotalBytes(done + [s]) > ctx.maxBytes.value)
  {
    var steps := done + [s];
    PrefixesOfAppend(done, s);
    forall i | 0 <= i < |done| ensures steps[i] == done[i] {
    }
    assert steps[|done|] == s;
  }

  lemma InOrderAppend(items: seq<Item>, it: Item, ctx: Ctx, done: seq<Step>, s: Step)
    requires InOrder(items, ctx, done)
    requires s.component == it.component && (s.outcome == Skipped <==> Stops(done, ctx))
    ensures InOrder(items + [it], ctx, done + [s])
  {
    PrefixesOfAppend(done, s);
  }

  lemma RanOneMore(items: seq<Item>, it: Item, ctx: Ctx, diff: Diff, declares: Declares, done: seq<Step>, s: Step,
                   before: map<string, Repo>, was: map<string, Repo>, after: map<string, Repo>)
    requires UniqueComponents(items + [it])
    requires Ran(items, ctx, diff, declares, done, before, was)
    requires s.component == it.component && (s.outcome == Skipped <==> Stops(done, ctx))
    requires Effect(it, ctx, diff, declares, s, Lookup(was, it.component), Lookup(after, it.component))
    requires forall n :: n != it.component ==> Lookup(was, n) == Lookup(after, n)
    ensures Ran(items + [it], ctx, diff, declares, done + [s], before, after)
  {
    InOrderAppend(items, it, ctx, done, s);
    var more, steps := items + [it], done + [s];
    forall k | 0 <= k < |items| ensures more[k] == items[k] && items[k].component != it.component {
      assert more[k].component != more[|items|].component;
    }
    assert Lookup(was, it.component) == Lookup(before, it.component);
    forall k | 0 <= k < |more|
      ensures Effect(more[k], ctx, diff, declares, steps[k],
                     Lookup(before, more[k].component), Lookup(after, more[k].component))
    {
      if k < |items| {
        assert Lookup(was, items[k].component) == Lookup(after, items[k].component);
      }
    }
    forall n | forall k :: 0 <= k < |more| ==> more[k].component != n
      ensures Lookup(before, n) == Lookup(after, n)
    {
      assert more[|items|].component != n;
      assert forall k :: 0 <= k < |items| ==> more[k].component != n;
    }
  }

  // ---- what every run keeps ----

  lemma {:induction false} TotalGrows(steps: seq<Step>, i: nat)
    requires i <= |steps|
    ensures TotalBytes(steps[..i]) <= TotalBytes(steps)
  {
    if i < |steps| {
      assert steps[..|steps| - 1][..i] == steps[..i];
      TotalGrows(steps[..|steps| - 1], i);
    } else {
      assert steps[..i] == steps;
    }
  }

  /** Once a run has stopped it stays stopped: the executed steps come first,
      only the last of them can have failed, and what was fetched before it is
      within the budget. */
  lemma RunStopsOnce(items: seq<Item>, ctx: Ctx, steps: seq<Step>, i: nat, j: nat)
    requires InOrder(items, ctx, steps) && i < j < |steps|
    ensures steps[i].outcome == Skipped ==> steps[j].outcome == Skipped
    ensures steps[i].outcome == Failed ==> steps[j].outcome == Skipped
    ensures steps[j].outcome != Skipped && ctx.maxBytes.Some? ==> TotalBytes(steps[..i + 1]) <= ctx.maxBytes.value
  {
    assert steps[..j][..i] == steps[..i] && steps[..j][..i + 1] == steps[..i + 1];
    TotalGrows(steps[..j], i);
    TotalGrows(steps[..j], i + 1);
    if k :| 0 <= k < i && steps[..i][k].outcome == Failed {
      assert steps[..j][k].outcome == Failed;
    }
    if steps[i].outcome == Failed {
      assert steps[..j][i].outcome == Failed;
    }
  }

  /** Everything after a failed step, or after the step that spends the byte
      budget, is as it was. */
  lemma StopLeavesTheRest(items: seq<Item>, ctx: Ctx, diff: Diff, declares: Declares, steps: seq<Step>,
                          before: map<string, Repo>, after: map<string, Repo>, i: nat, j: nat)
    requires Ran(items, ctx, diff, declares, steps, before, after) && i < j < |items|
    requires steps[i].outcome == Failed || (ctx.maxBytes.Some? && TotalBytes(steps[..i + 1]) > ctx.maxBytes.value)
    ensures steps[j].outcome == Skipped && Lookup(before, items[j].component) == Lookup(after, items[j].component)
  {
    RunStopsOnce(items, ctx, steps, i, j);
  }

  predicate Success(steps: seq<Step>) {
    forall k :: 0 <= k < |steps| ==> steps[k].outcome !in {Failed, Skipped, Refused}
  }

  /** The station as the planner reads it: full commit names, nothing unreadable. */
  function Read(repos: map<string, Repo>): Reading {
    Reading(map n | n in repos :: Some(repos[n].head), map n | n in repos :: repos[n].dirty, {})
  }

  /** `items` is the classified plan for this station and release. */
  ghost predicate IsPlanFor(items: seq<Item>, repos: map<string, Repo>, m: Manifest, names: seq<string>,
      isAncestor: Ancestry)
  {
    var plan := Plan(Read(repos), m, names);
    && (forall n :: n in names <==> n in repos)
    && |items| == |plan| && forall k :: 0 <= k < |plan| ==> items[k] == ClassifyOne(plan[k], isAncestor)
  }

  /** Pins are long enough to be compared. */
  predicate LongPins(m: Manifest) {
    forall k :: 0 <= k < |m| ==> |m[k].1| >= 7
  }

  lemma PrefixIsEqualSha(target: string, full: string)
    requires target <= full && |target| >= MIN_SHA_PREFIX
    ensures ShaEqual(full, target)
  {
    assert full[..|target|] == target;
    assert target[..|target|] == target;
  }

  /** The item a pinned component gets in a plan. */
  lemma PlannedItem(items: seq<Item>, repos: map<string, Repo>, m: Manifest, names: seq<string>, isAncestor: Ancestry,
                    i: nat) returns (k: nat)
    requires IsPlanFor(items, repos, m, names, isAncestor) && i < |m|
    ensures k < |items| && items[k] == ClassifyOne(PlanOne(Read(repos), m[i].0, m[i].1), isAncestor)
  {
    var r := Read(repos);
    PlanCoversEverything(r, m, names);
    var it := PlanOne(r, m[i].0, m[i].1);
    assert it in Plan(r, m, names);
    k :| 0 <= k < |Plan(r, m, names)| && Plan(r, m, names)[k] == it;
  }

  /** What a pinned component's item says of its checkout. */
  lemma PlannedStatus(repos: map<string, Repo>, name: string, target: string, isAncestor: Ancestry)
    ensures var it := ClassifyOne(PlanOne(Read(repos), name, target), isAncestor);
      && it.component == name && it.target == target && it.status !in {Move, Stray}
      && (it.status == Missing <==> name !in repos)
      && (name in repos ==> it.live == repos[name].head && (it.status == Current <==> ShaEqual(it.live, target)))
  {
    hide ShaEqual, Refuses;
  }

  lemma SameEntrySamePlan(before: map<string, Repo>, after: map<string, Repo>, name: string, target: string)
    requires Lookup(before, name) == Lookup(after, name)
    ensures PlanOne(Read(before), name, target) == PlanOne(Read(after), name, target)
  {
  }

  lemma MovedIsAtTarget(it: Item, ctx: Ctx, diff: Diff, declares: Declares, s: Step, full: Commit, b: Repo, a: Repo)
    requires MoveEffect(it, ctx, diff, declares, s, full, b, a) && s.outcome !in {Failed, Refused}
    ensures a.head == full && a.pin == Some(full + "\n") && it.target <= full
  {
  }

  /** Where a component that was planned and not blocked ends up. */
  lemma PinnedEndsAligned(it: Item, name: string, target: string, ctx: Ctx, diff: Diff, declares: Declares, s: Step,
                          before: map<string, Repo>, after: map<string, Repo>, isAncestor: Ancestry)
    requires |target| >= 7
    requires it == ClassifyOne(PlanOne(Read(before), name, target), isAncestor)
    requires Effect(it, ctx, diff, declares, s, Lookup(before, name), Lookup(after, name))
    requires s.outcome !in {Failed, Skipped, Refused}
    ensures var next := ClassifyOne(PlanOne(Read(after), name, target), isAncestor);
      next.status == Current || (next.status == Ahead && it.status == Ahead && !ctx.allowRollback)
  {
    PlannedStatus(before, name, target, isAncestor);
    PlannedStatus(after, name, target, isAncestor);
    hide PlanOne, ClassifyOne, Read, ShaEqual, MoveEffect;
    if Moves(it, ctx) {
      var full :| MoveEffect(it, ctx, diff, declares, s, full, before[name], after[name]);
      MovedIsAtTarget(it, ctx, diff, declares, s, full, before[name], after[name]);
      PrefixIsEqualSha(target, full);
    } else if it.status == Missing {
      PrefixIsEqualSha(target, after[name].head);
    } else if Lookup(before, name) == Lookup(after, name) {
      SameEntrySamePlan(before, after, name, target);
    }
  }

  lemma PlannedFrom(repos: map<string, Repo>, m: Manifest, names: seq<string>, k: nat) returns (i: nat)
    requires forall n :: n in names <==> n in repos
    requires k < |Plan(Read(repos), m, names)|
    ensures var it := Plan(Read(repos), m, names)[k];
      || (it.status == Stray && !Pins(m, it.component))
      || (i < |m| && it == PlanOne(Read(repos), m[i].0, m[i].1))
  {
    var r := Read(repos);
    PlanCoversEverything(r, m, names);
    hide Plan, PlanOne;
    var it := Plan(r, m, names)[k];
    assert it in Plan(r, m, names);
    i := 0;
    if j :| 0 <= j < |m| && it == PlanOne(r, m[j].0, m[j].1) {
      i := j;
    }
  }

  /** Nothing is left to do for this item. */
  predicate Settled(it: Item, ctx: Ctx) {
    it.status in {Current, Stray} || (it.status == Ahead && !ctx.allowRollback)
  }

  lemma PinnedIsSettled(items: seq<Item>, ctx: Ctx, diff: Diff, declares: Declares, steps: seq<Step>,
                        before: map<string, Repo>, after: map<string, Repo>, m: Manifest,
                        names: seq<string>, isAncestor: Ancestry, i: nat)
    requires IsPlanFor(items, before, m, names, isAncestor) && LongPins(m) && i < |m|
    requires Ran(items, ctx, diff, declares, steps, before, after) && Success(steps)
    ensures Settled(ClassifyOne(PlanOne(Read(after), m[i].0, m[i].1), isAncestor), ctx)
  {
    var j := PlannedItem(items, before, m, names, isAncestor, i);
    assert items[j].component == m[i].0;
    PinnedEndsAligned(items[j], m[i].0, m[i].1, ctx, diff, declares, steps[j], before, after, isAncestor);
  }

  /** A run without a failed, skipped or refused step leaves nothing to do:
      planning again finds every pinned component current, or still ahead where
      rollback was not allowed, and otherwise only strays. */
  lemma SuccessfulRunIsAligned(items: seq<Item>, ctx: Ctx, diff: Diff, declares: Declares, steps: seq<Step>,
                               before: map<string, Repo>, after: map<string, Repo>, m: Manifest,
                               names: seq<string>, again: seq<Item>, names': seq<string>, isAncestor: Ancestry)
    requires IsPlanFor(items, before, m, names, isAncestor) && LongPins(m)
    requires Ran(items, ctx, diff, declares, steps, before, after) && Success(steps)
    requires IsPlanFor(again, after, m, names', isAncestor)
    ensures forall k :: 0 <= k < |again| ==> Settled(again[k], ctx)
  {
    forall k | 0 <= k < |again| ensures Settled(again[k], ctx) {
      var i := PlannedFrom(after, m, names', k);
      assert again[k] == ClassifyOne(Plan(Read(after), m, names')[k], isAncestor);
      if i < |m| {
        PinnedIsSettled(items, ctx, diff, declares, steps, before, after, m, names, isAncestor, i);
      }
    }
  }

  /** So a second run checks nothing out. */
  lemma AlignedRunMovesNothing(items: seq<Item>, ctx: Ctx, diff: Diff, declares: Declares, steps: seq<Step>,
                               before: map<string, Repo>, after: map<string, Repo>)
    requires Ran(items, ctx, diff, declares, steps, before, after)
    requires forall k :: 0 <= k < |items| ==> Settled(items[k], ctx)
    ensures before.Keys == after.Keys
    ensures forall n :: n in before ==> after[n].head == before[n].head && after[n].branch == before[n].branch
  {
    forall n ensures n in before <==> n in after
             ensures n in before && n in after
               ==> after[n].head == before[n].head && after[n].branch == before[n].branch
    {
      hide Effect, Settled, Lookup, InOrder;
      if k :| 0 <= k < |items| && items[k].component == n {
        SettledKeepsHead(items[k], ctx, diff, declares, steps[k], Lookup(before, n), Lookup(after, n));
      } else {
        assert Lookup(before, n) == Lookup(after, n);
      }
      LookupIs(before, n);
      LookupIs(after, n);
    }
  }

  lemma LookupIs(repos: map<string, Repo>, n: string)
    ensures Lookup(repos, n) == if n in repos then Some(repos[n]) else None
  {
  }

  lemma SettledKeepsHead(it: Item, ctx: Ctx, diff: Diff, declares: Declares, s: Step, b: Option<Repo>, a: Option<Repo>)
    requires Effect(it, ctx, diff, declares, s, b, a) && Settled(it, ctx)
    ensures b.Some? <==> a.Some?
    ensures b.Some? ==> a.value.head == b.value.head && a.value.branch == b.value.branch
  {
    hide MoveEffect;
  }

  /** What ancestry makes of a pinned checkout's item. */
  lemma PlannedByAncestry(repos: map<string, Repo>, name: string, target: string, isAncestor: Ancestry)
    requires name in repos
    ensures var it := ClassifyOne(PlanOne(Read(repos), name, target), isAncestor);
      var head := repos[name].head;
      && (it.status == Forward ==> isAncestor(name, head, target) == Some(true))
      && (it.status == Ahead ==>
            isAncestor(name, head, target) == Some(false) && isAncestor(name, target, head) == Some(true))
      && (it.status in {Forward, Ahead} ==> repos[name].dirty <= {PinFile, UvLock})
  {
    var one := PlanOne(Read(repos), name, target);
    PlannedStatus(repos, name, target, isAncestor);
    MoveIsPlanned(Read(repos), name, target);
    if one.status == Move {
      ClassifiedIs(one, isAncestor);
    }
    hide ShaEqual, Refuses, DirtOf;
  }

  /** Which item a checkout has in a plan, and for which pin. */
  lemma ItemOf(items: seq<Item>, before: map<string, Repo>, m: Manifest, names: seq<string>, isAncestor: Ancestry,
               k: nat) returns (i: nat)
    requires IsPlanFor(items, before, m, names, isAncestor) && k < |items|
    ensures (items[k].status == Stray && !Pins(m, items[k].component))
      || (i < |m| && items[k] == ClassifyOne(PlanOne(Read(before), m[i].0, m[i].1), isAncestor)
          && items[k].component == m[i].0)
  {
    i := PlannedFrom(before, m, names, k);
    hide PlanOne, Plan, Read;
    if i < |m| {
      PlannedStatus(before, m[i].0, m[i].1, isAncestor);
    }
  }

  /** A run moves a checkout only towards its pin: forward, or back where that
      is allowed, onto a commit that origin vouches for and that the pin names,
      and only from a checkout with nothing changed but uv.lock and the pin. */
  lemma HeadsMoveTowardsPins(items: seq<Item>, ctx: Ctx, diff: Diff, declares: Declares, steps: seq<Step>,
                             before: map<string, Repo>, after: map<string, Repo>, m: Manifest,
                             names: seq<string>, isAncestor: Ancestry, n: string) returns (i: nat, full: Commit)
    requires IsPlanFor(items, before, m, names, isAncestor)
    requires Ran(items, ctx, diff, declares, steps, before, after)
    requires n in before && n in after && before[n].head != after[n].head
    ensures i < |m| && m[i].0 == n
    ensures isAncestor(n, before[n].head, m[i].1) == Some(true)
      || (ctx.allowRollback && isAncestor(n, m[i].1, before[n].head) == Some(true))
    ensures ctx.vouches(n, full) == Some(true) && m[i].1 <= full && before[n].dirty <= {PinFile, UvLock}
    ensures n in ctx.origins && n in ctx.catalogRepos ==> ctx.origins[n] == ctx.catalogRepos[n]
  {
    hide *;
    LookupIs(before, n);
    LookupIs(after, n);
    var k := ItemThatChanged(items, ctx, diff, declares, steps, before, after, n);
    i := ItemOf(items, before, m, names, isAncestor, k);
    if items[k].status != Stray {
      PlannedStatus(before, n, m[i].1, isAncestor);
      PlannedByAncestry(before, n, m[i].1, isAncestor);
    }
    full := OnlyMovesMove(items[k], ctx, diff, declares, steps[k], before, after, n);
    AllowedMoves(items[k], ctx);
  }

  lemma ItemThatChanged(items: seq<Item>, ctx: Ctx, diff: Diff, declares: Declares, steps: seq<Step>,
                        before: map<string, Repo>, after: map<string, Repo>, n: string) returns (k: nat)
    requires Ran(items, ctx, diff, declares, steps, before, after) && Lookup(before, n) != Lookup(after, n)
    ensures k < |items| == |steps| && items[k].component == n
    ensures Effect(items[k], ctx, diff, declares, steps[k], Lookup(before, n), Lookup(after, n))
  {
    hide Effect, Lookup;
    k :| 0 <= k < |items| && items[k].component == n;
  }

  lemma AllowedMoves(it: Item, ctx: Ctx)
    requires Moves(it, ctx) && it.status != Move
    ensures it.status == Forward || (it.status == Ahead && ctx.allowRollback)
  {
  }

  lemma OnlyMovesMove(it: Item, ctx: Ctx, diff: Diff, declares: Declares, s: Step, before: map<string, Repo>,
                      after: map<string, Repo>, n: string) returns (full: Commit)
    requires n in before && n in after && it.component == n && it.status != Missing
    requires Effect(it, ctx, diff, declares, s, Lookup(before, n), Lookup(after, n))
    requires before[n].head != after[n].head
    ensures Moves(it, ctx) && it.status != Stray && ctx.vouches(n, full) == Some(true) && it.target <= full
    ensures n in ctx.origins && n in ctx.catalogRepos ==> ctx.origins[n] == ctx.catalogRepos[n]
  {
    full :| MoveEffect(it, ctx, diff, declares, s, full, before[n], after[n]);
  }

  /** No run loses a checkout, and one that is left alone is no part of the
      release, or is ahead of its pin where going back is not allowed. */
  lemma LeftIsStrayOrAhead(items: seq<Item>, ctx: Ctx, diff: Diff, declares: Declares, steps: seq<Step>,
                           before: map<string, Repo>, after: map<string, Repo>, m: Manifest,
                           names: seq<string>, isAncestor: Ancestry, k: nat) returns (i: nat)
    requires IsPlanFor(items, before, m, names, isAncestor) && k < |items|
    requires Ran(items, ctx, diff, declares, steps, before, after)
    ensures items[k].component in before ==> items[k].component in after
    ensures steps[k].outcome == Left ==>
      || !Pins(m, items[k].component)
      || (i < |m| && m[i].0 == items[k].component && items[k].component in before && !ctx.allowRollback
          && isAncestor(m[i].0, before[m[i].0].head, m[i].1) == Some(false)
          && isAncestor(m[i].0, m[i].1, before[m[i].0].head) == Some(true))
  {
    hide *;
    var n := items[k].component;
    i := ItemOf(items, before, m, names, isAncestor, k);
    EffectOf(items, ctx, diff, declares, steps, before, after, k);
    LeftIs(items[k], ctx, diff, declares, steps[k], Lookup(before, n), Lookup(after, n));
    LookupIs(before, n);
    LookupIs(after, n);
    if i < |m| && n == m[i].0 {
      PlannedStatus(before, n, m[i].1, isAncestor);
      if n in before {
        PlannedByAncestry(before, n, m[i].1, isAncestor);
      }
    }
  }

  lemma EffectOf(items: seq<Item>, ctx: Ctx, diff: Diff, declares: Declares, steps: seq<Step>,
                 before: map<string, Repo>, after: map<string, Repo>, k: nat)
    requires Ran(items, ctx, diff, declares, steps, before, after) && k < |items|
    ensures |steps| == |items| && var n := items[k].component;
      Effect(items[k], ctx, diff, declares, steps[k], Lookup(before, n), Lookup(after, n))
  {
  }

  lemma LeftIs(it: Item, ctx: Ctx, diff: Diff, declares: Declares, s: Step, b: Option<Repo>, a: Option<Repo>)
    requires Effect(it, ctx, diff, declares, s, b, a)
    ensures b.Some? && it.status != Missing ==> a.Some?
    ensures s.outcome == Left ==> it.status == Stray || (it.status == Ahead && !ctx.allowRollback)
  {
    hide MoveEffect;
    if Moves(it, ctx) && b.Some? && s.outcome != Skipped {
      var full :| MoveEffect(it, ctx, diff, declares, s, full, b.value, a.value);
      MoveOutcomes(it, ctx, diff, declares, s, full, b.value, a.value);
    }
  }

  lemma MoveOutcomes(it: Item, ctx: Ctx, diff: Diff, declares: Declares, s: Step, full: Commit, b: Repo, a: Repo)
    requires MoveEffect(it, ctx, diff, declares, s, full, b, a)
    ensures s.outcome in {Moved, Refused, Failed}
  {
  }

  // ---- pins ----

  /** A commit name with a newline after it reads as that name. */
  lemma {:induction false} NameIsRead(target: string, rest: string)
    requires IsWord(target)
    ensures target <= RStrip(target + rest)
    decreases |rest|
  {
    if rest != [] && IsSpace(rest[|rest| - 1]) {
      var n := |rest| - 1;
      assert (target + rest)[..|target| + n] == target + rest[..n];
      NameIsRead(target, rest[..n]);
    }
  }

  predicate PinNames(r: Repo, target: string) {
    r.pin.Some? && ShaEqual(Strip(r.pin.value), target)
  }

  lemma WrittenPinNames(r: Repo, target: string)
    requires PinWritten(r, target) && IsWord(target) && |target| >= MIN_SHA_PREFIX
    ensures PinNames(r, target)
  {
    if !ShaEqual(Strip(r.pin.value), target) {
      var full :| r.pin.value == full + "\n" && target <= full;
      var rest := full[|target|..] + "\n";
      assert r.pin.value == target + rest;
      NameIsRead(target, rest);
      assert LStrip(target + rest) == target + rest;
      PrefixIsEqualSha(target, Strip(r.pin.value));
    }
  }

  /** Where a component that was planned and not blocked has its pin. */
  lemma PinnedEndsPinned(it: Item, name: string, target: string, ctx: Ctx, diff: Diff, declares: Declares, s: Step,
                         before: map<string, Repo>, after: map<string, Repo>, isAncestor: Ancestry)
    requires |target| >= 7 && IsWord(target)
    requires it == ClassifyOne(PlanOne(Read(before), name, target), isAncestor)
    requires Effect(it, ctx, diff, declares, s, Lookup(before, name), Lookup(after, name))
    requires s.outcome !in {Failed, Skipped, Refused}
    requires PinNotRefreshed !in s.notes && (it.status == Ahead ==> ctx.allowRollback)
    ensures name in after && PinNames(after[name], target)
  {
    PlannedStatus(before, name, target, isAncestor);
    hide PlanOne, ClassifyOne, Read, ShaEqual, MoveEffect, PinNames, IsWord;
    if Moves(it, ctx) {
      var full :| MoveEffect(it, ctx, diff, declares, s, full, before[name], after[name]);
      MovedIsAtTarget(it, ctx, diff, declares, s, full, before[name], after[name]);
    }
    assert PinWritten(after[name], target);
    WrittenPinNames(after[name], target);
  }

  /** After a successful run every pin names the release's commit, but for the
      components left ahead and those whose step says the pin was not
      refreshed. */
  lemma SuccessfulRunIsPinned(items: seq<Item>, ctx: Ctx, diff: Diff, declares: Declares, steps: seq<Step>,
                              before: map<string, Repo>, after: map<string, Repo>, m: Manifest,
                              names: seq<string>, isAncestor: Ancestry, i: nat) returns (j: nat)
    requires IsPlanFor(items, before, m, names, isAncestor) && i < |m|
    requires |m[i].1| >= 7 && IsWord(m[i].1)
    requires Ran(items, ctx, diff, declares, steps, before, after) && Success(steps)
    ensures j < |items| && items[j].component == m[i].0
    ensures PinNotRefreshed !in steps[j].notes && (items[j].status == Ahead ==> ctx.allowRollback) ==>
      m[i].0 in after && PinNames(after[m[i].0], m[i].1)
  {
    j := PlannedItem(items, before, m, names, isAncestor, i);
    PlannedStatus(before, m[i].0, m[i].1, isAncestor);
    hide Effect, PinNames, ClassifyOne, PlanOne, Read, IsPlanFor, IsWord, Stops;
    if PinNotRefreshed !in steps[j].notes && (items[j].status == Ahead ==> ctx.allowRollback) {
      PinnedEndsPinned(items[j], m[i].0, m[i].1, ctx, diff, declares, steps[j], before, after, isAncestor);
    }
  }

  /** A run that could not refresh a pin is successful all the same, and leaves a
      pin that names another commit. */
  lemma StalePinPasses(name: string, target: string, other: string, ctx: Ctx, diff: Diff, declares: Declares)
    returns (items: seq<Item>, steps: seq<Step>, repos: map<string, Repo>)
    requires |target| == |other| >= 7 && target != other && NoSpace(target) && NoSpace(other) && !ctx.hasDeployBuild
    ensures Ran(items, ctx, diff, declares, steps, repos, repos) && Success(steps)
    ensures name in repos && repos[name].head == target && !PinNames(repos[name], target)
    ensures |items| == 1 && items[0] == PlanOne(Read(repos), name, target)
  {
    var r := Repo(target, "", map[], Some(other), {}, {target}, target, target, target, None);
    repos := map[name := r];
    PrefixIsEqualSha(target, target);
    items := [Item(name, Current, target, target)];
    steps := [Step(name, IsCurrent, {PinNotRefreshed}, None, false)];
    StrippedStays(other);
    assert other[..|target|] == other && target[..|target|] == target;
  }

  // ---- a checkout that was cut off ----

  lemma FailedIsSameOrCutOff(it: Item, ctx: Ctx, diff: Diff, declares: Declares, s: Step, full: Commit,
                             b: Repo, a: Repo)
    requires MoveEffect(it, ctx, diff, declares, s, full, b, a) && it.live == b.head
    requires s.outcome == Failed && RollbackFailed !in s.notes
    ensures SameCheckout(b, a)
      || (CheckoutCutOff in s.notes && a.head == full && a.branch == "" && a.pin == b.pin && SameProducts(b, a)
          && it.target <= full)
  {
  }

  /** Planning again at the same HEAD. */
  lemma ReplanAtSameHead(before: map<string, Repo>, after: map<string, Repo>, name: string, target: string,
                         isAncestor: Ancestry)
    requires name in before && name in after && before[name].head == after[name].head
    requires PlanOne(Read(before), name, target).status == Move
    ensures ClassifyOne(PlanOne(Read(after), name, target), isAncestor)
      == if Refuses(after[name].dirty) then Item(name, Refuse, before[name].head, target)
         else ClassifyOne(PlanOne(Read(before), name, target), isAncestor)
  {
    hide ShaEqual, Refuses;
  }

  /** What planning again makes of a move that failed without a failed rollback:
      the item it started from, or a refusal when a build left changes behind;
      and Current exactly when the checkout was cut off having moved HEAD. Then
      nothing that the move owed was done. */
  lemma FailedMoveReplans(it: Item, name: string, target: string, ctx: Ctx, diff: Diff, declares: Declares, s: Step,
                          full: Commit, before: map<string, Repo>, after: map<string, Repo>, isAncestor: Ancestry)
    requires |target| >= 7 && name in before && name in after
    requires it == ClassifyOne(PlanOne(Read(before), name, target), isAncestor) && Moves(it, ctx)
    requires MoveEffect(it, ctx, diff, declares, s, full, before[name], after[name])
    requires s.outcome == Failed && RollbackFailed !in s.notes
    ensures var b, a, next := before[name], after[name], ClassifyOne(PlanOne(Read(after), name, target), isAncestor);
      && (a.head != b.head <==> next.status == Current)
      && (a.head != b.head ==>
            CheckoutCutOff in s.notes && a.head == full && a.branch == "" && a.pin == b.pin && SameProducts(b, a))
      && (a.head == b.head ==>
            SameCheckout(b, a) && next == if Refuses(a.dirty) then Item(name, Refuse, b.head, target) else it)
  {
    var b, a := before[name], after[name];
    PlannedStatus(before, name, target, isAncestor);
    PlannedStatus(after, name, target, isAncestor);
    FailedIsSameOrCutOff(it, ctx, diff, declares, s, full, b, a);
    if a.head == b.head {
      ReplanAtSameHead(before, after, name, target, isAncestor);
    } else {
      PrefixIsEqualSha(target, full);
    }
    hide PlanOne, ClassifyOne, Read, ShaEqual, MoveEffect, Refuses;
  }

  /** From there on no run makes up for it: a checkout that is at its pin comes
      out of every planned run with the radiod and the install it had. */
  lemma RunAtPinBuildsNothing(items: seq<Item>, ctx: Ctx, diff: Diff, declares: Declares, steps: seq<Step>,
                              before: map<string, Repo>, after: map<string, Repo>, m: Manifest,
                              names: seq<string>, isAncestor: Ancestry, i: nat)
    requires IsPlanFor(items, before, m, names, isAncestor) && i < |m|
    requires m[i].0 in before && ShaEqual(before[m[i].0].head, m[i].1)
    requires Ran(items, ctx, diff, declares, steps, before, after)
    ensures m[i].0 in after
    ensures var b, a := before[m[i].0], after[m[i].0];
      a.head == b.head && a.binary == b.binary && a.installed == b.installed
  {
    var j := PlannedItem(items, before, m, names, isAncestor, i);
    PlannedStatus(before, m[i].0, m[i].1, isAncestor);
    hide ClassifyOne, PlanOne, Read, IsPlanFor, ShaEqual, Stops;
    assert items[j].component == m[i].0 && items[j].status == Current;
    assert Effect(items[j], ctx, diff, declares, steps[j], Lookup(before, m[i].0), Lookup(after, m[i].0));
  }

  /** Such a move, for any component and any two commits: HEAD is at the target,
      the pin and everything made from the checkout are not, no note speaks of a
      rollback, and the next plan finds the component current. */
  lemma CutOffMoveExists(name: string, was: Commit, to: Commit, ctx: Ctx, diff: Diff, declares: Declares)
    returns (s: Step, b: Repo, a: Repo)
    requires |was| == |to| >= 7 && was != to
    requires OriginAgrees(name, ctx) && ctx.vouches(name, to) == Some(true)
    ensures MoveEffect(Item(name, Forward, was, to), ctx, diff, declares, s, to, b, a)
    ensures s.outcome == Failed && RollbackFailed !in s.notes && DoNotRestart !in s.notes
    ensures b.head == was && a.head == to && a.pin == b.pin == Some(was + "\n") && a.binary == a.installed == was
    ensures PlanOne(Read(map[name := b]), name, to).status == Move
    ensures PlanOne(Read(map[name := a]), name, to).status == Current
  {
    b := Repo(was, "", map[], Some(was + "\n"), {}, {was, to}, was, was, was, Some(was));
    a := b.(head := to);
    s := Step(name, Failed, {CheckoutCutOff}, None, false);
    assert was[..|was|] == was && to[..|to|] == to;
    PrefixIsEqualSha(to, to);
  }
}
