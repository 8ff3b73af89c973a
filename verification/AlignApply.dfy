/** Moving one component to its pin, with rollback (lib/sigmond/align_apply.py).

    Git, the file system, installers and builders may fail whenever they are
    used; each is a method that chooses its outcome freely. */
module AlignApply {
  import opened Text
  import opened AlignPlan

  type Commit = string

  /** One checkout and what was made from it. */
  datatype Repo = Repo(
    head: Commit,                 // the commit checked out
    branch: string,               // the branch HEAD sits on, "" when detached
    tips: map<string, Commit>,    // local branches
    pin: Option<string>,          // the text of .pin
    dirty: set<File>,             // tracked files with changes
    known: set<Commit>,           // the commits present
    binary: Commit,               // what the installed radiod was built from
    installed: Commit,            // what install.sh last completed for
    deployed: Commit,             // what deploy.toml [build] last completed for
    stamp: Option<Commit>)        // what the build stamp records

  predicate ValidRepo(r: Repo) {
    && r.head in r.known
    && (forall b :: b in r.tips ==> r.tips[b] in r.known)
    && (r.branch != "" ==> r.branch in r.tips && r.tips[r.branch] == r.head)
  }

  /** `ref` names exactly one commit, `c`. */
  predicate ResolvesTo(r: Repo, ref: string, c: Commit) {
    c in r.known && ref <= c && forall d :: d in r.known && ref <= d ==> d == c
  }

  const RADIOD := "ka9q-radio"

  predicate IsBuilt(name: string) {
    name == RADIOD
  }

  const INSTALL_TRIGGERS := {Pyproject, UvLock, InstallSh, ScriptsInstallSh}

  /** What the caller wired in. */
  datatype Ctx = Ctx(
    origins: map<string, string>, catalogRepos: map<string, string>,    // normalized URLs
    prefetched: map<string, Option<nat>>,
    allowRollback: bool, maxBytes: Option<nat>,
    hasInstallMissing: bool, hasRunInstall: bool, hasBuild: bool, hasDeployBuild: bool,
    vouches: (string, Commit) -> Option<bool>,    // is it in origin's history, once fetched; None: git cannot be run
    statusWorks: string -> bool)                  // git status ends well for that component

  datatype Outcome = Moved | Installed | IsCurrent | Left | Refused | Failed | Skipped

  /** What a step's detail tells the operator, beyond its outcome. */
  datatype Note = RollbackFailed | DoNotRestart | CheckoutCutOff | PinRefreshed | PinExcluded | PinNotRefreshed

  datatype Step = Step(component: string, outcome: Outcome, notes: set<Note>, bytes: Option<nat>, built: bool)

  /** `CutOff`: timed out, or reported as failed after it had happened, as when a
      post-checkout hook fails. */
  datatype GitResult = Done | Rejected | CutOff

  datatype BuildResult = NotDue | Succeeded | Broke

  /** The same commit, branch, branches and pin. */
  ghost predicate SameCheckout(a: Repo, b: Repo) {
    a.head == b.head && a.branch == b.branch && a.tips == b.tips && a.pin == b.pin
  }

  /** Nothing made from the checkout has changed. */
  ghost predicate SameProducts(a: Repo, b: Repo) {
    a.binary == b.binary && a.installed == b.installed && a.deployed == b.deployed && a.stamp == b.stamp
  }

  /** No local change was lost, a regenerated uv.lock apart. */
  ghost predicate KeepsLocalChanges(before: Repo, after: Repo) {
    before.dirty - {UvLock} <= after.dirty && before.known <= after.known
  }

  /** Everything a completed move owed has been done at the new commit. */
  ghost predicate Followed(n: string, ctx: Ctx, diff: (Commit, Commit) -> set<File>,
                           declaresBuild: (string, Commit) -> bool, from: Commit, r: Repo, built: bool) {
    if n == "ka9q-radio" then ctx.hasBuild && r.binary == r.head
    else
      && (ctx.hasRunInstall && diff(from, r.head) * {Pyproject, UvLock, InstallSh, ScriptsInstallSh} != {} ==>
            r.installed == r.head)
      && (built ==> r.deployed == r.head)
      && (ctx.hasDeployBuild && !built ==> !declaresBuild(n, r.head) || r.stamp == Some(r.head))
  }

  /** A checkout may be moved: its origin is the catalog's, where both are known,
      origin vouches for the commit, and nothing in it is changed but uv.lock
      and the pin, as far as git lists changes at all. */
  ghost predicate Permitted(n: string, ctx: Ctx, full: Commit, b: Repo) {
    && OriginAgrees(n, ctx) && ctx.vouches(n, full) == Some(true)
    && (ctx.statusWorks(n) ==> b.dirty <= {PinFile, UvLock})
  }

  predicate OriginAgrees(n: string, ctx: Ctx) {
    n in ctx.origins && n in ctx.catalogRepos ==> ctx.origins[n] == ctx.catalogRepos[n]
  }

  /** A move is a transaction. `b` and `a` are the checkout before and after. */
  ghost predicate MoveEffect(it: Item, ctx: Ctx, diff: (Commit, Commit) -> set<File>,
                             declaresBuild: (string, Commit) -> bool, s: Step, full: Commit, b: Repo, a: Repo) {
    && s.component == it.component && s.outcome in {Moved, Refused, Failed}
    && KeepsLocalChanges(b, a) && a.tips == b.tips
    && (s.outcome == Moved ==> s.notes == {} && MovedTo(it, ctx, diff, declaresBuild, s, full, b, a))
    && (s.outcome == Refused ==> s.notes == {} && SameCheckout(b, a) && SameProducts(b, a) && a.dirty == b.dirty)
    && (s.outcome == Moved || a.head != b.head ==> Permitted(it.component, ctx, full, b) && it.target <= full)
    && (s.outcome == Refused ==>
          !OriginAgrees(it.component, ctx) || ctx.vouches(it.component, full) == Some(false)
          || !(b.dirty <= {PinFile, UvLock}))
    && (s.outcome == Failed && RollbackFailed !in s.notes && CheckoutCutOff !in s.notes && it.live <= b.head ==>
          SameCheckout(b, a))
    && (CheckoutCutOff in s.notes ==>
          s.outcome == Failed && SameProducts(b, a) && a.pin == b.pin && ResolvesTo(a, it.target, full)
          && ((a.head == b.head && a.branch == b.branch) || (a.head == full && a.branch == "")))
    && (it.component == "ka9q-radio" && b.binary == b.head && it.live <= b.head && s.notes == {} ==>
          a.binary == a.head)
  }

  ghost predicate MovedTo(it: Item, ctx: Ctx, diff: (Commit, Commit) -> set<File>,
                          declaresBuild: (string, Commit) -> bool, s: Step, full: Commit, b: Repo, a: Repo) {
    && ResolvesTo(a, it.target, full)
    && a.head == full && a.branch == "" && a.pin == Some(full + "\n")
    && (it.live <= b.head ==>
          && Followed(it.component, ctx, diff, declaresBuild, b.head, a, s.built)
          && NoMoreDone(it.component, diff, declaresBuild, s, b, a))
  }

  /** Nothing was done that the move did not owe. */
  ghost predicate NoMoreDone(n: string, diff: (Commit, Commit) -> set<File>,
                             declaresBuild: (string, Commit) -> bool, s: Step, b: Repo, a: Repo) {
    && (n != "ka9q-radio" ==> a.binary == b.binary)
    && (n == "ka9q-radio" || diff(b.head, a.head) * {Pyproject, UvLock, InstallSh, ScriptsInstallSh} == {} ==>
          a.installed == b.installed)
    && (s.built ==> n != "ka9q-radio" && declaresBuild(n, a.head) && b.stamp != Some(a.head))
    && (!s.built ==> a.deployed == b.deployed && a.stamp == b.stamp)
  }

  /** The pin was left because it names `target`, or written with a commit that
      `target` abbreviates. */
  ghost predicate PinWritten(r: Repo, target: string) {
    && r.pin.Some?
    && (ShaEqual(Strip(r.pin.value), target) || exists full :: r.pin.value == full + "\n" && target <= full)
  }

  /** A checkout at the pin: its pin refreshed, and built if a build is due. */
  ghost predicate Refreshed(it: Item, ctx: Ctx, declaresBuild: (string, Commit) -> bool,
                            s: Step, b: Repo, a: Repo) {
    && s.outcome in {IsCurrent, Failed}
    && a.head == b.head && a.branch == b.branch && a.tips == b.tips
    && a.binary == b.binary && a.installed == b.installed && KeepsLocalChanges(b, a)
    && (s.outcome == IsCurrent && PinNotRefreshed !in s.notes ==> PinWritten(a, it.target))
    && (s.outcome == IsCurrent && it.component != "ka9q-radio" && ctx.hasDeployBuild && !s.built ==>
          !declaresBuild(it.component, a.head) || a.stamp == Some(a.head))
    && (s.outcome == IsCurrent && s.built ==> declaresBuild(it.component, a.head) && b.stamp != Some(a.head))
    && (s.outcome == IsCurrent && !s.built ==> a.deployed == b.deployed && a.stamp == b.stamp && a.dirty == b.dirty)
  }

  lemma DirtThatStops(files: set<File>)
    ensures files <= {PinFile, UvLock} <==> files - {PinFile} == {} || files - {PinFile} == {UvLock}
  {
    if files - {PinFile} == {} || files - {PinFile} == {UvLock} {
      forall f | f in files ensures f in {PinFile, UvLock} {
        assert f == PinFile || f in files - {PinFile};
      }
    }
    if files <= {PinFile, UvLock} && UvLock in files {
      assert files - {PinFile} == {UvLock};
    }
  }

  /** One checkout on disk. */
  class Checkout {
    const name: string
    const diff: (Commit, Commit) -> set<File>       // what git diff --name-only lists
    const declaresBuild: (string, Commit) -> bool   // deploy.toml [build] and no install.sh
    var head: Commit
    var branch: string
    var tips: map<string, Commit>
    var pin: Option<string>
    var dirty: set<File>
    var known: set<Commit>
    var binary: Commit
    var installed: Commit
    var deployed: Commit
    var stamp: Option<Commit>

    function State(): Repo
      reads this
    {
      Repo(head, branch, tips, pin, dirty, known, binary, installed, deployed, stamp)
    }

    constructor (name: string, r: Repo, diff: (Commit, Commit) -> set<File>, declaresBuild: (string, Commit) -> bool)
      ensures State() == r && this.name == name && this.diff == diff && this.declaresBuild == declaresBuild
    {
      this.name, this.diff, this.declaresBuild := name, diff, declaresBuild;
      head, branch, tips, pin, dirty, known := r.head, r.branch, r.tips, r.pin, r.dirty, r.known;
      binary, installed, deployed, stamp := r.binary, r.installed, r.deployed, r.stamp;
    }

    predicate BuildDue()
      reads this
    {
      declaresBuild(name, head) && stamp != Some(head)
    }

    predicate Valid()
      reads this
    {
      ValidRepo(State())
    }

    // ---- git and the file system ----

    method OwnerOf() returns (ok: bool) {
      ok := *;
    }

    method Fetch() returns (bytes: Option<Option<nat>>)
      requires Valid()
      modifies `known
      ensures Valid()
      ensures old(known) <= known
    {
      var arrived: set<Commit> := *;
      known := known + arrived;
      bytes := *;
    }

    method Resolve(ref: string) returns (c: Option<Commit>)
      ensures c.Some? ==> ResolvesTo(State(), ref, c.value)
    {
      c := *;
      if c.Some? && !ResolvesTo(State(), ref, c.value) {
        c := None;
      }
    }

    method ResolveHead() returns (c: Option<Commit>)
      ensures c.Some? ==> c.value == head
    {
      var ok: bool := *;
      c := if ok then Some(head) else None;
    }

    method InOriginHistory(c: Commit, ctx: Ctx) returns (r: Option<bool>)
      ensures r == ctx.vouches(name, c)
    {
      r := ctx.vouches(name, c);
    }

    /** A status that does not work may list too little, never too much. */
    method DirtyFiles(works: bool) returns (files: Option<set<File>>)
      ensures files.Some? ==> files.value <= dirty
      ensures files.Some? && works ==> files.value == dirty
    {
      files := *;
      if files.Some? && (if works then files.value != dirty else !(files.value <= dirty)) {
        files := None;
      }
    }

    method ResetUvLock() returns (ok: bool)
      modifies `dirty
      ensures dirty == old(dirty) || dirty == old(dirty) - {UvLock}
    {
      ok := *;
      var done: bool := *;
      if ok || done {
        dirty := dirty - {UvLock};
      }
    }

    method CurrentBranch() returns (b: Option<string>)
      ensures b.Some? ==> b.value == branch
    {
      var ok: bool := *;
      b := if ok then Some(branch) else None;
    }

    /** A checkout that git rejects changes nothing; one that is cut off may
        have happened. Local changes are carried over. */
    method CheckOut(c: Commit) returns (r: GitResult)
      requires c in known
      requires Valid()
      modifies `head, `branch
      ensures Valid()
      ensures r == Done ==> head == c && branch == ""
      ensures r == Rejected ==> head == old(head) && branch == old(branch)
      ensures r == CutOff ==> (head == c && branch == "") || (head == old(head) && branch == old(branch))
    {
      r := *;
      var cut: bool := *;
      if r == Done || (r == CutOff && cut) {
        head, branch := c, "";
      }
    }

    method CheckOutBranch(b: string) returns (r: GitResult)
      requires b in tips
      requires Valid()
      modifies `head, `branch
      ensures Valid()
      ensures r == Done ==> head == tips[b] && branch == b
      ensures r == Rejected ==> head == old(head) && branch == old(branch)
      ensures r == CutOff ==> (head == tips[b] && branch == b) || (head == old(head) && branch == old(branch))
    {
      r := *;
      var cut: bool := *;
      if r == Done || (r == CutOff && cut) {
        head, branch := tips[b], b;
      }
    }

    method ReadPin() returns (ok: bool, text: Option<string>)
      ensures ok ==> text == pin
    {
      ok := *;
      text := pin;
    }

    /** Writing, or with None removing, `.pin`. A failed write leaves anything. */
    method SetPin(text: Option<string>) returns (ok: bool)
      modifies `pin
      ensures ok ==> pin == text
    {
      ok := *;
      var left: Option<string> := *;
      pin := if ok then text else left;
    }

    method ExcludePin() returns (ok: bool, added: bool) {
      ok := *;
      added := *;
    }

    method Chown() returns (ok: bool) {
      ok := *;
    }

    method ChangedFiles(a: Commit, b: Commit) returns (files: Option<set<File>>)
      ensures files.Some? ==> files.value == diff(a, b)
    {
      var ok: bool := *;
      files := if ok then Some(diff(a, b)) else None;
    }

    // ---- installers and builders: they work from HEAD and may dirty the tree ----

    method Build() returns (ok: bool)
      modifies `binary, `dirty
      ensures old(dirty) <= dirty
      ensures ok ==> binary == head
    {
      ok := *;
      var left: Commit, more: set<File> := *, *;
      binary := if ok then head else left;
      dirty := dirty + more;
    }

    method RunInstall() returns (ok: bool)
      modifies `installed, `dirty
      ensures old(dirty) <= dirty
      ensures ok ==> installed == head
    {
      ok := *;
      var left: Commit, more: set<File> := *, *;
      installed := if ok then head else left;
      dirty := dirty + more;
    }

    method DeployBuild() returns (r: BuildResult)
      modifies `deployed, `stamp, `dirty
      ensures old(dirty) <= dirty
      ensures r == NotDue ==> !BuildDue() && deployed == old(deployed) && stamp == old(stamp) && dirty == old(dirty)
      ensures r == Succeeded ==> deployed == head && old(BuildDue())
    {
      if !BuildDue() {
        return NotDue;
      }
      var ok: bool := *;
      r := if ok then Succeeded else Broke;
      var left: Commit, more: set<File> := *, *;
      deployed := if ok then head else left;
      dirty := dirty + more;
      stamp := *;
    }

    // ---- the move ----

    /** Undo a checkout whose follow-through failed: the pin first, then a
        lone uv.lock change, then the branch or commit it came from. */
    method RollBack(from: Commit, prevPin: Option<string>, was: string) returns (failed: bool)
      requires from in known
      requires was != "" ==> was in tips
      requires Valid()
      modifies `pin, `dirty, `head, `branch
      ensures Valid()
      ensures old(dirty) - {UvLock} <= dirty
      ensures !failed ==> head == from && branch == was && pin == prevPin
    {
      var ok := SetPin(prevPin);
      if !ok {
        return true;
      }
      var works: bool := *;
      var files := DirtyFiles(works);
      if files.None? {
        return true;
      }
      if files.value - {PinFile} == {UvLock} {
        var reset := ResetUvLock();
        if !reset {
          return true;
        }
      }
      var r: GitResult;
      if was != "" {
        r := CheckOutBranch(was);
      } else {
        r := CheckOut(from);
      }
      if r != Done {
        return true;
      }
      var now := ResolveHead();
      failed := now != Some(from);
    }

    /** The same for a built component, then a rebuild there: a failed build may
        have installed the new commit's binary. */
    method RollBackAndRebuild(from: Commit, prevPin: Option<string>, was: string, ctx: Ctx) returns (notes: set<Note>)
      requires from in known
      requires was != "" ==> was in tips
      requires Valid()
      modifies `pin, `dirty, `head, `branch, `binary
      ensures Valid()
      ensures old(dirty) - {UvLock} <= dirty
      ensures notes <= {RollbackFailed, DoNotRestart} && (RollbackFailed in notes ==> DoNotRestart in notes)
      ensures RollbackFailed !in notes ==> head == from && branch == was && pin == prevPin
      ensures notes == {} ==> binary == if ctx.hasBuild then head else old(binary)
    {
      var failed := RollBack(from, prevPin, was);
      if failed {
        return {RollbackFailed, DoNotRestart};
      }
      if !ctx.hasBuild {
        return {};
      }
      var ok := Build();
      notes := if ok then {} else {DoNotRestart};
    }

    /** Write the pin, hand it to its owner, and list what the move changes. */
    method PinAndCompare(from: Commit) returns (changed: Option<set<File>>)
      modifies `pin
      ensures changed.Some? ==> pin == Some(head + "\n")
      ensures changed.Some? ==> changed.value == if IsBuilt(name) then {} else diff(from, head)
    {
      var ok := SetPin(Some(head + "\n"));
      if !ok {
        return None;
      }
      var excluded, _ := ExcludePin();
      if !excluded {
        return None;
      }
      var owned := Chown();
      if !owned {
        return None;
      }
      if IsBuilt(name) {
        return Some({});
      }
      changed := ChangedFiles(from, head);
    }

    /** The build or install that the new commit needs; None when it went well,
        else whether the component's own builder is to be re-run. */
    method InstallAt(changed: set<File>, ctx: Ctx) returns (ok: bool, built: bool)
      modifies `binary, `installed, `deployed, `stamp, `dirty
      ensures old(dirty) <= dirty
      ensures ok && IsBuilt(name) ==> ctx.hasBuild && binary == head && !built
      ensures ok && !IsBuilt(name) ==>
        && (ctx.hasRunInstall && changed * INSTALL_TRIGGERS != {} ==> installed == head)
        && (built ==> deployed == head)
        && (ctx.hasDeployBuild && !built ==> !BuildDue())
      ensures !IsBuilt(name) || !ctx.hasBuild ==> binary == old(binary)
      ensures IsBuilt(name) || changed * INSTALL_TRIGGERS == {} ==> installed == old(installed)
      ensures ok && built ==> !IsBuilt(name) && old(BuildDue())
      ensures ok && !built ==> deployed == old(deployed) && stamp == old(stamp)
    {
      built := false;
      if IsBuilt(name) {
        ok := false;
        if ctx.hasBuild {
          ok := Build();
        }
        return;
      }
      if changed * INSTALL_TRIGGERS != {} && ctx.hasRunInstall {
        ok := RunInstall();
        if !ok {
          return;
        }
      }
      ok := true;
      if ctx.hasDeployBuild {
        var r := DeployBuild();
        ok := r != Broke;
        built := r == Succeeded;
      }
    }

    /** Step 6 on: pin, then build or install, rolling back on any failure. */
    method FollowThrough(from: Commit, prevPin: Option<string>, was: string, bytes: Option<nat>, ctx: Ctx)
      returns (s: Step)
      requires branch == "" && from in known && (was != "" ==> was in tips)
      requires Valid()
      modifies `pin, `dirty, `head, `branch, `binary, `installed, `deployed, `stamp
      ensures Valid()
      ensures old(dirty) - {UvLock} <= dirty
      ensures s.component == name && s.bytes == bytes && s.outcome in {Moved, Failed} && CheckoutCutOff !in s.notes
      ensures s.outcome == Moved ==>
        && s.notes == {} && head == old(head) && branch == "" && pin == Some(head + "\n")
        && Followed(name, ctx, diff, declaresBuild, from, State(), s.built)
        && (name != "ka9q-radio" ==> binary == old(binary))
        && (name == "ka9q-radio" || diff(from, head) * {Pyproject, UvLock, InstallSh, ScriptsInstallSh} == {} ==>
              installed == old(installed))
        && (s.built ==> name != "ka9q-radio" && declaresBuild(name, head) && old(stamp) != Some(head))
        && (!s.built ==> deployed == old(deployed) && stamp == old(stamp))
      ensures s.outcome == Failed && RollbackFailed !in s.notes ==> head == from && branch == was && pin == prevPin
      ensures IsBuilt(name) && old(binary) == from && s.notes == {} ==> binary == head
    {
      var changed := PinAndCompare(from);
      if changed.None? {
        var failed := RollBack(from, prevPin, was);
        return Step(name, Failed, if failed then {RollbackFailed} else {}, bytes, false);
      }
      var ok, built := InstallAt(changed.value, ctx);
      if !ok {
        var notes: set<Note>;
        if IsBuilt(name) {
          notes := RollBackAndRebuild(from, prevPin, was, ctx);
        } else {
          var failed := RollBack(from, prevPin, was);
          notes := if failed then {RollbackFailed} else {};
        }
        return Step(name, Failed, notes, bytes, false);
      }
      s := Step(name, Moved, {}, bytes, built);
    }

    /** Steps 1-3 of a move: the origin is the catalog's, the remote is fetched,
        and the target is one commit that origin vouches for. */
    method FetchTarget(it: Item, ctx: Ctx) returns (ended: Option<Step>, full: Commit, bytes: Option<nat>)
      requires it.component == name && Valid()
      modifies `known
      ensures Valid() && old(known) <= known
      ensures ended.Some? ==>
        && ended.value == Step(name, ended.value.outcome, {}, ended.value.bytes, false)
        && ended.value.outcome in {Refused, Failed}
        && (ended.value.outcome == Refused ==> !OriginAgrees(name, ctx) || ctx.vouches(name, full) == Some(false))
      ensures ended.None? ==>
        OriginAgrees(name, ctx) && ctx.vouches(name, full) == Some(true) && ResolvesTo(State(), it.target, full)
    {
      full, bytes := head, None;
      var owned := OwnerOf();
      if !owned {
        return Some(Step(name, Failed, {}, None, false)), full, bytes;
      }
      if name in ctx.origins && name in ctx.catalogRepos && ctx.origins[name] != ctx.catalogRepos[name] {
        return Some(Step(name, Refused, {}, None, false)), full, bytes;
      }
      if name in ctx.prefetched {
        bytes := ctx.prefetched[name];
      } else {
        var fetched := Fetch();
        if fetched.None? {
          return Some(Step(name, Failed, {}, None, false)), full, bytes;
        }
        bytes := fetched.value;
      }
      var target := Resolve(it.target);
      if target.None? {
        return Some(Step(name, Failed, {}, bytes, false)), full, bytes;
      }
      full := target.value;
      var vouched := InOriginHistory(full, ctx);
      if vouched.None? {
        return Some(Step(name, Failed, {}, bytes, false)), full, bytes;
      }
      if !vouched.value {
        return Some(Step(name, Refused, {}, bytes, false)), full, bytes;
      }
      ended := None;
    }

    /** Steps 1-4 of a move, and what step 5 remembers first: either the step
        that ends the move here, or where to go and what to come back to. */
    method Prepare(it: Item, ctx: Ctx)
      returns (ended: Option<Step>, full: Commit, from: Commit, prevPin: Option<string>, was: string,
        bytes: Option<nat>)
      requires it.component == name && Valid()
      modifies `known, `dirty
      ensures Valid() && old(known) <= known && old(dirty) - {UvLock} <= dirty <= old(dirty)
      ensures ended.Some? ==>
        && ended.value == Step(name, ended.value.outcome, {}, ended.value.bytes, false)
        && ended.value.outcome in {Refused, Failed}
        && (ended.value.outcome == Refused ==> dirty == old(dirty))
      ensures ended.Some? && ended.value.outcome == Refused ==>
        !OriginAgrees(name, ctx) || ctx.vouches(name, full) == Some(false) || !(old(dirty) <= {PinFile, UvLock})
      ensures ended.None? ==>
        && Permitted(name, ctx, full, old(State()))
        && ResolvesTo(State(), it.target, full) && ResolvesTo(State(), it.live, from)
        && prevPin == pin && was == branch
    {
      from, prevPin, was := head, None, "";
      ended, full, bytes := FetchTarget(it, ctx);
      if ended.Some? {
        return;
      }
      var failure := Some(Step(name, Failed, {}, bytes, false));
      var refusal := Some(Step(name, Refused, {}, bytes, false));
      var files := DirtyFiles(ctx.statusWorks(name));
      if files.None? {
        return failure, full, from, prevPin, was, bytes;
      }
      DirtThatStops(files.value);
      hide Permitted, OriginAgrees, ResolvesTo, ValidRepo;
      var dirt := files.value - {PinFile};
      if dirt == {UvLock} {
        var reset := ResetUvLock();
        if !reset {
          return failure, full, from, prevPin, was, bytes;
        }
      } else if dirt != {} {
        return refusal, full, from, prevPin, was, bytes;
      }
      var live := Resolve(it.live);
      if live.None? {
        return failure, full, from, prevPin, was, bytes;
      }
      from := live.value;
      var read: bool;
      read, prevPin := ReadPin();
      if !read {
        return failure, full, from, prevPin, was, bytes;
      }
      var on := CurrentBranch();
      if on.None? {
        return failure, full, from, prevPin, was, bytes;
      }
      was := on.value;
      ended := None;
    }

    /** Steps 1-7 of a forward move, or of an allowed rollback. */
    method Move(it: Item, ctx: Ctx) returns (s: Step, ghost full: Commit)
      requires it.component == name && Valid()
      modifies this
      ensures Valid()
      ensures MoveEffect(it, ctx, diff, declaresBuild, s, full, old(State()), State())
    {
      var ended, target, from, prevPin, was, bytes := Prepare(it, ctx);
      full := target;
      if ended.Some? {
        return ended.value, full;
      }
      assert it.live <= head ==> from == head;
      var moved := CheckOut(target);
      if moved != Done {
        return Step(name, Failed, if moved == CutOff then {CheckoutCutOff} else {}, bytes, false), full;
      }
      s := FollowThrough(from, prevPin, was, bytes, ctx);
    }

    /** A current component's pin is rewritten when it is absent or names
        another commit; a pin that matches only has its exclude line checked. */
    method RefreshPin(it: Item) returns (s: Step)
      modifies `pin
      ensures s.component == it.component && s.outcome == IsCurrent && s.bytes == None && !s.built
      ensures s.notes == {} || s.notes == {PinExcluded} ==>
        pin == old(pin) && pin.Some? && Strip(pin.value) != [] && ShaEqual(Strip(pin.value), it.target)
      ensures s.notes == {PinRefreshed} ==>
        pin.Some? && exists full :: pin == Some(full + "\n") && ResolvesTo(State(), it.target, full)
      ensures s.notes in {{}, {PinExcluded}, {PinRefreshed}, {PinNotRefreshed}}
    {
      s := Step(it.component, IsCurrent, {PinNotRefreshed}, None, false);
      var read, text := ReadPin();
      if !read {
        return;
      }
      var pinned := Strip(text.GetOr(""));
      if pinned != [] && ShaEqual(pinned, it.target) {
        var ok, added := ExcludePin();
        if !ok {
          return;
        }
        if added {
          var owned := OwnerOf();
          if !owned {
            return;
          }
          var handed := Chown();
          if !handed {
            return;
          }
          return s.(notes := {PinExcluded});
        }
        return s.(notes := {});
      }
      var owned := OwnerOf();
      if !owned {
        return;
      }
      var full := Resolve(it.target);
      if full.None? {
        return;
      }
      var written := SetPin(Some(full.value + "\n"));
      if !written {
        return;
      }
      var excluded, _ := ExcludePin();
      if !excluded {
        return;
      }
      var handed := Chown();
      if !handed {
        return;
      }
      s := s.(notes := {PinRefreshed});
    }

    /** A current component may still lack a build of its HEAD. */
    method BuildCurrent(step: Step, it: Item, ctx: Ctx) returns (s: Step)
      requires step.outcome == IsCurrent && step.component == it.component == name && !step.built && step.bytes == None
      modifies `deployed, `stamp, `dirty
      ensures s.component == name && s.outcome in {IsCurrent, Failed} && s.bytes == None
      ensures old(dirty) <= dirty
      ensures s.outcome == IsCurrent ==>
        && s.notes == step.notes
        && (s.built ==> deployed == head && old(BuildDue()))
        && (!s.built ==> deployed == old(deployed) && stamp == old(stamp) && dirty == old(dirty))
        && (!IsBuilt(name) && ctx.hasDeployBuild && !s.built ==> !BuildDue())
    {
      if IsBuilt(name) || !ctx.hasDeployBuild {
        return step;
      }
      var r := DeployBuild();
      if r == Broke {
        return Step(name, Failed, {}, None, false);
      }
      s := if r == Succeeded then step.(built := true) else step;
    }

    /** The pin refreshed, then a build if one is due. */
    method KeepCurrent(it: Item, ctx: Ctx) returns (s: Step)
      requires Valid() && it.component == name
      modifies `pin, `deployed, `stamp, `dirty
      ensures Valid() && s.component == name && s.outcome != Skipped && s.bytes == None
      ensures Refreshed(it, ctx, declaresBuild, s, old(State()), State())
    {
      var refreshed := RefreshPin(it);
      s := BuildCurrent(refreshed, it, ctx);
    }
  }
}
