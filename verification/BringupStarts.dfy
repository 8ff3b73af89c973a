/** When a bring-up plan starts what: after its install, after the checks, after
    radiod; and without an SDR only what does not need one. */
module BringupStarts {
  import opened Lists
  import opened Text
  import opened Bringup
  import opened BringupOrder

  // ---- every start follows its install ----

  /** What a start names has been enabled, installed and, if an instance, made. */
  predicate Ready(s: Step, before: seq<Step>) {
    match s
    case Start(comps, _) => forall c :: c in comps ==> Enable(c) in before && Install(c, true) in before
    case StartInstance(c, r) => Enable(c) in before && Install(c, true) in before && AddInstance(c, r) in before
    case _ => true
  }

  ghost predicate ReadyAfter(before: seq<Step>, steps: seq<Step>) {
    forall m :: 0 <= m < |steps| ==> Ready(steps[m], before + steps[..m])
  }

  lemma ReadyMore(s: Step, before: seq<Step>, more: seq<Step>)
    requires Ready(s, before) && forall x :: x in before ==> x in more
    ensures Ready(s, more)
  {
  }

  lemma ReadyConcat(before: seq<Step>, a: seq<Step>, b: seq<Step>)
    requires ReadyAfter(before, a) && ReadyAfter(before + a, b)
    ensures ReadyAfter(before, a + b)
  {
    hide Ready;
    forall m | 0 <= m < |a + b| ensures Ready((a + b)[m], before + (a + b)[..m]) {
      if m < |a| {
        assert (a + b)[..m] == a[..m];
        assert Ready(a[m], before + a[..m]);
      } else {
        assert (a + b)[..m] == a + b[..m - |a|];
        Grouped(before, a, b[..m - |a|]);
        assert Ready(b[m - |a|], before + a + b[..m - |a|]);
      }
    }
  }

  lemma ReadyWider(before: seq<Step>, more: seq<Step>, steps: seq<Step>)
    requires ReadyAfter(before, steps) && forall x :: x in before ==> x in more
    ensures ReadyAfter(more, steps)
  {
    hide Ready;
    forall m | 0 <= m < |steps| ensures Ready(steps[m], more + steps[..m]) {
      ReadyMore(steps[m], before + steps[..m], more + steps[..m]);
    }
  }

  lemma NothingToBeReady(before: seq<Step>, steps: seq<Step>)
    requires All(steps, NoStart)
    ensures ReadyAfter(before, steps)
  {
    forall m | 0 <= m < |steps| ensures Ready(steps[m], before + steps[..m]) {
      assert steps[m] in steps;
    }
  }

  lemma {:induction false} ReadyMapped(before: seq<Step>, xs: seq<string>, f: string -> seq<Step>)
    requires forall x :: x in xs ==> ReadyAfter(before, f(x))
    ensures ReadyAfter(before, FlatMap(xs, f))
  {
    hide ReadyAfter;
    if xs == [] {
      NothingToBeReady(before, []);
    } else {
      var n := |xs| - 1;
      assert xs == xs[..n] + [xs[n]];
      ReadyMapped(before, xs[..n], f);
      ReadyWider(before, before + FlatMap(xs[..n], f), f(xs[n]));
      ReadyConcat(before, FlatMap(xs[..n], f), f(xs[n]));
    }
  }

  lemma IndependentIsReady(q: Request, c: string)
    ensures ReadyAfter([], IndependentMap(q)(c))
  {
    var setup := InstallSteps(c, true) + ConfigureSteps(q, c);
    InstallIsQuiet(q, c, true);
    assert All(setup, NoStart);
    NothingToBeReady([], setup);
    assert Enable(c) in setup && Install(c, true) in setup;
    assert ReadyAfter([] + setup, [Start([c], false)]);
    hide InstallSteps, ConfigureSteps, ReadyAfter, IsIndependent;
    ReadyConcat([], setup, [Start([c], false)]);
    NothingToBeReady([], []);
  }

  lemma EnablesInstall(c: string)
    ensures Install(c, true) in InstallSteps(c, true) && Enable(c) in InstallSteps(c, true)
  {
  }

  /** What a radiod-bound client needs is in the setup. */
  lemma ClientIsSetUp(q: Request, c: string)
    requires !Deferring(q) && c in q.profile.clients && IsRadiodBound(q, c)
    ensures Enable(c) in BeforeCheck(q) && Install(c, true) in BeforeCheck(q)
    ensures IsReporterKeyed(c) ==> forall r :: r in ReportersFor(q, c) ==> AddInstance(c, r) in BeforeCheck(q)
  {
    RolesAreDisjoint(c);
    EnablesInstall(c);
    hide FlatMap, RadiodStage, InstallSteps, ConfigureSteps, TimingIdle, IsIndependent, IsReporterKeyed, ReportersFor,
      IsLocalOnly;
    if c == TIMING_AUTHORITY {
      assert Enable(c) in TimingStage(q) && Install(c, true) in TimingStage(q);
    } else {
      var steps := SpotMap(q)(c);
      assert Enable(c) in steps && Install(c, true) in steps;
      forall r | r in ReportersFor(q, c) && IsReporterKeyed(c) ensures AddInstance(c, r) in steps {
        assert AddInstance(c, r) in InstanceSteps(q, c)(r);
        assert AddInstance(c, r) in FlatMap(ReportersFor(q, c), InstanceSteps(q, c));
      }
      assert forall s :: s in steps ==> s in FlatMap(q.profile.clients, SpotMap(q));
    }
  }

  lemma BoundStartIsReady(q: Request, c: string, before: seq<Step>)
    requires c in q.profile.clients && (!Deferring(q) ==> forall s :: s in BeforeCheck(q) ==> s in before)
    ensures ReadyAfter(before, BoundStartMap(q)(c))
  {
    var steps := BoundStartMap(q)(c);
    if !Deferring(q) && IsRadiodBound(q, c) {
      hide *;
      ClientIsSetUp(q, c);
      forall s | s in steps ensures Ready(s, before) {
        BoundStepIsReady(q, c, s, before);
      }
      AllReady(steps, before);
    }
  }

  lemma BoundStepIsReady(q: Request, c: string, s: Step, before: seq<Step>)
    requires s in BoundStartMap(q)(c) && Enable(c) in before && Install(c, true) in before
    requires IsReporterKeyed(c) ==> forall r :: r in ReportersFor(q, c) ==> AddInstance(c, r) in before
    ensures Ready(s, before)
  {
    BoundStepsAre(q, c, s);
    hide BoundStartMap, ReportersFor, IsReporterKeyed;
  }

  lemma AllReady(steps: seq<Step>, before: seq<Step>)
    requires forall s :: s in steps ==> Ready(s, before)
    ensures ReadyAfter(before, steps)
  {
    hide Ready;
    forall m | 0 <= m < |steps| ensures Ready(steps[m], before + steps[..m]) {
      assert steps[m] in steps;
      ReadyMore(steps[m], before, before + steps[..m]);
    }
  }

  lemma BoundStepsAre(q: Request, c: string, s: Step)
    requires s in BoundStartMap(q)(c)
    ensures s == Start([c], true)
      || (s.StartInstance? && s.client == c && IsReporterKeyed(c) && s.reporter in ReportersFor(q, c))
  {
    hide FlatMap, ReportersFor, IsRadiodBound, PlannedInstances, IsReporterKeyed, TimingIdle;
  }

  lemma RadiodStackIsInstalled(q: Request, c: string)
    requires q.localRadiod && !Deferring(q) && c in RadiodStack(q)
    ensures Enable(c) in RadiodStage(q) && Install(c, true) in RadiodStage(q)
  {
    EnablesInstall(c);
    hide FlatMap, Optional, InstallSteps, KeyedClients;
    if c != KA9Q_RADIO {
      assert c in q.profile.infra && c !in q.skip;
      var infra := FlatMap(q.profile.infra, InstallUnskipped(q, true));
      assert Enable(c) in InstallUnskipped(q, true)(c) && Install(c, true) in InstallUnskipped(q, true)(c);
      assert Enable(c) in infra && Install(c, true) in infra;
    }
  }

  lemma RadiodStartIsReady(q: Request, before: seq<Step>)
    requires forall s :: s in RadiodStage(q) ==> s in before
    ensures ReadyAfter(before, RadiodStart(q))
  {
    var steps := RadiodStart(q);
    forall m | 0 <= m < |steps| ensures Ready(steps[m], before + steps[..m]) {
      if m == 1 {
        forall c | c in RadiodStack(q) ensures Enable(c) in before && Install(c, true) in before {
          RadiodStackIsInstalled(q, c);
        }
      }
    }
  }

  // ---- without an SDR ----

  function IndependentClients(q: Request): seq<string> {
    Filter(q.profile.clients, IsEarly(q))
  }

  function IsEarly(q: Request): string -> bool {
    (c: string) => IsIndependent(c) && c !in q.skip
  }

  lemma {:induction false} ActivatedIs(steps: seq<Step>)
    ensures forall c :: c in Activated(steps) <==> Enable(c) in steps
    ensures forall c :: c in Deferred(steps) <==> Install(c, false) in steps
  {
    if steps == [] {
    } else {
      var n := |steps| - 1;
      assert steps == steps[..n] + [steps[n]];
      ActivatedIs(steps[..n]);
    }
  }

  lemma {:induction false} ActivatedConcat(a: seq<Step>, b: seq<Step>)
    ensures Activated(a + b) == Activated(a) + Activated(b)
  {
    if b == [] {
      assert a + b == a;
    } else {
      var n := |b| - 1;
      assert (a + b)[..|a| + n] == a + b[..n];
      ActivatedConcat(a, b[..n]);
    }
  }

  /** What may be in a plan that waits for the SDR. */
  predicate Allowed(early: seq<string>, noConfig: set<string>, s: Step) {
    match s
    case Enable(c) => c in early
    case Install(c, enabled) => enabled ==> c in early
    case Configure(c, _) => c in early && c !in noConfig
    case Start(comps, staggered) => !staggered && forall c :: c in comps ==> c in early
    case Checkpoint(check, _) => check.FinalValidate? || (check.Configured? && check.client in early)
    case Note => true
    case ProvisionSink => true
    case RenderSite => true
    case HoldUploads => true
    case WriteManifest => true
    case Migrate => true
    case WatermarkDir => true
    case ResetUploader => true
    case RestartUploader => true
    case _ => false
  }

  function AllowedIn(q: Request): Step -> bool {
    (s: Step) => Allowed(IndependentClients(q), q.noConfig, s)
  }

  predicate NoEnable(s: Step) {
    !s.Enable?
  }

  lemma {:induction false} NothingActivated(steps: seq<Step>)
    requires All(steps, NoEnable)
    ensures Activated(steps) == []
  {
    if steps == [] {
    } else {
      assert steps[|steps| - 1] in steps;
      NothingActivated(steps[..|steps| - 1]);
    }
  }

  lemma DeferredInstall(q: Request, c: string)
    ensures All(InstallSteps(c, false), AllowedIn(q)) && All(InstallSteps(c, false), NoEnable)
    ensures All(InstallUnskipped(q, false)(c), AllowedIn(q)) && All(InstallUnskipped(q, false)(c), NoEnable)
    ensures All(InstallEach(false)(c), AllowedIn(q)) && All(InstallEach(false)(c), NoEnable)
    ensures Deferring(q) ==> All(SpotMap(q)(c), AllowedIn(q)) && All(SpotMap(q)(c), NoEnable)
  {
    hide IndependentClients, IsIndependent;
  }

  lemma DeferredStages(q: Request)
    requires Deferring(q)
    ensures All(BeforeCheck(q), AllowedIn(q)) && All(BeforeCheck(q), NoEnable)
  {
    DeferredRadiodStage(q);
    forall c ensures All(SpotMap(q)(c), AllowedIn(q)) && All(SpotMap(q)(c), NoEnable) {
      DeferredInstall(q, c);
    }
    AllMapped(q.profile.clients, SpotMap(q), AllowedIn(q));
    AllMapped(q.profile.clients, SpotMap(q), NoEnable);
    DeferredInstall(q, TIMING_AUTHORITY);
    assert [ProvisionSink] == [ProvisionSink];
    assert All([ProvisionSink], AllowedIn(q)) && All([ProvisionSink], NoEnable);
    assert All(TimingStage(q), AllowedIn(q)) && All(TimingStage(q), NoEnable) by {
      Nothing(InstallSteps(TIMING_AUTHORITY, false));
      hide FlatMap, IndependentClients, InstallSteps;
    }
    hide All, RadiodStage, TimingStage, FlatMap, AllowedIn;
    AllOf4([ProvisionSink], RadiodStage(q), TimingStage(q), FlatMap(q.profile.clients, SpotMap(q)), AllowedIn(q));
    AllOf4([ProvisionSink], RadiodStage(q), TimingStage(q), FlatMap(q.profile.clients, SpotMap(q)), NoEnable);
  }

  lemma DeferredRadiodStage(q: Request)
    requires Deferring(q)
    ensures All(RadiodStage(q), AllowedIn(q)) && All(RadiodStage(q), NoEnable)
  {
    var infra := FlatMap(q.profile.infra, InstallUnskipped(q, false));
    forall c ensures All(InstallUnskipped(q, false)(c), AllowedIn(q)) && All(InstallUnskipped(q, false)(c), NoEnable)
      && All(InstallEach(false)(c), AllowedIn(q)) && All(InstallEach(false)(c), NoEnable) {
      DeferredInstall(q, c);
    }
    assert All([], AllowedIn(q)) && All([], NoEnable);
    assert All([Note], AllowedIn(q)) && All([Note], NoEnable);
    assert All([Install(KA9Q_RADIO, false)], AllowedIn(q)) && All([Install(KA9Q_RADIO, false)], NoEnable);
    hide All, FlatMap, InstallUnskipped, InstallEach, AllowedIn, NoEnable;
    AllMapped(q.profile.infra, InstallUnskipped(q, false), AllowedIn(q));
    AllMapped(q.profile.infra, InstallUnskipped(q, false), NoEnable);
    AllMapped(q.profile.optional, InstallEach(false), AllowedIn(q));
    AllMapped(q.profile.optional, InstallEach(false), NoEnable);
    AllOf4([Note], infra, [Install(KA9Q_RADIO, false)], Optional(q, false), AllowedIn(q));
    AllOf4([Note], infra, [Install(KA9Q_RADIO, false)], Optional(q, false), NoEnable);
  }

  lemma EarlySteps(q: Request, c: string)
    requires c in q.profile.clients
    ensures All(IndependentMap(q)(c), AllowedIn(q))
  {
    assert IsEarly(q)(c) ==> c in IndependentClients(q);
    hide IndependentClients, IsIndependent;
  }

  lemma EarlyActivation(q: Request, c: string)
    ensures Activated(IndependentMap(q)(c)) == if IsEarly(q)(c) then [c] else []
  {
    IndependentStepsAre([], q, c);
    Nothing(IndependentMap(q)(c));
    InstallActivates(c);
    LaterActivatesNothing(q, c);
    hide *;
    IsEarlyIs(q, c);
    var more := ConfigureSteps(q, c) + [Start([c], false)];
    Nothing(InstallSteps(c, true));
    Grouped(InstallSteps(c, true), ConfigureSteps(q, c), [Start([c], false)]);
    ActivatedConcat(InstallSteps(c, true), more);
    Nothing([c]);
    NoneActivated();
  }

  lemma NoneActivated()
    ensures Activated([]) == []
  {
  }

  lemma IsEarlyIs(q: Request, c: string)
    ensures IsEarly(q)(c) <==> IsIndependent(c) && c !in q.skip
  {
    hide IsIndependent;
  }

  lemma InstallActivates(c: string)
    ensures Activated(InstallSteps(c, true)) == [c]
  {
    AddedOne([], Enable(c));
    AddedOne([Enable(c)], Install(c, true));
    Nothing([Enable(c)]);
    Nothing([c]);
    Nothing([c]);
    assert [Enable(c)] + [Install(c, true)] == InstallSteps(c, true);
    NoneActivated();
    hide Activated, Deferred;
  }

  lemma LaterActivatesNothing(q: Request, c: string)
    ensures Activated(ConfigureSteps(q, c) + [Start([c], false)]) == []
  {
    assert All(ConfigureSteps(q, c) + [Start([c], false)], NoEnable);
    NothingActivated(ConfigureSteps(q, c) + [Start([c], false)]);
  }

  lemma {:induction false} EarlyActivated(q: Request, clients: seq<string>)
    requires forall c :: c in clients ==> c in q.profile.clients
    ensures Activated(FlatMap(clients, IndependentMap(q))) == Filter(clients, IsEarly(q))
    ensures All(FlatMap(clients, IndependentMap(q)), AllowedIn(q))
  {
    if clients == [] {
    } else {
      var n := |clients| - 1;
      assert clients == clients[..n] + [clients[n]];
      EarlyActivated(q, clients[..n]);
      EarlySteps(q, clients[n]);
      EarlyActivation(q, clients[n]);
      ActivatedConcat(FlatMap(clients[..n], IndependentMap(q)), IndependentMap(q)(clients[n]));
      FilterAppend(clients[..n], clients[n], IsEarly(q));
      hide Activated, Filter, IndependentMap, IsEarly, AllowedIn;
    }
  }

  lemma WatermarkAndRender(q: Request)
    ensures var s := RenderStage(q) + [WatermarkDir];
      All(s, NoStart) && All(s, NoEnable) && (Deferring(q) ==> All(s, AllowedIn(q)))
  {
    hide Pairs, PlannedInstances, RemoteEntries, IndependentClients;
  }

  lemma BeforeStartsAllowed(q: Request)
    ensures All(BeforeStarts(q), NoStart) && All(BeforeStarts(q), NoEnable) && All(BeforeStarts(q), AllowedIn(q))
  {
    hide IndependentClients;
  }

  lemma SetupParts(q: Request)
    ensures Setup(q)
      == BeforeCheck(q) + (RenderStage(q) + [WatermarkDir]) + FlatMap(q.profile.clients, IndependentMap(q))
        + BeforeStarts(q)
    ensures forall s :: s in BeforeCheck(q) ==> s in Setup(q)
    ensures forall s :: s in RadiodStage(q) ==> s in Setup(q)
    ensures forall s :: s in FlatMap(q.profile.clients, IndependentMap(q)) ==> s in Setup(q)
  {
    PlanParts(q);
    hide RenderStage, RadiodStage, FlatMap, BeforeStarts, TimingStage, Setup;
    Grouped(BeforeCheck(q), RenderStage(q), [WatermarkDir]);
    Chain2(BeforeCheck(q) + RenderStage(q) + [WatermarkDir], FlatMap(q.profile.clients, IndependentMap(q)),
      BeforeStarts(q));
  }

  /** Without an SDR, exactly the independent clients are activated, in the order
      of the profile. */
  lemma DeferredSetup(q: Request)
    requires Deferring(q)
    ensures All(Setup(q), AllowedIn(q)) && Activated(Setup(q)) == IndependentClients(q)
  {
    SetupParts(q);
    DeferredStages(q);
    WatermarkAndRender(q);
    BeforeStartsAllowed(q);
    EarlyActivated(q, q.profile.clients);
    NothingActivated(BeforeCheck(q));
    NothingActivated(RenderStage(q) + [WatermarkDir]);
    NothingActivated(BeforeStarts(q));
    var a, b := BeforeCheck(q), RenderStage(q) + [WatermarkDir];
    var c, d := FlatMap(q.profile.clients, IndependentMap(q)), BeforeStarts(q);
    ActivatedConcat(a, b);
    ActivatedConcat(a + b, c);
    ActivatedConcat(a + b + c, d);
    hide All, Setup, Activated, BeforeCheck, FlatMap, RenderStage, BeforeStarts, AllowedIn, Filter;
    AllOf4(a, b, c, d, AllowedIn(q));
  }

  /** An activated component was enabled and installed on the way. */
  lemma ActivatedIsInstalled(q: Request, c: string)
    requires Deferring(q) && c in Activated(Setup(q))
    ensures Enable(c) in Setup(q) && Install(c, true) in Setup(q)
  {
    DeferredSetup(q);
    SetupParts(q);
    assert c in q.profile.clients && IsEarly(q)(c);
    EnablesInstall(c);
    hide Setup, FlatMap, InstallSteps, ConfigureSteps, IsIndependent, BeforeCheck, RadiodStage;
    var independent := FlatMap(q.profile.clients, IndependentMap(q));
    assert Enable(c) in IndependentMap(q)(c) && Install(c, true) in IndependentMap(q)(c);
    assert Enable(c) in independent && Install(c, true) in independent;
  }

  lemma LastStartIsReady(q: Request, before: seq<Step>)
    requires forall s :: s in Setup(q) ==> s in before
    ensures ReadyAfter(before, LastStart(q))
  {
    if Deferring(q) {
      forall c | c in Activated(Setup(q)) ensures Enable(c) in before && Install(c, true) in before {
        ActivatedIsInstalled(q, c);
      }
    }
    hide Setup, Activated, Deferred;
  }

  lemma FinishHasNoStart(q: Request)
    ensures All(Finish(q), NoStart) && All(Finish(q), NoEnable) && (Deferring(q) ==> All(Finish(q), AllowedIn(q)))
  {
    hide IndependentClients;
  }

  lemma SetupIsReady(q: Request)
    ensures ReadyAfter([], Setup(q))
  {
    SetupParts(q);
    BeforeCheckSteps(q);
    WatermarkAndRender(q);
    BeforeStartsAllowed(q);
    forall c ensures ReadyAfter([], IndependentMap(q)(c)) {
      IndependentIsReady(q, c);
    }
    hide *;
    var a, b := BeforeCheck(q), RenderStage(q) + [WatermarkDir];
    var c, d := FlatMap(q.profile.clients, IndependentMap(q)), BeforeStarts(q);
    NothingToBeReady([], a);
    NothingToBeReady([] + a, b);
    ReadyConcat([], a, b);
    ReadyMapped([], q.profile.clients, IndependentMap(q));
    ReadyWider([], [] + (a + b), c);
    ReadyConcat([], a + b, c);
    NothingToBeReady([] + (a + b + c), d);
    ReadyConcat([], a + b + c, d);
  }

  /** In every plan, each component that a step starts was enabled and installed
      by an earlier step, and each instance was made by one. */
  lemma StartsAreReady(q: Request)
    ensures ReadyAfter([], PlanOf(q))
  {
    SetupParts(q);
    var a, b := Setup(q), RadiodStart(q);
    var c, d, e := FlatMap(q.profile.clients, BoundStartMap(q)), LastStart(q), Finish(q);
    assert PlanOf(q) == a + b + c + d + e;
    FinishHasNoStart(q);
    hide PlanOf, Setup, RadiodStart, FlatMap, LastStart, Finish, ReadyAfter, BeforeCheck, RadiodStage, BoundStartMap,
      All;
    SetupIsReady(q);
    Nothing(a);
    RadiodStartIsReady(q, [] + a);
    ReadyConcat([], a, b);
    forall x | x in q.profile.clients ensures ReadyAfter([] + (a + b), BoundStartMap(q)(x)) {
      BoundStartIsReady(q, x, [] + (a + b));
    }
    ReadyMapped([] + (a + b), q.profile.clients, BoundStartMap(q));
    ReadyConcat([], a + b, c);
    LastStartIsReady(q, [] + (a + b + c));
    ReadyConcat([], a + b + c, d);
    NothingToBeReady([] + (a + b + c + d), e);
    ReadyConcat([], a + b + c + d, e);
  }

  // ---- instances are checked before any is started ----

  lemma AtConcat<T>(a: seq<T>, b: seq<T>, i: nat)
    requires i < |a + b|
    ensures if i < |a| then (a + b)[i] == a[i] && a[i] in a else (a + b)[i] == b[i - |a|] && b[i - |a|] in b
  {
  }

  function AfterCheck(q: Request): seq<Step> {
    [WatermarkDir] + AfterWatermark(q) + RadiodStart(q) + StartsAndFinish(q)
  }

  lemma AfterCheckSteps(q: Request)
    ensures All(AfterCheck(q), NoSetup) && All(AfterCheck(q), NoBoundCheck)
    ensures PlanOf(q) == BeforeCheck(q) + RenderStage(q) + AfterCheck(q)
  {
    AfterWatermarkSteps(q);
    StartsAndFinishSteps(q);
    PlanParts(q);
    RadiodStartSteps(q);
    var a, w := BeforeCheck(q) + RenderStage(q), [WatermarkDir];
    assert All(w, NoSetup) && All(w, NoBoundCheck);
    hide *;
    AfterCheckIs(q);
    AllOf4(w, AfterWatermark(q), RadiodStart(q), StartsAndFinish(q), NoSetup);
    AllOf4(w, AfterWatermark(q), RadiodStart(q), StartsAndFinish(q), NoBoundCheck);
    Chain4(a, w, AfterWatermark(q), RadiodStart(q), StartsAndFinish(q));
  }

  lemma AfterCheckIs(q: Request)
    ensures AfterCheck(q) == [WatermarkDir] + AfterWatermark(q) + RadiodStart(q) + StartsAndFinish(q)
  {
  }

  lemma RadiodStartSteps(q: Request)
    ensures All(RadiodStart(q), NoSetup) && All(RadiodStart(q), NoBoundCheck)
  {
    hide RadiodStack;
  }

  lemma RenderStageSteps(q: Request)
    ensures All(RenderStage(q), NoSetup) && All(RenderStage(q), NoStart)
    ensures forall s :: s in RenderStage(q) && IsBoundCheck(s) ==> s == Checkpoint(InstancesBound(Pairs(q)), true)
    ensures (exists s :: s in RenderStage(q) && IsBoundCheck(s)) <==> Renders(q) && Pairs(q) != []
  {
    hide Pairs, Renders;
    if Renders(q) && Pairs(q) != [] {
      assert Checkpoint(InstancesBound(Pairs(q)), true) in RenderStage(q);
    }
  }

  /** The checkpoint on bound instances is hard, names exactly the instances of
      the plan, and stands after all of them are made and before any start. */
  lemma BoundCheckComesBetween(q: Request, i: nat, j: nat)
    requires i < |PlanOf(q)| && j < |PlanOf(q)| && IsBoundCheck(PlanOf(q)[i])
    ensures PlanOf(q)[i] == Checkpoint(InstancesBound(Pairs(q)), true)
    ensures PlanOf(q)[j].AddInstance? || PlanOf(q)[j].Upload? ==> j < i
    ensures IsStart(PlanOf(q)[j]) ==> i < j
  {
    AfterCheckSteps(q);
    BeforeCheckSteps(q);
    RenderStageSteps(q);
    var a, b, c := BeforeCheck(q), RenderStage(q), AfterCheck(q);
    hide PlanOf, BeforeCheck, RenderStage, AfterCheck, Pairs, Renders;
    AtConcat(a + b, c, i);
    AtConcat(a + b, c, j);
    if i < |a + b| {
      AtConcat(a, b, i);
    }
    if j < |a + b| {
      AtConcat(a, b, j);
    }
  }

  /** ... and is there when instances are rendered and there are any. */
  lemma WhenBoundIsChecked(q: Request)
    ensures (exists s :: s in PlanOf(q) && IsBoundCheck(s)) <==> Renders(q) && Pairs(q) != []
  {
    AfterCheckSteps(q);
    BeforeCheckSteps(q);
    RenderStageSteps(q);
    hide PlanOf, BeforeCheck, RenderStage, AfterCheck, Pairs, Renders;
  }

  // ---- radiod's configuration and the bindings come before the clients ----

  predicate IsBind(s: Step) {
    s.BindSource? || s.ApplyReceivers?
  }

  predicate NoBind(s: Step) {
    !IsBind(s)
  }

  predicate NoConfigure(s: Step) {
    !s.Configure?
  }

  /** What a stage that configures clients holds. */
  lemma ClientStagesBindNothing(q: Request)
    ensures All(TimingStage(q), NoBind) && All(FlatMap(q.profile.clients, SpotMap(q)), NoBind)
    ensures All(RenderStage(q), NoBind) && All(AfterCheck(q), NoBind)
  {
    forall c ensures All(SpotMap(q)(c), NoBind) && All(IndependentMap(q)(c), NoBind)
      && All(BoundStartMap(q)(c), NoBind) {
      ClientBindsNothing(q, c);
    }
    OtherStagesBindNothing(q);
    hide *;
    AllMapped(q.profile.clients, SpotMap(q), NoBind);
    AllMapped(q.profile.clients, IndependentMap(q), NoBind);
    AllMapped(q.profile.clients, BoundStartMap(q), NoBind);
    AfterCheckIs(q);
    AfterWatermarkIs(q);
    AllOf4(FlatMap(q.profile.clients, IndependentMap(q)), BeforeStarts(q), [WatermarkDir], [WatermarkDir], NoBind);
    AllOf4(FlatMap(q.profile.clients, BoundStartMap(q)), LastStart(q), Finish(q), Finish(q), NoBind);
    AllOf4([WatermarkDir], AfterWatermark(q), RadiodStart(q), StartsAndFinish(q), NoBind);
  }

  lemma AfterWatermarkIs(q: Request)
    ensures AfterWatermark(q) == FlatMap(q.profile.clients, IndependentMap(q)) + BeforeStarts(q)
    ensures StartsAndFinish(q) == FlatMap(q.profile.clients, BoundStartMap(q)) + LastStart(q) + Finish(q)
  {
  }

  lemma ClientBindsNothing(q: Request, c: string)
    ensures All(SpotMap(q)(c), NoBind) && All(IndependentMap(q)(c), NoBind) && All(BoundStartMap(q)(c), NoBind)
  {
    hide FlatMap, ReportersFor, IsIndependent, IsReporterKeyed, IsRadiodBound, PlannedInstances;
  }

  lemma OtherStagesBindNothing(q: Request)
    ensures All(TimingStage(q), NoBind) && All(RenderStage(q), NoBind) && All(BeforeStarts(q), NoBind)
    ensures All([WatermarkDir], NoBind) && All(RadiodStart(q), NoBind) && All(LastStart(q), NoBind)
      && All(Finish(q), NoBind)
  {
    hide Setup, Startable, Pairs, TimingIdle, RadiodStack;
  }

  predicate OnlyRadiodConfigured(s: Step) {
    s.Configure? ==> s.client == "radiod"
  }

  lemma InstallConfiguresNothing(q: Request, c: string, enable: bool)
    ensures All(InstallUnskipped(q, enable)(c), OnlyRadiodConfigured)
    ensures All(InstallEach(enable)(c), OnlyRadiodConfigured) && All(InstallSteps(c, enable), OnlyRadiodConfigured)
  {
  }

  lemma InstallsConfigureNothing(q: Request, enable: bool)
    ensures All(FlatMap(q.profile.infra, InstallUnskipped(q, enable)), OnlyRadiodConfigured)
    ensures All(Optional(q, enable), OnlyRadiodConfigured)
  {
    forall c ensures All(InstallUnskipped(q, enable)(c), OnlyRadiodConfigured)
      && All(InstallEach(enable)(c), OnlyRadiodConfigured) {
      InstallConfiguresNothing(q, c, enable);
    }
    assert All([], OnlyRadiodConfigured);
    hide All, FlatMap, InstallUnskipped, InstallEach, OnlyRadiodConfigured;
    AllMapped(q.profile.infra, InstallUnskipped(q, enable), OnlyRadiodConfigured);
    AllMapped(q.profile.optional, InstallEach(enable), OnlyRadiodConfigured);
  }

  lemma BindsConfigureNothing(q: Request)
    ensures All(FlatMap(RemoteEntries(q), BindEach(q)), OnlyRadiodConfigured)
  {
    forall r ensures All(BindEach(q)(r), OnlyRadiodConfigured) {
    }
    hide All, RemoteEntries, BindEach;
    AllMapped(RemoteEntries(q), BindEach(q), OnlyRadiodConfigured);
  }

  lemma SingleSteps(q: Request)
    ensures All([Note], OnlyRadiodConfigured) && All([Tune], OnlyRadiodConfigured)
      && All([RecoverSdr], OnlyRadiodConfigured)
    ensures All([Wisdom], OnlyRadiodConfigured) && All([InstallWebUnit], OnlyRadiodConfigured)
      && All([], OnlyRadiodConfigured)
    ensures All([ConfigureStep(q, "radiod")], OnlyRadiodConfigured)
    ensures All([ApplyReceivers(multiset(KeyedClients(q)))], OnlyRadiodConfigured)
    ensures All([Checkpoint(RadiodInstalled, true)], OnlyRadiodConfigured)
    ensures All([Checkpoint(RadiodConfigured, true)], OnlyRadiodConfigured)
  {
    hide KeyedClients;
  }

  lemma RadiodStageConfigures(q: Request)
    ensures All(RadiodStage(q), OnlyRadiodConfigured) && All(RadiodStage(q), NoSetup)
  {
    RadiodStageIsQuiet(q);
    assert All(RadiodStage(q), NoSetup) by {
      hide RadiodStage;
    }
    hide All, OnlyRadiodConfigured, FlatMap, Optional, InstallSteps, RadiodStage, KeyedClients, InstallUnskipped,
      BindEach, RemoteEntries;
    forall enable ensures All(FlatMap(q.profile.infra, InstallUnskipped(q, enable)), OnlyRadiodConfigured)
      && All(Optional(q, enable), OnlyRadiodConfigured) && All(InstallSteps(KA9Q_RADIO, enable), OnlyRadiodConfigured) {
      InstallsConfigureNothing(q, enable);
      InstallConfiguresNothing(q, KA9Q_RADIO, enable);
    }
    BindsConfigureNothing(q);
    SingleSteps(q);
    RadiodStageHolds(q, OnlyRadiodConfigured);
  }

  /** Each receiver is bound to its radiod before any client is configured and
      before any instance is made. */
  lemma BindsComeBeforeClients(q: Request, i: nat, j: nat)
    requires i < |PlanOf(q)| && j < |PlanOf(q)| && IsBind(PlanOf(q)[i])
    requires PlanOf(q)[j].AddInstance? || (PlanOf(q)[j].Configure? && PlanOf(q)[j].client != "radiod")
    ensures i < j
  {
    var head, tail := [ProvisionSink] + RadiodStage(q), TimingStage(q) + FlatMap(q.profile.clients, SpotMap(q));
    HeadAndTail(q);
    hide PlanOf, AfterCheck, RenderStage, FlatMap, RadiodStage, TimingStage;
    AtConcat(head, tail + RenderStage(q) + AfterCheck(q), i);
    AtConcat(head, tail + RenderStage(q) + AfterCheck(q), j);
  }

  lemma HeadAndTail(q: Request)
    ensures var head, tail := [ProvisionSink] + RadiodStage(q), TimingStage(q) + FlatMap(q.profile.clients, SpotMap(q));
      && PlanOf(q) == head + (tail + RenderStage(q) + AfterCheck(q))
      && All(head, OnlyRadiodConfigured) && All(head, NoSetup) && All(tail + RenderStage(q) + AfterCheck(q), NoBind)
  {
    var spot := FlatMap(q.profile.clients, SpotMap(q));
    ClientStagesBindNothing(q);
    RadiodStageConfigures(q);
    AfterCheckSteps(q);
    BeforeCheckIs(q);
    SinkConfiguresNothing();
    hide *;
    AllOf4([ProvisionSink], RadiodStage(q), RadiodStage(q), RadiodStage(q), OnlyRadiodConfigured);
    AllOf4([ProvisionSink], RadiodStage(q), RadiodStage(q), RadiodStage(q), NoSetup);
    AllOf4(TimingStage(q), spot, RenderStage(q), AfterCheck(q), NoBind);
    var head := [ProvisionSink] + RadiodStage(q);
    Chain4(head, TimingStage(q), spot, RenderStage(q), AfterCheck(q));
  }

  lemma SinkConfiguresNothing()
    ensures All([ProvisionSink], OnlyRadiodConfigured) && All([ProvisionSink], NoSetup)
  {
  }

  /** What comes before radiod's configuration on its own host. */
  function BeforeConfigure(q: Request): seq<Step> {
    [ProvisionSink] + FlatMap(q.profile.infra, InstallUnskipped(q, true)) + InstallSteps(KA9Q_RADIO, true)
    + [Checkpoint(RadiodInstalled, true)] + Optional(q, true)
  }

  lemma LocalHead(q: Request) returns (more: seq<Step>)
    requires q.localRadiod && !Deferring(q)
    ensures [ProvisionSink] + RadiodStage(q)
      == BeforeConfigure(q) + [RecoverSdr] + [ConfigureStep(q, "radiod")] + [Tune] + [Wisdom]
         + [Checkpoint(RadiodConfigured, true)] + more
  {
    RadiodStageIs([ProvisionSink], q);
    hide FlatMap, InstallSteps, Optional, InstallUnskipped, RadiodStage, KeyedClients;
    var configured := BeforeConfigure(q) + [RecoverSdr] + [ConfigureStep(q, "radiod")] + [Tune] + [Wisdom]
                      + [Checkpoint(RadiodConfigured, true)];
    var bind := if q.receiversDeclared then [ApplyReceivers(multiset(KeyedClients(q)))] else [];
    var web := if KA9Q_WEB in q.profile.infra && KA9Q_WEB !in q.skip then [InstallWebUnit] else [];
    more := bind + web;
    Grouped(configured, bind, web);
    Nothing(configured);
    Nothing(configured + bind);
  }

  lemma InstallsConfigureNone(q: Request, enable: bool)
    ensures All(FlatMap(q.profile.infra, InstallUnskipped(q, enable)), NoConfigure)
      && All(Optional(q, enable), NoConfigure)
  {
    forall c ensures All(InstallUnskipped(q, enable)(c), NoConfigure) && All(InstallEach(enable)(c), NoConfigure) {
    }
    assert All([], NoConfigure);
    hide All, FlatMap, InstallUnskipped, InstallEach, NoConfigure;
    AllMapped(q.profile.infra, InstallUnskipped(q, enable), NoConfigure);
    AllMapped(q.profile.optional, InstallEach(enable), NoConfigure);
  }

  lemma BeforeConfigureSteps(q: Request)
    ensures All(BeforeConfigure(q), NoConfigure) && All(BeforeConfigure(q), NoSetup)
  {
    InstallsConfigureNone(q, true);
    InstallsAreQuiet(q, true);
    InstallIsQuiet(q, KA9Q_RADIO, true);
    assert All(InstallSteps(KA9Q_RADIO, true), NoConfigure);
    hide FlatMap, Optional, InstallSteps, InstallUnskipped;
  }

  /** What stands where radiod is installed and checked. */
  lemma InstalledAt(q: Request) returns (h: nat)
    ensures h < |BeforeConfigure(q)| && BeforeConfigure(q)[h] == Checkpoint(RadiodInstalled, true)
    ensures Install(KA9Q_RADIO, true) in BeforeConfigure(q)[..h]
  {
    var infra := FlatMap(q.profile.infra, InstallUnskipped(q, true));
    var a, check, b := [ProvisionSink] + infra + InstallSteps(KA9Q_RADIO, true), Checkpoint(RadiodInstalled, true),
      Optional(q, true);
    h := |a|;
    EnablesInstall(KA9Q_RADIO);
    assert BeforeConfigure(q) == a + [check] + b;
    hide *;
    InMiddle(a, check, b);
    assert Install(KA9Q_RADIO, true) in a;
  }

  lemma InMiddle<T>(a: seq<T>, x: T, b: seq<T>)
    ensures (a + [x] + b)[|a|] == x && (a + [x] + b)[..|a|] == a && |a| < |a + [x] + b|
  {
  }

  /** On a host with its own radiod: radiod is installed, and the run ends there
      if it is not; the SDR is waited for, radiod is configured, then the host is
      tuned; and the run ends there if radiod is not configured. Only then is a
      client configured or an instance made. */
  lemma RadiodIsConfiguredFirst(q: Request) returns (h: nat, i: nat)
    requires q.localRadiod && !Deferring(q)
    ensures var p := PlanOf(q);
      && h < i < |p| - 4
      && p[h] == Checkpoint(RadiodInstalled, true) && Install(KA9Q_RADIO, true) in p[..h]
      && p[i..i + 5] == [RecoverSdr, ConfigureStep(q, "radiod"), Tune, Wisdom, Checkpoint(RadiodConfigured, true)]
      && forall m :: 0 <= m < |p| && m != i + 1 && (p[m].Configure? || p[m].AddInstance?) ==> i + 4 < m
  {
    hide *;
    h := InstalledAt(q);
    i := |BeforeConfigure(q)|;
    BeforeConfigureSteps(q);
    var five := [RecoverSdr, ConfigureStep(q, "radiod"), Tune, Wisdom, Checkpoint(RadiodConfigured, true)];
    var rest := PlanAround(q, five);
    InThree(BeforeConfigure(q), five, rest, h);
    NeitherBefore(BeforeConfigure(q), five, rest);
  }

  lemma PlanAround(q: Request, five: seq<Step>) returns (rest: seq<Step>)
    requires q.localRadiod && !Deferring(q)
    requires five == [RecoverSdr, ConfigureStep(q, "radiod"), Tune, Wisdom, Checkpoint(RadiodConfigured, true)]
    ensures PlanOf(q) == BeforeConfigure(q) + five + rest
  {
    hide *;
    var more := LocalHead(q);
    HeadAndTail(q);
    var tail := TimingStage(q) + FlatMap(q.profile.clients, SpotMap(q)) + RenderStage(q) + AfterCheck(q);
    FiveSteps(BeforeConfigure(q), five, more, tail);
    rest := more + tail;
  }

  lemma FiveSteps<T>(a: seq<T>, five: seq<T>, more: seq<T>, rest: seq<T>)
    requires |five| == 5
    ensures a + [five[0]] + [five[1]] + [five[2]] + [five[3]] + [five[4]] + more + rest == a + five + (more + rest)
  {
    assert five == [five[0]] + [five[1]] + [five[2]] + [five[3]] + [five[4]];
  }

  lemma InThree<T>(a: seq<T>, b: seq<T>, c: seq<T>, h: nat)
    requires h < |a|
    ensures var p := a + b + c; p[h] == a[h] && p[..h] == a[..h] && p[|a|..|a| + |b|] == b && |p| == |a| + |b| + |c|
  {
  }

  lemma NeitherBefore(a: seq<Step>, b: seq<Step>, c: seq<Step>)
    requires All(a, NoConfigure) && All(a, NoSetup) && |b| == 5
    requires forall k :: 0 <= k < 5 && k != 1 ==> !b[k].Configure? && !b[k].AddInstance?
    ensures var p := a + b + c;
      forall m :: 0 <= m < |p| && m != |a| + 1 && (p[m].Configure? || p[m].AddInstance?) ==> |a| + 4 < m
  {
    var p := a + b + c;
    forall m | 0 <= m < |p| && m != |a| + 1 ensures p[m].Configure? || p[m].AddInstance? ==> |a| + 4 < m {
      AtConcat(a + b, c, m);
      if m < |a + b| {
        AtConcat(a, b, m);
      }
    }
  }

  // ---- the uploader's manifest ----

  /** Before the manifest is written, nothing is started but independent
      clients, and the uploader is not restarted. */
  predicate IsEarlyStep(s: Step) {
    !s.WriteManifest? && !s.RestartUploader? && !IsBoundStart(s) && !s.StartAll?
  }

  /** After it, nothing is configured, no instance made or flagged. */
  predicate IsLateStep(s: Step) {
    !s.WriteManifest? && !s.Configure? && NoSetup(s) && !s.RenderSite? && !s.HoldUploads?
  }

  lemma ComponentStepsAreEarly(q: Request, c: string, enable: bool)
    ensures All(InstallUnskipped(q, enable)(c), IsEarlyStep) && All(InstallEach(enable)(c), IsEarlyStep)
    ensures All(InstallSteps(c, enable), IsEarlyStep) && All(ConfigureSteps(q, c), IsEarlyStep)
  {
  }

  lemma ClientStepsAreEarly(q: Request, c: string)
    ensures All(SpotMap(q)(c), IsEarlyStep) && All(IndependentMap(q)(c), IsEarlyStep)
  {
    ComponentStepsAreEarly(q, c, true);
    ComponentStepsAreEarly(q, c, false);
    InstancesAreEarly(q, c);
    assert All([Start([c], false)], IsEarlyStep) && All([], IsEarlyStep);
    hide All, IsEarlyStep, FlatMap, InstallSteps, ConfigureSteps, ReportersFor, IsIndependent, IsReporterKeyed;
    var setup := InstallSteps(c, true);
    AllOf4(setup, ConfigureSteps(q, c), FlatMap(ReportersFor(q, c), InstanceSteps(q, c)), [], IsEarlyStep);
    AllOf4(setup, ConfigureSteps(q, c), [Start([c], false)], [], IsEarlyStep);
    Nothing(setup + ConfigureSteps(q, c));
  }

  lemma InstancesAreEarly(q: Request, c: string)
    ensures All(FlatMap(ReportersFor(q, c), InstanceSteps(q, c)), IsEarlyStep)
  {
    forall r ensures All(InstanceSteps(q, c)(r), IsEarlyStep) {
    }
    AllMapped(ReportersFor(q, c), InstanceSteps(q, c), IsEarlyStep);
  }

  lemma InstallsAreEarly(q: Request, enable: bool)
    ensures All(FlatMap(q.profile.infra, InstallUnskipped(q, enable)), IsEarlyStep)
      && All(Optional(q, enable), IsEarlyStep)
  {
    forall c ensures All(InstallUnskipped(q, enable)(c), IsEarlyStep) && All(InstallEach(enable)(c), IsEarlyStep) {
      ComponentStepsAreEarly(q, c, enable);
    }
    assert All([], IsEarlyStep);
    hide All, FlatMap, InstallUnskipped, InstallEach, IsEarlyStep;
    AllMapped(q.profile.infra, InstallUnskipped(q, enable), IsEarlyStep);
    AllMapped(q.profile.optional, InstallEach(enable), IsEarlyStep);
  }

  lemma BindsAreEarly(q: Request)
    ensures All(FlatMap(RemoteEntries(q), BindEach(q)), IsEarlyStep)
  {
    forall r ensures All(BindEach(q)(r), IsEarlyStep) {
    }
    hide All, RemoteEntries, BindEach;
    AllMapped(RemoteEntries(q), BindEach(q), IsEarlyStep);
  }

  lemma SingleStepsAreEarly(q: Request)
    ensures All([Note], IsEarlyStep) && All([Tune], IsEarlyStep) && All([RecoverSdr], IsEarlyStep)
      && All([], IsEarlyStep)
    ensures All([Wisdom], IsEarlyStep) && All([InstallWebUnit], IsEarlyStep) && All([ProvisionSink], IsEarlyStep)
    ensures All([ConfigureStep(q, "radiod")], IsEarlyStep) && All([WatermarkDir], IsEarlyStep)
    ensures All([ApplyReceivers(multiset(KeyedClients(q)))], IsEarlyStep)
    ensures All([Checkpoint(RadiodInstalled, true)], IsEarlyStep)
      && All([Checkpoint(RadiodConfigured, true)], IsEarlyStep)
  {
    hide KeyedClients;
  }

  lemma RadiodStageIsEarly(q: Request)
    ensures All(RadiodStage(q), IsEarlyStep)
  {
    hide All, IsEarlyStep, FlatMap, Optional, InstallSteps, RadiodStage, KeyedClients, InstallUnskipped, BindEach,
      RemoteEntries, ConfigureSteps, InstallEach;
    forall enable ensures All(FlatMap(q.profile.infra, InstallUnskipped(q, enable)), IsEarlyStep)
      && All(Optional(q, enable), IsEarlyStep) && All(InstallSteps(KA9Q_RADIO, enable), IsEarlyStep) {
      InstallsAreEarly(q, enable);
      ComponentStepsAreEarly(q, KA9Q_RADIO, enable);
    }
    BindsAreEarly(q);
    SingleStepsAreEarly(q);
    RadiodStageHolds(q, IsEarlyStep);
  }

  lemma OtherStagesAreEarly(q: Request)
    ensures All(TimingStage(q), IsEarlyStep) && All(RenderStage(q), IsEarlyStep)
  {
    ComponentStepsAreEarly(q, TIMING_AUTHORITY, !Deferring(q));
    hide InstallSteps, ConfigureSteps, TimingIdle, Pairs, Renders, InstallUnskipped, InstallEach;
  }

  /** All that comes before the site profile is rendered. */
  function BeforeRenderSite(q: Request): seq<Step> {
    BeforeCheck(q) + RenderStage(q) + [WatermarkDir] + FlatMap(q.profile.clients, IndependentMap(q))
  }

  lemma BeforeRenderSiteIsEarly(q: Request)
    ensures All(BeforeRenderSite(q), IsEarlyStep)
  {
    forall c ensures All(SpotMap(q)(c), IsEarlyStep) && All(IndependentMap(q)(c), IsEarlyStep) {
      ClientStepsAreEarly(q, c);
    }
    BeforeRenderSiteIs(q);
    hide *;
    RadiodStageIsEarly(q);
    OtherStagesAreEarly(q);
    SingleStepsAreEarly(q);
    BeforeCheckIs(q);
    AllMapped(q.profile.clients, SpotMap(q), IsEarlyStep);
    AllMapped(q.profile.clients, IndependentMap(q), IsEarlyStep);
    AllOf4([ProvisionSink], RadiodStage(q), TimingStage(q), FlatMap(q.profile.clients, SpotMap(q)), IsEarlyStep);
    AllOf4(BeforeCheck(q), RenderStage(q), [WatermarkDir], FlatMap(q.profile.clients, IndependentMap(q)), IsEarlyStep);
  }

  lemma BeforeRenderSiteIs(q: Request)
    ensures BeforeRenderSite(q)
      == BeforeCheck(q) + RenderStage(q) + [WatermarkDir] + FlatMap(q.profile.clients, IndependentMap(q))
  {
  }

  lemma BoundStartsAreLate(steps: seq<Step>)
    requires All(steps, IsBoundStart)
    ensures All(steps, IsLateStep)
  {
  }

  lemma StartStageIsLate(q: Request)
    ensures All(RadiodStart(q) + StartsAndFinish(q), IsLateStep)
  {
    BoundStartStageSteps(q);
    BoundStartsAreLate(FlatMap(q.profile.clients, BoundStartMap(q)));
    LastIsLate(q);
    AfterWatermarkIs(q);
    hide *;
    AllOf4(FlatMap(q.profile.clients, BoundStartMap(q)), LastStart(q), Finish(q), Finish(q), IsLateStep);
    AllOf4(RadiodStart(q), StartsAndFinish(q), StartsAndFinish(q), StartsAndFinish(q), IsLateStep);
  }

  lemma LastIsLate(q: Request)
    ensures All(RadiodStart(q), IsLateStep) && All(LastStart(q), IsLateStep) && All(Finish(q), IsLateStep)
  {
    hide RadiodStack, Setup, Startable;
  }

  lemma ManifestParts(q: Request) returns (site: seq<Step>)
    ensures PlanOf(q) == BeforeRenderSite(q) + site + [WriteManifest]
      + ([Migrate] + (RadiodStart(q) + StartsAndFinish(q)))
    ensures site == [RenderSite] + if q.holdUploads then [HoldUploads] else []
  {
    site := [RenderSite] + if q.holdUploads then [HoldUploads] else [];
    var ind := FlatMap(q.profile.clients, IndependentMap(q));
    BeforeStartsAre(BeforeRenderSite(q), q);
    PlanParts(q);
    BeforeRenderSiteIs(q);
    Nothing([RenderSite]);
    hide *;
    AfterWatermarkIs(q);
    Grouped(BeforeCheck(q) + RenderStage(q) + [WatermarkDir], ind, BeforeStarts(q));
    assert BeforeRenderSite(q) + BeforeStarts(q) == BeforeRenderSite(q) + site + [WriteManifest] + [Migrate];
    Grouped(Setup(q), RadiodStart(q), StartsAndFinish(q));
    Grouped(BeforeRenderSite(q) + site + [WriteManifest], [Migrate], RadiodStart(q) + StartsAndFinish(q));
  }

  /** The uploader's manifest is written once everything it is made from is
      there: configurations, instances, upload flags, the rendered site profile
      and, where uploads are held, the hold; the uploader is restarted, and what
      depends on radiod started, only after. */
  lemma ManifestComesBetween(q: Request, i: nat, j: nat)
    requires i < |PlanOf(q)| && j < |PlanOf(q)| && PlanOf(q)[i].WriteManifest?
    ensures PlanOf(q)[j].Configure? || PlanOf(q)[j].AddInstance? || PlanOf(q)[j].Upload? ==> j < i
    ensures PlanOf(q)[j].RenderSite? || PlanOf(q)[j].HoldUploads? ==> j < i
    ensures PlanOf(q)[j].RestartUploader? || IsBoundStart(PlanOf(q)[j]) || PlanOf(q)[j].StartAll? ==> i < j
    ensures q.holdUploads ==> HoldUploads in PlanOf(q)[..i]
  {
    var site := ManifestParts(q);
    BeforeRenderSiteIsEarly(q);
    StartStageIsLate(q);
    hide PlanOf, BeforeRenderSite, RadiodStart, StartsAndFinish;
    assert All(site, IsEarlyStep);
    assert q.holdUploads ==> HoldUploads in site;
    var early, late := BeforeRenderSite(q) + site, [Migrate] + (RadiodStart(q) + StartsAndFinish(q));
    assert All(early, IsEarlyStep) && All(late, IsLateStep);
    hide All;
    Around(early, WriteManifest, late, i, j);
  }

  lemma Around(early: seq<Step>, x: Step, late: seq<Step>, i: nat, j: nat)
    requires All(early, IsEarlyStep) && All(late, IsLateStep) && x == WriteManifest
    requires var p := early + [x] + late; i < |p| && j < |p| && p[i].WriteManifest?
    ensures var p := early + [x] + late;
      && i == |early| && p[..i] == early
      && (j < i ==> IsEarlyStep(p[j])) && (i < j ==> IsLateStep(p[j]))
  {
    var p := early + [x] + late;
    AtConcat(early + [x], late, i);
    AtConcat(early + [x], late, j);
    if i < |early + [x]| {
      AtConcat(early, [x], i);
    }
    if j < |early + [x]| {
      AtConcat(early, [x], j);
    }
  }

  // ---- upload flags ----

  function FlagIs(q: Request): Step -> bool {
    (s: Step) => s.Upload? ==> s.on == !IsLocalOnly(q, s.reporter)
  }

  lemma SpotFlags(q: Request, c: string)
    ensures All(SpotMap(q)(c), FlagIs(q))
  {
    InstallIsQuiet(q, c, true);
    InstallIsQuiet(q, c, false);
    forall r ensures All(InstanceSteps(q, c)(r), FlagIs(q)) {
    }
    AllMapped(ReportersFor(q, c), InstanceSteps(q, c), FlagIs(q));
    hide FlatMap, InstallSteps, ConfigureSteps, ReportersFor, IsIndependent, IsReporterKeyed, IsLocalOnly;
  }

  lemma QuietHasNoFlag(q: Request, steps: seq<Step>)
    requires All(steps, IsQuiet) || All(steps, NoSetup)
    ensures All(steps, FlagIs(q))
  {
    hide IsLocalOnly;
  }

  /** An instance's upload is switched off exactly when its reporter is one of
      those that stay local, and on otherwise. */
  lemma UploadsFollowLocalOnly(q: Request)
    ensures All(PlanOf(q), FlagIs(q))
  {
    forall c ensures All(SpotMap(q)(c), FlagIs(q)) {
      SpotFlags(q, c);
    }
    hide *;
    AfterCheckSteps(q);
    RenderStageSteps(q);
    RadiodStageIsQuiet(q);
    TimingStageIsQuiet(q);
    QuietSteps(q);
    BeforeCheckIs(q);
    AllMapped(q.profile.clients, SpotMap(q), FlagIs(q));
    QuietHasNoFlag(q, [ProvisionSink]);
    QuietHasNoFlag(q, RadiodStage(q));
    QuietHasNoFlag(q, TimingStage(q));
    QuietHasNoFlag(q, RenderStage(q));
    QuietHasNoFlag(q, AfterCheck(q));
    AllOf4([ProvisionSink], RadiodStage(q), TimingStage(q), FlatMap(q.profile.clients, SpotMap(q)), FlagIs(q));
    AllOf4(BeforeCheck(q), RenderStage(q), AfterCheck(q), AfterCheck(q), FlagIs(q));
  }

  // ---- radiod first ----

  lemma WatermarkAt(q: Request) returns (w: nat)
    ensures w < |Setup(q)| && Setup(q)[w] == WatermarkDir
    ensures forall m :: 0 <= m < |Setup(q)| && IsStart(Setup(q)[m]) ==> w < m && IsIndependentStart(Setup(q)[m])
  {
    BeforeCheckSteps(q);
    WatermarkAndRender(q);
    AfterWatermarkSteps(q);
    PlanParts(q);
    var a, b := BeforeCheck(q) + RenderStage(q), AfterWatermark(q);
    w := |a|;
    assert All(RenderStage(q), NoStart) by {
      RenderStageSteps(q);
    }
    hide Setup, BeforeCheck, RenderStage, AfterWatermark, IsIndependentStart;
    assert Setup(q) == a + [WatermarkDir] + b;
    forall m | 0 <= m < |Setup(q)| ensures IsStart(Setup(q)[m]) ==> w < m && IsIndependentStart(Setup(q)[m]) {
      AtConcat(a + [WatermarkDir], b, m);
      if m < |a + [WatermarkDir]| {
        AtConcat(a, [WatermarkDir], m);
      }
    }
  }

  /** On a host with its own radiod: the watermark directory, the wait for FFT
      wisdom, radiod and its infrastructure, and the wait for streaming come in
      that order, and every other start, but those of clients that do not use
      radiod, comes after. */
  lemma RadiodComesFirst(q: Request) returns (w: nat, i: nat)
    requires q.localRadiod && !Deferring(q)
    ensures var p := PlanOf(q);
      && w < i < |p| - 2
      && p[w] == WatermarkDir && p[i] == WaitWisdom && p[i + 1] == Start(RadiodStack(q), false)
        && p[i + 2] == WaitStreaming
      && forall m :: 0 <= m < |p| && m != i + 1 && IsStart(p[m]) ==>
           w < m && (i + 2 < m || (m < i && IsIndependentStart(p[m])))
  {
    hide *;
    w := WatermarkAt(q);
    i := |Setup(q)|;
    PlanParts(q);
    StartParts(q);
    WaitsAreNoStarts();
    AroundRadiod(Setup(q), WaitWisdom, Start(RadiodStack(q), false), WaitStreaming, StartsAndFinish(q), w);
  }

  lemma AroundRadiod(a: seq<Step>, x: Step, y: Step, z: Step, c: seq<Step>, w: nat)
    requires w < |a| && a[w] == WatermarkDir && !IsStart(x) && !IsStart(z) && c != []
    requires forall m :: 0 <= m < |a| && IsStart(a[m]) ==> w < m && IsIndependentStart(a[m])
    ensures var p, i := a + [x, y, z] + c, |a|;
      && i < |p| - 3 && p[w] == WatermarkDir && p[i] == x && p[i + 1] == y && p[i + 2] == z
      && forall m :: 0 <= m < |p| && m != i + 1 && IsStart(p[m]) ==>
           w < m && (i + 2 < m || (m < i && IsIndependentStart(p[m])))
  {
    hide *;
    var p, i := a + [x, y, z] + c, |a|;
    assert p[i] == x && p[i + 1] == y && p[i + 2] == z;
    forall m | 0 <= m < |p| && m != i + 1
      ensures IsStart(p[m]) ==> w < m && (i + 2 < m || (m < i && IsIndependentStart(p[m])))
    {
      assert m < i ==> p[m] == a[m];
    }
  }

  lemma StartParts(q: Request)
    requires q.localRadiod && !Deferring(q)
    ensures RadiodStart(q) == [WaitWisdom, Start(RadiodStack(q), false), WaitStreaming] && StartsAndFinish(q) != []
  {
    hide RadiodStack, FlatMap, LastStart;
  }

  lemma WaitsAreNoStarts()
    ensures !IsStart(WaitWisdom) && !IsStart(WaitStreaming)
  {
  }

  // ---- what waits for the SDR stays off ----

  lemma DeferredPlan(q: Request)
    requires Deferring(q)
    ensures All(PlanOf(q), AllowedIn(q)) && PlanOf(q) == Setup(q) + LastStart(q) + Finish(q)
  {
    DeferredSetup(q);
    FinishHasNoStart(q);
    NoBoundStarts(q, q.profile.clients);
    Nothing(Setup(q));
    LastStartAllowed(q);
    hide All, Setup, LastStart, Finish, FlatMap, AllowedIn;
    AllOf4(Setup(q), LastStart(q), Finish(q), [], AllowedIn(q));
  }

  lemma LastStartAllowed(q: Request)
    requires Deferring(q)
    ensures All(LastStart(q), AllowedIn(q)) && All([], AllowedIn(q))
  {
    DeferredSetup(q);
    hide Setup, Activated, Deferred, IndependentClients;
  }

  predicate StartsComp(s: Step, c: string) {
    s.Start? && c in s.comps
  }

  predicate Configures(s: Step, c: string) {
    s.Configure? && s.client == c
  }

  lemma RunsOnlyIndependent(q: Request, s: Step, c: string)
    requires AllowedIn(q)(s)
    ensures s == Enable(c) || StartsComp(s, c) || Configures(s, c) ==> c in IndependentClients(q)
    ensures Configures(s, c) ==> c !in q.noConfig
    ensures !s.StartAll? && !s.StartInstance? && !s.AddInstance? && !s.Tune? && !s.Wisdom?
  {
    hide IndependentClients;
  }

  lemma PlanHoldsSetup(q: Request, s: Step)
    requires Deferring(q) && s in FlatMap(q.profile.clients, IndependentMap(q))
    ensures s in PlanOf(q)
  {
    DeferredPlan(q);
    SetupParts(q);
    hide PlanOf, Setup, LastStart, Finish, FlatMap;
  }

  lemma PlanIsAllowed(q: Request, s: Step)
    requires Deferring(q) && s in PlanOf(q)
    ensures AllowedIn(q)(s)
  {
    DeferredPlan(q);
    hide PlanOf, AllowedIn;
  }

  /** Without an SDR a component is enabled, configured or started exactly when
      it is a client that does not need one; nothing else that the plan does can
      start anything. */
  lemma OnlyIndependentClientsRun(q: Request, c: string)
    requires Deferring(q)
    ensures Enable(c) in PlanOf(q) <==> c in IndependentClients(q)
    ensures (exists s :: s in PlanOf(q) && StartsComp(s, c)) <==> c in IndependentClients(q)
    ensures (exists s :: s in PlanOf(q) && Configures(s, c)) <==> c in IndependentClients(q) && c !in q.noConfig
    ensures forall s :: s in PlanOf(q) ==>
      !s.StartAll? && !s.StartInstance? && !s.AddInstance? && !s.Tune? && !s.Wisdom?
  {
    hide PlanOf, IndependentClients, FlatMap, AllowedIn, IndependentMap;
    forall s | s in PlanOf(q)
      ensures s == Enable(c) || StartsComp(s, c) || Configures(s, c) ==> c in IndependentClients(q)
      ensures Configures(s, c) ==> c !in q.noConfig
      ensures !s.StartAll? && !s.StartInstance? && !s.AddInstance? && !s.Tune? && !s.Wisdom?
    {
      PlanIsAllowed(q, s);
      RunsOnlyIndependent(q, s, c);
    }
    if c in IndependentClients(q) {
      IndependentClientRuns(q, c);
      PlanHoldsSetup(q, Enable(c));
      PlanHoldsSetup(q, Start([c], false));
      assert StartsComp(Start([c], false), c);
      if c !in q.noConfig {
        PlanHoldsSetup(q, ConfigureStep(q, c));
        assert Configures(ConfigureStep(q, c), c);
      }
    }
  }

  lemma IndependentClientRuns(q: Request, c: string)
    requires c in IndependentClients(q)
    ensures var s := FlatMap(q.profile.clients, IndependentMap(q));
      Enable(c) in s && Start([c], false) in s && (c !in q.noConfig ==> ConfigureStep(q, c) in s)
  {
    assert c in q.profile.clients && IsEarly(q)(c);
    hide FlatMap, IsIndependent;
    var steps := IndependentMap(q)(c);
    assert Enable(c) in steps && Start([c], false) in steps && (c !in q.noConfig ==> ConfigureStep(q, c) in steps);
  }

  /** The last component start names exactly what was activated and not deferred
      as well: all of it, when no component is both. */
  lemma LastStartNamesActivated(q: Request)
    requires Deferring(q)
    ensures LastStart(q) == (var comps := Startable(IndependentClients(q), Deferred(Setup(q)));
                             if comps == [] then [] else [Start(comps, false)])
    ensures (forall c :: c in IndependentClients(q) ==> Install(c, false) !in Setup(q)) ==>
      Startable(IndependentClients(q), Deferred(Setup(q))) == IndependentClients(q)
  {
    DeferredSetup(q);
    ActivatedIs(Setup(q));
    hide Setup, Deferred, Activated, IndependentClients, All;
    if forall c :: c in IndependentClients(q) ==> Install(c, false) !in Setup(q) {
      FilterAll(IndependentClients(q), Deferred(Setup(q)));
    }
  }

  lemma {:induction false} FilterAll(s: seq<string>, out: seq<string>)
    requires forall c :: c in s ==> c !in out
    ensures Startable(s, out) == s
  {
    if s == [] {
    } else {
      assert s == [s[0]] + s[1..];
      FilterAll(s[1..], out);
    }
  }
}
