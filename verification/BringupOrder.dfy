/** What every bring-up plan keeps: the order of its steps, and that it makes,
    flags and starts the same instances. */
module BringupOrder {
  import opened Lists
  import opened Text
  import opened Bringup

  // ---- the same instances everywhere ----

  datatype Wanted = Adds | Uploads | Starts

  /** The pairs that steps of one kind are for. */
  function PairsIn(w: Wanted, steps: seq<Step>): seq<Pair> {
    if steps == [] then [] else PairOf(w, steps[0]) + PairsIn(w, steps[1..])
  }

  function PairOf(w: Wanted, s: Step): seq<Pair> {
    if !IsOf(w, s) then []
    else match s
         case AddInstance(c, r) => [(c, r)]
         case Upload(c, r, _) => [(c, r)]
         case StartInstance(c, r) => [(c, r)]
  }

  predicate IsOf(w: Wanted, s: Step) {
    match w
    case Adds => s.AddInstance?
    case Uploads => s.Upload?
    case Starts => s.StartInstance?
  }

  lemma PairsCons(w: Wanted, s: Step, rest: seq<Step>)
    ensures PairsIn(w, [s] + rest) == PairOf(w, s) + PairsIn(w, rest)
  {
    assert ([s] + rest)[1..] == rest;
  }

  lemma {:induction false} PairsConcat(w: Wanted, a: seq<Step>, b: seq<Step>)
    ensures PairsIn(w, a + b) == PairsIn(w, a) + PairsIn(w, b)
  {
    if a == [] {
      assert a + b == b;
    } else {
      hide *;
      PairsConcat(w, a[1..], b);
      PairsCons(w, a[0], a[1..]);
      PairsCons(w, a[0], a[1..] + b);
      Peeled(a);
      Grouped([a[0]], a[1..], b);
      Grouped(PairOf(w, a[0]), PairsIn(w, a[1..]), PairsIn(w, b));
    }
  }

  lemma Peeled<T>(s: seq<T>)
    requires s != []
    ensures s == [s[0]] + s[1..]
  {
  }

  lemma {:induction false} NoPairs(w: Wanted, steps: seq<Step>)
    requires forall s :: s in steps ==> !IsOf(w, s)
    ensures PairsIn(w, steps) == []
  {
    if steps == [] {
    } else {
      assert steps[0] in steps;
      NoPairs(w, steps[1..]);
    }
  }

  lemma {:induction false} InstancePairs(w: Wanted, q: Request, client: string, rs: seq<string>)
    ensures PairsIn(w, FlatMap(rs, InstanceSteps(q, client)))
      == if w == Starts then [] else FlatMap(rs, PairWith(client))
    ensures PairsIn(w, FlatMap(rs, StartEach(client))) == if w == Starts then FlatMap(rs, PairWith(client)) else []
  {
    if rs == [] {
    } else {
      var n := |rs| - 1;
      InstancePairs(w, q, client, rs[..n]);
      PairsConcat(w, FlatMap(rs[..n], InstanceSteps(q, client)), InstanceSteps(q, client)(rs[n]));
      PairsConcat(w, FlatMap(rs[..n], StartEach(client)), StartEach(client)(rs[n]));
      OnePair(w, q, client, rs[n]);
    }
  }

  lemma PairsOne(w: Wanted, s: Step)
    ensures PairsIn(w, [s]) == PairOf(w, s)
  {
    assert [s][1..] == [];
  }

  lemma OnePair(w: Wanted, q: Request, client: string, r: string)
    ensures PairsIn(w, InstanceSteps(q, client)(r)) == if w == Starts then [] else PairWith(client)(r)
    ensures PairsIn(w, StartEach(client)(r)) == if w == Starts then PairWith(client)(r) else []
  {
    var add, up := AddInstance(client, r), Upload(client, r, !IsLocalOnly(q, r));
    assert InstanceSteps(q, client)(r) == [add] + [up];
    hide PairsIn, IsLocalOnly;
    PairsConcat(w, [add], [up]);
    PairsOne(w, add);
    PairsOne(w, up);
    PairsOne(w, StartInstance(client, r));
  }

  lemma NoReporters(q: Request, client: string)
    requires PlannedInstances(q) == []
    ensures ReportersFor(q, client) == []
  {
  }

  lemma ConfigurePairs(w: Wanted, q: Request, c: string)
    ensures PairsIn(w, InstallSteps(c, true) + ConfigureSteps(q, c)) == []
  {
    NoPairs(w, InstallSteps(c, true) + ConfigureSteps(q, c));
  }

  lemma PairsForIs(q: Request, c: string)
    ensures PairsFor(q)(c) == if IsReporterKeyed(c) && c !in q.skip then FlatMap(ReportersFor(q, c), PairWith(c))
      else []
    ensures ReportersFor(q, c) == [] ==> PairsFor(q)(c) == []
  {
    hide IsReporterKeyed, ReportersFor;
  }

  /** One client's share of the pairs, in its setup. */
  lemma SetupPairs(w: Wanted, q: Request, c: string)
    requires !Deferring(q)
    ensures PairsIn(w, SpotMap(q)(c)) == if w == Starts then [] else PairsFor(q)(c)
  {
    hide *;
    RolesAreDisjoint(c);
    var rs := ReportersFor(q, c);
    InstancePairs(w, q, c, rs);
    PairsForIs(q, c);
    ConfigurePairs(w, q, c);
    PairsConcat(w, InstallSteps(c, true) + ConfigureSteps(q, c), FlatMap(rs, InstanceSteps(q, c)));
    NoPairs(w, []);
    SpotStepsAre([], q, c);
    Nothing(SpotMap(q)(c));
    Nothing(InstallSteps(c, true));
  }

  /** ... and in its starts. */
  lemma StartPairs(w: Wanted, q: Request, c: string)
    requires !Deferring(q)
    ensures PairsIn(w, BoundStartMap(q)(c)) == if w == Starts then PairsFor(q)(c) else []
  {
    RadiodBoundIs(q, c);
    hide *;
    RolesAreDisjoint(c);
    var rs := ReportersFor(q, c);
    InstancePairs(w, q, c, rs);
    if PlannedInstances(q) == [] {
      NoReporters(q, c);
    }
    PairsForIs(q, c);
    NoPairs(w, []);
    PlainStart(w, c);
    BoundStartStepsAre([], q, c);
    Nothing(BoundStartMap(q)(c));
    Nothing(FlatMap(rs, StartEach(c)));
    Nothing([Start([c], true)]);
  }

  lemma RadiodBoundIs(q: Request, c: string)
    ensures IsRadiodBound(q, c) ==> c !in q.skip
    ensures IsReporterKeyed(c) && c !in q.skip ==> IsRadiodBound(q, c)
  {
    RolesAreDisjoint(c);
    hide IsReporterKeyed, IsIndependent, TimingIdle;
  }

  lemma PlainStart(w: Wanted, c: string)
    ensures PairsIn(w, [Start([c], true)]) == []
  {
    NoPairs(w, [Start([c], true)]);
  }

  lemma {:induction false} ClientsPairs(w: Wanted, q: Request, clients: seq<string>)
    requires !Deferring(q)
    ensures PairsIn(w, FlatMap(clients, SpotMap(q))) == if w == Starts then [] else FlatMap(clients, PairsFor(q))
    ensures PairsIn(w, FlatMap(clients, BoundStartMap(q))) == if w == Starts then FlatMap(clients, PairsFor(q)) else []
  {
    if clients == [] {
    } else {
      var n := |clients| - 1;
      ClientsPairs(w, q, clients[..n]);
      SetupPairs(w, q, clients[n]);
      StartPairs(w, q, clients[n]);
      PairsConcat(w, FlatMap(clients[..n], SpotMap(q)), SpotMap(q)(clients[n]));
      PairsConcat(w, FlatMap(clients[..n], BoundStartMap(q)), BoundStartMap(q)(clients[n]));
      hide PairsIn, SpotMap, BoundStartMap, PairsFor;
    }
  }

  // ---- which steps a stage may hold ----

  predicate IsStart(s: Step) {
    s.Start? || s.StartInstance? || s.StartAll?
  }

  predicate IsInstance(s: Step) {
    s.AddInstance? || s.Upload? || s.StartInstance?
  }

  predicate IsBoundCheck(s: Step) {
    s.Checkpoint? && s.check.InstancesBound?
  }

  predicate IsWait(s: Step) {
    s.WaitWisdom? || s.WaitStreaming? || s.WatermarkDir?
  }

  /** Steps that neither start anything nor touch an instance. */
  predicate IsQuiet(s: Step) {
    !IsStart(s) && !IsInstance(s) && !IsBoundCheck(s) && !IsWait(s)
  }

  predicate All(steps: seq<Step>, p: Step -> bool) {
    forall s :: s in steps ==> p(s)
  }

  lemma AllOf4(a: seq<Step>, b: seq<Step>, c: seq<Step>, d: seq<Step>, p: Step -> bool)
    requires All(a, p) && All(b, p) && All(c, p) && All(d, p)
    ensures All(a + b, p) && All(a + b + c, p) && All(a + b + c + d, p)
  {
  }

  lemma AllMapped<A(!new)>(xs: seq<A>, f: A -> seq<Step>, p: Step -> bool)
    requires forall x :: x in xs ==> All(f(x), p)
    ensures All(FlatMap(xs, f), p)
  {
    hide FlatMap;
  }

  lemma InstallIsQuiet(q: Request, c: string, enable: bool)
    ensures All(InstallSteps(c, enable), IsQuiet) && All(ConfigureSteps(q, c), IsQuiet)
    ensures All(InstallUnskipped(q, enable)(c), IsQuiet) && All(InstallEach(enable)(c), IsQuiet)
  {
  }

  lemma InstallsAreQuiet(q: Request, enable: bool)
    ensures All(FlatMap(q.profile.infra, InstallUnskipped(q, enable)), IsQuiet)
    ensures All(Optional(q, enable), IsQuiet)
  {
    forall c ensures All(InstallUnskipped(q, enable)(c), IsQuiet) && All(InstallEach(enable)(c), IsQuiet) {
      InstallIsQuiet(q, c, enable);
    }
    AllMapped(q.profile.infra, InstallUnskipped(q, enable), IsQuiet);
    AllMapped(q.profile.optional, InstallEach(enable), IsQuiet);
    assert All([], IsQuiet);
    hide All, FlatMap, InstallUnskipped, InstallEach, IsQuiet;
  }

  lemma BindsAreQuiet(q: Request)
    ensures All(FlatMap(RemoteEntries(q), BindEach(q)), IsQuiet)
  {
    forall r ensures All(BindEach(q)(r), IsQuiet) {
    }
    hide All, RemoteEntries, BindEach;
    AllMapped(RemoteEntries(q), BindEach(q), IsQuiet);
  }

  lemma QuietSteps(q: Request)
    ensures All([], IsQuiet) && All([ProvisionSink], IsQuiet) && All([Note], IsQuiet) && All([Tune], IsQuiet)
    ensures All([RecoverSdr], IsQuiet) && All([Wisdom], IsQuiet) && All([InstallWebUnit], IsQuiet)
    ensures All([ConfigureStep(q, "radiod")], IsQuiet) && All([ApplyReceivers(multiset(KeyedClients(q)))], IsQuiet)
    ensures All([Checkpoint(RadiodInstalled, true)], IsQuiet) && All([Checkpoint(RadiodConfigured, true)], IsQuiet)
  {
    hide KeyedClients;
  }

  /** What holds of all that the radiod stage is made of. */
  ghost predicate HoldsOfParts(q: Request, p: Step -> bool) {
    && (forall enable :: All(FlatMap(q.profile.infra, InstallUnskipped(q, enable)), p) && All(Optional(q, enable), p)
                         && All(InstallSteps(KA9Q_RADIO, enable), p))
    && All(FlatMap(RemoteEntries(q), BindEach(q)), p)
    && All([Note], p) && All([Tune], p) && All([RecoverSdr], p) && All([Wisdom], p) && All([InstallWebUnit], p)
    && All([ConfigureStep(q, "radiod")], p) && All([ApplyReceivers(multiset(KeyedClients(q)))], p)
    && All([Checkpoint(RadiodInstalled, true)], p) && All([Checkpoint(RadiodConfigured, true)], p) && All([], p)
  }

  lemma LocalStageHolds(q: Request, p: Step -> bool)
    requires !Deferring(q) && q.localRadiod && HoldsOfParts(q, p)
    ensures All([] + RadiodStage(q), p)
  {
    hide All, FlatMap, Optional, InstallSteps, RadiodStage, KeyedClients, InstallUnskipped, BindEach, RemoteEntries,
      ConfigureStep;
    RadiodStageIs([], q);
    var infra := FlatMap(q.profile.infra, InstallUnskipped(q, true));
    var start := [] + infra + InstallSteps(KA9Q_RADIO, true) + [Checkpoint(RadiodInstalled, true)];
    AllOf4([], infra, InstallSteps(KA9Q_RADIO, true), [Checkpoint(RadiodInstalled, true)], p);
    AllOf4(start, Optional(q, true), [RecoverSdr], [ConfigureStep(q, "radiod")], p);
    var configured := start + Optional(q, true) + [RecoverSdr] + [ConfigureStep(q, "radiod")];
    AllOf4(configured, [Tune], [Wisdom], [Checkpoint(RadiodConfigured, true)], p);
    var checked := configured + [Tune] + [Wisdom] + [Checkpoint(RadiodConfigured, true)];
    AllOf4(checked, [ApplyReceivers(multiset(KeyedClients(q)))], [InstallWebUnit], [], p);
    AllOf4(checked, [InstallWebUnit], [], [], p);
  }

  lemma RadiodStageHolds(q: Request, p: Step -> bool)
    requires HoldsOfParts(q, p)
    ensures All(RadiodStage(q), p)
  {
    hide All, FlatMap, Optional, InstallSteps, RadiodStage, KeyedClients, InstallUnskipped, BindEach, RemoteEntries,
      ConfigureStep;
    Nothing(RadiodStage(q));
    RadiodStageIs([], q);
    if Deferring(q) {
      var infra := FlatMap(q.profile.infra, InstallUnskipped(q, false));
      AllOf4([], [Note], infra, InstallSteps(KA9Q_RADIO, false), p);
      AllOf4([] + [Note] + infra + InstallSteps(KA9Q_RADIO, false), Optional(q, false), [], [], p);
    } else if q.localRadiod {
      LocalStageHolds(q, p);
    } else {
      AllOf4([], [Note], [Tune], [ApplyReceivers(multiset(KeyedClients(q)))], p);
      AllOf4([], [Note], [Tune], FlatMap(RemoteEntries(q), BindEach(q)), p);
    }
  }

  lemma RadiodStageIsQuiet(q: Request)
    ensures All(RadiodStage(q), IsQuiet)
  {
    hide All, IsQuiet, FlatMap, Optional, InstallSteps, RadiodStage, KeyedClients, InstallUnskipped, BindEach,
      RemoteEntries;
    forall enable ensures All(FlatMap(q.profile.infra, InstallUnskipped(q, enable)), IsQuiet)
      && All(Optional(q, enable), IsQuiet) && All(InstallSteps(KA9Q_RADIO, enable), IsQuiet) {
      InstallsAreQuiet(q, enable);
      InstallIsQuiet(q, KA9Q_RADIO, enable);
    }
    BindsAreQuiet(q);
    QuietSteps(q);
    RadiodStageHolds(q, IsQuiet);
  }

  lemma TimingStageIsQuiet(q: Request)
    ensures All(TimingStage(q), IsQuiet) && All(BeforeStarts(q), IsQuiet)
  {
    hide TimingIdle;
    InstallIsQuiet(q, TIMING_AUTHORITY, !Deferring(q));
    hide InstallSteps, ConfigureSteps;
  }

  // ---- where instances are made, checked and started ----

  predicate NoInstance(s: Step) {
    !IsInstance(s)
  }

  predicate NoStart(s: Step) {
    !IsStart(s)
  }

  predicate NoBoundCheck(s: Step) {
    !IsBoundCheck(s)
  }

  predicate NoWait(s: Step) {
    !IsWait(s)
  }

  lemma QuietIsAll(steps: seq<Step>)
    requires All(steps, IsQuiet)
    ensures All(steps, NoInstance) && All(steps, NoStart) && All(steps, NoBoundCheck) && All(steps, NoWait)
  {
  }

  lemma SpotClientSteps(q: Request, c: string)
    ensures All(SpotMap(q)(c), NoStart) && All(SpotMap(q)(c), NoBoundCheck) && All(SpotMap(q)(c), NoWait)
  {
    InstallIsQuiet(q, c, true);
    InstallIsQuiet(q, c, false);
    hide FlatMap, InstallSteps, ConfigureSteps, ReportersFor, IsIndependent, IsReporterKeyed;
  }

  lemma SpotStageSteps(q: Request)
    ensures var s := FlatMap(q.profile.clients, SpotMap(q)); All(s, NoStart) && All(s, NoBoundCheck) && All(s, NoWait)
  {
    forall c ensures All(SpotMap(q)(c), NoStart) && All(SpotMap(q)(c), NoBoundCheck) && All(SpotMap(q)(c), NoWait) {
      SpotClientSteps(q, c);
    }
    hide *;
    AllMapped(q.profile.clients, SpotMap(q), NoStart);
    AllMapped(q.profile.clients, SpotMap(q), NoBoundCheck);
    AllMapped(q.profile.clients, SpotMap(q), NoWait);
  }

  /** A start of Stage 3b: one client that does not use radiod. */
  predicate IsIndependentStart(s: Step) {
    s.Start? && !s.staggered && |s.comps| == 1 && IsIndependent(s.comps[0])
  }

  predicate OnlyIndependentStarts(s: Step) {
    IsStart(s) ==> IsIndependentStart(s)
  }

  lemma IndependentClientSteps(q: Request, c: string)
    ensures var s := IndependentMap(q)(c);
      All(s, OnlyIndependentStarts) && All(s, NoInstance) && All(s, NoBoundCheck) && All(s, NoWait)
  {
    InstallIsQuiet(q, c, true);
    hide InstallSteps, ConfigureSteps, IsIndependent;
  }

  lemma IndependentStageSteps(q: Request)
    ensures var s := FlatMap(q.profile.clients, IndependentMap(q));
      All(s, OnlyIndependentStarts) && All(s, NoInstance) && All(s, NoBoundCheck) && All(s, NoWait)
  {
    forall c ensures var s := IndependentMap(q)(c);
      All(s, OnlyIndependentStarts) && All(s, NoInstance) && All(s, NoBoundCheck) && All(s, NoWait) {
      IndependentClientSteps(q, c);
    }
    hide *;
    AllMapped(q.profile.clients, IndependentMap(q), OnlyIndependentStarts);
    AllMapped(q.profile.clients, IndependentMap(q), NoInstance);
    AllMapped(q.profile.clients, IndependentMap(q), NoBoundCheck);
    AllMapped(q.profile.clients, IndependentMap(q), NoWait);
  }

  /** A start that waits for radiod. */
  predicate IsBoundStart(s: Step) {
    s.StartInstance? || (s.Start? && s.staggered)
  }

  lemma BoundClientSteps(q: Request, c: string)
    ensures All(BoundStartMap(q)(c), IsBoundStart)
  {
    hide FlatMap, ReportersFor, IsReporterKeyed, IsRadiodBound, PlannedInstances;
  }

  lemma BoundStartStageSteps(q: Request)
    ensures All(FlatMap(q.profile.clients, BoundStartMap(q)), IsBoundStart)
  {
    forall c ensures All(BoundStartMap(q)(c), IsBoundStart) {
      BoundClientSteps(q, c);
    }
    hide *;
    AllMapped(q.profile.clients, BoundStartMap(q), IsBoundStart);
  }

  /** What a plan is made of: setup before the instances are checked; the check;
      and what comes after it. */
  function BeforeCheck(q: Request): seq<Step> {
    [ProvisionSink] + RadiodStage(q) + TimingStage(q) + FlatMap(q.profile.clients, SpotMap(q))
  }

  function AfterWatermark(q: Request): seq<Step> {
    FlatMap(q.profile.clients, IndependentMap(q)) + BeforeStarts(q)
  }

  function StartsAndFinish(q: Request): seq<Step> {
    FlatMap(q.profile.clients, BoundStartMap(q)) + LastStart(q) + Finish(q)
  }

  lemma PlanParts(q: Request)
    ensures Setup(q) == BeforeCheck(q) + RenderStage(q) + [WatermarkDir] + AfterWatermark(q)
    ensures PlanOf(q) == Setup(q) + RadiodStart(q) + StartsAndFinish(q)
  {
    hide RadiodStage, TimingStage, SpotMap, IndependentMap, RenderStage, BeforeStarts, FlatMap, BoundStartMap,
      RadiodStart, LastStart, Finish;
    Chain2(BeforeCheck(q) + RenderStage(q) + [WatermarkDir], FlatMap(q.profile.clients, IndependentMap(q)),
      BeforeStarts(q));
    Chain4(Setup(q) + RadiodStart(q), FlatMap(q.profile.clients, BoundStartMap(q)), LastStart(q), Finish(q), []);
  }

  lemma BeforeCheckSteps(q: Request)
    ensures var s := BeforeCheck(q); All(s, NoStart) && All(s, NoBoundCheck) && All(s, NoWait)
  {
    RadiodStageIsQuiet(q);
    TimingStageIsQuiet(q);
    SpotStageSteps(q);
    QuietSteps(q);
    QuietIsAll([ProvisionSink]);
    QuietIsAll(RadiodStage(q));
    QuietIsAll(TimingStage(q));
    hide RadiodStage, TimingStage, FlatMap, All, IsQuiet;
    AllOf4([ProvisionSink], RadiodStage(q), TimingStage(q), FlatMap(q.profile.clients, SpotMap(q)), NoStart);
    AllOf4([ProvisionSink], RadiodStage(q), TimingStage(q), FlatMap(q.profile.clients, SpotMap(q)), NoBoundCheck);
    AllOf4([ProvisionSink], RadiodStage(q), TimingStage(q), FlatMap(q.profile.clients, SpotMap(q)), NoWait);
  }

  predicate NoSetup(s: Step) {
    !s.AddInstance? && !s.Upload?
  }

  lemma AfterWatermarkSteps(q: Request)
    ensures var s := AfterWatermark(q);
      All(s, OnlyIndependentStarts) && All(s, NoInstance) && All(s, NoBoundCheck) && All(s, NoWait) && All(s, NoSetup)
  {
    IndependentStageSteps(q);
    TimingStageIsQuiet(q);
    QuietIsAll(BeforeStarts(q));
    hide BeforeStarts, FlatMap, IsIndependentStart;
  }

  lemma StartsAndFinishSteps(q: Request)
    ensures All(StartsAndFinish(q), NoSetup) && All(StartsAndFinish(q), NoBoundCheck) && All(StartsAndFinish(q), NoWait)
  {
    BoundStartStageSteps(q);
    BoundStartsOnlyStart(FlatMap(q.profile.clients, BoundStartMap(q)));
    LastSteps(q);
    hide FlatMap, LastStart, Finish, All;
    AllOf4(FlatMap(q.profile.clients, BoundStartMap(q)), LastStart(q), Finish(q), Finish(q), NoSetup);
    AllOf4(FlatMap(q.profile.clients, BoundStartMap(q)), LastStart(q), Finish(q), Finish(q), NoBoundCheck);
    AllOf4(FlatMap(q.profile.clients, BoundStartMap(q)), LastStart(q), Finish(q), Finish(q), NoWait);
  }

  lemma BoundStartsOnlyStart(steps: seq<Step>)
    requires All(steps, IsBoundStart)
    ensures All(steps, NoSetup) && All(steps, NoBoundCheck) && All(steps, NoWait)
  {
  }

  lemma LastSteps(q: Request)
    ensures All(LastStart(q), NoSetup) && All(LastStart(q), NoBoundCheck) && All(LastStart(q), NoWait)
    ensures All(Finish(q), NoSetup) && All(Finish(q), NoBoundCheck) && All(Finish(q), NoWait)
  {
    hide Setup, Startable, Activated, Deferred;
  }

  /** The instances that are made, flagged for upload, and started are the same,
      in the same order: none of them when the radio half is deferred. */
  lemma SameInstances(q: Request, w: Wanted)
    ensures PairsIn(w, PlanOf(q)) == if Deferring(q) then [] else Pairs(q)
  {
    hide *;
    PlanParts(q);
    var starts := FlatMap(q.profile.clients, BoundStartMap(q));
    SetupInstances(q, w);
    RadiodStartHasNoInstance(q, w);
    FinishHasNoInstance(q, w);
    StartInstances(q, w);
    StartsAndFinishIs(q);
    PairsConcat(w, Setup(q) + RadiodStart(q), StartsAndFinish(q));
    PairsConcat(w, Setup(q), RadiodStart(q));
    PairsConcat(w, starts, LastStart(q) + Finish(q));
    Nothing(PairsIn(w, Setup(q)));
    Nothing(PairsIn(w, starts));
    Nothing(PairsIn(w, starts));
  }

  lemma StartsAndFinishIs(q: Request)
    ensures StartsAndFinish(q) == FlatMap(q.profile.clients, BoundStartMap(q)) + (LastStart(q) + Finish(q))
  {
    hide FlatMap, LastStart, Finish;
    Grouped(FlatMap(q.profile.clients, BoundStartMap(q)), LastStart(q), Finish(q));
  }

  lemma StartInstances(q: Request, w: Wanted)
    ensures PairsIn(w, FlatMap(q.profile.clients, BoundStartMap(q)))
      == if Deferring(q) || w != Starts then [] else Pairs(q)
  {
    if Deferring(q) {
      NoBoundStarts(q, q.profile.clients);
      NoPairs(w, []);
    } else {
      ClientsPairs(w, q, q.profile.clients);
    }
  }

  lemma RadiodStartHasNoInstance(q: Request, w: Wanted)
    ensures PairsIn(w, RadiodStart(q)) == []
  {
    hide RadiodStack;
    NoPairs(w, RadiodStart(q));
  }

  lemma FinishHasNoInstance(q: Request, w: Wanted)
    ensures PairsIn(w, LastStart(q) + Finish(q)) == []
  {
    hide Setup, Startable;
    assert forall s :: s in LastStart(q) + Finish(q) ==> !IsOf(w, s);
    NoPairs(w, LastStart(q) + Finish(q));
  }

  lemma DeferredClientHasNoInstance(q: Request, c: string)
    requires Deferring(q)
    ensures All(SpotMap(q)(c), NoInstance)
  {
    InstallIsQuiet(q, c, false);
    hide IsIndependent, InstallSteps;
  }

  lemma NoInstancePairs(w: Wanted, steps: seq<Step>)
    requires All(steps, NoInstance)
    ensures PairsIn(w, steps) == []
  {
    NoPairs(w, steps);
  }

  lemma SetupInstances(q: Request, w: Wanted)
    ensures PairsIn(w, Setup(q)) == if Deferring(q) || w == Starts then [] else Pairs(q)
  {
    hide *;
    PlanParts(q);
    RadiodStageIsQuiet(q);
    TimingStageIsQuiet(q);
    QuietSteps(q);
    QuietIsAll([ProvisionSink]);
    QuietIsAll(RadiodStage(q));
    QuietIsAll(TimingStage(q));
    AfterWatermarkSteps(q);
    RenderHasNoInstance(q);
    SpotInstances(q, w);
    var spot := FlatMap(q.profile.clients, SpotMap(q));
    BeforeCheckIs(q);
    NoInstancePairs(w, [ProvisionSink]);
    NoInstancePairs(w, RadiodStage(q));
    NoInstancePairs(w, TimingStage(q));
    NoInstancePairs(w, RenderStage(q) + [WatermarkDir]);
    NoInstancePairs(w, AfterWatermark(q));
    PairsConcat(w, [ProvisionSink], RadiodStage(q));
    PairsConcat(w, [ProvisionSink] + RadiodStage(q), TimingStage(q));
    PairsConcat(w, [ProvisionSink] + RadiodStage(q) + TimingStage(q), spot);
    Grouped(BeforeCheck(q), RenderStage(q), [WatermarkDir]);
    PairsConcat(w, BeforeCheck(q), RenderStage(q) + [WatermarkDir]);
    PairsConcat(w, BeforeCheck(q) + (RenderStage(q) + [WatermarkDir]), AfterWatermark(q));
    Nothing<Pair>([]);
    Nothing(PairsIn(w, spot));
    Nothing(PairsIn(w, spot));
  }

  lemma BeforeCheckIs(q: Request)
    ensures BeforeCheck(q) == [ProvisionSink] + RadiodStage(q) + TimingStage(q) + FlatMap(q.profile.clients, SpotMap(q))
    ensures Pairs(q) == FlatMap(q.profile.clients, PairsFor(q))
  {
  }

  lemma RenderHasNoInstance(q: Request)
    ensures All(RenderStage(q) + [WatermarkDir], NoInstance)
  {
    hide Pairs, Renders;
  }

  lemma SpotInstances(q: Request, w: Wanted)
    ensures PairsIn(w, FlatMap(q.profile.clients, SpotMap(q))) == if Deferring(q) || w == Starts then [] else Pairs(q)
  {
    if Deferring(q) {
      forall c ensures All(SpotMap(q)(c), NoInstance) {
        DeferredClientHasNoInstance(q, c);
      }
      hide *;
      AllMapped(q.profile.clients, SpotMap(q), NoInstance);
      NoInstancePairs(w, FlatMap(q.profile.clients, SpotMap(q)));
    } else {
      ClientsPairs(w, q, q.profile.clients);
    }
  }
}
