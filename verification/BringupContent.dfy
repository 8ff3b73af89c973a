/** What a bring-up plan holds, in terms of the request itself: which instances,
    installs, configurations, checkpoints and bindings. */
module BringupContent {
  import opened Lists
  import opened Text
  import opened Bringup
  import opened BringupOrder
  import BringupStarts

  // ---- which instances ----

  lemma {:induction false} PairsInAre(w: Wanted, steps: seq<Step>, c: string, r: string)
    ensures (c, r) in PairsIn(w, steps) <==>
      match w
      case Adds => AddInstance(c, r) in steps
      case Uploads => Upload(c, r, true) in steps || Upload(c, r, false) in steps
      case Starts => StartInstance(c, r) in steps
  {
    if steps == [] {
    } else {
      PairsInAre(w, steps[1..], c, r);
      assert steps == [steps[0]] + steps[1..];
    }
  }

  /** The client listens to whatever this entry names: a list of clients, or all. */
  predicate Serves(clients: Option<seq<string>>, c: string) {
    clients.None? || c in clients.value
  }

  lemma {:induction false} ReportersInAre(instances: seq<Instance>, c: string, r: string)
    ensures r in ReportersIn(instances, c) <==>
      exists k :: 0 <= k < |instances| && instances[k].reporter == r && Serves(instances[k].clients, c)
  {
    if instances == [] {
    } else {
      ReportersInAre(instances[1..], c, r);
      if k :| 0 <= k < |instances[1..]| && instances[1..][k].reporter == r && Serves(instances[1..][k].clients, c) {
        assert instances[k + 1].reporter == r;
      }
      if k :| 0 <= k < |instances| && instances[k].reporter == r && Serves(instances[k].clients, c) {
        assert k > 0 ==> instances[1..][k - 1].reporter == r;
      }
    }
  }

  /** Some receiver of the list is heard by this client under this reporter. */
  ghost predicate Names(rs: seq<Receiver>, c: string, r: string) {
    exists e :: e in rs && e.reporter == r && Serves(e.clients, c)
  }

  /** The reporters of a client, entry by entry of the request: the remote
      receivers, where this host has no radiod of its own or the receivers are
      declared; with a radiod of its own, or without remote receivers, two or
      more local receivers; and with fewer the one reporter, whose clients are
      those of the local receiver of that name, or all. */
  ghost predicate Hears(q: Request, c: string, r: string) {
    || (Names(q.remotes, c, r) && (!q.localRadiod || q.receiversDeclared))
    || (Names(q.localReceivers, c, r) && |q.localReceivers| >= 2 && (q.localRadiod || q.remotes == []))
    || (|q.localReceivers| <= 1 && (q.localRadiod || q.remotes == [])
        && q.reporter != "" && q.reporter == r
        && (if q.localReceivers == [] then !q.receiversDeclared
            else q.key(q.localReceivers[0].reporter) == q.key(q.reporter) ==> Serves(q.localReceivers[0].clients, c)))
  }

  lemma ToInstancesAre(rs: seq<Receiver>, c: string, r: string)
    ensures r in ReportersIn(ToInstances(rs), c) <==> Names(rs, c, r)
  {
    ReportersInAre(ToInstances(rs), c, r);
    if e :| e in rs && e.reporter == r && Serves(e.clients, c) {
      var k :| 0 <= k < |rs| && rs[k] == e;
      assert ToInstances(rs)[k].reporter == r;
    }
    if k :| 0 <= k < |rs| && ToInstances(rs)[k].reporter == r && Serves(ToInstances(rs)[k].clients, c) {
      assert rs[k] in rs;
    }
  }

  lemma {:induction false} ReportersInConcat(a: seq<Instance>, b: seq<Instance>, c: string)
    ensures ReportersIn(a + b, c) == ReportersIn(a, c) + ReportersIn(b, c)
  {
    if a == [] {
      assert a + b == b;
    } else {
      assert (a + b)[1..] == a[1..] + b;
      ReportersInConcat(a[1..], b, c);
    }
  }

  lemma OnlyIs(q: Request, c: string, r: string)
    requires |q.localReceivers| <= 1
    ensures r in ReportersIn([Instance(q.reporter, ClientsOf(q.localReceivers, q.reporter, q.key))], c) <==>
      && q.reporter == r
      && (q.localReceivers != [] && q.key(q.localReceivers[0].reporter) == q.key(q.reporter) ==>
            Serves(q.localReceivers[0].clients, c))
  {
    var clients := ClientsOf(q.localReceivers, q.reporter, q.key);
    if q.localReceivers != [] {
      assert q.localReceivers[1..] == [];
    }
    var only := Instance(q.reporter, clients);
    assert [only][1..] == [];
  }

  lemma ReportersAre(q: Request, c: string, r: string)
    ensures r in ReportersFor(q, c) <==> Hears(q, c, r)
  {
    ToInstancesAre(RemoteEntries(q), c, r);
    ToInstancesAre(q.localReceivers, c, r);
    var only := [Instance(q.reporter, ClientsOf(q.localReceivers, q.reporter, q.key))];
    if |q.localReceivers| <= 1 {
      OnlyIs(q, c, r);
    }
    ReportersInConcat(ToInstances(q.localReceivers), ToInstances(RemoteEntries(q)), c);
    ReportersInConcat(only, ToInstances(RemoteEntries(q)), c);
    Nothing(ToInstances(RemoteEntries(q)));
    assert !Names([], c, r);
    hide ReportersIn, ToInstances, Names, Serves, ClientsOf;
  }

  /** An instance is made, flagged for upload and started exactly when its client
      is one of the three that take a reporter, belongs to the profile, is not
      skipped and hears that reporter; and none is without the SDR. */
  lemma InstancesAre(q: Request, c: string, r: string)
    ensures AddInstance(c, r) in PlanOf(q) <==>
      && !(q.sdrAbsent && q.localRadiod)
      && c in q.profile.clients && c !in q.skip && c in {"wspr-recorder", "psk-recorder", "meteor-scatter"}
      && Hears(q, c, r)
    ensures AddInstance(c, r) in PlanOf(q) <==> StartInstance(c, r) in PlanOf(q)
    ensures AddInstance(c, r) in PlanOf(q) <==> Upload(c, r, true) in PlanOf(q) || Upload(c, r, false) in PlanOf(q)
  {
    SameInstances(q, Adds);
    SameInstances(q, Uploads);
    SameInstances(q, Starts);
    PairsInAre(Adds, PlanOf(q), c, r);
    PairsInAre(Uploads, PlanOf(q), c, r);
    PairsInAre(Starts, PlanOf(q), c, r);
    PairsAre(q, c, r);
    hide PlanOf, Pairs, PairsIn, Hears;
  }

  lemma PairsAre(q: Request, c: string, r: string)
    ensures (c, r) in Pairs(q) <==>
      && c in q.profile.clients && c !in q.skip && c in {"wspr-recorder", "psk-recorder", "meteor-scatter"}
      && Hears(q, c, r)
  {
    ReportersAre(q, c, r);
    hide Hears, ReportersFor;
    forall d ensures (c, r) in PairsFor(q)(d) <==>
      d == c && IsReporterKeyed(c) && c !in q.skip && r in ReportersFor(q, c) {
      PairsForIs(q, d);
    }
    hide FlatMap, IsReporterKeyed;
    assert IsReporterKeyed(c) <==> c in {"wspr-recorder", "psk-recorder", "meteor-scatter"} by {
      KeyedAre(c);
    }
  }

  lemma KeyedAre(c: string)
    ensures IsReporterKeyed(c) <==> c in {"wspr-recorder", "psk-recorder", "meteor-scatter"}
  {
  }

  // ---- where a step of the plan comes from ----

  /** The parts of a plan that a step may be in. */
  lemma PlanHas(q: Request, s: Step)
    ensures s in PlanOf(q) <==>
      || s == ProvisionSink || s in RadiodStage(q) || s in TimingStage(q)
      || s in FlatMap(q.profile.clients, SpotMap(q)) || s in RenderStage(q) || s == WatermarkDir
      || s in FlatMap(q.profile.clients, IndependentMap(q)) || s in BeforeStarts(q) || s in RadiodStart(q)
      || s in FlatMap(q.profile.clients, BoundStartMap(q)) || s in LastStart(q) || s in Finish(q)
  {
    var spot, independent := FlatMap(q.profile.clients, SpotMap(q)), FlatMap(q.profile.clients, IndependentMap(q));
    var bound := FlatMap(q.profile.clients, BoundStartMap(q));
    assert Setup(q) == [ProvisionSink] + RadiodStage(q) + TimingStage(q) + spot + RenderStage(q) + [WatermarkDir]
      + independent + BeforeStarts(q);
    assert PlanOf(q) == Setup(q) + RadiodStart(q) + bound + LastStart(q) + Finish(q);
    hide *;
    var a := [ProvisionSink] + RadiodStage(q) + TimingStage(q) + spot;
    assert s in a <==> s == ProvisionSink || s in RadiodStage(q) || s in TimingStage(q) || s in spot;
    var b := a + RenderStage(q) + [WatermarkDir] + independent + BeforeStarts(q);
    assert s in b <==> s in a || s in RenderStage(q) || s == WatermarkDir || s in independent || s in BeforeStarts(q);
  }

  lemma RadiodStageHas(q: Request, s: Step)
    ensures s in RadiodStage(q) <==>
      if Deferring(q) then
        || s == Note || s == Install(KA9Q_RADIO, false)
        || s in FlatMap(q.profile.infra, InstallUnskipped(q, false)) || s in Optional(q, false)
      else if q.localRadiod then
        || s in FlatMap(q.profile.infra, InstallUnskipped(q, true)) || s in Optional(q, true)
        || s in InstallSteps(KA9Q_RADIO, true)
        || s == Checkpoint(RadiodInstalled, true) || s == RecoverSdr || s == ConfigureStep(q, "radiod") || s == Tune
        || s == Wisdom || s == Checkpoint(RadiodConfigured, true)
        || (q.receiversDeclared && s == ApplyReceivers(multiset(KeyedClients(q))))
        || (KA9Q_WEB in q.profile.infra && KA9Q_WEB !in q.skip && s == InstallWebUnit)
      else
        || s == Note || s == Tune
        || (if q.receiversDeclared then s == ApplyReceivers(multiset(KeyedClients(q)))
            else s in FlatMap(RemoteEntries(q), BindEach(q)))
  {
    hide FlatMap, InstallUnskipped, InstallSteps, ConfigureStep, KeyedClients, BindEach, Optional, RemoteEntries;
    if Deferring(q) {
    } else if q.localRadiod {
      OwnRadiodHas(q, s);
    } else {
    }
  }

  lemma OwnRadiodHas(q: Request, s: Step)
    requires !Deferring(q) && q.localRadiod
    ensures s in RadiodStage(q) <==>
      || s in FlatMap(q.profile.infra, InstallUnskipped(q, true)) || s in Optional(q, true)
      || s in InstallSteps(KA9Q_RADIO, true)
      || s == Checkpoint(RadiodInstalled, true) || s == RecoverSdr || s == ConfigureStep(q, "radiod") || s == Tune
      || s == Wisdom || s == Checkpoint(RadiodConfigured, true)
      || (q.receiversDeclared && s == ApplyReceivers(multiset(KeyedClients(q))))
      || (KA9Q_WEB in q.profile.infra && KA9Q_WEB !in q.skip && s == InstallWebUnit)
  {
    hide FlatMap, InstallUnskipped, InstallSteps, ConfigureStep, KeyedClients, BindEach, Optional, RemoteEntries;
  }

  /** Steps that set something up, and checks. */
  predicate IsSetup(s: Step) {
    s.Enable? || s.Install? || s.Configure? || s.Checkpoint? || s.BindSource? || s.Upload? || s.ApplyReceivers?
  }

  lemma StartsSetUpNothing(q: Request, s: Step)
    requires IsSetup(s)
    ensures s !in FlatMap(q.profile.clients, BoundStartMap(q))
  {
    forall c ensures s !in BoundStartMap(q)(c) {
      if s in BoundStartMap(q)(c) {
        BringupStarts.BoundStepsAre(q, c, s);
        assert false;
      }
    }
    hide FlatMap, BoundStartMap;
  }

  lemma LaterPartsSetUpNothing(q: Request, s: Step)
    requires IsSetup(s)
    ensures s !in BeforeStarts(q) && s !in RadiodStart(q) && s !in LastStart(q)
    ensures s in Finish(q) <==> s == Checkpoint(FinalValidate, false)
    ensures s in RenderStage(q) <==> Renders(q) && Pairs(q) != [] && s == Checkpoint(InstancesBound(Pairs(q)), true)
  {
    hide Pairs, Renders, RadiodStack, Startable, Setup;
  }

  lemma SetupHas(q: Request, s: Step)
    requires IsSetup(s)
    ensures s in PlanOf(q) <==>
      || s in RadiodStage(q) || s in TimingStage(q)
      || (exists c :: c in q.profile.clients && s in SpotSteps(q, c))
      || (exists c :: c in q.profile.clients && s in IndependentSteps(q, c))
      || (Renders(q) && Pairs(q) != [] && s == Checkpoint(InstancesBound(Pairs(q)), true))
      || s == Checkpoint(FinalValidate, false)
  {
    PlanHas(q, s);
    LaterPartsSetUpNothing(q, s);
    StartsSetUpNothing(q, s);
    assert forall c :: SpotMap(q)(c) == SpotSteps(q, c);
    assert forall c :: IndependentMap(q)(c) == IndependentSteps(q, c);
    hide FlatMap, RadiodStage, TimingStage, RenderStage, SpotSteps, IndependentSteps, BeforeStarts, RadiodStart,
      LastStart, Finish, Renders, Pairs, SpotMap, IndependentMap, PlanOf;
  }

  /** The client that a step of one client's setup is for. */
  function ClientOf(s: Step): Option<string> {
    match s
    case Enable(c) => Some(c)
    case Install(c, _) => Some(c)
    case Configure(c, _) => Some(c)
    case Checkpoint(Configured(c), _) => Some(c)
    case Upload(c, _, _) => Some(c)
    case _ => None
  }

  lemma SingleClientSteps(q: Request, d: string, s: Step)
    ensures forall enable :: s in InstallSteps(d, enable) ==> ClientOf(s) == Some(d)
    ensures s in ConfigureSteps(q, d) ==> ClientOf(s) == Some(d)
  {
  }

  lemma InstancesOf(q: Request, d: string, s: Step)
    ensures s in FlatMap(ReportersFor(q, d), InstanceSteps(q, d)) ==> s.AddInstance? || ClientOf(s) == Some(d)
  {
    hide ReportersFor, IsLocalOnly;
  }

  lemma OwnSteps(q: Request, d: string, s: Step)
    requires IsSetup(s)
    ensures s in SpotSteps(q, d) || s in IndependentSteps(q, d) ==> ClientOf(s) == Some(d)
    ensures s in TimingStage(q) ==> ClientOf(s) == Some(TIMING_AUTHORITY)
  {
    OwnSpotSteps(q, d, s);
    OwnTimingSteps(q, s);
    SingleClientSteps(q, d, s);
    hide FlatMap, ReportersFor, IsIndependent, IsReporterKeyed, TimingIdle, InstallSteps, ConfigureSteps, ClientOf,
      SpotSteps, TimingStage;
  }

  lemma OwnSpotSteps(q: Request, d: string, s: Step)
    requires IsSetup(s)
    ensures s in SpotSteps(q, d) ==> ClientOf(s) == Some(d)
  {
    SingleClientSteps(q, d, s);
    InstancesOf(q, d, s);
    hide FlatMap, ReportersFor, IsIndependent, IsReporterKeyed, InstallSteps, ConfigureSteps, ClientOf;
  }

  lemma OwnTimingSteps(q: Request, s: Step)
    requires IsSetup(s)
    ensures s in TimingStage(q) ==> ClientOf(s) == Some(TIMING_AUTHORITY)
  {
    SingleClientSteps(q, TIMING_AUTHORITY, s);
    assert ClientOf(Install(TIMING_AUTHORITY, false)) == Some(TIMING_AUTHORITY);
    hide TimingIdle, InstallSteps, ConfigureSteps, ClientOf;
  }

  /** One client's steps of a plan. */
  predicate IsOwn(q: Request, c: string, s: Step) {
    && c in q.profile.clients
    && (s in SpotSteps(q, c) || s in IndependentSteps(q, c) || (c == TIMING_AUTHORITY && s in TimingStage(q)))
  }

  lemma ClientStepHas(q: Request, s: Step, c: string)
    requires IsSetup(s) && ClientOf(s) == Some(c)
    ensures s in PlanOf(q) <==> s in RadiodStage(q) || IsOwn(q, c, s)
  {
    assert s != Checkpoint(FinalValidate, false) && s != Checkpoint(InstancesBound(Pairs(q)), true);
    hide PlanOf, RadiodStage, TimingStage, SpotSteps, IndependentSteps, Renders, Pairs, IsSetup, ClientOf;
    SetupHas(q, s);
    OwnSteps(q, c, s);
    TimingNeedsClient(q, s);
    forall d ensures s in SpotSteps(q, d) || s in IndependentSteps(q, d) ==> d == c {
      OwnSteps(q, d, s);
    }
  }

  lemma TimingNeedsClient(q: Request, s: Step)
    ensures s in TimingStage(q) ==> TIMING_AUTHORITY in q.profile.clients
  {
    hide InstallSteps, ConfigureSteps, TimingIdle;
  }

  /** The client is set up for good by this plan: it belongs to the profile, is
      not skipped, and either does not need radiod or radiod's half is not put
      off, nor is it the timing authority with no radiod to follow. */
  predicate IsSetUp(q: Request, c: string) {
    && c in q.profile.clients && c !in q.skip
    && (c in {"mag-recorder", "station-web", "hamsci-physics", "gmag-webui"}
        || (!(q.sdrAbsent && q.localRadiod) && (c == "hf-timestd" ==> !TimingIdle(q))))
  }

  lemma OwnInstalls(q: Request, c: string)
    ensures IsOwn(q, c, Enable(c)) <==> IsSetUp(q, c)
    ensures IsOwn(q, c, Install(c, true)) <==> IsSetUp(q, c)
    ensures IsOwn(q, c, Install(c, false)) <==> c in q.profile.clients && c !in q.skip && !IsSetUp(q, c)
  {
    IndependentAre(c);
    RolesAreDisjoint(c);
    RolesAreDisjoint(TIMING_AUTHORITY);
    InstanceStepsInstallNothing(q, c);
    hide FlatMap, ReportersFor, IsReporterKeyed, TimingIdle, IsIndependent;
  }

  lemma InstanceStepsInstallNothing(q: Request, c: string)
    ensures forall s :: s in FlatMap(ReportersFor(q, c), InstanceSteps(q, c)) ==> s.AddInstance? || s.Upload?
  {
    hide ReportersFor;
  }

  lemma IndependentAre(c: string)
    ensures IsIndependent(c) <==> c in {"mag-recorder", "station-web", "hamsci-physics", "gmag-webui"}
  {
  }

  // ---- what is installed and configured ----

  lemma InstallStepsAre(c: string, i: string, enable: bool, on: bool)
    ensures Install(c, on) in InstallSteps(i, enable) <==> c == i && on == enable
    ensures Enable(c) in InstallSteps(i, enable) <==> c == i && enable
  {
  }

  lemma InfraInstalls(q: Request, c: string, enable: bool, on: bool)
    ensures Install(c, on) in FlatMap(q.profile.infra, InstallUnskipped(q, enable)) <==>
      on == enable && c in q.profile.infra && c !in q.skip
    ensures Enable(c) in FlatMap(q.profile.infra, InstallUnskipped(q, enable)) <==>
      enable && c in q.profile.infra && c !in q.skip
  {
    forall i ensures Install(c, on) in InstallUnskipped(q, enable)(i) <==> c == i && on == enable && i !in q.skip
      ensures Enable(c) in InstallUnskipped(q, enable)(i) <==> c == i && enable && i !in q.skip {
      InstallStepsAre(c, i, enable, on);
      hide InstallSteps;
    }
    hide InstallUnskipped;
  }

  lemma OptionalInstalls(q: Request, c: string, enable: bool, on: bool)
    ensures Install(c, on) in Optional(q, enable) <==> on == enable && q.withOptional && c in q.profile.optional
    ensures Enable(c) in Optional(q, enable) <==> enable && q.withOptional && c in q.profile.optional
  {
    forall i ensures Install(c, on) in InstallEach(enable)(i) <==> c == i && on == enable
      ensures Enable(c) in InstallEach(enable)(i) <==> c == i && enable {
      InstallStepsAre(c, i, enable, on);
      hide InstallSteps;
    }
    hide InstallEach;
  }

  lemma BindsOnly(q: Request, s: Step)
    ensures s in FlatMap(RemoteEntries(q), BindEach(q)) ==> s.BindSource?
  {
    hide RemoteEntries;
  }

  lemma RadiodStageInstalls(q: Request, c: string, on: bool)
    ensures Install(c, on) in RadiodStage(q) <==>
      && q.localRadiod && on == !q.sdrAbsent
      && (c == KA9Q_RADIO || (c in q.profile.infra && c !in q.skip) || (q.withOptional && c in q.profile.optional))
    ensures Enable(c) in RadiodStage(q) <==>
      && q.localRadiod && !q.sdrAbsent
      && (c == KA9Q_RADIO || (c in q.profile.infra && c !in q.skip) || (q.withOptional && c in q.profile.optional))
  {
    RadiodStageHas(q, Install(c, on));
    RadiodStageHas(q, Enable(c));
    InfraInstalls(q, c, !q.sdrAbsent, on);
    OptionalInstalls(q, c, !q.sdrAbsent, on);
    InstallStepsAre(c, KA9Q_RADIO, true, on);
    BindsOnly(q, Install(c, on));
    BindsOnly(q, Enable(c));
    hide FlatMap, InstallUnskipped, BindEach, Optional, RemoteEntries, RadiodStage, KeyedClients, InstallSteps;
  }

  lemma RadioIs()
    ensures KA9Q_RADIO == "ka9q-radio"
  {
  }

  /** Part of a radiod host's own half: radiod, the infrastructure that is not
      skipped, and the options where they are asked for. */
  predicate IsRadioHalf(q: Request, c: string) {
    c == "ka9q-radio" || (c in q.profile.infra && c !in q.skip) || (q.withOptional && c in q.profile.optional)
  }

  /** What is installed, and what of it is enabled: radiod's stack on a host with
      a radiod of its own, with the infrastructure and the options asked for, and
      every client not skipped; enabled unless it waits for the SDR or, as the
      timing authority, for a radiod to follow. */
  lemma InstallsAre(q: Request, c: string)
    ensures Install(c, true) in PlanOf(q) <==>
      || IsSetUp(q, c)
      || (q.localRadiod && !q.sdrAbsent && IsRadioHalf(q, c))
    ensures Enable(c) in PlanOf(q) <==> Install(c, true) in PlanOf(q)
    ensures Install(c, false) in PlanOf(q) <==>
      || (c in q.profile.clients && c !in q.skip && !IsSetUp(q, c))
      || (q.localRadiod && q.sdrAbsent && IsRadioHalf(q, c))
  {
    assert forall on :: IsSetup(Install(c, on)) && ClientOf(Install(c, on)) == Some(c);
    assert IsSetup(Enable(c)) && ClientOf(Enable(c)) == Some(c);
    hide *;
    ClientStepHas(q, Install(c, true), c);
    ClientStepHas(q, Install(c, false), c);
    ClientStepHas(q, Enable(c), c);
    RadiodStageInstalls(q, c, true);
    RadiodStageInstalls(q, c, false);
    OwnInstalls(q, c);
    RadioIs();
  }

  lemma OwnConfigures(q: Request, c: string, interactive: bool, hard: bool)
    ensures IsOwn(q, c, Configure(c, interactive)) <==>
      IsSetUp(q, c) && c !in q.noConfig && interactive == (q.interactive && c == "radiod")
    ensures IsOwn(q, c, Checkpoint(Configured(c), hard)) <==>
      IsSetUp(q, c) && c !in q.noConfig && hard == (c !in q.dormant)
  {
    IndependentAre(c);
    RolesAreDisjoint(c);
    RolesAreDisjoint(TIMING_AUTHORITY);
    InstanceStepsInstallNothing(q, c);
    hide FlatMap, ReportersFor, IsReporterKeyed, TimingIdle, IsIndependent;
  }

  lemma InstallsConfigureNothing(q: Request, enable: bool, s: Step)
    requires s.Configure? || s.Checkpoint?
    ensures s !in InstallSteps(KA9Q_RADIO, enable) && s !in Optional(q, enable)
    ensures s !in FlatMap(q.profile.infra, InstallUnskipped(q, enable))
  {
  }

  lemma RadiodStageConfigures(q: Request, s: Step)
    requires s.Configure? || s.Checkpoint?
    ensures s in RadiodStage(q) <==>
      && q.localRadiod && !q.sdrAbsent
      && (s == Configure("radiod", q.interactive) || s == Checkpoint(RadiodInstalled, true)
          || s == Checkpoint(RadiodConfigured, true))
  {
    assert ConfigureStep(q, "radiod") == Configure("radiod", q.interactive);
    RadiodStageHas(q, s);
    InstallsConfigureNothing(q, true, s);
    InstallsConfigureNothing(q, false, s);
    BindsOnly(q, s);
    hide RadiodStage, FlatMap, InstallUnskipped, Optional, InstallSteps, RemoteEntries, BindEach, KeyedClients,
      ConfigureStep;
  }

  /** What is configured: radiod, on a host with a radiod of its own and its SDR,
      and every client that is set up and has a configuration; an interview only
      for radiod. A client's configuration is checked, and the check is hard
      unless the client waits for hardware. */
  lemma ConfigurationsAre(q: Request, c: string, interactive: bool, hard: bool)
    ensures Configure(c, interactive) in PlanOf(q) <==>
      && interactive == (q.interactive && c == "radiod")
      && ((IsSetUp(q, c) && c !in q.noConfig) || (c == "radiod" && q.localRadiod && !q.sdrAbsent))
    ensures Checkpoint(Configured(c), hard) in PlanOf(q) <==>
      IsSetUp(q, c) && c !in q.noConfig && hard == (c !in q.dormant)
  {
    var configure, check := Configure(c, interactive), Checkpoint(Configured(c), hard);
    assert IsSetup(configure) && IsSetup(check) && ClientOf(configure) == ClientOf(check) == Some(c);
    hide *;
    ClientStepHas(q, configure, c);
    ClientStepHas(q, check, c);
    OwnConfigures(q, c, interactive, hard);
    RadiodStageConfigures(q, configure);
    RadiodStageConfigures(q, check);
  }

  /** The other checkpoints: radiod installed and radiod configured are hard and
      on a host with a radiod of its own and its SDR; the instances bound, all of
      the plan's, hard; and the final one always there and never hard. */
  lemma CheckpointsAre(q: Request, check: Check, hard: bool)
    requires !check.Configured?
    ensures Checkpoint(check, hard) in PlanOf(q) <==>
      match check
      case InstancesBound(pairs) => hard && Renders(q) && Pairs(q) != [] && pairs == Pairs(q)
      case FinalValidate => !hard
      case _ => hard && q.localRadiod && !q.sdrAbsent
  {
    var s := Checkpoint(check, hard);
    assert IsSetup(s);
    hide *;
    SetupHas(q, s);
    NoClientsCheck(q, check, hard);
    RadiodStageConfigures(q, s);
  }

  lemma NoClientsCheck(q: Request, check: Check, hard: bool)
    requires !check.Configured?
    ensures var s := Checkpoint(check, hard);
      s !in TimingStage(q) && forall c :: s !in SpotSteps(q, c) && s !in IndependentSteps(q, c)
  {
    var s := Checkpoint(check, hard);
    assert IsSetup(s) && ClientOf(s) == None;
    hide *;
    forall c ensures s !in SpotSteps(q, c) && s !in IndependentSteps(q, c) && s !in TimingStage(q) {
      OwnSteps(q, c, s);
    }
  }

  /** An instance uploads unless its reporter is one of those that stay local,
      however either is spelled. */
  lemma UploadsAre(q: Request, c: string, r: string, on: bool)
    requires Upload(c, r, on) in PlanOf(q)
    ensures on <==> forall l :: l in q.localOnly ==> q.key(l) != q.key(r)
  {
    BringupStarts.UploadsFollowLocalOnly(q);
    assert BringupStarts.FlagIs(q)(Upload(c, r, on));
    hide PlanOf;
  }

  // ---- what is bound ----

  lemma KeyedClientsAre(q: Request, c: string)
    ensures c in KeyedClients(q) <==>
      c in q.profile.clients && c !in q.skip && c in {"wspr-recorder", "psk-recorder", "meteor-scatter"}
  {
  }

  lemma BindEachIs(q: Request, e: Receiver, dns: string, r: string, clients: seq<string>, timing: bool)
    ensures BindSource(dns, r, clients, timing) in BindEach(q)(e) <==>
      e.dns == dns && e.reporter == r && clients == KeyedClients(q) && timing == (dns == TimingDns(q))
  {
    hide KeyedClients, TimingDns;
  }

  lemma InstallsBindNothing(q: Request, enable: bool, s: Step)
    requires s.BindSource? || s.ApplyReceivers?
    ensures s !in InstallSteps(KA9Q_RADIO, enable) && s !in Optional(q, enable)
    ensures s !in FlatMap(q.profile.infra, InstallUnskipped(q, enable))
  {
  }

  /** On a host without a radiod each remote receiver is bound, for the clients
      that take a reporter, and marked for timing when it is the one. */
  lemma BindsAre(q: Request, dns: string, r: string, clients: seq<string>, timing: bool)
    ensures BindSource(dns, r, clients, timing) in PlanOf(q) <==>
      && !q.localRadiod && !q.receiversDeclared && clients == KeyedClients(q) && timing == (dns == TimingDns(q))
      && exists e :: e in q.remotes && e.dns == dns && e.reporter == r
  {
    var bind := BindSource(dns, r, clients, timing);
    SetupHas(q, bind);
    BindsAreNoClients(q, bind);
    RadiodStageHas(q, bind);
    forall e ensures bind in BindEach(q)(e) <==>
      e.dns == dns && e.reporter == r && clients == KeyedClients(q) && timing == (dns == TimingDns(q)) {
      BindEachIs(q, e, dns, r, clients, timing);
    }
    hide PlanOf, RadiodStage, FlatMap, InstallUnskipped, Optional, InstallSteps, BindEach, KeyedClients,
      Renders, Pairs, SpotSteps, IndependentSteps, TimingStage, TimingDns, ConfigureStep;
  }

  lemma BindsAreNoClients(q: Request, s: Step)
    requires s.BindSource? || s.ApplyReceivers?
    ensures forall c :: s !in SpotSteps(q, c) && s !in IndependentSteps(q, c)
    ensures s !in TimingStage(q)
    ensures forall e :: s !in Optional(q, e) && s !in FlatMap(q.profile.infra, InstallUnskipped(q, e))
    ensures s !in InstallSteps(KA9Q_RADIO, true)
  {
    assert IsSetup(s) && ClientOf(s) == None;
    hide *;
    forall c ensures s !in SpotSteps(q, c) && s !in IndependentSteps(q, c) && s !in TimingStage(q) {
      OwnSteps(q, c, s);
    }
    forall e ensures s !in Optional(q, e) && s !in FlatMap(q.profile.infra, InstallUnskipped(q, e)) {
      InstallsBindNothing(q, e, s);
    }
    InstallsBindNothing(q, true, s);
  }

  /** Declared receivers are applied in one step, on any host but one that waits
      for its SDR; the step names the clients that take a reporter. */
  lemma AppliesAre(q: Request, named: multiset<string>)
    ensures ApplyReceivers(named) in PlanOf(q) <==>
      !(q.localRadiod && q.sdrAbsent) && q.receiversDeclared && named == multiset(KeyedClients(q))
  {
    var apply := ApplyReceivers(named);
    SetupHas(q, apply);
    BindsAreNoClients(q, apply);
    RadiodStageHas(q, apply);
    BindsOnly(q, apply);
    hide PlanOf, RadiodStage, FlatMap, InstallUnskipped, Optional, InstallSteps, BindEach, KeyedClients,
      Renders, Pairs, SpotSteps, IndependentSteps, TimingStage, ConfigureStep;
  }

  // ---- the radiod that gives the time ----

  /** The remote receivers are all of one radiod, by its name in lower case. */
  ghost predicate OneRadiod(q: Request) {
    q.remotes != [] && forall e :: e in q.remotes ==> q.lower(e.dns) == q.lower(q.remotes[0].dns)
  }

  ghost predicate IsNamed(q: Request) {
    exists e :: e in q.remotes && q.lower(e.dns) == q.lower(q.timingRadiod)
  }

  lemma PoolStep(rs: seq<Receiver>, lower: string -> string)
    requires rs != []
    ensures var before, x := TimingPool(rs[..|rs| - 1], lower), rs[|rs| - 1].dns;
      TimingPool(rs, lower) == if exists d :: d in before && lower(d) == lower(x) then before else before + [x]
  {
  }

  lemma {:induction false} PoolCovers(rs: seq<Receiver>, lower: string -> string, e: Receiver) returns (d: string)
    requires e in rs
    ensures d in TimingPool(rs, lower) && lower(d) == lower(e.dns)
  {
    var n := |rs| - 1;
    PoolStep(rs, lower);
    assert rs == rs[..n] + [rs[n]];
    if e in rs[..n] {
      d := PoolCovers(rs[..n], lower, e);
    } else if x :| x in TimingPool(rs[..n], lower) && lower(x) == lower(e.dns) {
      d := x;
    } else {
      d := e.dns;
    }
  }

  lemma {:induction false} PoolIsFrom(rs: seq<Receiver>, lower: string -> string, d: string) returns (e: Receiver)
    requires d in TimingPool(rs, lower)
    ensures e in rs && e.dns == d
  {
    var n := |rs| - 1;
    PoolStep(rs, lower);
    e := rs[n];
    if d in TimingPool(rs[..n], lower) {
      e := PoolIsFrom(rs[..n], lower, d);
    }
  }

  lemma {:induction false} PoolIsApart(rs: seq<Receiver>, lower: string -> string, i: nat, j: nat)
    requires i < j < |TimingPool(rs, lower)|
    ensures lower(TimingPool(rs, lower)[i]) != lower(TimingPool(rs, lower)[j])
  {
    var before := TimingPool(rs[..|rs| - 1], lower);
    PoolStep(rs, lower);
    if j < |before| {
      PoolIsApart(rs[..|rs| - 1], lower, i, j);
    } else {
      assert before[i] in before;
    }
  }

  lemma {:induction false} PoolStarts(rs: seq<Receiver>, lower: string -> string)
    requires rs != []
    ensures TimingPool(rs, lower) != [] && TimingPool(rs, lower)[0] == rs[0].dns
  {
    PoolStep(rs, lower);
    if |rs| > 1 {
      PoolStarts(rs[..|rs| - 1], lower);
    }
  }

  lemma {:induction false} NamedInIs(pool: seq<string>, wanted: string, lower: string -> string)
    ensures (exists d :: d in pool && lower(d) == lower(wanted)) ==>
      NamedIn(pool, wanted, lower) in pool && lower(NamedIn(pool, wanted, lower)) == lower(wanted)
    ensures (forall d :: d in pool ==> lower(d) != lower(wanted)) ==> NamedIn(pool, wanted, lower) == ""
  {
    if pool == [] {
    } else {
      NamedInIs(pool[1..], wanted, lower);
      assert pool == [pool[0]] + pool[1..];
    }
  }

  /** Which radiod gives a host without one the time: the only one there is, or
      else the one that the request names, both compared in lower case, or none. */
  lemma TimingDnsIs(q: Request)
    requires !q.localRadiod
    ensures OneRadiod(q) ==> TimingDns(q) == q.remotes[0].dns
    ensures !OneRadiod(q) && IsNamed(q) ==>
      q.lower(TimingDns(q)) == q.lower(q.timingRadiod) && exists e :: e in q.remotes && e.dns == TimingDns(q)
    ensures !OneRadiod(q) && !IsNamed(q) ==> TimingDns(q) == ""
  {
    var pool := TimingPool(q.remotes, q.lower);
    NamedInIs(pool, q.timingRadiod, q.lower);
    PoolSize(q);
    assert OneRadiod(q) ==> q.remotes != [];
    hide TimingPool, NamedIn, OneRadiod;
    if e :| e in q.remotes && q.lower(e.dns) == q.lower(q.timingRadiod) {
      var d := PoolCovers(q.remotes, q.lower, e);
      var f := PoolIsFrom(q.remotes, q.lower, NamedIn(pool, q.timingRadiod, q.lower));
    } else {
      forall d | d in pool ensures q.lower(d) != q.lower(q.timingRadiod) {
        var f := PoolIsFrom(q.remotes, q.lower, d);
      }
    }
  }

  lemma PoolSize(q: Request)
    ensures var pool := TimingPool(q.remotes, q.lower);
      && (|pool| == 1 <==> OneRadiod(q))
      && (q.remotes != [] ==> pool != [] && pool[0] == q.remotes[0].dns)
  {
    var pool := TimingPool(q.remotes, q.lower);
    if q.remotes != [] {
      PoolStarts(q.remotes, q.lower);
      if OneRadiod(q) && |pool| > 1 {
        var e := PoolIsFrom(q.remotes, q.lower, pool[1]);
        PoolIsApart(q.remotes, q.lower, 0, 1);
        assert false;
      }
      if |pool| == 1 {
        forall e | e in q.remotes ensures q.lower(e.dns) == q.lower(q.remotes[0].dns) {
          var d := PoolCovers(q.remotes, q.lower, e);
        }
      }
    }
    hide TimingPool;
  }

  /** The timing authority stays idle on a host with several remote radiods and
      none named for it. */
  lemma TimingIdleIs(q: Request)
    requires forall e :: e in q.remotes ==> e.dns != ""
    ensures TimingIdle(q) <==> !q.localRadiod && q.remotes != [] && !OneRadiod(q) && !IsNamed(q)
  {
    if !q.localRadiod && q.remotes != [] {
      TimingDnsIs(q);
      assert q.remotes[0] in q.remotes;
    }
    hide TimingDns, IsNamed;
  }

  // ---- when receivers are rendered, and what is started by itself ----

  /** Some receiver or reporter of the request stands for an instance. */
  predicate HasEntries(q: Request) {
    || (q.remotes != [] && (!q.localRadiod || q.receiversDeclared))
    || ((q.localRadiod || q.remotes == [])
        && (|q.localReceivers| >= 2 || (q.reporter != "" && (q.localReceivers != [] || !q.receiversDeclared))))
  }

  lemma EntriesAre(q: Request)
    ensures PlannedInstances(q) != [] <==> HasEntries(q)
  {
  }

  /** Receivers are rendered where there are remote ones to listen to, or
      declared ones that stand for instances, and not while waiting for the SDR. */
  lemma RendersWhen(q: Request)
    ensures Renders(q) <==>
      && !(q.sdrAbsent && q.localRadiod)
      && ((q.remotes != [] && (!q.localRadiod || q.receiversDeclared)) || (q.receiversDeclared && HasEntries(q)))
  {
    EntriesAre(q);
    hide PlannedInstances;
  }

  /** A client that needs radiod is started by itself, staggered, when it is set
      up and is not started instance by instance. */
  lemma StaggeredStartsAre(q: Request, c: string)
    ensures Start([c], true) in PlanOf(q) <==>
      && IsSetUp(q, c) && c !in {"mag-recorder", "station-web", "hamsci-physics", "gmag-webui"}
      && !(q.sdrAbsent && q.localRadiod)
      && !(HasEntries(q) && c in {"wspr-recorder", "psk-recorder", "meteor-scatter"})
  {
    hide *;
    PlanHas(q, Start([c], true));
    OthersStartTogether(q, c);
    BoundStartIs(q, c);
  }

  lemma OthersStartTogether(q: Request, c: string)
    ensures var s := Start([c], true);
      && s !in RadiodStage(q) && s !in TimingStage(q) && s !in RenderStage(q) && s !in BeforeStarts(q)
      && s !in RadiodStart(q) && s !in LastStart(q) && s !in Finish(q)
      && s !in FlatMap(q.profile.clients, SpotMap(q)) && s !in FlatMap(q.profile.clients, IndependentMap(q))
  {
    var s := Start([c], true);
    BringupStarts.BeforeRenderSiteIsEarly(q);
    assert !BringupStarts.IsEarlyStep(s);
    RestStartsTogether(q, c);
    var early := BringupStarts.BeforeRenderSite(q);
    assert s !in early by {
      hide PlanOf, RadiodStage, TimingStage, RenderStage, FlatMap, BringupStarts.IsEarlyStep;
    }
    BringupStarts.BeforeRenderSiteIs(q);
    BeforeCheckIs(q);
    hide *;
    assert s !in BeforeCheck(q);
  }

  lemma RestStartsTogether(q: Request, c: string)
    ensures var s := Start([c], true);
      s !in BeforeStarts(q) && s !in RadiodStart(q) && s !in LastStart(q) && s !in Finish(q)
  {
    hide Setup, Startable, RadiodStack;
  }

  lemma BoundStartIs(q: Request, c: string)
    ensures Start([c], true) in FlatMap(q.profile.clients, BoundStartMap(q)) <==>
      && IsSetUp(q, c) && c !in {"mag-recorder", "station-web", "hamsci-physics", "gmag-webui"}
      && !(q.sdrAbsent && q.localRadiod)
      && !(HasEntries(q) && c in {"wspr-recorder", "psk-recorder", "meteor-scatter"})
  {
    var s := Start([c], true);
    forall d ensures s in BoundStartMap(q)(d) <==>
      d == c && IsRadiodBound(q, c) && !Deferring(q) && !(PlannedInstances(q) != [] && IsReporterKeyed(c)) {
      EachStartIs(q, c, d);
    }
    EntriesAre(q);
    IndependentAre(c);
    KeyedAre(c);
    hide FlatMap, BoundStartMap, PlannedInstances, IsReporterKeyed, IsIndependent, TimingIdle, HasEntries;
  }

  lemma EachStartIs(q: Request, c: string, d: string)
    ensures Start([c], true) in BoundStartMap(q)(d) <==>
      d == c && IsRadiodBound(q, c) && !Deferring(q) && !(PlannedInstances(q) != [] && IsReporterKeyed(c))
  {
    var rs := FlatMap(ReportersFor(q, d), StartEach(d));
    assert forall s :: s in rs ==> s.StartInstance?;
    assert Start([d], true) == Start([c], true) <==> c == d by {
      assert [c] == [d] <==> [c][0] == [d][0];
    }
    hide FlatMap, ReportersFor, PlannedInstances, IsReporterKeyed, IsIndependent, TimingIdle;
  }

  // ---- the steps that are there once ----

  /** Steps that stand for nothing but themselves. */
  predicate IsSingle(s: Step) {
    || s.ProvisionSink? || s.RecoverSdr? || s.Tune? || s.Wisdom? || s.InstallWebUnit? || s.RenderSources?
    || s.WatermarkDir? || s.RenderSite? || s.HoldUploads? || s.WriteManifest? || s.Migrate? || s.WaitWisdom?
    || s.WaitStreaming? || s.StartAll? || s.ResetUploader? || s.RestartUploader? || s.ReserveCores?
  }

  lemma OwnStepsAreNotSingle(q: Request, c: string, s: Step)
    requires IsSingle(s)
    ensures forall enable :: s !in InstallSteps(c, enable)
    ensures s !in ConfigureSteps(q, c) && s != Start([c], false) && s != Note && s != ConfigureStep(q, c)
    ensures s !in FlatMap(ReportersFor(q, c), InstanceSteps(q, c))
  {
    InstanceStepsInstallNothing(q, c);
    hide ReportersFor, FlatMap;
  }

  lemma ClientsHaveNoSingle(q: Request, s: Step)
    requires IsSingle(s)
    ensures s !in TimingStage(q) && s !in FlatMap(q.profile.clients, SpotMap(q))
    ensures s !in FlatMap(q.profile.clients, IndependentMap(q)) && s !in FlatMap(q.profile.clients, BoundStartMap(q))
  {
    forall c ensures s !in SpotMap(q)(c) && s !in IndependentMap(q)(c) && s !in BoundStartMap(q)(c) {
      ClientHasNoSingle(q, c, s);
    }
    OwnStepsAreNotSingle(q, TIMING_AUTHORITY, s);
    hide SpotMap, IndependentMap, BoundStartMap, TimingIdle, InstallSteps, ConfigureSteps;
  }

  lemma ClientHasNoSingle(q: Request, c: string, s: Step)
    requires IsSingle(s)
    ensures s !in SpotMap(q)(c) && s !in IndependentMap(q)(c) && s !in BoundStartMap(q)(c)
  {
    OwnStepsAreNotSingle(q, c, s);
    if s in BoundStartMap(q)(c) {
      BringupStarts.BoundStepsAre(q, c, s);
      assert false;
    }
    hide FlatMap, ReportersFor, IsReporterKeyed, IsIndependent, InstallSteps, ConfigureSteps, BoundStartMap;
  }

  lemma InstallsHaveNoSingle(q: Request, s: Step, enable: bool)
    requires IsSingle(s)
    ensures s !in FlatMap(q.profile.infra, InstallUnskipped(q, enable)) && s !in Optional(q, enable)
    ensures s !in InstallSteps(KA9Q_RADIO, enable) && s !in FlatMap(RemoteEntries(q), BindEach(q))
    ensures s != ConfigureStep(q, "radiod")
  {
    BindsOnly(q, s);
    hide RemoteEntries, BindEach, KeyedClients;
  }

  /** A step that stands for itself, in the parts of a plan that may hold it. */
  predicate Belongs(q: Request, s: Step) {
    match s
    case Tune => !(q.sdrAbsent && q.localRadiod)
    case StartAll => !(q.sdrAbsent && q.localRadiod)
    case RenderSources => Renders(q)
    case HoldUploads => q.holdUploads
    case InstallWebUnit => q.localRadiod && !q.sdrAbsent && "ka9q-web" in q.profile.infra && "ka9q-web" !in q.skip
    case RecoverSdr => q.localRadiod && !q.sdrAbsent
    case Wisdom => q.localRadiod && !q.sdrAbsent
    case WaitWisdom => q.localRadiod && !q.sdrAbsent
    case WaitStreaming => q.localRadiod && !q.sdrAbsent
    case ReserveCores => q.localRadiod && !q.sdrAbsent
    case _ => true
  }

  lemma RadiodStageSingles(q: Request, s: Step)
    requires IsSingle(s)
    ensures s in RadiodStage(q) <==>
      Belongs(q, s) && (s.Tune? || s.RecoverSdr? || s.Wisdom? || s.InstallWebUnit?)
  {
    InstallsHaveNoSingle(q, s, !q.sdrAbsent);
    InstallsHaveNoSingle(q, s, true);
    RadiodStageHas(q, s);
    hide RadiodStage, FlatMap, InstallUnskipped, Optional, InstallSteps, RemoteEntries, BindEach, KeyedClients,
      ConfigureStep, Renders;
  }

  lemma RenderSingles(q: Request, s: Step)
    requires IsSingle(s)
    ensures s in RenderStage(q) <==> Belongs(q, s) && s.RenderSources?
  {
    hide Renders, Pairs;
  }

  lemma StartSingles(q: Request, s: Step)
    requires IsSingle(s)
    ensures s in BeforeStarts(q) <==>
      Belongs(q, s) && (s.RenderSite? || s.HoldUploads? || s.WriteManifest? || s.Migrate?)
    ensures s in RadiodStart(q) <==> Belongs(q, s) && (s.WaitWisdom? || s.WaitStreaming?)
  {
    hide Renders, RadiodStack;
  }

  lemma LastSingles(q: Request, s: Step)
    requires IsSingle(s)
    ensures s in LastStart(q) <==> Belongs(q, s) && s.StartAll?
    ensures s in Finish(q) <==> Belongs(q, s) && (s.ResetUploader? || s.RestartUploader? || s.ReserveCores?)
  {
    hide Renders, Setup, Startable;
  }

  /** When a plan holds each of these: most of them always; some on a host that
      does not wait for its SDR, some where that host has a radiod of its own, the
      rendering of receivers where there are any to render, and the hold on
      uploads where it is asked for. */
  lemma SingleStepsAre(q: Request, s: Step)
    requires IsSingle(s)
    ensures s in PlanOf(q) <==> Belongs(q, s)
  {
    PlanHas(q, s);
    ClientsHaveNoSingle(q, s);
    RadiodStageSingles(q, s);
    RenderSingles(q, s);
    StartSingles(q, s);
    LastSingles(q, s);
    hide PlanOf, RadiodStage, FlatMap, TimingStage, RenderStage, Renders, BeforeStarts, RadiodStart, LastStart, Finish;
  }

  /** What starts with radiod: it, and the infrastructure that is not skipped. */
  lemma RadiodStackIs(q: Request, c: string)
    ensures c in RadiodStack(q) <==> c == "ka9q-radio" || (c in q.profile.infra && c !in q.skip)
  {
  }
}
