/** The bring-up plan (lib/sigmond/bringup.py): a station profile becomes an
    ordered list of steps. A step is what its command does. */
module Bringup {
  import opened Lists
  import opened Text

  datatype Profile = Profile(clients: seq<string>, infra: seq<string>, optional: seq<string>)

  /** A radiod and the reporter that listens to it; `clients` None means all. */
  datatype Receiver = Receiver(dns: string, reporter: string, clients: Option<seq<string>>)

  /** `lower` is `str.lower`; `key` is a reporter id in storage form. */
  datatype Request = Request(
    profile: Profile, localRadiod: bool, remotes: seq<Receiver>, timingRadiod: string, withOptional: bool,
    interactive: bool, skip: set<string>, dormant: set<string>, noConfig: set<string>, reporter: string,
    sdrAbsent: bool, holdUploads: bool, receiversDeclared: bool, localReceivers: seq<Receiver>,
    localOnly: seq<string>, lower: string -> string, key: string -> string)

  type Pair = (string, string)  // a client and a reporter

  datatype Check = RadiodInstalled | RadiodConfigured | Configured(client: string) | InstancesBound(pairs: seq<Pair>)
      | FinalValidate

  datatype Step =
    | ProvisionSink
    | Note
    | Enable(comp: string)
    | Install(comp: string, enabled: bool)
    | Configure(client: string, interactive: bool)
    | Checkpoint(check: Check, hard: bool)
    | RecoverSdr
    | Tune
    | Wisdom
    | ApplyReceivers(named: multiset<string>)
    | InstallWebUnit
    | BindSource(dns: string, reporter: string, clients: seq<string>, timing: bool)
    | AddInstance(client: string, reporter: string)
    | Upload(client: string, reporter: string, on: bool)
    | RenderSources
    | WatermarkDir
    | RenderSite
    | HoldUploads
    | WriteManifest
    | Migrate
    | WaitWisdom
    | WaitStreaming
    | Start(comps: seq<string>, staggered: bool)
    | StartInstance(client: string, reporter: string)
    | StartAll
    | ResetUploader
    | RestartUploader
    | ReserveCores

  // ---- roles ----

  const KA9Q_RADIO := "ka9q-radio"
  const KA9Q_WEB := "ka9q-web"
  const TIMING_AUTHORITY := "hf-timestd"

  predicate IsIndependent(c: string) {
    c in {"mag-recorder", "station-web", "hamsci-physics", "gmag-webui"}
  }

  predicate IsReporterKeyed(c: string) {
    c in {"wspr-recorder", "psk-recorder", "meteor-scatter"}
  }

  lemma RolesAreDisjoint(c: string)
    ensures IsReporterKeyed(c) ==> !IsIndependent(c) && c != TIMING_AUTHORITY
    ensures !IsIndependent(TIMING_AUTHORITY)
  {
    assert IsReporterKeyed(c) ==> |c| > 2 && c[0] in {'w', 'p', 'm'} && c[1] in {'s', 'e'};
    assert IsIndependent(c) ==> |c| > 2 && (c[0] in {'s', 'h', 'g'} || c[1] == 'a');
  }

  // ---- what the request says ----

  predicate Deferring(q: Request) {
    q.sdrAbsent && q.localRadiod
  }

  function RemoteEntries(q: Request): seq<Receiver> {
    if !q.localRadiod || q.receiversDeclared then q.remotes else []
  }

  datatype Instance = Instance(reporter: string, clients: Option<seq<string>>)

  function ToInstances(rs: seq<Receiver>): seq<Instance> {
    seq(|rs|, i requires 0 <= i < |rs| => Instance(rs[i].reporter, rs[i].clients))
  }

  /** The clients of the declared receiver with that reporter. */
  function ClientsOf(rs: seq<Receiver>, reporter: string, key: string -> string): Option<seq<string>> {
    if rs == [] then None
    else if key(rs[0].reporter) == key(reporter) then rs[0].clients
    else ClientsOf(rs[1..], reporter, key)
  }

  function PlannedInstances(q: Request): seq<Instance> {
    if RemoteEntries(q) != [] && !q.localRadiod then ToInstances(RemoteEntries(q))
    else
      (if |q.localReceivers| >= 2 then ToInstances(q.localReceivers)
       else if q.reporter != "" && (q.localReceivers != [] || !q.receiversDeclared)
       then [Instance(q.reporter, ClientsOf(q.localReceivers, q.reporter, q.key))]
       else [])
      + ToInstances(RemoteEntries(q))
  }

  function ReportersIn(instances: seq<Instance>, client: string): seq<string> {
    if instances == [] then []
    else
      (if instances[0].clients.None? || client in instances[0].clients.value then [instances[0].reporter] else [])
      + ReportersIn(instances[1..], client)
  }

  function ReportersFor(q: Request, client: string): seq<string> {
    ReportersIn(PlannedInstances(q), client)
  }

  predicate IsLocalOnly(q: Request, reporter: string) {
    exists r :: r in q.localOnly && q.key(r) == q.key(reporter)
  }

  /** One radiod name for each, spelled as it first is. */
  function TimingPool(rs: seq<Receiver>, lower: string -> string): seq<string> {
    if rs == [] then []
    else
      var n := |rs| - 1;
      var before := TimingPool(rs[..n], lower);
      if exists d :: d in before && lower(d) == lower(rs[n].dns) then before else before + [rs[n].dns]
  }

  function NamedIn(pool: seq<string>, wanted: string, lower: string -> string): string {
    if pool == [] then "" else if lower(pool[0]) == lower(wanted) then pool[0] else NamedIn(pool[1..], wanted, lower)
  }

  function TimingDns(q: Request): string {
    var pool := TimingPool(if q.localRadiod then [] else RemoteEntries(q), q.lower);
    if |pool| == 1 then pool[0] else NamedIn(pool, q.timingRadiod, q.lower)
  }

  predicate TimingIdle(q: Request) {
    !q.localRadiod && RemoteEntries(q) != [] && TimingDns(q) == ""
  }

  // ---- the plan ----

  function FlatMap<A(!new), B(!new)>(s: seq<A>, f: A -> seq<B>): (r: seq<B>)
    ensures forall y :: y in r <==> exists x :: x in s && y in f(x)
  {
    if s == [] then []
    else
      var n := |s| - 1;
      assert s == s[..n] + [s[n]];
      FlatMap(s[..n], f) + f(s[n])
  }

  function InstallSteps(comp: string, enable: bool): seq<Step> {
    if enable then [Enable(comp), Install(comp, true)] else [Install(comp, false)]
  }

  function InstallEach(enable: bool): string -> seq<Step> {
    (comp: string) => InstallSteps(comp, enable)
  }

  function InstallUnskipped(q: Request, enable: bool): string -> seq<Step> {
    (comp: string) => if comp in q.skip then [] else InstallSteps(comp, enable)
  }

  function ConfigureStep(q: Request, client: string): (s: Step)
    ensures s.Configure? && s.client == client
  {
    Configure(client, q.interactive && client == "radiod")
  }

  function ConfigureSteps(q: Request, client: string): seq<Step> {
    if client in q.noConfig then []
    else [ConfigureStep(q, client), Checkpoint(Configured(client), client !in q.dormant)]
  }

  function Optional(q: Request, enable: bool): seq<Step> {
    if q.withOptional then FlatMap(q.profile.optional, InstallEach(enable)) else []
  }

  /** The reporter-keyed clients that are not skipped. */
  function KeyedClients(q: Request): seq<string> {
    Filter(q.profile.clients, (c: string) => IsReporterKeyed(c) && c !in q.skip)
  }

  function BindEach(q: Request): Receiver -> seq<Step> {
    (r: Receiver) => [BindSource(r.dns, r.reporter, KeyedClients(q), r.dns == TimingDns(q))]
  }

  function RadiodStage(q: Request): seq<Step> {
    if Deferring(q) then
      [Note] + FlatMap(q.profile.infra, InstallUnskipped(q, false)) + [Install(KA9Q_RADIO, false)] + Optional(q, false)
    else if q.localRadiod then
      FlatMap(q.profile.infra, InstallUnskipped(q, true)) + InstallSteps(KA9Q_RADIO, true)
      + [Checkpoint(RadiodInstalled, true)] + Optional(q, true)
      + [RecoverSdr] + [ConfigureStep(q, "radiod")] + [Tune] + [Wisdom] + [Checkpoint(RadiodConfigured, true)]
      + (if q.receiversDeclared then [ApplyReceivers(multiset(KeyedClients(q)))] else [])
      + (if KA9Q_WEB in q.profile.infra && KA9Q_WEB !in q.skip then [InstallWebUnit] else [])
    else
      [Note] + [Tune]
      + (if q.receiversDeclared then [ApplyReceivers(multiset(KeyedClients(q)))]
         else FlatMap(RemoteEntries(q), BindEach(q)))
  }

  function TimingStage(q: Request): seq<Step> {
    if TIMING_AUTHORITY !in q.profile.clients || TIMING_AUTHORITY in q.skip then []
    else if TimingIdle(q) then [Install(TIMING_AUTHORITY, false), Note]
    else InstallSteps(TIMING_AUTHORITY, !Deferring(q))
         + if Deferring(q) then [] else ConfigureSteps(q, TIMING_AUTHORITY)
  }

  function InstanceSteps(q: Request, client: string): string -> seq<Step> {
    (r: string) => [AddInstance(client, r), Upload(client, r, !IsLocalOnly(q, r))]
  }

  /** A client that waits for radiod, in Stage 3a. */
  predicate IsSpotClient(q: Request, c: string) {
    c != TIMING_AUTHORITY && !IsIndependent(c) && c !in q.skip
  }

  function SpotSteps(q: Request, c: string): seq<Step> {
    if !IsSpotClient(q, c) then []
    else if Deferring(q) then InstallSteps(c, false)
    else
      InstallSteps(c, true) + ConfigureSteps(q, c)
      + if IsReporterKeyed(c) then FlatMap(ReportersFor(q, c), InstanceSteps(q, c)) else []
  }

  function SpotMap(q: Request): string -> seq<Step> {
    (c: string) => SpotSteps(q, c)
  }

  function PairWith(client: string): string -> seq<Pair> {
    (r: string) => [(client, r)]
  }

  function PairsFor(q: Request): string -> seq<Pair> {
    (c: string) => if IsReporterKeyed(c) && c !in q.skip then FlatMap(ReportersFor(q, c), PairWith(c)) else []
  }

  /** Each reporter-keyed client with each of its reporters. */
  function Pairs(q: Request): seq<Pair> {
    FlatMap(q.profile.clients, PairsFor(q))
  }

  predicate Renders(q: Request) {
    && !Deferring(q)
    && (RemoteEntries(q) != [] || (q.receiversDeclared && PlannedInstances(q) != []))
  }

  function RenderStage(q: Request): seq<Step> {
    if !Renders(q) then []
    else [RenderSources] + if Pairs(q) != [] then [Checkpoint(InstancesBound(Pairs(q)), true)] else []
  }

  function IndependentSteps(q: Request, c: string): seq<Step> {
    if !IsIndependent(c) || c in q.skip then []
    else InstallSteps(c, true) + ConfigureSteps(q, c) + [Start([c], false)]
  }

  function IndependentMap(q: Request): string -> seq<Step> {
    (c: string) => IndependentSteps(q, c)
  }

  function BeforeStarts(q: Request): seq<Step> {
    [RenderSite] + (if q.holdUploads then [HoldUploads] else []) + [WriteManifest, Migrate]
  }

  /** Everything up to the starts of Stage 4. */
  function Setup(q: Request): seq<Step> {
    [ProvisionSink] + RadiodStage(q) + TimingStage(q) + FlatMap(q.profile.clients, SpotMap(q)) + RenderStage(q)
    + [WatermarkDir] + FlatMap(q.profile.clients, IndependentMap(q)) + BeforeStarts(q)
  }

  function RadiodStack(q: Request): seq<string> {
    [KA9Q_RADIO] + Filter(q.profile.infra, (i: string) => i !in q.skip)
  }

  function RadiodStart(q: Request): seq<Step> {
    if q.localRadiod && !Deferring(q) then [WaitWisdom] + [Start(RadiodStack(q), false)] + [WaitStreaming] else []
  }

  predicate IsRadiodBound(q: Request, c: string) {
    c !in q.skip && !IsIndependent(c) && !(TimingIdle(q) && c == TIMING_AUTHORITY)
  }

  function StartEach(client: string): string -> seq<Step> {
    (r: string) => [StartInstance(client, r)]
  }

  function BoundStartSteps(q: Request, c: string): seq<Step> {
    if !IsRadiodBound(q, c) || Deferring(q) then []
    else if PlannedInstances(q) != [] && IsReporterKeyed(c) then FlatMap(ReportersFor(q, c), StartEach(c))
    else [Start([c], true)]
  }

  function BoundStartMap(q: Request): string -> seq<Step> {
    (c: string) => BoundStartSteps(q, c)
  }

  /** The components that steps enable, in order. */
  function Activated(steps: seq<Step>): seq<string> {
    if steps == [] then []
    else
      var n := |steps| - 1;
      Activated(steps[..n]) + if steps[n].Enable? then [steps[n].comp] else []
  }

  /** The components that steps install without enabling. */
  function Deferred(steps: seq<Step>): seq<string> {
    if steps == [] then []
    else
      var n := |steps| - 1;
      Deferred(steps[..n]) + if steps[n].Install? && !steps[n].enabled then [steps[n].comp] else []
  }

  function LastStart(q: Request): seq<Step> {
    if !Deferring(q) then [StartAll]
    else
      var startable := Startable(Activated(Setup(q)), Deferred(Setup(q)));
      if startable == [] then [] else [Start(startable, false)]
  }

  function Startable(activated: seq<string>, deferred: seq<string>): seq<string> {
    Filter(activated, (c: string) => c !in deferred)
  }

  function Finish(q: Request): seq<Step> {
    [ResetUploader, RestartUploader]
    + (if q.localRadiod && !Deferring(q) then [ReserveCores] else [])
    + [Checkpoint(FinalValidate, false)]
    + (if Deferring(q) then [Note] else [])
  }

  function PlanOf(q: Request): seq<Step> {
    Setup(q) + RadiodStart(q) + FlatMap(q.profile.clients, BoundStartMap(q)) + LastStart(q) + Finish(q)
  }

  // ---- building it ----

  lemma FlatMapStep<A(!new), B(!new)>(s: seq<A>, i: nat, f: A -> seq<B>)
    requires i < |s|
    ensures FlatMap(s[..i + 1], f) == FlatMap(s[..i], f) + f(s[i])
  {
    assert s[..i + 1][..i] == s[..i];
  }

  lemma FlatMapStart<A(!new), B(!new)>(s: seq<A>, f: A -> seq<B>)
    ensures FlatMap(s[..0], f) == [] && FlatMap(s[..|s|], f) == FlatMap(s, f)
  {
    assert s[..|s|] == s;
  }

  lemma AddedOne(steps: seq<Step>, s: Step)
    ensures Activated(steps + [s]) == Activated(steps) + if s.Enable? then [s.comp] else []
    ensures Deferred(steps + [s]) == Deferred(steps) + if s.Install? && !s.enabled then [s.comp] else []
  {
    assert (steps + [s])[..|steps|] == steps;
  }

  class PlanBuilder {
    var steps: seq<Step>
    var activated: seq<string>
    var deferred: seq<string>

    ghost predicate Valid()
      reads this
    {
      activated == Activated(steps) && deferred == Deferred(steps)
    }

    constructor ()
      ensures Valid() && steps == []
    {
      steps, activated, deferred := [], [], [];
    }

    method Add(s: Step)
      requires Valid() && !s.Enable? && !s.Install?
      modifies this
      ensures Valid() && steps == old(steps) + [s]
    {
      AddedOne(steps, s);
      Nothing(activated);
      Nothing(deferred);
      steps := steps + [s];
    }

    method AddInstall(comp: string, enable: bool)
      requires Valid()
      modifies this
      ensures Valid() && steps == old(steps) + InstallSteps(comp, enable)
    {
      Nothing(activated);
      Nothing(deferred);
      if !enable {
        deferred := deferred + [comp];
        AddedOne(steps, Install(comp, false));
        steps := steps + [Install(comp, false)];
        return;
      }
      activated := activated + [comp];
      AddedOne(steps, Enable(comp));
      AddedOne(steps + [Enable(comp)], Install(comp, true));
      Nothing(activated);
      steps := steps + [Enable(comp)];
      steps := steps + [Install(comp, true)];
    }

    method AddConfigure(q: Request, client: string)
      requires Valid()
      modifies this
      ensures Valid() && steps == old(steps) + ConfigureSteps(q, client)
    {
      if client !in q.noConfig {
        Add(ConfigureStep(q, client));
        Add(Checkpoint(Configured(client), client !in q.dormant));
      }
    }

    method AddInfra(q: Request, enable: bool)
      requires Valid()
      modifies this
      ensures Valid() && steps == old(steps) + FlatMap(q.profile.infra, InstallUnskipped(q, enable))
    {
      hide FlatMap, InstallUnskipped, InstallSteps, Activated, Deferred;
      var infra, f := q.profile.infra, InstallUnskipped(q, enable);
      FlatMapStart(infra, f);
      Nothing(steps);
      for i := 0 to |infra|
        invariant Valid() && steps == old(steps) + FlatMap(infra[..i], f)
      {
        FlatMapStep(infra, i, f);
        Grouped(old(steps), FlatMap(infra[..i], f), f(infra[i]));
        UnskippedIs(steps, q, infra[i], enable);
        if infra[i] in q.skip {
          continue;
        }
        AddInstall(infra[i], enable);
      }
    }

    method AddOptional(q: Request, enable: bool)
      requires Valid()
      modifies this
      ensures Valid() && steps == old(steps) + Optional(q, enable)
    {
      Nothing(steps);
      if !q.withOptional {
        return;
      }
      hide FlatMap, InstallEach, InstallSteps, Activated, Deferred;
      var opts, f := q.profile.optional, InstallEach(enable);
      FlatMapStart(opts, f);
      for i := 0 to |opts|
        invariant Valid() && steps == old(steps) + FlatMap(opts[..i], f)
      {
        FlatMapStep(opts, i, f);
        Grouped(old(steps), FlatMap(opts[..i], f), f(opts[i]));
        InstallEachIs(opts[i], enable);
        AddInstall(opts[i], enable);
      }
    }

    method AddBinds(q: Request)
      requires Valid()
      modifies this
      ensures Valid() && steps == old(steps) + FlatMap(RemoteEntries(q), BindEach(q))
    {
      hide FlatMap, BindEach, Activated, Deferred, KeyedClients, TimingDns;
      var rs, f := RemoteEntries(q), BindEach(q);
      FlatMapStart(rs, f);
      Nothing(steps);
      for i := 0 to |rs|
        invariant Valid() && steps == old(steps) + FlatMap(rs[..i], f)
      {
        FlatMapStep(rs, i, f);
        Grouped(old(steps), FlatMap(rs[..i], f), f(rs[i]));
        BindEachIs(q, rs[i]);
        Add(BindSource(rs[i].dns, rs[i].reporter, KeyedClients(q), rs[i].dns == TimingDns(q)));
      }
    }

    method AddRadiodStage(q: Request)
      requires Valid()
      modifies this
      ensures Valid() && steps == old(steps) + RadiodStage(q)
    {
      hide *;
      RadiodStageIs(steps, q);
      if Deferring(q) {
        Add(Note);
        AddInfra(q, false);
        AddInstall(KA9Q_RADIO, false);
        AddOptional(q, false);
      } else if q.localRadiod {
        AddInfra(q, true);
        AddInstall(KA9Q_RADIO, true);
        Add(Checkpoint(RadiodInstalled, true));
        AddOptional(q, true);
        Add(RecoverSdr);
        Add(ConfigureStep(q, "radiod"));
        Add(Tune);
        Add(Wisdom);
        Add(Checkpoint(RadiodConfigured, true));
        if q.receiversDeclared {
          Add(ApplyReceivers(multiset(KeyedClients(q))));
        }
        if KA9Q_WEB in q.profile.infra && KA9Q_WEB !in q.skip {
          Add(InstallWebUnit);
        }
      } else {
        Add(Note);
        Add(Tune);
        if q.receiversDeclared {
          Add(ApplyReceivers(multiset(KeyedClients(q))));
        } else {
          AddBinds(q);
        }
      }
    }

    method AddTimingStage(q: Request)
      requires Valid()
      modifies this
      ensures Valid() && steps == old(steps) + TimingStage(q)
    {
      if TIMING_AUTHORITY in q.profile.clients && TIMING_AUTHORITY !in q.skip && TimingIdle(q) {
        AddInstall(TIMING_AUTHORITY, false);
        Add(Note);
      } else if TIMING_AUTHORITY in q.profile.clients && TIMING_AUTHORITY !in q.skip {
        AddInstall(TIMING_AUTHORITY, !Deferring(q));
        if !Deferring(q) {
          AddConfigure(q, TIMING_AUTHORITY);
        }
      }
    }

    method AddInstances(q: Request, client: string)
      requires Valid()
      modifies this
      ensures Valid() && steps == old(steps) + FlatMap(ReportersFor(q, client), InstanceSteps(q, client))
    {
      hide FlatMap, InstanceSteps, Activated, Deferred, ReportersFor, IsLocalOnly;
      var rs, f := ReportersFor(q, client), InstanceSteps(q, client);
      FlatMapStart(rs, f);
      Nothing(steps);
      for i := 0 to |rs|
        invariant Valid() && steps == old(steps) + FlatMap(rs[..i], f)
      {
        FlatMapStep(rs, i, f);
        Grouped(old(steps), FlatMap(rs[..i], f), f(rs[i]));
        InstanceStepsAre(steps, q, client, rs[i]);
        Add(AddInstance(client, rs[i]));
        if IsLocalOnly(q, rs[i]) {
          Add(Upload(client, rs[i], false));
          continue;
        }
        Add(Upload(client, rs[i], true));
      }
    }

    method AddSpotStage(q: Request)
      requires Valid()
      modifies this
      ensures Valid() && steps == old(steps) + FlatMap(q.profile.clients, SpotMap(q))
    {
      hide *;
      var clients, f := q.profile.clients, SpotMap(q);
      FlatMapStart(clients, f);
      Nothing(steps);
      for i := 0 to |clients|
        invariant Valid() && steps == old(steps) + FlatMap(clients[..i], f)
      {
        var c := clients[i];
        FlatMapStep(clients, i, f);
        Grouped(old(steps), FlatMap(clients[..i], f), f(c));
        SpotStepsAre(steps, q, c);
        if c == TIMING_AUTHORITY || IsIndependent(c) || c in q.skip {
          continue;
        }
        AddInstall(c, !Deferring(q));
        if Deferring(q) {
          continue;
        }
        AddConfigure(q, c);
        if IsReporterKeyed(c) {
          AddInstances(q, c);
        }
      }
    }

    method AddRenderStage(q: Request)
      requires Valid()
      modifies this
      ensures Valid() && steps == old(steps) + RenderStage(q)
    {
      if (RemoteEntries(q) != [] || (q.receiversDeclared && PlannedInstances(q) != [])) && !Deferring(q) {
        Add(RenderSources);
        var pairs := Pairs(q);
        if pairs != [] {
          Add(Checkpoint(InstancesBound(pairs), true));
        }
      }
    }

    method AddIndependentStage(q: Request)
      requires Valid()
      modifies this
      ensures Valid() && steps == old(steps) + FlatMap(q.profile.clients, IndependentMap(q))
    {
      hide *;
      var clients, f := q.profile.clients, IndependentMap(q);
      FlatMapStart(clients, f);
      Nothing(steps);
      for i := 0 to |clients|
        invariant Valid() && steps == old(steps) + FlatMap(clients[..i], f)
      {
        var c := clients[i];
        FlatMapStep(clients, i, f);
        Grouped(old(steps), FlatMap(clients[..i], f), f(c));
        IndependentStepsAre(steps, q, c);
        if IsIndependent(c) && c !in q.skip {
          AddInstall(c, true);
          AddConfigure(q, c);
          Add(Start([c], false));
        }
      }
    }

    method AddBoundStarts(q: Request)
      requires Valid()
      modifies this
      ensures Valid() && steps == old(steps) + FlatMap(q.profile.clients, BoundStartMap(q))
    {
      hide *;
      var clients, f := q.profile.clients, BoundStartMap(q);
      FlatMapStart(clients, f);
      Nothing(steps);
      for i := 0 to |clients|
        invariant Valid() && steps == old(steps) + FlatMap(clients[..i], f)
      {
        var c := clients[i];
        FlatMapStep(clients, i, f);
        Grouped(old(steps), FlatMap(clients[..i], f), f(c));
        BoundStartStepsAre(steps, q, c);
        if !IsRadiodBound(q, c) || Deferring(q) {
          continue;
        }
        if PlannedInstances(q) != [] && IsReporterKeyed(c) {
          AddInstanceStarts(q, c);
        } else {
          Add(Start([c], true));
        }
      }
    }

    method AddInstanceStarts(q: Request, client: string)
      requires Valid()
      modifies this
      ensures Valid() && steps == old(steps) + FlatMap(ReportersFor(q, client), StartEach(client))
    {
      hide *;
      var rs, f := ReportersFor(q, client), StartEach(client);
      FlatMapStart(rs, f);
      Nothing(steps);
      for i := 0 to |rs|
        invariant Valid() && steps == old(steps) + FlatMap(rs[..i], f)
      {
        FlatMapStep(rs, i, f);
        Grouped(old(steps), FlatMap(rs[..i], f), f(rs[i]));
        StartEachIs(client, rs[i]);
        Add(StartInstance(client, rs[i]));
      }
    }

    method AddFinish(q: Request)
      requires Valid()
      modifies this
      ensures Valid() && steps == old(steps) + Finish(q)
    {
      hide *;
      FinishIs(steps, q);
      Add(ResetUploader);
      Add(RestartUploader);
      if q.localRadiod && !Deferring(q) {
        Add(ReserveCores);
      }
      Add(Checkpoint(FinalValidate, false));
      if Deferring(q) {
        Add(Note);
      }
    }

    method AddBeforeStarts(q: Request)
      requires Valid()
      modifies this
      ensures Valid() && steps == old(steps) + BeforeStarts(q)
    {
      hide *;
      BeforeStartsAre(steps, q);
      Add(RenderSite);
      if q.holdUploads {
        Add(HoldUploads);
      }
      Add(WriteManifest);
      Add(Migrate);
    }

    method BuildPlan(q: Request)
      requires Valid() && steps == []
      modifies this
      ensures steps == PlanOf(q)
    {
      hide *;
      SetupIs(q);
      Add(ProvisionSink);
      AddRadiodStage(q);
      AddTimingStage(q);
      AddSpotStage(q);
      AddRenderStage(q);
      Add(WatermarkDir);
      AddIndependentStage(q);
      AddBeforeStarts(q);
      assert steps == Setup(q);
      PlanIs(q);
      if !Deferring(q) && q.localRadiod {
        Add(WaitWisdom);
        Add(Start(RadiodStack(q), false));
        Add(WaitStreaming);
      }
      AddBoundStarts(q);
      if Deferring(q) {
        assert steps == Setup(q);
        BuilderIs();
        var startable := Startable(activated, deferred);
        if startable != [] {
          Add(Start(startable, false));
        }
      } else {
        Add(StartAll);
      }
      AddFinish(q);
    }

    lemma BuilderIs()
      requires Valid()
      ensures activated == Activated(steps) && deferred == Deferred(steps)
    {
    }
  }

  // The stages, as what is added to the steps before them.

  lemma UnskippedIs(was: seq<Step>, q: Request, comp: string, enable: bool)
    ensures was + InstallUnskipped(q, enable)(comp) == if comp in q.skip then was else was + InstallSteps(comp, enable)
  {
    hide InstallSteps;
  }

  lemma InstallEachIs(comp: string, enable: bool)
    ensures InstallEach(enable)(comp) == InstallSteps(comp, enable)
  {
  }

  lemma BindEachIs(q: Request, r: Receiver)
    ensures BindEach(q)(r) == [BindSource(r.dns, r.reporter, KeyedClients(q), r.dns == TimingDns(q))]
  {
  }

  lemma StartEachIs(client: string, r: string)
    ensures StartEach(client)(r) == [StartInstance(client, r)]
  {
  }

  lemma InstanceStepsAre(was: seq<Step>, q: Request, client: string, r: string)
    ensures was + InstanceSteps(q, client)(r)
      == was + [AddInstance(client, r)] + [Upload(client, r, !IsLocalOnly(q, r))]
  {
  }

  lemma SpotStepsAre(was: seq<Step>, q: Request, c: string)
    ensures was + SpotMap(q)(c)
      == if c == TIMING_AUTHORITY || IsIndependent(c) || c in q.skip then was
         else if Deferring(q) then was + InstallSteps(c, false)
         else
           var now := was + InstallSteps(c, true) + ConfigureSteps(q, c);
           if IsReporterKeyed(c) then now + FlatMap(ReportersFor(q, c), InstanceSteps(q, c)) else now
  {
    hide InstallSteps, ConfigureSteps, ReportersFor, FlatMap, IsIndependent, IsReporterKeyed;
    Grouped(was, InstallSteps(c, true), ConfigureSteps(q, c));
    Grouped(was, InstallSteps(c, true) + ConfigureSteps(q, c), FlatMap(ReportersFor(q, c), InstanceSteps(q, c)));
  }

  lemma IndependentStepsAre(was: seq<Step>, q: Request, c: string)
    ensures was + IndependentMap(q)(c)
      == if !IsIndependent(c) || c in q.skip then was
         else was + InstallSteps(c, true) + ConfigureSteps(q, c) + [Start([c], false)]
  {
    hide InstallSteps, ConfigureSteps, IsIndependent;
    Grouped(was, InstallSteps(c, true), ConfigureSteps(q, c));
    Grouped(was, InstallSteps(c, true) + ConfigureSteps(q, c), [Start([c], false)]);
  }

  lemma BoundStartStepsAre(was: seq<Step>, q: Request, c: string)
    ensures was + BoundStartMap(q)(c)
      == if !IsRadiodBound(q, c) || Deferring(q) then was
         else if PlannedInstances(q) != [] && IsReporterKeyed(c) then was + FlatMap(ReportersFor(q, c), StartEach(c))
         else was + [Start([c], true)]
  {
    hide FlatMap, ReportersFor, IsRadiodBound, PlannedInstances, IsReporterKeyed;
  }

  lemma RadiodStageIs(was: seq<Step>, q: Request)
    ensures was + RadiodStage(q)
      == if Deferring(q) then
           was + [Note] + FlatMap(q.profile.infra, InstallUnskipped(q, false)) + InstallSteps(KA9Q_RADIO, false)
           + Optional(q, false)
         else if q.localRadiod then
           var configured :=
             was + FlatMap(q.profile.infra, InstallUnskipped(q, true)) + InstallSteps(KA9Q_RADIO, true)
             + [Checkpoint(RadiodInstalled, true)] + Optional(q, true)
             + [RecoverSdr] + [ConfigureStep(q, "radiod")] + [Tune] + [Wisdom] + [Checkpoint(RadiodConfigured, true)];
           var bound :=
             if q.receiversDeclared then configured + [ApplyReceivers(multiset(KeyedClients(q)))] else configured;
           if KA9Q_WEB in q.profile.infra && KA9Q_WEB !in q.skip then bound + [InstallWebUnit] else bound
         else
           var noted := was + [Note] + [Tune];
           if q.receiversDeclared then noted + [ApplyReceivers(multiset(KeyedClients(q)))]
           else noted + FlatMap(RemoteEntries(q), BindEach(q))
  {
    hide FlatMap, Optional, KeyedClients, RemoteEntries, InstallUnskipped, BindEach;
    if Deferring(q) {
      var infra := FlatMap(q.profile.infra, InstallUnskipped(q, false));
      assert InstallSteps(KA9Q_RADIO, false) == [Install(KA9Q_RADIO, false)];
      Chain4(was, [Note], infra, InstallSteps(KA9Q_RADIO, false), Optional(q, false));
    } else if q.localRadiod {
      var infra := FlatMap(q.profile.infra, InstallUnskipped(q, true));
      var start := infra + InstallSteps(KA9Q_RADIO, true) + [Checkpoint(RadiodInstalled, true)] + Optional(q, true);
      Chain4(was, infra, InstallSteps(KA9Q_RADIO, true), [Checkpoint(RadiodInstalled, true)], Optional(q, true));
      Chain4(was, start, [RecoverSdr], [ConfigureStep(q, "radiod")], [Tune]);
      Chain4(was, start + [RecoverSdr] + [ConfigureStep(q, "radiod")] + [Tune],
             [Wisdom], [Checkpoint(RadiodConfigured, true)],
             if q.receiversDeclared then [ApplyReceivers(multiset(KeyedClients(q)))] else []);
      Chain2(was, start + [RecoverSdr] + [ConfigureStep(q, "radiod")] + [Tune] + [Wisdom]
        + [Checkpoint(RadiodConfigured, true)]
             + (if q.receiversDeclared then [ApplyReceivers(multiset(KeyedClients(q)))] else []),
             if KA9Q_WEB in q.profile.infra && KA9Q_WEB !in q.skip then [InstallWebUnit] else []);
    } else {
      Chain4(was, [Note], [Tune], [ApplyReceivers(multiset(KeyedClients(q)))], []);
      Chain4(was, [Note], [Tune], FlatMap(RemoteEntries(q), BindEach(q)), []);
    }
  }

  lemma Chain2<T>(was: seq<T>, a: seq<T>, b: seq<T>)
    ensures was + (a + b) == was + a + b
  {
  }

  lemma Chain4<T>(was: seq<T>, a: seq<T>, b: seq<T>, c: seq<T>, d: seq<T>)
    ensures was + (a + b + c + d) == was + a + b + c + d
    ensures was + (a + b + c) == was + a + b + c
  {
    Chain2(was, a, b);
    Chain2(was, a + b, c);
    Chain2(was, a + b + c, d);
  }

  lemma FinishIs(was: seq<Step>, q: Request)
    ensures was + Finish(q)
      == (var reset := was + [ResetUploader] + [RestartUploader];
          var done := (if q.localRadiod && !Deferring(q) then reset + [ReserveCores] else reset)
                      + [Checkpoint(FinalValidate, false)];
          if Deferring(q) then done + [Note] else done)
  {
  }

  lemma BeforeStartsAre(was: seq<Step>, q: Request)
    ensures was + BeforeStarts(q)
      == (var site := was + [RenderSite];
          var held := if q.holdUploads then site + [HoldUploads] else site;
          held + [WriteManifest] + [Migrate])
  {
  }

  lemma SetupIs(q: Request)
    ensures Setup(q)
      == [] + [ProvisionSink] + RadiodStage(q) + TimingStage(q) + FlatMap(q.profile.clients, SpotMap(q))
        + RenderStage(q)
         + [WatermarkDir] + FlatMap(q.profile.clients, IndependentMap(q)) + BeforeStarts(q)
  {
    assert [] + [ProvisionSink] == [ProvisionSink];
    hide RadiodStage, TimingStage, SpotMap, IndependentMap, RenderStage, BeforeStarts, FlatMap;
  }

  lemma {:induction false} NoBoundStarts(q: Request, clients: seq<string>)
    requires Deferring(q)
    ensures FlatMap(clients, BoundStartMap(q)) == []
  {
    if clients == [] {
    } else {
      NoBoundStarts(q, clients[..|clients| - 1]);
    }
  }

  lemma PlanIs(q: Request)
    ensures PlanOf(q)
      == (var ready := if q.localRadiod && !Deferring(q)
                       then Setup(q) + [WaitWisdom] + [Start(RadiodStack(q), false)] + [WaitStreaming] else Setup(q);
          var bound := ready + FlatMap(q.profile.clients, BoundStartMap(q));
          var last :=
            if !Deferring(q) then bound + [StartAll]
            else
              var startable := Startable(Activated(Setup(q)), Deferred(Setup(q)));
              if startable == [] then bound else bound + [Start(startable, false)];
          last + Finish(q))
    ensures Deferring(q) ==> Setup(q) + FlatMap(q.profile.clients, BoundStartMap(q)) == Setup(q)
  {
    if Deferring(q) {
      NoBoundStarts(q, q.profile.clients);
    }
    hide Setup, FlatMap, BoundStartMap, RadiodStack, Startable, Activated, Deferred, Finish;
    Chain4(Setup(q), [WaitWisdom], [Start(RadiodStack(q), false)], [WaitStreaming], []);
    Nothing(Setup(q));
    Nothing(Setup(q) + FlatMap(q.profile.clients, BoundStartMap(q)));
  }
}
