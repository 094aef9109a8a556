/** Whether everything a workload refers to exists. */
module Closure {
  import opened Objects
  import opened Api
  import opened Contents
  import opened ServiceStatuses
  import opened Pipeline
  import opened Histories
  import opened Prefix
  import opened Invariants
  import opened Recovery
  import opened Completeness

  // ---- Which objects a plan has ---------------------------------------------------------------------

  /** What the i-th service reconciler is for. */
  function Members(i: nat): set<Id> {
    match i
    case 0 => {PostgresConfig, PostgresSet, Service(Postgresql)}
    case 1 => {Deployment(Redis), Service(Redis)}
    case 2 => {RustfsData, Deployment(Rustfs), Service(Rustfs)}
    case 3 => {Uploads, PublicUploads, Deployment(Ninegate), Service(Ninegate)}
    case 4 => {GlauthConfig, Deployment(Glauth), Service(Glauth)}
    case 5 => {DexConfig, Deployment(Dex), Service(Dex)}
    case _ => {}
  }

  predicate Enabled(i: nat, f: ServiceFlags) {
    match i
    case 0 => f.postgresql case 1 => f.redis case 2 => f.rustfs
    case 3 => f.ninegate case 4 => f.glauth case 5 => f.dex case _ => false
  }

  lemma MembersOnly(i: nat, f: ServiceFlags)
    ensures forall a | a in ServiceActions(i, f) && NewTarget(a).Some? ::
            Enabled(i, f) && NewTarget(a).value in Members(i)
  {
  }

  lemma MembersAll(i: nat, f: ServiceFlags, id: Id)
    requires Enabled(i, f) && id in Members(i)
    ensures On(id) in ServiceActions(i, f)
  {
    var acts := ServiceActions(i, f);
    assert acts[0] in acts && acts[1] in acts && (|acts| > 2 ==> acts[2] in acts) && (|acts| > 3 ==> acts[3] in acts);
  }

  lemma ServicePlan(i: nat, f: ServiceFlags, id: Id)
    ensures id in PlanOf(ServiceActions(i, f)) <==> Enabled(i, f) && id in Members(i)
  {
    hide ServiceActions, PlanOf, Members, Enabled;
    PlanMember(ServiceActions(i, f), id);
    MembersOnly(i, f);
    if Enabled(i, f) && id in Members(i) {
      MembersAll(i, f, id);
      assert NewTarget(On(id)) == Some(id);
    }
  }

  lemma PlanOfStage(i: nat, f: ServiceFlags)
    ensures PlanOf(ServiceStage(i, f)) == PlanOf(ServiceActions(i, f))
  {
    hide ServiceActions, ServiceBlame;
    var enter, acts := [Enter(ServiceBlame(i))], ServiceActions(i, f);
    PlanOfAppend(enter + acts, [ServiceDone(i)]);
    PlanOfAppend(enter, acts);
    assert enter[1..] == [] && [ServiceDone(i)][1..] == [];
    assert PlanOf(enter) == [] && PlanOf([ServiceDone(i)]) == [];
  }

  /** The object belongs to an enabled service among the first n. */
  predicate Planned(n: nat, f: ServiceFlags, id: Id) {
    exists i :: 0 <= i < n && Enabled(i, f) && id in Members(i)
  }

  lemma PlannedNext(n: nat, f: ServiceFlags, id: Id)
    requires n > 0
    ensures Planned(n, f, id) <==> Planned(n - 1, f, id) || (Enabled(n - 1, f) && id in Members(n - 1))
  {
    hide Enabled, Members;
  }

  lemma StageStep(n: nat, f: ServiceFlags, id: Id, front: seq<Action>)
    requires n > 0 && (id in PlanOf(front) <==> Planned(n - 1, f, id))
    ensures id in PlanOf(front + ServiceStage(n - 1, f)) <==> Planned(n, f, id)
  {
    hide ServiceStage, ServiceActions, Members, Enabled, PlanOf, Planned;
    PlanOfAppend(front, ServiceStage(n - 1, f));
    PlanOfStage(n - 1, f);
    ServicePlan(n - 1, f, id);
    PlannedNext(n, f, id);
  }

  lemma {:induction false} StagesPlan(n: nat, f: ServiceFlags, id: Id)
    ensures id in PlanOf(ServiceStages(n, f)) <==> Planned(n, f, id)
  {
    hide ServiceStage, Planned, PlanOf;
    if n == 0 {
      NonePlanned(f, id);
    } else {
      StagesPlan(n - 1, f, id);
      StageStep(n, f, id, ServiceStages(n - 1, f));
    }
  }

  lemma NonePlanned(f: ServiceFlags, id: Id)
    ensures PlanOf(ServiceStages(0, f)) == [] && !Planned(0, f, id)
  {
  }

  lemma NetworkTargets(f: ServiceFlags)
    ensures forall a | a in IngressActions(f) + PolicyActions() && NewTarget(a).Some? ::
              NewTarget(a).value.IngressFor? || NewTarget(a).value in {LdapsRoute, EgressPolicy, IngressPolicy}
  {
  }

  lemma SecretTargets(spec: Spec)
    ensures forall a | a in SecretActions(spec) + CertStage(spec) && NewTarget(a).Some? :: Rank(NewTarget(a).value) < 20
  {
    hide SecretActions, CertStage, Rank;
    SecretsOrdered(spec);
    CertsOrdered(spec);
  }

  /** The objects of the services: neither secrets nor certificates nor network objects. */
  predicate OfServices(id: Id) {
    id.Service? || id.Deployment?
        || id in {PostgresConfig, PostgresSet, RustfsData, Uploads, PublicUploads, GlauthConfig, DexConfig}
  }

  /** A service object is planned exactly when it belongs to an enabled service. */
  lemma PlanHas(spec: Spec, id: Id)
    requires OfServices(id)
    ensures id in Plan(spec) <==> Planned(SERVICE_COUNT, FlagsOf(spec), id)
  {
    hide SecretActions, CertStage, ServiceStages, IngressActions, PolicyActions, PlanOf, Enabled, Members, NewTarget;
    var f := FlagsOf(spec);
    var secrets, network := SecretActions(spec) + CertStage(spec), IngressActions(f) + PolicyActions();
    assert Actions(spec) == secrets + (ServiceStages(SERVICE_COUNT, f) + network);
    PlanOfAppend(secrets, ServiceStages(SERVICE_COUNT, f) + network);
    PlanOfAppend(ServiceStages(SERVICE_COUNT, f), network);
    StagesPlan(SERVICE_COUNT, f, id);
    SecretTargets(spec);
    NetworkTargets(f);
    PlanMember(secrets, id);
    PlanMember(network, id);
    assert Rank(id) >= 20;
  }

  lemma MembersApart(i: nat, j: nat, id: Id)
    requires id in Members(i) && id in Members(j)
    ensures i == j
  {
  }

  /** An object of the i-th service is planned exactly when that service is enabled. */
  lemma PlanHasMember(spec: Spec, i: nat, id: Id)
    requires i < SERVICE_COUNT && id in Members(i)
    ensures id in Plan(spec) <==> Enabled(i, FlagsOf(spec))
  {
    hide Plan, Enabled;
    assert OfServices(id) by { MembersOfServices(i, id); }
    PlanHas(spec, id);
    forall j | 0 <= j < SERVICE_COUNT && id in Members(j) ensures j == i {
      MembersApart(i, j, id);
    }
  }

  lemma MembersOfServices(i: nat, id: Id)
    requires id in Members(i)
    ensures OfServices(id)
  {
  }

  /** What every plan has: the secrets and the two login certificates. */
  lemma PlanAlwaysHas(spec: Spec)
    ensures forall id | id in {PostgresSecret, RustfsSecret, NinegateSecret, Tls(Glauth), Tls(Dex)} :: id in Plan(spec)
  {
    hide SecretActions, CertStage, LateActions, PlanOf;
    var acts := SecretActions(spec) + CertStage(spec);
    PlanOfAppend(acts, LateActions(FlagsOf(spec)));
    assert Actions(spec) == acts + LateActions(FlagsOf(spec));
    EarlyCerts(spec);
    SecretsAreThere(spec);
    assert NewTarget(On(PostgresSecret)) == Some(PostgresSecret) && NewTarget(On(RustfsSecret)) == Some(RustfsSecret);
    assert NewTarget(On(NinegateSecret)) == Some(NinegateSecret);
    PlanMember(acts, PostgresSecret);
    PlanMember(acts, RustfsSecret);
    PlanMember(acts, NinegateSecret);
  }

  lemma SecretsAreThere(spec: Spec)
    ensures On(PostgresSecret) in SecretActions(spec) && On(RustfsSecret) in SecretActions(spec)
            && On(NinegateSecret) in SecretActions(spec)
  {
    hide NamespaceStage, AdminStage, CaStage;
    assert RootStage()[2] == On(PostgresSecret) && RootStage()[3] == On(RustfsSecret);
    assert NinegateStage()[1] == On(NinegateSecret);
  }

  // ---- References ---------------------------------------------------------------------------------------------

  predicate Resolves(w: World, ref: Ref) {
    match ref
    case WholeObject(id) => K(w, id) in Mine(w)
    case SecretKey(id, field) =>
      K(w, id) in Mine(w) && Mine(w)[K(w, id)].payload.Data? && field in Mine(w)[K(w, id)].payload.fields
  }

  /** Every reference of every workload of the client resolves, down to the single keys. */
  predicate Closed(w: World) {
    forall k, ref | k in Mine(w) && (k.id.Deployment? || k.id == PostgresSet)
                    && Mine(w)[k].payload.Workload? && ref in Mine(w)[k].payload.refs :: Resolves(w, ref)
  }

  /** The service a workload belongs to. */
  function ServiceOf(id: Id): nat {
    match id
    case PostgresSet => 0
    case Deployment(app) =>
      (match app
       case Redis => 1 case Rustfs => 2 case Ninegate => 3 case Glauth => 4 case Dex => 5 case _ => SERVICE_COUNT)
    case _ => SERVICE_COUNT
  }

  /** The objects a client needs for the services it enables, as far as they have been created. */
  predicate Stocked(w: World, f: ServiceFlags) {
    && (forall id | id in {PostgresSecret, RustfsSecret, NinegateSecret, Tls(Glauth), Tls(Dex)} :: K(w, id) in Mine(w))
    && (forall i, id | 0 <= i < SERVICE_COUNT && id in Members(i) :: K(w, id) in Mine(w) <==> Enabled(i, f))
  }

  /** What one workload refers to is there, except that Ninegate also wants Glauth's configuration. */
  lemma RefsResolve(w: World, f: ServiceFlags, id: Id, ref: Ref)
    requires Stocked(w, f) && Wired(Mine(w), w.me)
    requires ServiceOf(id) < SERVICE_COUNT && Enabled(ServiceOf(id), f)
    requires ref in WorkloadRefs(if id == PostgresSet then Postgresql else id.app)
    ensures Resolves(w, ref) <==> (ref != WholeObject(GlauthConfig) || f.glauth)
  {
    assert PostgresConfig in Members(0) && RustfsData in Members(2) && Uploads in Members(3)
        && PublicUploads in Members(3);
    assert GlauthConfig in Members(4) && DexConfig in Members(5);
    hide Members;
  }

  /** A Ready client of a fixed spec is stocked. */
  lemma ReadyIsStocked(w0: World, steps: seq<Step>)
    requires Fresh(w0) && SpecKept(w0.cr.value.spec, steps) && IsReady(Play(w0, steps))
    ensures Stocked(Play(w0, steps), FlagsOf(w0.cr.value.spec)) && Play(w0, steps).me == w0.me
    ensures forall id :: K(w0, id) in Mine(Play(w0, steps)) <==> id in Plan(w0.cr.value.spec)
  {
    hide Play, Plan, Members, Enabled;
    var spec, w := w0.cr.value.spec, Play(w0, steps);
    ReadyOwnsThePlan(w0, steps);
    PlayKeepsManaged(w0, steps);
    PlanAlwaysHas(spec);
    forall id ensures K(w, id) in Mine(w) <==> id in Plan(spec) {
      assert K(w, id) in Mine(w).Keys <==> K(w, id) in set j | j in Plan(spec) :: K(w, j);
    }
    forall i, id | 0 <= i < SERVICE_COUNT && id in Members(i)
        ensures K(w, id) in Mine(w) <==> Enabled(i, FlagsOf(spec)) {
      PlanHasMember(spec, i, id);
    }
  }

  lemma WorkloadsAreMembers(spec: Spec, id: Id)
    requires (id.Deployment? || id == PostgresSet) && id in Plan(spec)
    ensures ServiceOf(id) < SERVICE_COUNT && Enabled(ServiceOf(id), FlagsOf(spec))
  {
    hide Plan, Enabled;
    PlanHas(spec, id);
    var i :| 0 <= i < SERVICE_COUNT && Enabled(i, FlagsOf(spec)) && id in Members(i);
    assert ServiceOf(id) == i;
  }

  /** Referential closure, sharply: in a Ready state of a fixed spec, everything that workloads refer to exists, every
      single key of the Ninegate secret included, if and only if enabling Ninegate goes with enabling Glauth. */
  lemma ReferentialClosure(w0: World, steps: seq<Step>)
    requires Fresh(w0) && SpecKept(w0.cr.value.spec, steps) && IsReady(Play(w0, steps))
    ensures var f := FlagsOf(w0.cr.value.spec); Closed(Play(w0, steps)) <==> (f.ninegate ==> f.glauth)
  {
    hide Play, Plan, Members, Sane, WorkloadRefs;
    var spec, w := w0.cr.value.spec, Play(w0, steps);
    var f := FlagsOf(spec);
    ReadyIsStocked(w0, steps);
    assert Keeps(NO_PROMISE, steps);
    HistoryIsSane(w0, steps, NO_PROMISE);
    SaneIsWired(Mine(w), w.me);
    forall k, ref | k in Mine(w) && (k.id.Deployment? || k.id == PostgresSet) && Mine(w)[k].payload.Workload?
                    && ref in Mine(w)[k].payload.refs
      ensures Resolves(w, ref) <==> (ref != WholeObject(GlauthConfig) || f.glauth)
      ensures ref == WholeObject(GlauthConfig) ==> f.ninegate || f.glauth
    {
      assert k == K(w0, k.id);
      WorkloadsAreMembers(spec, k.id);
      RefsResolve(w, f, k.id, ref);
      if ref == WholeObject(GlauthConfig) {
        WhoWantsGlauth(k.id, ref, f);
      }
    }
    if f.ninegate && !f.glauth {
      NinegateWantsGlauth(w, f);
    }
  }

  lemma SaneIsWired(m: Objs, me: string)
    requires Sane(m, me, NO_PROMISE)
    ensures Wired(m, me)
  {
  }

  lemma WhoWantsGlauth(id: Id, ref: Ref, f: ServiceFlags)
    requires (id.Deployment? || id == PostgresSet) && ServiceOf(id) < SERVICE_COUNT && Enabled(ServiceOf(id), f)
    requires ref in WorkloadRefs(if id == PostgresSet then Postgresql else id.app) && ref == WholeObject(GlauthConfig)
    ensures f.ninegate || f.glauth
  {
  }

  lemma NinegateWantsGlauth(w: World, f: ServiceFlags)
    requires Stocked(w, f) && Wired(Mine(w), w.me) && f.ninegate && !f.glauth
    ensures !Closed(w)
  {
    var k, ref := K(w, Deployment(Ninegate)), WholeObject(GlauthConfig);
    assert Deployment(Ninegate) in Members(3) && GlauthConfig in Members(4);
    assert k in Mine(w) && K(w, GlauthConfig) !in Mine(w);
    assert ref in WorkloadRefs(Ninegate);
    assert !Resolves(w, ref);
  }

  // ---- Ingress backends ------------------------------------------------------------------------------------------

  /** Where ingress rules lead, sharply: in a Ready state of a fixed spec, the Service behind a rule exists exactly for
      Ninegate, Dex and RustFS, when enabled. The rule for the S3 host names a Service that nobody creates, and so do
      the rules of the optional applications. */
  lemma IngressBackends(w0: World, steps: seq<Step>, app: App)
    requires Fresh(w0) && SpecKept(w0.cr.value.spec, steps) && IsReady(Play(w0, steps))
    requires app in {Ninegate, Dex, Rustfs, RustfsApi, Nextcloud, Wordpress, Dolibarr}
    ensures var f := FlagsOf(w0.cr.value.spec);
            K(w0, Service(app)) in Mine(Play(w0, steps)) <==>
              (app == Ninegate && f.ninegate) || (app == Dex && f.dex) || (app == Rustfs && f.rustfs)
  {
    hide Play, Plan;
    ReadyIsStocked(w0, steps);
    var spec := w0.cr.value.spec;
    PlanHas(spec, Service(app));
    BackendMembers(app);
    match app {
      case Ninegate => PlanHasMember(spec, 3, Service(Ninegate));
      case Dex => PlanHasMember(spec, 5, Service(Dex));
      case Rustfs => PlanHasMember(spec, 2, Service(Rustfs));
      case _ =>
    }
  }

  lemma BackendMembers(app: App)
    ensures Service(Ninegate) in Members(3) && Service(Dex) in Members(5) && Service(Rustfs) in Members(2)
    ensures app in {RustfsApi, Nextcloud, Wordpress, Dolibarr} ==> forall i :: Service(app) !in Members(i)
  {
  }
}
