/** How clients get stranded: every run without a crash ends Ready or stranded, so one failing call is enough. */
module Strandings {
  import opened Objects
  import opened Api
  import opened Passwords
  import opened Contents
  import opened ServiceStatuses
  import opened Pipeline
  import opened Runs
  import opened Histories
  import opened Phases
  import opened Prefix
  import opened Invariants
  import opened CleanRuns
  import opened Recovery
  import opened Completeness

  // ---- Runs without a crash -------------------------------------------------------------------------

  ghost predicate NoCrash(env: Env) { forall s :: Survives(env, s) }

  lemma GetLives(w: World, env: Env, s: Site, k: Key)
    requires NoCrash(env)
    ensures Get(w, env, s, k).0.alive == w.alive
  {
    assert Survives(env, s);
  }

  lemma CreateLives(w: World, env: Env, s: Site, k: Key, o: Obj)
    requires NoCrash(env)
    ensures Create(w, env, s, k, o).0.alive == w.alive
  {
    assert Survives(env, s);
  }

  lemma ReadLives(w: World, env: Env, id: Id, place: Place, field: Field, p: Purpose)
    requires NoCrash(env)
    ensures ReadOr(w, env, id, place, field, p).0.alive == w.alive
  {
    hide NewPassword, Get;
    GetLives(w, env, Reading(id, place), K(w, id));
  }

  lemma BuildLives(w: World, cn: CR, loc: Locals, env: Env, id: Id, place: Place)
    requires NoCrash(env)
    ensures Build(w, cn, loc, env, id, place).0.alive == w.alive
  {
    hide NewPassword, LabelsFor, PlainPayload, NinegateFields, ReadOr, Get;
    match id {
      case NinegateSecret => ReadLives(w, env, AdminCredentials, NinegateRead, AdminPassword, ForNinegateAdmin);
      case GlauthConfig => GetLives(w, env, Reading(PostgresSecret, GlauthRead), K(w, PostgresSecret));
      case DexConfig =>
        ReadLives(w, env, AdminCredentials, DexRead, AdminPassword, ForDexAdmin);
        ReadLives(ReadOr(w, env, AdminCredentials, DexRead, AdminPassword, ForDexAdmin).0, env,
                  NinegateSecret, DexRead, AppSecret, ForDexClient);
      case _ =>
    }
  }

  lemma EnsureLives(w: World, cn: CR, loc: Locals, env: Env, id: Id, place: Place)
    requires NoCrash(env)
    ensures EnsureObject(w, cn, loc, env, id, place).0.alive == w.alive
  {
    hide Get, Build, Create;
    GetLives(w, env, Reading(id, place), K(w, id));
    var w1 := Get(w, env, Reading(id, place), K(w, id)).0;
    BuildLives(w1, cn, loc, env, id, place);
    var (w2, o) := Build(w1, cn, loc, env, id, place);
    if o.Ok? {
      CreateLives(w2, env, Creating(id, place), K(w, id), o.value);
    }
  }

  lemma PasswordLivesOn(w: World, env: Env, override: string, id: Id, field: Field, p: Purpose)
    requires NoCrash(env)
    ensures GetOrCreatePassword(w, env, override, id, field, p).0.alive == w.alive
  {
    hide NewPassword, Get;
    GetLives(w, env, Reading(id, PasswordRead), K(w, id));
  }

  /** Without a crash the process lives on, and only a missing services section makes it panic. */
  lemma ExecLives(r: Run, env: Env, a: Action)
    requires NoCrash(env) && r.cn.spec.services.Some? && r.out != Panicked
    ensures Exec(r, env, a).w.alive == r.w.alive && Exec(r, env, a).out != Panicked
  {
    hide EnsureObject, Get, Create, GetOrCreatePassword, Upsert, ServiceName;
    match a {
      case Ensure(id, place) => EnsureLives(r.w, r.cn, r.loc, env, id, place);
      case EnsureRoute =>
        var w1 := Get(r.w, env, Reading(LdapsSecret, Pipeline), K(r.w, LdapsSecret)).0;
        GetLives(r.w, env, Reading(LdapsSecret, Pipeline), K(r.w, LdapsSecret));
        CreateLives(w1, env, Creating(LdapsRoute, Pipeline), K(r.w, LdapsRoute), RouteObject(r.cn, r.loc, env));
      case ReadPasswords =>
        var w1 := GetOrCreatePassword(r.w, env, PgOverride(r.cn.spec), PostgresSecret, PostgresPassword, ForPostgres).0;
        PasswordLivesOn(r.w, env, PgOverride(r.cn.spec), PostgresSecret, PostgresPassword, ForPostgres);
        PasswordLivesOn(w1, env, S3Override(r.cn.spec), RustfsSecret, RustfsPassword, ForRustfs);
      case LoadCa => GetLives(r.w, env, Reading(CaSecret, CaRead), K(r.w, CaSecret));
      case _ =>
    }
  }

  lemma {:induction false} RunLives(r: Run, env: Env, acts: seq<Action>)
    requires NoCrash(env) && r.cn.spec.services.Some? && r.out != Panicked
    ensures RunAll(r, env, acts).w.alive == r.w.alive && RunAll(r, env, acts).out != Panicked
    decreases |acts|
  {
    hide Exec;
    if acts != [] {
      ExecLives(r, env, acts[0]);
      ExecFacts(r, env, acts[0]);
      RunLives(Exec(r, env, acts[0]), env, acts[1..]);
    }
  }

  // ---- Ready or stranded ------------------------------------------------------------------------------

  /** The faults under which a write takes effect. */
  const EFFECTIVE: set<Fault> := {Clean, Ambiguous, CrashAfter}

  /** The write of the phase Failed is stored: it takes effect, and a service's own write before it did not leave the
      run with an outdated resource. */
  predicate Records(env: Env, service: bool) {
    FaultAt(env, FailedWrite) in EFFECTIVE && (service ==> FaultAt(env, ServiceWrite) in {Clean, Drop, Stale})
  }

  /** The run's status writes are stored, and the calls on the resource before them are undisturbed. */
  predicate Reports(env: Env) { Begins(env) && Records(env, true) && FaultAt(env, ReadyWrite) in EFFECTIVE }

  /** What a status write stores from a living process, by its fault. */
  lemma StatusEffect(w: World, env: Env, s: Site, cn: CR)
    requires w.cr.Some? && w.alive && DistinctConditionTypes(cn.status.conditions)
    ensures var (w', e) := StatusUpdate(w, env, s, cn); var current := cn.version == w.cr.value.version;
            && w'.cr == (if current && FaultAt(env, s) in EFFECTIVE
                         then Some(w.cr.value.(status := cn.status, version := cn.version + 1)) else w.cr)
            && (e.None? <==> current && FaultAt(env, s) == Clean)
            && (w'.alive <==> Survives(env, s))
  {
    hide DistinctConditionTypes;
  }

  lemma DeadWrite(w: World, env: Env, s: Site, cn: CR)
    requires !w.alive
    ensures StatusUpdate(w, env, s, cn).0 == w
  {
  }

  /** A stopped run in a living process stores Failed and its condition exactly when its writes allow; otherwise phase
      and conditions stay. */
  lemma FailureIsStored(r: Run, env: Env, error: Err)
    requires r.w.alive && r.out == Stopped(error)
    requires r.w.cr.Some? && r.cn.version == r.w.cr.value.version
    requires Coherent(r.cn.status) && r.cn.status.phase in {Provisioning, Phase.Failed}
    ensures var w' := Finish(r, env);
            && w'.cr.Some?
            && if Records(env, r.blame.svc.Some?) then
                 && w'.cr.value.status.phase == Phase.Failed
                 && w'.cr.value.status.conditions == [Condition("Ready", false, r.blame.reason, Some(error))]
                 && w'.cr.value.status.services ==
                    (if r.blame.svc.None? then r.cn.status.services
                     else Upsert(r.cn.status.services, ServiceName(r.blame.svc.value), false, Some(error)))
               else
                 w'.cr.value.status.phase in {r.w.cr.value.status.phase, r.cn.status.phase}
                 && w'.cr.value.status.conditions in {r.w.cr.value.status.conditions, r.cn.status.conditions}
  {
    hide StatusUpdate, SetFailed, Upsert, ServiceName, Coherent, DistinctConditionTypes;
    AtMostOneCondition(r.cn.status);
    var w1, cn1 := r.w, r.cn;
    if r.blame.svc.Some? {
      var i := r.blame.svc.value;
      cn1 := r.cn.(status :=
          r.cn.status.(services := Upsert(r.cn.status.services, ServiceName(i), false, Some(error))));
      StatusEffect(r.w, env, ServiceWrite, cn1);
      var reported := ReportService(r.w, r.cn, env, i, error);
      w1, cn1 := reported.0, reported.1;
    }
    SameCoherence(r.cn.status, cn1.status);
    FailedWriteEffect(w1, cn1, env, r.blame.reason, error);
  }

  lemma FailedWriteEffect(w: World, cn: CR, env: Env, reason: string, error: Err)
    requires w.cr.Some? && Coherent(cn.status) && cn.status.phase in {Provisioning, Phase.Failed}
    ensures var w' := SetFailed(w, cn, env, reason, error);
            && w'.cr.Some?
            && if w.alive && cn.version == w.cr.value.version && FaultAt(env, FailedWrite) in EFFECTIVE then
                 && w'.cr.value.status.phase == Phase.Failed
                 && w'.cr.value.status.conditions == [Condition("Ready", false, reason, Some(error))]
                 && w'.cr.value.status.services == cn.status.services
               else w'.cr == w.cr
  {
    hide StatusUpdate, Coherent;
    FailedIsCoherent(cn.status, reason, error);
    OneCondition(cn.status, reason, error);
    var cn1 := cn.(status := FailedStatus(cn.status, reason, error));
    if w.alive {
      StatusEffect(w, env, FailedWrite, cn1);
    } else {
      DeadWrite(w, env, FailedWrite, cn1);
    }
  }

  lemma OneCondition(s: Status, reason: string, error: Err)
    requires Coherent(s) && s.phase in {Provisioning, Phase.Failed}
    ensures FailedStatus(s, reason, error).conditions == [Condition("Ready", false, reason, Some(error))]
  {
  }

  /** Every run without a crash whose calls on the resource go through ends Ready or stranded: any error of any call on
      a child object that is not ignored is final. */
  lemma ReadyOrStranded(w: World, env: Env)
    requires Managed(w) && Coherent(w.cr.value.status) && w.cr.value.spec.services.Some? && NoCrash(env) && Reports(env)
    ensures IsReady(Reconcile(w, env)) || Stranded(Reconcile(w, env))
    ensures !IsReady(w) ==>
              && Begin(w, env).Some?
              && (RunAll(Begin(w, env).value, env, Actions(w.cr.value.spec)).out != Going ==>
                 Stranded(Reconcile(w, env)))
  {
    hide RunAll, Actions, Reconcile, Finish, Begin;
    var spec := w.cr.value.spec;
    RunMoves(w, env);
    var began, r0 := ReconcileShape(w, env);
    if began {
      var r := RunAll(r0, env, Actions(spec));
      Frame(r0, env, Actions(spec));
      RunLives(r0, env, Actions(spec));
      FinishMoves(r, env);
      match r.out {
        case Going => ReadyOrFailed(r, env);
        case Stopped(error) => FailureIsStored(r, env, error);
      }
    } else {
      AtMostOneCondition(w.cr.value.status);
    }
  }

  lemma AtMostOneCondition(s: Status)
    requires Coherent(s)
    ensures DistinctConditionTypes(s.conditions)
  {
  }

  lemma ReadyOrFailed(r: Run, env: Env)
    requires r.out == Going && r.w.alive && Reports(env) && r.w.cr.Some? && r.cn.version == r.w.cr.value.version
    requires Coherent(r.cn.status) && r.cn.status.phase == r.w.cr.value.status.phase
    requires r.cn.status.phase in {Provisioning, Phase.Failed}
    ensures Finish(r, env).cr.Some? && Finish(r, env).cr.value.status.phase in {Phase.Ready, Phase.Failed}
  {
    hide StatusUpdate;
    ReadyAfterFailedIsInvalid(r.cn.status, r.cn.spec);
    StatusUpdateFacts(r.w, env, ReadyWrite, r.cn.(status := ReadyStatus(r.cn.status, r.cn.spec)));
    if r.cn.status.phase == Provisioning {
      StatusEffect(r.w, env, ReadyWrite, r.cn.(status := ReadyStatus(r.cn.status, r.cn.spec)));
    }
  }

  // ---- One dropped create ---------------------------------------------------------------------------------

  predicate Refused(env: Env, id: Id) { FaultAt(env, Creating(id, Pipeline)) in {Drop, Stale} }

  lemma CreateRefused(w: World, env: Env, s: Site, k: Key, o: Obj)
    requires FaultAt(env, s) in {Drop, Stale}
    ensures Mine(Create(w, env, s, k, o).0) == Mine(w)
  {
    hide Insert;
  }

  lemma ExecRefused(r: Run, env: Env, a: Action, id: Id)
    requires Refused(env, id) && !Has(Mine(r.w), r.w.me, id)
    requires a.Ensure? && a.id == id ==> a.place == Pipeline
    ensures !Has(Mine(Exec(r, env, a).w), r.w.me, id)
  {
    ExecFacts(r, env, a);
    hide Build, Create, Get, Mine;
    if r.out == Going && a.Ensure? && a.id == id {
      var w1 := Get(r.w, env, Reading(id, Pipeline), K(r.w, id)).0;
      var (w2, o) := Build(w1, r.cn, r.loc, env, id, Pipeline);
      if o.Ok? {
        CreateRefused(w2, env, Creating(id, Pipeline), K(r.w, id), o.value);
      }
    } else if r.out == Going && a == EnsureRoute && id == LdapsRoute {
      var w1 := Get(r.w, env, Reading(LdapsSecret, Pipeline), K(r.w, LdapsSecret)).0;
      CreateRefused(w1, env, Creating(LdapsRoute, Pipeline), K(r.w, LdapsRoute), RouteObject(r.cn, r.loc, env));
    }
  }

  /** An object whose create is refused stays absent through any actions that create it at its own place. */
  lemma {:induction false} RunRefused(r: Run, env: Env, acts: seq<Action>, id: Id)
    requires Refused(env, id) && !Has(Mine(r.w), r.w.me, id)
    requires forall a | a in acts && a.Ensure? && a.id == id :: a.place == Pipeline
    ensures !Has(Mine(RunAll(r, env, acts).w), r.w.me, id)
    decreases |acts|
  {
    hide Exec, Mine;
    if acts != [] {
      ExecRefused(r, env, acts[0], id);
      ExecFacts(r, env, acts[0]);
      RunRefused(Exec(r, env, acts[0]), env, acts[1..], id);
    }
  }

  lemma LatePlaces(f: ServiceFlags)
    ensures forall a | a in LateActions(f) && a.Ensure? :: a.place in {Pipeline, Fallback}
  {
    hide ServiceStages, IngressRules, PolicyActions;
    var have := {TheNamespace, PostgresSecret};
    LateSplits(f);
    StagesFeasible(SERVICE_COUNT, f, have);
    RulesFeasible(f, have);
  }

  /** A run cannot get through when the create of an absent object of its plan is refused. */
  lemma RefusalStops(r: Run, env: Env, spec: Spec, id: Id)
    requires Fine(r, env, NO_PROMISE, Nothing()) && Refused(env, id) && !Has(Mine(r.w), r.w.me, id) && id in Plan(spec)
    ensures RunAll(r, env, Actions(spec)).out != Going
  {
    hide RunAll, SecretActions, CertStage, LateActions, PlanOf, Fine, Mine;
    var early, late := SecretActions(spec) + CertStage(spec), LateActions(FlagsOf(spec));
    assert Actions(spec) == early + late;
    Split(r, env, early, late);
    Fallbacks(spec);
    EarlyCerts(spec);
    if RunAll(r, env, Actions(spec)).out == Going {
      if id in PlanOf(early) {
        PlanMember(early, id);
        var a :| a in early && NewTarget(a) == Some(id);
        SecretsAvoidRoute(spec);
        CertsAvoidRoute(spec);
        Done(r, env, early, a);
        RunRefused(r, env, early, id);
      } else {
        PlanIsThere(r, env, spec, id);
        LatePlaces(FlagsOf(spec));
        RunRefused(r, env, Actions(spec), id);
      }
    }
  }

  /** One refused create strands. Take any reachable state that is not Ready, and any object of the plan that does not
      exist yet: a run in which the create of that object fails without effect, and in which nothing else need go
      wrong, strands the client for good. */
  lemma OneDropStrands(w0: World, steps: seq<Step>, id: Id, env: Env)
    requires Fresh(w0) && !IsReady(Play(w0, steps)) && NoCrash(env) && Reports(env) && Refused(env, id)
    requires Play(w0, steps).cr.Some? && Play(w0, steps).cr.value.spec.services.Some?
    requires id in Plan(Play(w0, steps).cr.value.spec) && K(w0, id) !in Mine(Play(w0, steps))
    ensures Stranded(Play(w0, steps + [RunOnce(env)]))
  {
    hide Play, Sane, Plan, Reconcile, Begin, RunAll, Actions, NoCrash, Reports;
    var w := Play(w0, steps);
    HistoryIsCoherent(w0, steps);
    assert Keeps(NO_PROMISE, steps);
    HistoryIsSane(w0, steps, NO_PROMISE);
    PlayOneMore(w0, steps, RunOnce(env));
    ReadyOrStranded(w, env);
    var began, r0 := ReconcileShape(w, env);
    assert Fine(r0, env, NO_PROMISE, Nothing());
    RefusalStops(r0, env, w.cr.value.spec, id);
  }

  /** The smallest such history: one run of a new resource in which the create of the namespace is dropped. */
  lemma FirstDropStrands(w: World)
    requires Fresh(w) && w.cr.value.spec.services.Some?
    ensures Stranded(Play(w, [RunOnce(PEACE.(faults := map[Creating(TheNamespace, Pipeline) := Drop]))]))
  {
    hide Apply, Plan, Stranded;
    var env := PEACE.(faults := map[Creating(TheNamespace, Pipeline) := Drop]);
    NamespacePlanned(w.cr.value.spec);
    assert Play(w, []) == w;
    OneDropStrands(w, [], TheNamespace, env);
    assert [] + [RunOnce(env)] == [RunOnce(env)];
  }

  lemma NamespacePlanned(spec: Spec)
    ensures TheNamespace in Plan(spec)
  {
    hide AdminStage, RootStage, NinegateStage, CaStage, CertStage, LateActions;
    assert Actions(spec)[1] == On(TheNamespace);
    assert NewTarget(On(TheNamespace)) == Some(TheNamespace);
    PlanMember(Actions(spec), TheNamespace);
  }

  // ---- Cut off between the route and the last write -------------------------------------------------------

  /** The process dies right after the route has been created; nothing else goes wrong. */
  ghost predicate CutAfterRoute(env: Env) {
    Random(env) && forall s :: FaultAt(env, s) == if s == Creating(LdapsRoute, Pipeline) then CrashAfter else Clean
  }

  lemma UpToRoute(r: Run, env: Env, spec: Spec)
    requires Up(r, {}, false) && CutAfterRoute(env) && r.cn.spec == spec && spec.services.Some?
    requires Fine(r, env, NO_PROMISE, Nothing())
    ensures var r' := RunAll(r, env, SecretActions(spec) + CertStage(spec) + ServiceAndRules(FlagsOf(spec)));
            Up(r', {TheNamespace}, true) && !Has(Mine(r'.w), r.w.me, LdapsSecret) && r'.w.me == r.w.me
  {
    hide RunAll, SecretActions, CertStage, ServiceStages, IngressRules, Sane, Knows, CutAfterRoute, Mine, SecretObjects,
         CertObjects;
    var p, f := NO_PROMISE, FlagsOf(spec);
    var have := {TheNamespace, PostgresSecret, CaSecret};
    CalmUntilRoute(env, spec);
    hide ServiceAndRules, Up, AllUndisturbed;
    var r1 := RunAll(r, env, SecretActions(spec));
    UpSecrets(r, env, spec);
    FineSecrets(r, env, spec, p);
    Frame(r, env, SecretActions(spec));
    SaneParts(r1, p);
    UpCerts(r1, env, spec, have);
    FineCerts(r1, env, spec, p);
    Frame(r1, env, CertStage(spec));
    var r2 := RunAll(r1, env, CertStage(spec));
    LateBeforeRoute(r2, env, f, p);
    UpServices(r2, env, f, have);
    Frame(r2, env, ServiceAndRules(f));
    Split(r, env, SecretActions(spec), CertStage(spec));
    Split(r, env, SecretActions(spec) + CertStage(spec), ServiceAndRules(f));
    UpWith(RunAll(r2, env, ServiceAndRules(f)), have, {TheNamespace});
  }

  lemma CalmUntilRoute(env: Env, spec: Spec)
    requires CutAfterRoute(env)
    ensures AllUndisturbed(env, SecretActions(spec)) && AllUndisturbed(env, CertStage(spec))
    ensures AllUndisturbed(env, ServiceAndRules(FlagsOf(spec)))
  {
    assert OnlyAt(env, LdapsRoute);
    hide SecretActions, CertStage, ServiceAndRules, CutAfterRoute, OnlyAt;
    SecretsAvoidRoute(spec);
    CertsAvoidRoute(spec);
    ServicesAvoidRoute(FlagsOf(spec));
    AvoidedIsUndisturbed(env, SecretActions(spec), LdapsRoute);
    AvoidedIsUndisturbed(env, CertStage(spec), LdapsRoute);
    AvoidedIsUndisturbed(env, ServiceAndRules(FlagsOf(spec)), LdapsRoute);
  }

  lemma UpServices(r: Run, env: Env, f: ServiceFlags, have: set<Id>)
    requires Up(r, have, true) && TheNamespace in have && PostgresSecret in have
             && AllUndisturbed(env, ServiceAndRules(f))
    ensures Up(RunAll(r, env, ServiceAndRules(f)), have, true)
  {
    hide RunAll, ServiceStages, IngressRules, Up, Undisturbed;
    StagesFeasible(SERVICE_COUNT, f, have);
    RulesFeasible(f, have);
    EnterFeasible(Blame("IngressFailed", None), have);
    UpStays(r, env, ServiceAndRules(f), have, true);
  }

  lemma RouteCrash(r: Run, env: Env)
    requires Up(r, {TheNamespace}, true) && CutAfterRoute(env) && !Has(Mine(r.w), r.w.me, LdapsSecret)
    ensures var r' := Exec(r, env, EnsureRoute); !r'.w.alive && Has(Mine(r'.w), r.w.me, LdapsRoute) && r'.w.cr == r.w.cr
  {
    ExecFacts(r, env, EnsureRoute);
    assert Tolerated(env, Reading(LdapsSecret, Pipeline));
    RouteRead(r.w, env);
    var w1 := Get(r.w, env, Reading(LdapsSecret, Pipeline), K(r.w, LdapsSecret)).0;
    hide Get, LabelsFor, PlainPayload;
    CrashCreates(w1, env, Creating(LdapsRoute, Pipeline), LdapsRoute, RouteObject(r.cn, r.loc, env));
  }

  lemma CrashCreates(w: World, env: Env, s: Site, id: Id, o: Obj)
    requires w.alive && FaultAt(env, s) == CrashAfter && K(w, TheNamespace) in Mine(w)
    ensures var w' := Create(w, env, s, K(w, id), o).0; !w'.alive && K(w, id) in Mine(w')
  {
    var wi := Interfere(w, env, s);
    assert forall k | Own(w.me, k) :: k in wi.store <==> k in Mine(wi);
  }

  lemma CutPipeline(r: Run, env: Env, spec: Spec)
    requires Up(r, {}, false) && CutAfterRoute(env) && r.cn.spec == spec && spec.services.Some?
    requires Fine(r, env, NO_PROMISE, Nothing())
    ensures var r' := RunAll(r, env, Actions(spec));
            Finish(r', env) == r'.w && r'.w.cr == r.w.cr && r'.w.me == r.w.me && Has(Mine(r'.w), r.w.me, LdapsRoute)
  {
    hide RunAll, Actions, Finish, SecretActions, CertStage, ServiceAndRules, PolicyActions, Exec, Up, CutAfterRoute,
         Fine, Mine;
    var before := SecretActions(spec) + CertStage(spec) + ServiceAndRules(FlagsOf(spec));
    UpToRoute(r, env, spec);
    var r1 := RunAll(r, env, before);
    Frame(r, env, before);
    RouteCrash(r1, env);
    var r2 := Exec(r1, env, EnsureRoute);
    ExecFacts(r1, env, EnsureRoute);
    DeadRunIsInert(r2, env, PolicyActions());
    AllActions(spec);
    Split(r, env, before, [EnsureRoute] + PolicyActions());
    Cons(r1, env, EnsureRoute, PolicyActions());
  }

  /** Such environments exist. */
  lemma CutExists()
    ensures CutAfterRoute(PEACE.(faults := map[Creating(LdapsRoute, Pipeline) := CrashAfter]))
  {
  }

  lemma CutBegins(env: Env)
    requires CutAfterRoute(env)
    ensures Begins(env) && EnvKeeps(NO_PROMISE, env)
  {
  }

  /** The other way to get stranded: a crash between the creation of the route and the last status write. The phase is
      still Provisioning and no error was ever reported, but no later run can get through. */
  lemma CrashAfterRouteStrands(w: World, env: Env)
    requires Fresh(w) && CutAfterRoute(env) && w.cr.value.spec.services.Some?
    ensures var w' := Play(w, [RunOnce(env)]);
            w'.cr.Some? && w'.cr.value.status.phase == Provisioning && K(w, LdapsRoute) in Mine(w') && Stranded(w')
  {
    CutBegins(env);
    PlayOnce(w, env);
    hide RunAll, Actions, Reconcile, Finish, Sane, CutAfterRoute, Begins, EnvKeeps, Begin, Play, Mine, Fine, Up;
    var spec := w.cr.value.spec;
    var began, r0 := ReconcileShape(w, env);
    assert r0.w.cr.Some? && r0.w.cr.value.status.phase == Provisioning;
    FreshRunIsFine(w, r0, env);
    CutPipeline(r0, env, spec);
  }

  lemma AllActions(spec: Spec)
    ensures Actions(spec) ==
            SecretActions(spec) + CertStage(spec) + ServiceAndRules(FlagsOf(spec)) + ([EnsureRoute] + PolicyActions())
  {
    LateSplits(FlagsOf(spec));
    hide SecretActions, CertStage, ServiceAndRules, LateActions, PolicyActions;
  }
}
