/** Which reason a failed run stores: a table of the objects, over every history. */
module Reasons {
  import opened Objects
  import opened Api
  import opened Contents
  import opened ServiceStatuses
  import opened Pipeline
  import opened Runs
  import opened Phases
  import opened Histories
  import opened Invariants
  import opened CleanRuns
  import opened Closure
  import opened Births
  import opened Origins
  import opened Strandings
  import opened FailureReports

  /** The reason under which the failure of an action is stored. The reasons of the services are those of the list of
      status names, which starts with the namespace step, so that each service is reported under its neighbour's
      name. */
  function ReasonFor(a: Action): string {
    match a
    case Ensure(id, place) => if place == Fallback then FallbackReason(id) else ObjectReason(id)
    case EnsureRoute => "IngressFailed"
    case _ => "CertFailed"
  }

  function FallbackReason(id: Id): string { if id == Tls(Glauth) then "NinegateFailed" else "GlauthFailed" }

  function ObjectReason(id: Id): string {
    match id
    case TheNamespace => "NamespaceFailed"
    case AdminCredentials => "AdminCredentialsFailed"
    case PostgresSecret | RustfsSecret => "RootSecretsFailed"
    case NinegateSecret => "NinegateSecretFailed"
    case CaSecret => "CAFailed"
    case Tls(_) => "CertFailed"
    case PostgresConfig | PostgresSet => "NamespaceFailed"
    case RustfsData => "RedisFailed"
    case Uploads | PublicUploads => "RustFSFailed"
    case GlauthConfig => "NinegateFailed"
    case DexConfig => "GlauthFailed"
    case Deployment(app) => AppReason(app)
    case Service(app) => AppReason(app)
    case IngressFor(_) => "IngressFailed"
    case EgressPolicy | IngressPolicy => "NetworkPolicyFailed"
    case _ => ""
  }

  function AppReason(app: App): string {
    match app
    case Postgresql => "NamespaceFailed"
    case Redis => "PostgreSQLFailed"
    case Rustfs => "RedisFailed"
    case Ninegate => "RustFSFailed"
    case Glauth => "NinegateFailed"
    case Dex => "GlauthFailed"
    case _ => ""
  }

  /** The service on whose account an action fails, if any; only these failures are also noted in the service list. */
  function ServiceFor(a: Action): Option<nat> {
    match a
    case Ensure(id, place) => if place == Fallback then Some(if id == Tls(Glauth) then 4 else 5) else ServiceNumber(id)
    case _ => None
  }

  function ServiceNumber(id: Id): Option<nat> {
    match id
    case PostgresConfig | PostgresSet => Some(0)
    case RustfsData => Some(2)
    case Uploads | PublicUploads => Some(3)
    case GlauthConfig => Some(4)
    case DexConfig => Some(5)
    case Deployment(app) => AppNumber(app)
    case Service(app) => AppNumber(app)
    case _ => None
  }

  function AppNumber(app: App): Option<nat> {
    match app
    case Postgresql => Some(0) case Redis => Some(1) case Rustfs => Some(2)
    case Ninegate => Some(3) case Glauth => Some(4) case Dex => Some(5) case _ => None
  }

  function BlameFor(a: Action): Blame { Blame(ReasonFor(a), ServiceFor(a)) }

  /** The actions that can stop a run with an error. */
  predicate CanFail(a: Action) { a.Ensure? || a.EnsureRoute? || a.LoadCa? }

  /** Along the list, whatever can fail does so under the blame entered last; `blame` is the one at the start. */
  predicate Accounted(blame: Blame, acts: seq<Action>)
    decreases |acts|
  {
    acts == []
    || (if acts[0].Enter? then Accounted(acts[0].blame, acts[1..])
        else (CanFail(acts[0]) ==> blame == BlameFor(acts[0])) && Accounted(blame, acts[1..]))
  }

  ghost predicate SelfAccounted(acts: seq<Action>) { forall blame :: Accounted(blame, acts) }

  lemma {:induction false} AccountedAppend(blame: Blame, a: seq<Action>, b: seq<Action>)
    requires Accounted(blame, a) && SelfAccounted(b)
    ensures Accounted(blame, a + b)
    decreases |a|
  {
    hide BlameFor, CanFail;
    if a == [] {
      assert a + b == b;
    } else {
      assert (a + b)[1..] == a[1..] + b;
      AccountedAppend(if a[0].Enter? then a[0].blame else blame, a[1..], b);
    }
  }

  lemma JoinAccounted(a: seq<Action>, b: seq<Action>)
    requires SelfAccounted(a) && SelfAccounted(b)
    ensures SelfAccounted(a + b)
  {
    hide Accounted;
    forall blame ensures Accounted(blame, a + b) {
      AccountedAppend(blame, a, b);
    }
  }

  /** All that can fail among these actions fails under this blame. */
  predicate AllUnder(blame: Blame, acts: seq<Action>) {
    forall a | a in acts :: !a.Enter? && (CanFail(a) ==> BlameFor(a) == blame)
  }

  lemma {:induction false} UnderAccounted(blame: Blame, acts: seq<Action>)
    requires AllUnder(blame, acts)
    ensures Accounted(blame, acts)
    decreases |acts|
  {
    hide BlameFor, CanFail;
    if acts != [] {
      assert acts[0] in acts;
      UnderAccounted(blame, acts[1..]);
    }
  }

  lemma StageAccounted(blame: Blame, acts: seq<Action>)
    requires AllUnder(blame, acts)
    ensures SelfAccounted([Enter(blame)] + acts)
  {
    hide AllUnder;
    UnderAccounted(blame, acts);
    assert ([Enter(blame)] + acts)[1..] == acts;
  }

  lemma SecretsAccounted(spec: Spec)
    ensures SelfAccounted(SecretActions(spec))
  {
    hide SelfAccounted;
    StageAccounted(Blame("NamespaceFailed", None), [On(TheNamespace), SetNamespace]);
    StageAccounted(Blame("AdminCredentialsFailed", None), AdminActions(spec) + [SetAdminSecretName]);
    StageAccounted(Blame("RootSecretsFailed", None), [ReadPasswords, On(PostgresSecret), On(RustfsSecret)]);
    StageAccounted(Blame("NinegateSecretFailed", None), [On(NinegateSecret)]);
    StageAccounted(Blame("CAFailed", None), [On(CaSecret)]);
    StagesAre(spec);
    hide NamespaceStage, AdminStage, RootStage, NinegateStage, CaStage;
    JoinAccounted(NinegateStage(), CaStage());
    JoinAccounted(RootStage(), NinegateStage() + CaStage());
    JoinAccounted(AdminStage(spec), RootStage() + (NinegateStage() + CaStage()));
    JoinAccounted(NamespaceStage(), AdminStage(spec) + (RootStage() + (NinegateStage() + CaStage())));
  }

  lemma StagesAre(spec: Spec)
    ensures NamespaceStage() == [Enter(Blame("NamespaceFailed", None))] + [On(TheNamespace), SetNamespace]
    ensures RootStage() ==
            [Enter(Blame("RootSecretsFailed", None))] + [ReadPasswords, On(PostgresSecret), On(RustfsSecret)]
    ensures NinegateStage() == [Enter(Blame("NinegateSecretFailed", None))] + [On(NinegateSecret)]
    ensures CaStage() == [Enter(Blame("CAFailed", None))] + [On(CaSecret)]
  {
  }

  lemma CertsAccounted(spec: Spec)
    ensures SelfAccounted(CertStage(spec))
  {
    hide CertActions, SelfAccounted;
    CertsEnsured(FlagsOf(spec));
    StageAccounted(Blame("CertFailed", None), [LoadCa, NeedServices] + CertActions(FlagsOf(spec)));
  }

  /** The reasons of the six services, in start-up order. */
  const SERVICE_REASONS: seq<string> :=
    ["NamespaceFailed", "PostgreSQLFailed", "RedisFailed", "RustFSFailed", "NinegateFailed", "GlauthFailed"]

  lemma ServiceReasons(i: nat)
    requires i < SERVICE_COUNT
    ensures ServiceBlame(i) == Blame(SERVICE_REASONS[i], Some(i))
  {
    match i
    case 0 => assert "Namespace" + "Failed" == "NamespaceFailed";
    case 1 => assert "PostgreSQL" + "Failed" == "PostgreSQLFailed";
    case 2 => assert "Redis" + "Failed" == "RedisFailed";
    case 3 => assert "RustFS" + "Failed" == "RustFSFailed";
    case 4 => assert "Ninegate" + "Failed" == "NinegateFailed";
    case _ => assert "Glauth" + "Failed" == "GlauthFailed";
  }

  lemma ServiceShapes(i: nat, f: ServiceFlags)
    ensures forall a | a in ServiceActions(i, f) ::
              a.Ensure? && if a.place == Fallback then (i, a.id) in {(4, Tls(Glauth)), (5, Tls(Dex))}
                  else a.id in Members(i)
  {
  }

  lemma EarlyReason(i: nat, id: Id)
    requires i < 3 && id in Members(i)
    ensures ObjectReason(id) == SERVICE_REASONS[i] && ServiceNumber(id) == Some(i)
  {
    assert i == 0 || i == 1 || i == 2;
  }

  lemma LateReason(i: nat, id: Id)
    requires 3 <= i < SERVICE_COUNT && id in Members(i)
    ensures ObjectReason(id) == SERVICE_REASONS[i] && ServiceNumber(id) == Some(i)
  {
    assert i == 3 || i == 4 || i == 5;
  }

  lemma FallbackReasons()
    ensures FallbackReason(Tls(Glauth)) == SERVICE_REASONS[4] && FallbackReason(Tls(Dex)) == SERVICE_REASONS[5]
  {
  }

  lemma ServiceUnder(i: nat, f: ServiceFlags)
    requires i < SERVICE_COUNT
    ensures AllUnder(ServiceBlame(i), ServiceActions(i, f) + [ServiceDone(i)])
  {
    ServiceReasons(i);
    ServiceShapes(i, f);
    FallbackReasons();
    hide ServiceBlame, SERVICE_REASONS, ServiceActions, Members, ObjectReason, FallbackReason, ServiceNumber;
    forall a | a in ServiceActions(i, f) + [ServiceDone(i)]
      ensures !a.Enter? && (CanFail(a) ==> BlameFor(a) == ServiceBlame(i))
    {
      if a.Ensure? && a.place != Fallback {
        if i < 3 { EarlyReason(i, a.id); } else { LateReason(i, a.id); }
      }
    }
  }

  lemma {:induction false} StagesAccounted(n: nat, f: ServiceFlags)
    requires n <= SERVICE_COUNT
    ensures SelfAccounted(ServiceStages(n, f))
  {
    if n > 0 {
      hide ServiceActions, ServiceBlame, SelfAccounted, AllUnder;
      StagesAccounted(n - 1, f);
      ServiceUnder(n - 1, f);
      StageAccounted(ServiceBlame(n - 1), ServiceActions(n - 1, f) + [ServiceDone(n - 1)]);
      assert [Enter(ServiceBlame(n - 1))] + (ServiceActions(n - 1, f) + [ServiceDone(n - 1)]) == ServiceStage(n - 1, f);
      JoinAccounted(ServiceStages(n - 1, f), ServiceStage(n - 1, f));
    }
  }

  lemma NetworkAccounted(f: ServiceFlags)
    ensures SelfAccounted(IngressActions(f) + PolicyActions())
  {
    hide SelfAccounted;
    RulesUnder(f);
    hide IngressRules;
    StageAccounted(Blame("IngressFailed", None), IngressRules(f) + [EnsureRoute]);
    StageAccounted(Blame("NetworkPolicyFailed", None), [On(EgressPolicy), On(IngressPolicy)]);
    JoinAccounted(IngressActions(f), PolicyActions());
  }

  lemma RuleShapes(f: ServiceFlags)
    ensures forall a | a in IngressRules(f) :: a.Ensure? && a.id.IngressFor? && a.place == Pipeline
  {
  }

  lemma RulesUnder(f: ServiceFlags)
    ensures AllUnder(Blame("IngressFailed", None), IngressRules(f) + [EnsureRoute])
  {
    RuleShapes(f);
    hide IngressRules;
  }

  /** The pipeline accounts for every failure by the table. */
  lemma ActionsAccounted(spec: Spec)
    ensures SelfAccounted(Actions(spec))
  {
    hide SelfAccounted, SecretActions, CertStage, ServiceStages, IngressActions, PolicyActions;
    var f := FlagsOf(spec);
    SecretsAccounted(spec);
    CertsAccounted(spec);
    StagesAccounted(SERVICE_COUNT, f);
    NetworkAccounted(f);
    JoinAccounted(ServiceStages(SERVICE_COUNT, f), IngressActions(f) + PolicyActions());
    JoinAccounted(CertStage(spec), LateActions(f));
    JoinAccounted(SecretActions(spec), CertStage(spec) + LateActions(f));
  }

  /** A stopped run stopped at some action, and blames it. */
  lemma {:induction false} BlamesIt(r: Run, env: Env, acts: seq<Action>) returns (done: seq<Action>, a: Action)
    requires r.out == Going && RunAll(r, env, acts).out.Stopped? && Accounted(r.blame, acts)
    ensures StopsAt(r, env, acts, done, a) && CanFail(a) && RunAll(r, env, acts).blame == BlameFor(a)
    decreases |acts|
  {
    hide Exec, BlameFor;
    assert acts != [];
    var r1 := Exec(r, env, acts[0]);
    assert RunAll(r, env, acts) == RunAll(r1, env, acts[1..]);
    KeepsBlame(r, env, acts[0]);
    if r1.out == Going {
      done, a := BlamesIt(r1, env, acts[1..]);
      Cons(r, env, acts[0], done);
      assert [acts[0]] + done + [a] == [acts[0]] + (done + [a]);
      done := [acts[0]] + done;
    } else {
      done, a := [], acts[0];
      Frame(r1, env, acts[1..]);
      WhoFails(r, env, a);
      hide RunAll;
      NoActionsYet(r, env);
    }
  }

  lemma WhoFails(r: Run, env: Env, a: Action)
    requires r.out == Going && Exec(r, env, a).out.Stopped?
    ensures CanFail(a)
  {
    hide EnsureObject, EnsureLdapsRoute, Upsert, ServiceName;
  }

  // ---- What else the stored status says -----------------------------------------------------------------------

  /** The namespace and the admin secret are recorded by the two actions that do so, and kept. */
  lemma {:induction false} RunRecords(r: Run, env: Env, acts: seq<Action>)
    requires RunAll(r, env, acts).out == Going
    ensures var status := RunAll(r, env, acts).cn.status;
            && status.namespace == (if SetNamespace in acts then NsName(r.cn.name) else r.cn.status.namespace)
            && status.adminSecretName ==
               (if SetAdminSecretName in acts then "admin-credentials" else r.cn.status.adminSecretName)
    decreases |acts|
  {
    hide Exec;
    if acts != [] {
      var r1 := Exec(r, env, acts[0]);
      ExecFacts(r, env, acts[0]);
      ExecRecords(r, env, acts[0]);
      Frame(r1, env, acts[1..]);
      RunRecords(r1, env, acts[1..]);
    }
  }

  lemma ExecRecords(r: Run, env: Env, a: Action)
    ensures var r' := Exec(r, env, a);
            && (r.out != Going ==> r' == r)
            && (r.out == Going ==>
                  && r'.cn.status.namespace == (if a == SetNamespace then NsName(r.cn.name) else r.cn.status.namespace)
                  && r'.cn.status.adminSecretName ==
                     (if a == SetAdminSecretName then "admin-credentials" else r.cn.status.adminSecretName))
  {
    hide EnsureObject, EnsureLdapsRoute, Upsert, ServiceName, NsName;
  }

  /** Where the two are recorded. */
  lemma RecordingPlaces(spec: Spec)
    ensures var acts := Actions(spec); var k := if spec.passwordSecretRef then 4 else 5;
            && |acts| > 5 && acts[1] == On(TheNamespace) && acts[2] == SetNamespace && acts[k] == SetAdminSecretName
            && acts[0].Enter? && acts[3].Enter? && (k == 5 ==> acts[4] == On(AdminCredentials))
  {
    hide RootStage, NinegateStage, CaStage, CertStage, LateActions;
    var rest := RootStage() + (NinegateStage() + CaStage());
    var start := NamespaceStage() + AdminStage(spec);
    SomeRest();
    assert Actions(spec) == start + (rest + (CertStage(spec) + LateActions(FlagsOf(spec))));
    assert start[3] == AdminStage(spec)[0] && start[4] == AdminStage(spec)[1];
    assert !spec.passwordSecretRef ==> start[5] == AdminStage(spec)[2];
  }

  lemma SomeRest()
    ensures |RootStage() + (NinegateStage() + CaStage())| > 1
  {
  }

  lemma RecordedSoFar(spec: Spec, done: seq<Action>, a: Action)
    requires done + [a] <= Actions(spec) && CanFail(a)
    ensures SetNamespace in done <==> a != On(TheNamespace)
    ensures SetAdminSecretName in done <==> a !in {On(TheNamespace), On(AdminCredentials)}
  {
    hide Actions;
    RecordingPlaces(spec);
    var acts := Actions(spec);
    var k := if spec.passwordSecretRef then 4 else 5;
    assert a == (done + [a])[|done|] == acts[|done|];
    assert forall i | 0 <= i < |done| :: done[i] == (done + [a])[i] == acts[i];
    OnlyOnce(spec, 1, TheNamespace);
    assert Target(On(TheNamespace)) == Some(TheNamespace) && Target(On(AdminCredentials)) == Some(AdminCredentials);
    if |done| > 2 {
      assert acts[1 + 1..][|done| - 2] == acts[|done|] == a;
    }
    if k == 5 {
      OnlyOnce(spec, 4, AdminCredentials);
      if |done| > 4 {
        assert acts[4 + 1..][|done| - 5] == acts[|done|] == a;
      }
    } else {
      NoAdminAction(spec);
      assert a in acts;
    }
  }

  /** The status a failure stores, by the action that failed. */
  ghost predicate TellsFailure(w: World, before: Status, me: string, a: Action, error: Err) {
    && w.cr.Some? && w.cr.value.status.phase == Phase.Failed
    && w.cr.value.status.conditions == [Condition("Ready", false, ReasonFor(a), Some(error))]
    && w.cr.value.status.namespace == (if a == On(TheNamespace) then before.namespace else me + "-ns")
    && w.cr.value.status.adminSecretName ==
       (if a in {On(TheNamespace), On(AdminCredentials)} then before.adminSecretName else "admin-credentials")
    && (ServiceFor(a).Some? ==> NamesService(w, before, ServiceFor(a).value, error))
    && w.cr.value.status.endpoint == before.endpoint
  }

  /** Every failure, over every history: a run that stops with an error stopped at one action, right after those that
      got through; if the process lives and its last writes allow, the stored status gives that action's reason by the
      table, and the error; it names the namespace and the admin secret exactly if their steps were passed; and a
      failure on a service's account is noted in the service list. */
  lemma EveryFailureHasItsReason(w0: World, steps: seq<Step>, env: Env) returns (done: seq<Action>, a: Action)
    requires Fresh(w0) && Play(w0, steps).cr.Some? && Begin(Play(w0, steps), env).Some?
    requires PipelineOf(Play(w0, steps), env).out.Stopped?
    ensures var w := Play(w0, steps); var r := PipelineOf(w, env);
            && StopsAt(Begin(w, env).value, env, Actions(w.cr.value.spec), done, a) && CanFail(a)
            && (r.w.alive && Records(env, ServiceFor(a).Some?) ==>
                  TellsFailure(Reconcile(w, env), w.cr.value.status, w0.me, a, r.out.error))
  {
    hide Play, Reconcile, Actions, Begin, StopsAt, Records, ReasonFor, ServiceFor, TellsFailure, PipelineOf;
    HistoryIsCoherent(w0, steps);
    PlayKeepsManaged(w0, steps);
    var w := Play(w0, steps);
    done, a := WhereAndWhy(w, env);
    if PipelineOf(w, env).w.alive && Records(env, ServiceFor(a).Some?) {
      TellsIt(w, env, done, a);
    }
  }

  lemma WhereAndWhy(w: World, env: Env) returns (done: seq<Action>, a: Action)
    requires Managed(w) && Begin(w, env).Some? && PipelineOf(w, env).out.Stopped?
    ensures StopsAt(Begin(w, env).value, env, Actions(w.cr.value.spec), done, a) && CanFail(a)
    ensures PipelineOf(w, env).blame == BlameFor(a)
  {
    hide RunAll, Actions, Reconcile, Begin, Finish, StopsAt, BlameFor, CanFail, Accounted;
    var began, r0 := ReconcileShape(w, env);
    ActionsAccounted(w.cr.value.spec);
    done, a := BlamesIt(r0, env, Actions(w.cr.value.spec));
  }

  lemma TellsIt(w: World, env: Env, done: seq<Action>, a: Action)
    requires Managed(w) && Coherent(w.cr.value.status) && Begin(w, env).Some? && PipelineOf(w, env).out.Stopped?
    requires StopsAt(Begin(w, env).value, env, Actions(w.cr.value.spec), done, a) && CanFail(a)
    requires PipelineOf(w, env).blame == BlameFor(a)
    requires PipelineOf(w, env).w.alive && Records(env, ServiceFor(a).Some?)
    ensures TellsFailure(Reconcile(w, env), w.cr.value.status, w.me, a, PipelineOf(w, env).out.error)
  {
    hide RunAll, Exec, Actions, Reconcile, Begin, Finish, Records, ReasonFor, ServiceFor, CanFail, NamesService, Upsert;
    hide ServiceName, AllReady;
    var acts := Actions(w.cr.value.spec);
    var began, r0 := ReconcileShape(w, env);
    var r := RunAll(r0, env, acts);
    Frame(r0, env, acts);
    FailureIsStored(r, env, r.out.error);
    RunRecords(r0, env, done);
    ExecRecords(RunAll(r0, env, done), env, a);
    CannotRecord(a);
    RecordedSoFar(w.cr.value.spec, done, a);
    FinishKeeps(r, env);
    if ServiceFor(a).Some? {
      var i, _, _ := WhereItStopped(w, env);
      SameService(a, i);
      StoredReport(w, env, i);
    }
  }

  lemma CannotRecord(a: Action)
    requires CanFail(a)
    ensures a != SetNamespace && a != SetAdminSecretName
  {
  }

  lemma SameService(a: Action, i: nat)
    requires BlameFor(a) == ServiceBlame(i)
    ensures ServiceFor(a) == Some(i)
  {
    hide ServiceName, ReasonFor, ServiceFor;
  }

  /** A stored failure keeps the rest of the run's status. */
  lemma FinishKeeps(r: Run, env: Env)
    requires r.w.alive && r.out.Stopped? && Records(env, r.blame.svc.Some?)
    requires r.w.cr.Some? && r.cn.version == r.w.cr.value.version
    requires Coherent(r.cn.status) && r.cn.status.phase in {Provisioning, Phase.Failed}
    ensures var w := Finish(r, env);
            && w.cr.Some? && w.cr.value.status.namespace == r.cn.status.namespace
            && w.cr.value.status.adminSecretName == r.cn.status.adminSecretName
            && w.cr.value.status.endpoint == r.cn.status.endpoint
  {
    hide StatusUpdate, SetFailed, Upsert, ServiceName, Coherent, DistinctConditionTypes;
    AtMostOneCondition(r.cn.status);
    var error := r.out.error;
    var w1, cn1 := r.w, r.cn;
    if r.blame.svc.Some? {
      var i := r.blame.svc.value;
      cn1 := r.cn.(status :=
          r.cn.status.(services := Upsert(r.cn.status.services, ServiceName(i), false, Some(error))));
      StatusEffect(r.w, env, ServiceWrite, cn1);
      var reported := ReportService(r.w, r.cn, env, i, error);
      w1, cn1 := reported.0, reported.1;
    }
    SameCoherence(r.cn.status, cn1.status);
    FailedWriteKeeps(w1, cn1, env, r.blame.reason, error);
  }

  lemma FailedWriteKeeps(w: World, cn: CR, env: Env, reason: string, error: Err)
    requires w.cr.Some? && Coherent(cn.status) && cn.status.phase in {Provisioning, Phase.Failed}
    requires w.alive && cn.version == w.cr.value.version && FaultAt(env, FailedWrite) in EFFECTIVE
    ensures var w' := SetFailed(w, cn, env, reason, error);
            && w'.cr.Some? && w'.cr.value.status.namespace == cn.status.namespace
            && w'.cr.value.status.adminSecretName == cn.status.adminSecretName
            && w'.cr.value.status.endpoint == cn.status.endpoint
  {
    hide StatusUpdate, Coherent, FailedConditions;
    FailedIsCoherent(cn.status, reason, error);
    StatusEffect(w, env, FailedWrite, cn.(status := FailedStatus(cn.status, reason, error)));
  }
}
