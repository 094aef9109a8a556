/** What a run that fails in a service leaves in the stored status. */
module FailureReports {
  import opened Objects
  import opened Api
  import opened Contents
  import opened ServiceStatuses
  import opened Pipeline
  import opened Runs
  import opened Phases
  import opened Histories
  import opened Prefix
  import opened Invariants
  import opened Completeness
  import opened CleanRuns
  import opened Recovery
  import opened Closure
  import opened Strandings

  /** No action in the list belongs to a service. */
  predicate NoService(acts: seq<Action>) {
    forall a | a in acts :: !a.ServiceDone? && (a.Enter? ==> a.blame.svc.None?)
  }

  lemma {:induction false} NoServiceNoBlame(r: Run, env: Env, acts: seq<Action>)
    requires NoService(acts) && r.blame.svc.None?
    ensures var r' := RunAll(r, env, acts);
            r'.blame.svc.None? && r'.cn.status.services == r.cn.status.services
    decreases |acts|
  {
    if acts != [] {
      KeepsBlame(r, env, acts[0]);
      ExecFacts(r, env, acts[0]);
      hide Exec;
      NoServiceNoBlame(Exec(r, env, acts[0]), env, acts[1..]);
    }
  }

  lemma KeepsBlame(r: Run, env: Env, a: Action)
    ensures Exec(r, env, a).blame == if r.out == Going && a.Enter? then a.blame else r.blame
  {
    hide EnsureObject, EnsureLdapsRoute, Upsert, ServiceName, Mine;
  }

  /** Inside one service stage: the blame is the service's, the list is untouched. */
  lemma {:induction false} Quiet(r: Run, env: Env, acts: seq<Action>)
    requires forall a | a in acts :: a.Ensure?
    ensures var r' := RunAll(r, env, acts);
            r'.blame == r.blame && r'.cn.status.services == r.cn.status.services
    decreases |acts|
  {
    if acts != [] {
      KeepsBlame(r, env, acts[0]);
      ExecFacts(r, env, acts[0]);
      hide Exec;
      Quiet(Exec(r, env, acts[0]), env, acts[1..]);
    }
  }

  lemma ServiceEnsures(i: nat, f: ServiceFlags)
    ensures forall a | a in ServiceActions(i, f) :: a.Ensure?
  {
  }

  /** The run got through `done` and stopped at `a`, the action after it. */
  predicate StopsAt(r: Run, env: Env, acts: seq<Action>, done: seq<Action>, a: Action) {
    && done + [a] <= acts && RunAll(r, env, done).out == Going
    && RunAll(r, env, acts) == Exec(RunAll(r, env, done), env, a) && RunAll(r, env, acts).out != Going
  }

  lemma {:induction false} WhereStopped(r: Run, env: Env, acts: seq<Action>) returns (done: seq<Action>, a: Action)
    requires r.out == Going && RunAll(r, env, acts).out != Going
    ensures StopsAt(r, env, acts, done, a)
    decreases |acts|
  {
    hide Exec;
    assert acts != [];
    var r1 := Exec(r, env, acts[0]);
    assert RunAll(r, env, acts) == RunAll(r1, env, acts[1..]);
    if r1.out == Going {
      done, a := WhereStopped(r1, env, acts[1..]);
      Cons(r, env, acts[0], done);
      assert [acts[0]] + done + [a] == [acts[0]] + (done + [a]);
      done := [acts[0]] + done;
    } else {
      done, a := [], acts[0];
      Frame(r1, env, acts[1..]);
      hide RunAll;
      NoActionsYet(r, env);
    }
  }

  lemma NoActionsYet(r: Run, env: Env)
    ensures RunAll(r, env, []) == r
  {
  }

  lemma StopsLater(r: Run, env: Env, front: seq<Action>, acts: seq<Action>, rest: seq<Action>, done: seq<Action>,
      a: Action)
    requires RunAll(r, env, front).out == Going && StopsAt(RunAll(r, env, front), env, acts, done, a)
    ensures StopsAt(r, env, front + (acts + rest), front + done, a)
    ensures RunAll(r, env, front + (acts + rest)) == RunAll(RunAll(r, env, front), env, acts)
  {
    hide Exec, RunAll;
    var r1 := RunAll(r, env, front);
    Split(r, env, front, acts + rest);
    Split(r1, env, acts, rest);
    Frame(RunAll(r1, env, acts), env, rest);
    Split(r, env, front, done);
    assert front + done + [a] == front + (done + [a]);
  }

  /** A stage that stops, stops at an action of its service, before the service is marked done. */
  lemma StageStops(r: Run, env: Env, i: nat, f: ServiceFlags) returns (done: seq<Action>, a: Action)
    requires r.out == Going && RunAll(r, env, ServiceStage(i, f)).out != Going
    ensures var r' := RunAll(r, env, ServiceStage(i, f));
            r'.blame == ServiceBlame(i) && r'.cn.status.services == r.cn.status.services
    ensures StopsAt(r, env, ServiceStage(i, f), done, a) && a in ServiceActions(i, f)
  {
    hide ServiceActions, ServiceBlame, ServiceName, Upsert, Exec;
    var enter, acts := Enter(ServiceBlame(i)), ServiceActions(i, f);
    ServiceEnsures(i, f);
    var r1 := Exec(r, env, enter);
    KeepsBlame(r, env, enter);
    ExecFacts(r, env, enter);
    EnterGoesOn(r, env, ServiceBlame(i));
    Quiet(r1, env, acts);
    var r2 := RunAll(r1, env, acts);
    NoActionsYet(r1, env);
    Cons(r, env, enter, []);
    assert [enter] + [] == [enter];
    Split(r, env, [enter] + acts, [ServiceDone(i)]);
    Cons(r, env, enter, acts);
    NoActionsYet(Exec(r2, env, ServiceDone(i)), env);
    Cons(r2, env, ServiceDone(i), []);
    assert [ServiceDone(i)] + [] == [ServiceDone(i)];
    DoneGoesOn(r2, env, i);
    done, a := WhereStopped(r1, env, acts);
    assert a == (done + [a])[|done|] == acts[|done|];
    StopsLater(r, env, [enter], acts, [ServiceDone(i)], done, a);
    assert [enter] + (acts + [ServiceDone(i)]) == ServiceStage(i, f);
    done := [enter] + done;
  }

  lemma EnterGoesOn(r: Run, env: Env, blame: Blame)
    ensures Exec(r, env, Enter(blame)).out == r.out
  {
  }

  lemma DoneGoesOn(r: Run, env: Env, i: nat)
    ensures Exec(r, env, ServiceDone(i)).out == r.out
    ensures r.out != Going ==> Exec(r, env, ServiceDone(i)) == r
  {
    hide Upsert, ServiceName;
  }

  /** Where the service loop stopped: at an action of service `i`, after all stages before it; the services before are
      marked ready, and nothing else changed in the list. */
  lemma {:induction false} StagesStop(r: Run, env: Env, n: nat, f: ServiceFlags)
      returns (i: nat, done: seq<Action>, a: Action)
    requires r.out == Going && RunAll(r, env, ServiceStages(n, f)).out != Going
    ensures i < n && ServiceStages(i, f) <= done && a in ServiceActions(i, f)
    ensures StopsAt(r, env, ServiceStages(n, f), done, a)
    ensures var r' := RunAll(r, env, ServiceStages(n, f));
            r'.blame == ServiceBlame(i) && r'.cn.status.services == AllReady(r.cn.status.services, i)
  {
    hide Exec, ServiceStage, ServiceBlame, ServiceName, ServiceActions, Upsert, AllReady;
    assert n > 0;
    var front, stage := ServiceStages(n - 1, f), ServiceStage(n - 1, f);
    assert ServiceStages(n, f) == front + stage;
    Split(r, env, front, stage);
    var r1 := RunAll(r, env, front);
    hide RunAll, ServiceStages;
    if r1.out == Going {
      i := n - 1;
      RunMarks(r, env, front);
      StageMarks(r.cn.status, r.cn.name, n - 1, f);
      done, a := StageStops(r1, env, n - 1, f);
      StopsLater(r, env, front, stage, [], done, a);
      assert front + (stage + []) == front + stage;
      done := front + done;
    } else {
      i, done, a := StagesStop(r, env, n - 1, f);
      Frame(r1, env, stage);
      StopsEarlier(r, env, front, stage, done, a);
    }
  }

  lemma StopsEarlier(r: Run, env: Env, acts: seq<Action>, rest: seq<Action>, done: seq<Action>, a: Action)
    requires StopsAt(r, env, acts, done, a)
    ensures StopsAt(r, env, acts + rest, done, a) && RunAll(r, env, acts + rest) == RunAll(r, env, acts)
  {
    hide Exec, RunAll;
    Split(r, env, acts, rest);
    Frame(RunAll(r, env, acts), env, rest);
  }

  lemma EarlyIsNoService(spec: Spec)
    ensures NoService(SecretActions(spec) + CertStage(spec))
  {
    hide SecretActions, CertActions;
    SecretsAreNoService(spec);
    CertsEnsured(FlagsOf(spec));
    assert NoService(CertStage(spec));
  }

  lemma SecretsAreNoService(spec: Spec)
    ensures NoService(SecretActions(spec))
  {
    assert NoService(NamespaceStage()) && NoService(AdminStage(spec)) && NoService(RootStage());
    assert NoService(NinegateStage()) && NoService(CaStage());
    hide NamespaceStage, AdminStage, RootStage, NinegateStage, CaStage;
  }

  lemma NetworkIsNoService(f: ServiceFlags)
    ensures NoService(IngressActions(f) + PolicyActions())
  {
    assert NoService(IngressRules(f)) && NoService(PolicyActions());
    hide IngressRules, PolicyActions;
    assert NoService([Enter(Blame("IngressFailed", None))]) && NoService([EnsureRoute]);
  }

  lemma NetworkClearsBlame(r: Run, env: Env, f: ServiceFlags)
    requires r.out == Going
    ensures RunAll(r, env, IngressActions(f) + PolicyActions()).blame.svc.None?
  {
    NetworkIsNoService(f);
    var acts := IngressActions(f) + PolicyActions();
    var enter := Enter(Blame("IngressFailed", None));
    assert acts[0] == enter;
    KeepsBlame(r, env, enter);
    hide Exec, IngressActions, PolicyActions;
    NoServiceNoBlame(Exec(r, env, enter), env, acts[1..]);
  }

  /** A run that fails on a service's account got through the earlier services and stopped in that one. */
  lemma StoppedWhere(r: Run, env: Env, spec: Spec) returns (i: nat, done: seq<Action>, a: Action)
    requires r.out == Going && r.blame.svc.None? && RunAll(r, env, Actions(spec)).out.Stopped?
    requires RunAll(r, env, Actions(spec)).blame.svc.Some?
    ensures i < SERVICE_COUNT && a in ServiceActions(i, FlagsOf(spec)) && StopsAt(r, env, Actions(spec), done, a)
    ensures forall x | x in ServiceStages(i, FlagsOf(spec)) :: x in done
    ensures var r' := RunAll(r, env, Actions(spec));
            r'.blame == ServiceBlame(i) && r'.cn.status.services == AllReady(r.cn.status.services, i)
  {
    hide RunAll, SecretActions, CertStage, ServiceStages, IngressActions, PolicyActions, ServiceBlame, AllReady,
         StopsAt;
    var f := FlagsOf(spec);
    var early, stages, network :=
      SecretActions(spec) + CertStage(spec), ServiceStages(SERVICE_COUNT, f), IngressActions(f) + PolicyActions();
    assert Actions(spec) == early + (stages + network);
    Split(r, env, early, stages + network);
    EarlyIsNoService(spec);
    NoServiceNoBlame(r, env, early);
    var r1 := RunAll(r, env, early);
    Frame(r1, env, stages + network);
    Split(r1, env, stages, network);
    var r2 := RunAll(r1, env, stages);
    Frame(r2, env, network);
    if r2.out == Going {
      NetworkClearsBlame(r2, env, f);
    }
    i, done, a := StagesStop(r1, env, SERVICE_COUNT, f);
    StopsLater(r, env, early, stages, network, done, a);
    done := early + done;
  }

  lemma InStage(j: nat, f: ServiceFlags, a: Action)
    requires a in ServiceActions(j, f)
    ensures a in ServiceStage(j, f)
  {
    hide ServiceActions, ServiceBlame;
  }

  lemma {:induction false} InStages(j: nat, n: nat, f: ServiceFlags, a: Action)
    requires j < n && a in ServiceActions(j, f)
    ensures a in ServiceStages(n, f)
  {
    hide ServiceActions, ServiceBlame, ServiceStage;
    assert ServiceStages(n, f) == ServiceStages(n - 1, f) + ServiceStage(n - 1, f);
    hide ServiceStages;
    if j == n - 1 {
      InStage(j, f, a);
    } else {
      InStages(j, n - 1, f, a);
    }
  }

  /** The objects of the services before the failing one exist. */
  lemma EarlierServicesExist(r: Run, env: Env, acts: seq<Action>, i: nat, f: ServiceFlags, done: seq<Action>, a: Action,
                             j: nat, id: Id)
    requires StopsAt(r, env, acts, done, a) && (forall x | x in ServiceStages(i, f) :: x in done)
    requires j < i && Enabled(j, f) && id in Members(j)
    ensures K(r.w, id) in Mine(RunAll(r, env, acts).w)
  {
    hide ServiceStages, Exec, RunAll, Mine, Members, Enabled;
    MembersAll(j, f, id);
    InStages(j, i, f, On(id));
    Done(r, env, done, On(id));
    Frame(r, env, done);
    var r' := RunAll(r, env, done);
    ExecFacts(r', env, a);
  }

  /** The stored status names service `i` and the error, and accounts for every service; `before` is the status the run
      started with. */
  ghost predicate NamesService(w: World, before: Status, i: nat, error: Err) {
    && w.cr.Some? && w.cr.value.status.phase == Phase.Failed
    && w.cr.value.status.conditions == [Condition("Ready", false, ServiceName(i) + "Failed", Some(error))]
    && (forall name :: Lookup(w.cr.value.status.services, name) ==
          if NamedBelow(name, i) then Some((true, None))
          else if name == ServiceName(i) then Some((false, Some(error)))
          else Lookup(before.services, name))
  }

  /** The pipeline of a run that gets to provisioning. */
  function PipelineOf(w: World, env: Env): Run
    requires w.cr.Some? && Begin(w, env).Some?
  {
    RunAll(Begin(w, env).value, env, Actions(w.cr.value.spec))
  }

  /** A service failure, as a run from any reachable state stores it. If the run stopped on a service's account, then
      `i` is the service whose action `a` failed, the action right after those that got through, and the objects of the
      services before `i` exist. If the process lives and its last status writes allow, the stored phase is Failed, with
      one Ready condition naming the service and the error; the services before `i` are ready, `i` is not, with its
      error, and every other entry of the list is as it was. Otherwise phase and conditions stay. */
  lemma ServiceFailureIsReported(w0: World, steps: seq<Step>, env: Env)
      returns (i: nat, done: seq<Action>, a: Action)
    requires Fresh(w0) && Play(w0, steps).cr.Some? && Begin(Play(w0, steps), env).Some?
    requires PipelineOf(Play(w0, steps), env).out.Stopped? && PipelineOf(Play(w0, steps), env).blame.svc.Some?
    ensures var w := Play(w0, steps); var spec := w.cr.value.spec;
            && i < SERVICE_COUNT && a in ServiceActions(i, FlagsOf(spec))
            && StopsAt(Begin(w, env).value, env, Actions(spec), done, a)
            && PipelineOf(w, env).blame == ServiceBlame(i)
            && (forall j, id | 0 <= j < i && Enabled(j, FlagsOf(spec)) && id in Members(j) ::
                  K(w, id) in Mine(Reconcile(w, env)))
    ensures var w := Play(w0, steps); var w' := Reconcile(w, env); var r := PipelineOf(w, env);
            if r.w.alive && Records(env, true) then NamesService(w', w.cr.value.status, i, r.out.error)
            else && w'.cr.Some? && w'.cr.value.status.phase == Started(w.cr.value.status).phase
                 && w'.cr.value.status.conditions == w.cr.value.status.conditions
  {
    hide Play, Reconcile, PipelineOf, Actions, Begin, NamesService, StopsAt, ServiceActions, Records;
    HistoryIsCoherent(w0, steps);
    i, done, a := WhereItStopped(Play(w0, steps), env);
    StoredReport(Play(w0, steps), env, i);
  }

  lemma WhereItStopped(w: World, env: Env) returns (i: nat, done: seq<Action>, a: Action)
    requires Managed(w) && Begin(w, env).Some?
    requires PipelineOf(w, env).out.Stopped? && PipelineOf(w, env).blame.svc.Some?
    ensures var spec := w.cr.value.spec;
            && i < SERVICE_COUNT && a in ServiceActions(i, FlagsOf(spec))
            && StopsAt(Begin(w, env).value, env, Actions(spec), done, a)
            && PipelineOf(w, env).blame == ServiceBlame(i)
            && PipelineOf(w, env).cn.status.services == AllReady(w.cr.value.status.services, i)
            && (forall j, id | 0 <= j < i && Enabled(j, FlagsOf(spec)) && id in Members(j) ::
                  K(w, id) in Mine(Reconcile(w, env)))
  {
    hide RunAll, Actions, Reconcile, Begin, Finish, AllReady, StopsAt, ServiceActions, Mine, Members, Enabled;
    var spec := w.cr.value.spec;
    var began, r0 := ReconcileShape(w, env);
    var acts := Actions(spec);
    i, done, a := StoppedWhere(r0, env, spec);
    FinishFacts(RunAll(r0, env, acts), env);
    Frame(r0, env, acts);
    forall j, id | 0 <= j < i && Enabled(j, FlagsOf(spec)) && id in Members(j)
        ensures K(w, id) in Mine(Reconcile(w, env)) {
      EarlierServicesExist(r0, env, acts, i, FlagsOf(spec), done, a, j, id);
    }
  }

  lemma StoredReport(w: World, env: Env, i: nat)
    requires Managed(w) && Coherent(w.cr.value.status) && Begin(w, env).Some?
    requires PipelineOf(w, env).out.Stopped? && PipelineOf(w, env).blame == ServiceBlame(i)
    requires PipelineOf(w, env).cn.status.services == AllReady(w.cr.value.status.services, i)
    ensures var w' := Reconcile(w, env); var r := PipelineOf(w, env);
            if r.w.alive && Records(env, true) then NamesService(w', w.cr.value.status, i, r.out.error)
            else && w'.cr.Some? && w'.cr.value.status.phase == Started(w.cr.value.status).phase
                 && w'.cr.value.status.conditions == w.cr.value.status.conditions
  {
    hide RunAll, Actions, Reconcile, Begin, Finish, AllReady, Upsert, ServiceName, Lookup, NamedBelow, Mine, Records;
    var began, r0 := ReconcileShape(w, env);
    var acts := Actions(w.cr.value.spec);
    var r := RunAll(r0, env, acts);
    Frame(r0, env, acts);
    if r.w.alive {
      FailureIsStored(r, env, r.out.error);
      var list := w.cr.value.status.services;
      forall name {
        FailureAt(list, i, r.out.error, name);
      }
    } else {
      DeadFinish(r, env);
    }
  }

  // ---- Names that mislead -----------------------------------------------------------------------------------

  /** One call fails without effect; nothing else goes wrong. */
  function OneDrop(s: Site): Env { PEACE.(faults := map[s := Drop]) }

  /** The conditions of a client that failed for this reason. */
  function FailedFor(reason: string, error: Err): seq<Condition> { [Condition("Ready", false, reason, Some(error))] }

  /** The create of an object that can be built is dropped. */
  lemma DroppedCreate(r: Run, env: Env, id: Id, have: set<Id>)
    requires Up(r, have, false) && Feasible(On(id), have, false) && Random(env) && !Has(Mine(r.w), r.w.me, id)
    requires id in {TheNamespace, PostgresConfig} && env.faults == map[Creating(id, Pipeline) := Drop]
    ensures var r' := Exec(r, env, On(id));
            r' == r.(w := r'.w, out := Stopped(Transient)) && r'.w.alive && r'.w.me == r.w.me && Mine(r'.w) == Mine(r.w)
  {
    hide PlainPayload, LabelsFor, Mine;
    ExecFacts(r, env, On(id));
    GetAbsent(r.w, env, Reading(id, Pipeline), id);
    CreateRefused(Get(r.w, env, Reading(id, Pipeline), K(r.w, id)).0, env, Creating(id, Pipeline), K(r.w, id),
                  Obj(LabelsFor(r.cn.name, id, Pipeline), PlainPayload(r.cn, r.loc, env, id)));
  }

  lemma GetAbsent(w: World, env: Env, s: Site, id: Id)
    requires w.alive && FaultAt(env, s) == Clean && !Has(Mine(w), w.me, id)
    ensures var (w1, g) := Get(w, env, s, K(w, id)); g == Missed(NotFound) && w1.alive
  {
    var wi := Interfere(w, env, s);
    assert K(w, id) in wi.store <==> K(w, id) in Mine(wi);
  }

  /** A stopped action ends the whole list. */
  lemma StopsHere(r: Run, env: Env, front: seq<Action>, a: Action, rest: seq<Action>)
    requires RunAll(r, env, front).out == Going && Exec(RunAll(r, env, front), env, a).out != Going
    ensures RunAll(r, env, front + ([a] + rest)) == Exec(RunAll(r, env, front), env, a)
  {
    hide Exec, RunAll;
    var r1 := RunAll(r, env, front);
    Split(r, env, front, [a] + rest);
    Cons(r1, env, a, rest);
    Frame(Exec(r1, env, a), env, rest);
  }

  /** What a stopped run stores. */
  lemma StoresFailure(w: World, env: Env, error: Err)
    requires Managed(w) && Coherent(w.cr.value.status) && Begin(w, env).Some?
    requires FaultAt(env, ServiceWrite) == Clean && FaultAt(env, FailedWrite) == Clean
    requires var r := RunAll(Begin(w, env).value, env, Actions(w.cr.value.spec)); r.out == Stopped(error) && r.w.alive
    ensures var r := RunAll(Begin(w, env).value, env, Actions(w.cr.value.spec)); var w' := Reconcile(w, env);
            && w'.cr.Some? && w'.cr.value.status.phase == Phase.Failed
            && w'.cr.value.status.conditions == FailedFor(r.blame.reason, error)
            && Mine(w') == Mine(r.w)
  {
    hide Reconcile, Finish, Begin, RunAll, Actions, Upsert, ServiceName, Mine;
    var began, r0 := ReconcileShape(w, env);
    Frame(r0, env, Actions(w.cr.value.spec));
    FailureIsStored(RunAll(r0, env, Actions(w.cr.value.spec)), env, error);
    FinishFacts(RunAll(r0, env, Actions(w.cr.value.spec)), env);
  }

  /** A new client's run gets to provisioning. */
  lemma FreshBegins(w: World, env: Env)
    requires Fresh(w) && Begins(env)
    ensures Begin(w, env).Some?
    ensures var r := Begin(w, env).value;
            && Up(r, {}, false) && Fine(r, env, NO_PROMISE, Nothing()) && r.cn.spec == w.cr.value.spec
            && r.w.me == w.me && Mine(r.w) == map[]
  {
    hide Reconcile, Begin, Sane, Begins;
    var began, r0 := ReconcileShape(w, env);
    FreshRunIsFine(w, r0, env);
  }

  lemma NamespacePipeline(r: Run, env: Env, spec: Spec)
    requires Up(r, {}, false) && OnlyAt(env, TheNamespace) && !Has(Mine(r.w), r.w.me, TheNamespace)
    requires env.faults == map[Creating(TheNamespace, Pipeline) := Drop]
    ensures var r' := RunAll(r, env, Actions(spec));
            && r'.out == Stopped(Transient) && r'.w.alive && r'.blame.reason == "NamespaceFailed" && r'.w.me == r.w.me
            && !Has(Mine(r'.w), r.w.me, TheNamespace)
  {
    hide Exec, Actions, Mine, RunAll, Up, OnlyAt, Random, FaultAt, AfterNamespace;
    var enter := Enter(Blame("NamespaceFailed", None));
    EntersUp(r, env, enter.blame, {});
    AfterEnter(r, env, [], enter);
    NoActionsYet(r, env);
    assert [] + [enter] == [enter];
    OnlyAtIsRandom(env, TheNamespace);
    DroppedCreate(r.(blame := enter.blame), env, TheNamespace, {});
    NamespaceComesFirst(spec);
    StopsHere(r, env, [enter], On(TheNamespace), AfterNamespace(spec));
  }

  /** A new client whose namespace create is dropped: Failed, "NamespaceFailed", and no namespace. */
  lemma NamespaceDropped(w: World)
    requires Fresh(w)
    ensures var w' := Reconcile(w, OneDrop(Creating(TheNamespace, Pipeline)));
            && w'.cr.Some? && w'.cr.value.status.phase == Phase.Failed
            && w'.cr.value.status.conditions == FailedFor("NamespaceFailed", Transient)
            && K(w, TheNamespace) !in Mine(w')
  {
    hide Reconcile, Begin, Exec, Actions, OneDrop, Begins, FaultAt, RunAll, Fine, Up, OnlyAt, FailedFor;
    var env := OneDrop(Creating(TheNamespace, Pipeline));
    OneDropBegins(Creating(TheNamespace, Pipeline));
    FreshBegins(w, env);
    NamespacePipeline(Begin(w, env).value, env, w.cr.value.spec);
    StoresFailure(w, env, Transient);
  }

  lemma OneDropBegins(s: Site)
    requires s.Creating?
    ensures var env := OneDrop(s);
            && Begins(env) && Random(env) && env.faults == map[s := Drop]
            && FaultAt(env, ServiceWrite) == Clean && FaultAt(env, FailedWrite) == Clean
    ensures s.place == Pipeline ==> OnlyAt(OneDrop(s), s.id)
  {
  }

  /** Everything after the creation of the namespace. */
  function AfterNamespace(spec: Spec): seq<Action> {
    var secrets := AdminStage(spec) + (RootStage() + (NinegateStage() + CaStage()));
    [SetNamespace] + (secrets + (CertStage(spec) + LateActions(FlagsOf(spec))))
  }

  lemma NamespaceComesFirst(spec: Spec)
    ensures Actions(spec) == [Enter(Blame("NamespaceFailed", None))] + ([On(TheNamespace)] + AfterNamespace(spec))
  {
    hide AdminStage, RootStage, NinegateStage, CaStage, CertStage, LateActions;
    var rest := AdminStage(spec) + (RootStage() + (NinegateStage() + CaStage()));
    assert NamespaceStage() == [Enter(Blame("NamespaceFailed", None))] + ([On(TheNamespace)] + [SetNamespace]);
    assert Actions(spec) == (NamespaceStage() + rest) + (CertStage(spec) + LateActions(FlagsOf(spec)));
  }

  lemma {:induction false} StagesHead(n: nat, f: ServiceFlags)
    requires n > 0
    ensures ServiceStage(0, f) <= ServiceStages(n, f)
  {
    hide ServiceStage;
    if n == 1 {
      assert ServiceStages(1, f) == [] + ServiceStage(0, f);
    } else {
      StagesHead(n - 1, f);
    }
  }

  /** Everything before the first service. */
  function BeforeServices(spec: Spec): seq<Action> { SecretActions(spec) + CertStage(spec) }

  lemma PostgresComesFirst(spec: Spec) returns (rest: seq<Action>)
    requires FlagsOf(spec).postgresql
    ensures Actions(spec) == BeforeServices(spec) + [Enter(ServiceBlame(0))] + ([On(PostgresConfig)] + rest)
  {
    hide SecretActions, CertStage, ServiceStages, IngressActions, PolicyActions, ServiceBlame;
    var f := FlagsOf(spec);
    StagesHead(SERVICE_COUNT, f);
    var stage := ServiceStage(0, f);
    assert stage[0] == Enter(ServiceBlame(0)) && stage[1] == On(PostgresConfig);
    var late := LateActions(f);
    assert late[0] == stage[0] && late[1] == stage[1];
    rest := late[2..];
    assert late == [Enter(ServiceBlame(0))] + ([On(PostgresConfig)] + rest);
    hide LateActions;
  }

  /** Nothing before the services concerns PostgreSQL's configuration. */
  lemma BeforeServicesAvoid(spec: Spec)
    ensures Avoids(BeforeServices(spec), PostgresConfig) && Avoids(SecretActions(spec), PostgresConfig)
            && Avoids(CertStage(spec), PostgresConfig)
  {
    hide SecretActions, CertStage, LateActions;
    SecretTargets(spec);
    Fallbacks(spec);
    assert Rank(PostgresConfig) == 20;
    hide Rank;
  }

  /** With the CA certified after the secrets, an undisturbed run is up before the services. */
  lemma UpToServices(r: Run, env: Env, spec: Spec)
    requires Up(r, {}, false) && OnlyAt(env, PostgresConfig) && r.cn.spec == spec && spec.services.Some?
    requires Fine(r, env, NO_PROMISE, Nothing())
    ensures Up(RunAll(r, env, BeforeServices(spec)), {TheNamespace}, false)
    ensures Has(Mine(RunAll(r, env, BeforeServices(spec)).w), r.w.me, PostgresConfig) ==
            Has(Mine(r.w), r.w.me, PostgresConfig)
  {
    hide RunAll, SecretActions, CertStage, Sane, Knows, OnlyAt, Mine, Up, Avoids, AllUndisturbed;
    var have := {TheNamespace, PostgresSecret, CaSecret};
    BeforeServicesAvoid(spec);
    AvoidedIsUndisturbed(env, SecretActions(spec), PostgresConfig);
    AvoidedIsUndisturbed(env, CertStage(spec), PostgresConfig);
    var r1 := RunAll(r, env, SecretActions(spec));
    UpSecrets(r, env, spec);
    FineSecrets(r, env, spec, NO_PROMISE);
    Frame(r, env, SecretActions(spec));
    SaneParts(r1, NO_PROMISE);
    UpCerts(r1, env, spec, have);
    Split(r, env, SecretActions(spec), CertStage(spec));
    UpWith(RunAll(r1, env, CertStage(spec)), have, {TheNamespace});
    Untouched(r, env, BeforeServices(spec), PostgresConfig);
  }

  /** The point where PostgreSQL's configuration is to be created. */
  lemma PostgresReached(r: Run, env: Env, spec: Spec)
    requires Up(r, {}, false) && OnlyAt(env, PostgresConfig) && r.cn.spec == spec && spec.services.Some?
    requires Fine(r, env, NO_PROMISE, Nothing()) && !Has(Mine(r.w), r.w.me, PostgresConfig)
    ensures var r' := RunAll(r, env, BeforeServices(spec) + [Enter(ServiceBlame(0))]);
            && Up(r', {TheNamespace}, false) && r'.blame == ServiceBlame(0) && r'.w.me == r.w.me && r'.out == Going
            && Has(Mine(r'.w), r.w.me, TheNamespace) && !Has(Mine(r'.w), r.w.me, PostgresConfig)
  {
    hide Exec, Mine, RunAll, Fine, Up, OnlyAt, ServiceBlame, BeforeServices;
    var front := BeforeServices(spec);
    UpToServices(r, env, spec);
    Frame(r, env, front);
    var r1 := RunAll(r, env, front);
    EntersUp(r1, env, ServiceBlame(0), {TheNamespace});
    UpHas(r1);
    AfterEnter(r, env, front, Enter(ServiceBlame(0)));
  }

  lemma PostgresPipeline(r: Run, env: Env, spec: Spec)
    requires Up(r, {}, false) && OnlyAt(env, PostgresConfig) && r.cn.spec == spec && spec.services.Some?
    requires env.faults == map[Creating(PostgresConfig, Pipeline) := Drop] && FlagsOf(spec).postgresql
    requires Fine(r, env, NO_PROMISE, Nothing()) && !Has(Mine(r.w), r.w.me, PostgresConfig)
    ensures var r' := RunAll(r, env, Actions(spec));
            && r'.out == Stopped(Transient) && r'.w.alive && r'.blame == ServiceBlame(0) && r'.w.me == r.w.me
            && Has(Mine(r'.w), r.w.me, TheNamespace) && !Has(Mine(r'.w), r.w.me, PostgresConfig)
  {
    hide Exec, Actions, Mine, RunAll, Fine, Up, OnlyAt, Random, ServiceBlame, BeforeServices, FlagsOf, FaultAt;
    var front := BeforeServices(spec) + [Enter(ServiceBlame(0))];
    PostgresReached(r, env, spec);
    OnlyAtIsRandom(env, PostgresConfig);
    DroppedCreate(RunAll(r, env, front), env, PostgresConfig, {TheNamespace});
    var rest := PostgresComesFirst(spec);
    StopsHere(r, env, front, On(PostgresConfig), rest);
  }

  lemma OnlyAtIsRandom(env: Env, id: Id)
    requires OnlyAt(env, id)
    ensures Random(env)
  {
  }

  /** A new client whose first PostgreSQL create is dropped: the same phase and the same condition, but the namespace
      and all secrets and certificates exist, and it is PostgreSQL's configuration that is missing. */
  lemma PostgresDropped(w: World)
    requires Fresh(w) && w.cr.value.spec.services.Some? && w.cr.value.spec.services.value.postgresql
    ensures var w' := Reconcile(w, OneDrop(Creating(PostgresConfig, Pipeline)));
            && w'.cr.Some? && w'.cr.value.status.phase == Phase.Failed
            && w'.cr.value.status.conditions == FailedFor("NamespaceFailed", Transient)
            && K(w, TheNamespace) in Mine(w') && K(w, PostgresConfig) !in Mine(w')
  {
    var env := OneDrop(Creating(PostgresConfig, Pipeline));
    OneDropBegins(Creating(PostgresConfig, Pipeline));
    hide Reconcile, Begin, Exec, Actions, OneDrop, Begins, FaultAt, RunAll, Fine, Up, OnlyAt, FailedFor, ServiceBlame;
    FreshBegins(w, env);
    PostgresPipeline(Begin(w, env).value, env, w.cr.value.spec);
    PostgresBlame();
    StoresFailure(w, env, Transient);
  }

  lemma UpHas(r: Run)
    requires Up(r, {TheNamespace}, false)
    ensures Has(Mine(r.w), r.w.me, TheNamespace)
  {
  }

  /** PostgreSQL is service 0, and the list of names starts with the namespace step. */
  lemma PostgresBlame()
    ensures ServiceBlame(0).reason == "NamespaceFailed"
  {
    assert ServiceName(0) + "Failed" == "NamespaceFailed";
  }

  lemma AfterEnter(r: Run, env: Env, front: seq<Action>, a: Action)
    ensures RunAll(r, env, front + [a]) == Exec(RunAll(r, env, front), env, a)
  {
    hide Exec;
    Split(r, env, front, [a]);
    assert [a][1..] == [];
  }

  lemma EntersUp(r: Run, env: Env, blame: Blame, have: set<Id>)
    requires Up(r, have, false)
    ensures Exec(r, env, Enter(blame)) == r.(blame := blame) && Up(r.(blame := blame), have, false)
    ensures r.out == Going
  {
  }

  /** One report, two failures: two new clients of the same spec, each with one dropped create, end with the same phase
      and the same condition "NamespaceFailed"; one has no namespace, the other has one and lacks PostgreSQL. */
  lemma SameReportForTwoFailures(w: World)
    requires Fresh(w) && w.cr.value.spec.services.Some? && w.cr.value.spec.services.value.postgresql
    ensures var a := Reconcile(w, OneDrop(Creating(TheNamespace, Pipeline)));
            var b := Reconcile(w, OneDrop(Creating(PostgresConfig, Pipeline)));
            && a.cr.Some? && b.cr.Some?
            && a.cr.value.status.phase == b.cr.value.status.phase == Phase.Failed
            && a.cr.value.status.conditions == b.cr.value.status.conditions
            && K(w, TheNamespace) !in Mine(a)
            && K(w, TheNamespace) in Mine(b) && K(w, PostgresConfig) !in Mine(b)
  {
    hide Reconcile;
    NamespaceDropped(w);
    PostgresDropped(w);
  }
}
