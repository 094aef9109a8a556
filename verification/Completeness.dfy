/** Ready means complete. */
module Completeness {
  import opened Objects
  import opened Api
  import opened Contents
  import opened ServiceStatuses
  import opened Pipeline
  import opened Runs
  import opened Histories
  import opened Phases
  import opened Prefix
  import opened Invariants
  import opened Recovery

  // ---- What a run that gets through writes into the status --------------------------------------

  function Mark(s: Status, client: string, a: Action): Status {
    match a
    case SetNamespace => s.(namespace := NsName(client))
    case SetAdminSecretName => s.(adminSecretName := "admin-credentials")
    case ServiceDone(i) => s.(services := Upsert(s.services, ServiceName(i), true, None))
    case _ => s
  }

  function MarkAll(s: Status, client: string, acts: seq<Action>): Status
    decreases |acts|
  {
    if acts == [] then s else MarkAll(Mark(s, client, acts[0]), client, acts[1..])
  }

  lemma {:induction false} MarkAllAppend(s: Status, client: string, a: seq<Action>, b: seq<Action>)
    ensures MarkAll(s, client, a + b) == MarkAll(MarkAll(s, client, a), client, b)
    decreases |a|
  {
    if a == [] {
      assert a + b == b;
    } else {
      assert (a + b)[1..] == a[1..] + b;
      MarkAllAppend(Mark(s, client, a[0]), client, a[1..], b);
    }
  }

  predicate Silent(acts: seq<Action>) {
    forall a | a in acts :: !a.SetNamespace? && !a.SetAdminSecretName? && !a.ServiceDone?
  }

  lemma {:induction false} SilentMarks(s: Status, client: string, acts: seq<Action>)
    requires Silent(acts)
    ensures MarkAll(s, client, acts) == s
    decreases |acts|
  {
    if acts != [] {
      SilentMarks(s, client, acts[1..]);
    }
  }

  lemma ExecMarks(r: Run, env: Env, a: Action)
    requires Exec(r, env, a).out == Going
    ensures r.out == Going && Exec(r, env, a).cn == r.cn.(status := Mark(r.cn.status, r.cn.name, a))
  {
    hide EnsureObject, EnsureLdapsRoute, Upsert, ServiceName;
  }

  /** The in-memory status of a run that got through is a function of its actions. */
  lemma {:induction false} RunMarks(r: Run, env: Env, acts: seq<Action>)
    requires RunAll(r, env, acts).out == Going
    ensures RunAll(r, env, acts).cn == r.cn.(status := MarkAll(r.cn.status, r.cn.name, acts))
    decreases |acts|
  {
    if acts != [] {
      hide Exec, Mark;
      Frame(Exec(r, env, acts[0]), env, acts[1..]);
      ExecMarks(r, env, acts[0]);
      RunMarks(Exec(r, env, acts[0]), env, acts[1..]);
    }
  }

  lemma SecretMarks(s: Status, client: string, spec: Spec)
    ensures MarkAll(s, client, SecretActions(spec)) ==
            s.(namespace := NsName(client), adminSecretName := "admin-credentials")
  {
    hide RootStage, NinegateStage, CaStage;
    var rest := RootStage() + (NinegateStage() + CaStage());
    assert Silent(rest) by { RootIsSilent(); }
    var enter := [Enter(Blame("NamespaceFailed", None)), On(TheNamespace)];
    var admin := [Enter(Blame("AdminCredentialsFailed", None))] + AdminActions(spec);
    assert Silent(enter) && Silent(admin);
    var front := enter + [SetNamespace] + admin + [SetAdminSecretName];
    assert SecretActions(spec) == front + rest;
    MarkAllAppend(s, client, front, rest);
    MarkAllAppend(s, client, enter + [SetNamespace] + admin, [SetAdminSecretName]);
    MarkAllAppend(s, client, enter + [SetNamespace], admin);
    MarkAllAppend(s, client, enter, [SetNamespace]);
    SilentMarks(s, client, enter);
    One(s, client, SetNamespace);
    var s1 := s.(namespace := NsName(client));
    SilentMarks(s1, client, admin);
    One(s1, client, SetAdminSecretName);
    SilentMarks(Mark(s1, client, SetAdminSecretName), client, rest);
  }

  lemma One(s: Status, client: string, a: Action)
    ensures MarkAll(s, client, [a]) == Mark(s, client, a)
  {
    assert [a][1..] == [];
  }

  lemma RootIsSilent()
    ensures Silent(RootStage()) && Silent(NinegateStage() + CaStage())
  {
  }

  lemma ServiceIsSilent(i: nat, f: ServiceFlags)
    ensures Silent(ServiceActions(i, f))
  {
  }

  lemma StageMark(s: Status, client: string, i: nat, f: ServiceFlags)
    ensures MarkAll(s, client, ServiceStage(i, f)) == Mark(s, client, ServiceDone(i))
  {
    hide ServiceActions, ServiceBlame, ServiceName, Upsert, MarkAll;
    ServiceIsSilent(i, f);
    var acts := [Enter(ServiceBlame(i))] + ServiceActions(i, f);
    SilentMarks(s, client, acts);
    MarkAllAppend(s, client, acts, [ServiceDone(i)]);
    One(s, client, ServiceDone(i));
  }

  lemma NoStageMarks(s: Status, client: string, f: ServiceFlags)
    ensures MarkAll(s, client, ServiceStages(0, f)) == s == s.(services := AllReady(s.services, 0))
  {
  }

  lemma {:induction false} StageMarks(s: Status, client: string, n: nat, f: ServiceFlags)
    ensures MarkAll(s, client, ServiceStages(n, f)) == s.(services := AllReady(s.services, n))
  {
    hide ServiceStage, ServiceName, Upsert, MarkAll;
    if n == 0 {
      NoStageMarks(s, client, f);
    } else {
      StageMarks(s, client, n - 1, f);
      MarkAllAppend(s, client, ServiceStages(n - 1, f), ServiceStage(n - 1, f));
      StageMark(s.(services := AllReady(s.services, n - 1)), client, n - 1, f);
    }
  }

  lemma NetworkIsSilent(f: ServiceFlags)
    ensures Silent(IngressActions(f) + PolicyActions())
  {
  }

  lemma CertsAreSilent(spec: Spec)
    ensures Silent(CertStage(spec))
  {
    hide CertActions;
    CertsEnsured(FlagsOf(spec));
  }

  /** The status a complete run has put together. */
  function DoneStatus(s: Status, client: string): Status {
    s.(namespace := NsName(client), adminSecretName := "admin-credentials", services :=
        AllReady(s.services, SERVICE_COUNT))
  }

  lemma ActionMarks(s: Status, client: string, spec: Spec)
    ensures MarkAll(s, client, Actions(spec)) == DoneStatus(s, client)
  {
    hide SecretActions, CertStage, ServiceStages, IngressActions, PolicyActions, AllReady, MarkAll;
    var f := FlagsOf(spec);
    var network := IngressActions(f) + PolicyActions();
    MarkAllAppend(s, client, SecretActions(spec), CertStage(spec) + LateActions(f));
    SecretMarks(s, client, spec);
    var s1 := s.(namespace := NsName(client), adminSecretName := "admin-credentials");
    MarkAllAppend(s1, client, CertStage(spec), LateActions(f));
    CertsAreSilent(spec);
    SilentMarks(s1, client, CertStage(spec));
    MarkAllAppend(s1, client, ServiceStages(SERVICE_COUNT, f), network);
    StageMarks(s1, client, SERVICE_COUNT, f);
    NetworkIsSilent(f);
    SilentMarks(s1.(services := AllReady(s1.services, SERVICE_COUNT)), client, network);
  }

  // ---- What exists afterwards -------------------------------------------------------------------

  /** A run that got through has every object of the plan. */
  lemma PlanIsThere(r: Run, env: Env, spec: Spec, id: Id)
    requires Fine(r, env, NO_PROMISE, Nothing()) && RunAll(r, env, Actions(spec)).out == Going && id in Plan(spec)
    ensures K(r.w, id) in Mine(RunAll(r, env, Actions(spec)).w)
  {
    hide RunAll, Exec, Actions, PolicyActions, Fine;
    PlanMember(Actions(spec), id);
    var a :| a in Actions(spec) && NewTarget(a) == Some(id);
    if a.Ensure? {
      Done(r, env, Actions(spec), a);
    } else {
      var r1 := RouteMoment(r, env, spec);
      var r2 := Exec(r1, env, EnsureRoute);
      ExecFacts(r1, env, EnsureRoute);
      Frame(r2, env, PolicyActions());
      RouteCompletes(r1, env);
    }
  }

  /** Ready means complete: whenever a run newly stores Ready, in any reachable state and under any faults, every object
      of the plan for the spec it read exists, the namespace, secret name and endpoint are recorded, and every service
      is marked ready without a message, leaving status entries of other names as they were. */
  lemma ReadyMeansComplete(w0: World, steps: seq<Step>, env: Env)
    requires Fresh(w0) && !IsReady(Play(w0, steps)) && IsReady(Reconcile(Play(w0, steps), env))
    ensures var w := Play(w0, steps); var w' := Reconcile(w, env);
            && w.cr.Some? && w'.cr.value.spec == w.cr.value.spec
            && (forall id | id in Plan(w.cr.value.spec) :: K(w, id) in Mine(w'))
            && w'.cr.value.status.namespace == w.me + "-ns"
            && w'.cr.value.status.adminSecretName == "admin-credentials"
            && w'.cr.value.status.endpoint == "https://" + w.cr.value.spec.domain
            && (forall name :: Lookup(w'.cr.value.status.services, name) ==
                  if NamedBelow(name, SERVICE_COUNT) then Some((true, None))
                      else Lookup(w.cr.value.status.services, name))
  {
    hide Reconcile, Play, Sane, Plan;
    HistoryIsCoherent(w0, steps);
    assert Keeps(NO_PROMISE, steps);
    HistoryIsSane(w0, steps, NO_PROMISE);
    CompleteRun(Play(w0, steps), env);
  }

  lemma CompleteRun(w: World, env: Env)
    requires Managed(w) && Coherent(w.cr.value.status) && Sane(Mine(w), w.me, NO_PROMISE)
    requires !IsReady(w) && IsReady(Reconcile(w, env))
    ensures var w' := Reconcile(w, env);
            && w'.cr.value.spec == w.cr.value.spec
            && (forall id | id in Plan(w.cr.value.spec) :: K(w, id) in Mine(w'))
            && w'.cr.value.status.namespace == NsName(w.me)
            && w'.cr.value.status.adminSecretName == "admin-credentials"
            && w'.cr.value.status.endpoint == "https://" + w.cr.value.spec.domain
            && (forall name :: Lookup(w'.cr.value.status.services, name) ==
                  if NamedBelow(name, SERVICE_COUNT) then Some((true, None))
                      else Lookup(w.cr.value.status.services, name))
  {
    hide RunAll, Actions, Reconcile, Sane, Plan, MarkAll, AllReady, Lookup, NamedBelow, Finish;
    var spec := w.cr.value.spec;
    RunKeepsManaged(w, env);
    var began, r0 := ReconcileShape(w, env);
    assert began;
    var r := RunAll(r0, env, Actions(spec));
    Frame(r0, env, Actions(spec));
    FinishMoves(r, env);
    FinishFacts(r, env);
    RunMarks(r0, env, Actions(spec));
    ActionMarks(r0.cn.status, r0.cn.name, spec);
    assert Fine(r0, env, NO_PROMISE, Nothing());
    forall id | id in Plan(spec) ensures K(w, id) in Mine(Reconcile(w, env)) {
      PlanIsThere(r0, env, spec, id);
    }
    forall name ensures Lookup(Reconcile(w, env).cr.value.status.services, name) ==
                  if NamedBelow(name, SERVICE_COUNT) then Some((true, None))
                      else Lookup(w.cr.value.status.services, name) {
      AllReadyRefines(r0.cn.status.services, SERVICE_COUNT, name);
    }
  }

  predicate HasPlan(w: World, plan: seq<Id>) { forall id | id in plan :: K(w, id) in Mine(w) }

  lemma {:induction false} ReadyHasPlan(w0: World, steps: seq<Step>)
    requires Fresh(w0) && SpecKept(w0.cr.value.spec, steps) && IsReady(Play(w0, steps))
    ensures HasPlan(Play(w0, steps), Plan(w0.cr.value.spec))
    decreases |steps|
  {
    if steps != [] {
      hide Apply, Plan, Sane;
      var before, last := steps[..|steps| - 1], steps[|steps| - 1];
      assert forall s | s in before :: s in steps;
      var w := Play(w0, before);
      HistoryIsCoherent(w0, before);
      assert Keeps(NO_PROMISE, before);
      HistoryIsSane(w0, before, NO_PROMISE);
      var _, n := PrefixTheorem(w0, before, 0);
      StepMoves(w, last);
      ApplyKeepsManaged(w, last);
      if IsReady(w) {
        ReadyHasPlan(w0, before);
      } else {
        ReadyStep(w, last);
      }
    }
  }

  lemma ReadyStep(w: World, s: Step)
    requires Managed(w) && Coherent(w.cr.value.status) && Sane(Mine(w), w.me, NO_PROMISE)
    requires !IsReady(w) && IsReady(Apply(w, s))
    ensures HasPlan(Apply(w, s), Plan(w.cr.value.spec))
  {
    hide Plan, Reconcile, Sane;
    ApplyKeepsManaged(w, s);
    if s.RunOnce? {
      CompleteRun(w, s.env);
    }
  }

  /** For a fixed spec, a Ready client owns exactly the objects of its plan. */
  lemma ReadyOwnsThePlan(w0: World, steps: seq<Step>)
    requires Fresh(w0) && SpecKept(w0.cr.value.spec, steps) && IsReady(Play(w0, steps))
    ensures var w := Play(w0, steps);
            Mine(w).Keys == set id | id in Plan(w0.cr.value.spec) :: K(w, id)
  {
    hide Plan, Apply;
    var w := Play(w0, steps);
    ReadyHasPlan(w0, steps);
    var _, n := PrefixTheorem(w0, steps, 0);
    forall k | k in Mine(w) ensures k.id in Plan(w0.cr.value.spec) && k == K(w, k.id) {
    }
  }
}
