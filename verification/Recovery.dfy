/** Exactly when an undisturbed run brings a client to Ready. */
module Recovery {
  import opened Objects
  import opened Api
  import opened Contents
  import opened Pipeline
  import opened Runs
  import opened Histories
  import opened Phases
  import opened Invariants
  import opened CleanRuns

  /** Every call succeeds or fails on its merits, and the random source works where its failure is an error. */
  ghost predicate Calm(env: Env) { (forall s :: Tolerated(env, s)) && Random(env) }

  /** A calm pipeline gets through exactly when the route is not there yet. */
  lemma CalmPipeline(r: Run, env: Env, spec: Spec)
    requires Calm(env) && r.out == Going && r.w.alive && r.cn.spec == spec && spec.services.Some?
    requires Fine(r, env, NO_PROMISE, Nothing())
    ensures RunAll(r, env, Actions(spec)).out == Going <==> !Has(Mine(r.w), r.w.me, LdapsRoute)
    ensures RunAll(r, env, Actions(spec)).out == Going ==> RunAll(r, env, Actions(spec)).w.alive
  {
    hide RunAll, SecretActions, CertStage, LateActions, ServiceAndRules, Sane, Knows;
    var p, f := NO_PROMISE, FlagsOf(spec);
    var r1 := RunAll(r, env, SecretActions(spec));
    UpSecrets(r, env, spec);
    FineSecrets(r, env, spec, p);
    Frame(r, env, SecretActions(spec));
    SecretsAvoidRoute(spec);
    Untouched(r, env, SecretActions(spec), LdapsRoute);
    var r2 := RunAll(r1, env, CertStage(spec));
    SaneParts(r1, p);
    UpCerts(r1, env, spec, {TheNamespace, PostgresSecret, CaSecret});
    FineCerts(r1, env, spec, p);
    Frame(r1, env, CertStage(spec));
    CertsAvoidRoute(spec);
    Untouched(r1, env, CertStage(spec), LdapsRoute);
    LateUp(r2, env, f, p);
    Split(r1, env, CertStage(spec), LateActions(f));
    Split(r, env, SecretActions(spec), CertStage(spec) + LateActions(f));
  }

  /** A new client's run starts with the invariant. */
  lemma FreshRunIsFine(w: World, r: Run, env: Env)
    requires Fresh(w) && r.w.me == w.me && Mine(r.w) == Mine(w) && r.cn.name == w.me && r.out == Going && r.w.alive
    requires EnvKeeps(NO_PROMISE, env)
    ensures Fine(r, env, NO_PROMISE, Nothing()) && Up(r, {}, false)
  {
    hide Sane;
    FreshIsSane(w);
  }

  lemma SaneParts(r: Run, p: Promise)
    requires Sane(Mine(r.w), r.w.me, p)
    ensures Certified(Mine(r.w), r.w.me) && !Has(Mine(r.w), r.w.me, LdapsSecret)
  {
  }

  /** No Secret of the route's name exists when the route step is reached. */
  lemma LateBeforeRoute(r: Run, env: Env, f: ServiceFlags, p: Promise)
    requires Fine(r, env, p, LateKnown(p, f))
    ensures !Has(Mine(RunAll(r, env, ServiceAndRules(f)).w), r.w.me, LdapsSecret)
  {
    hide RunAll, ServiceStages, IngressRules, Sane, Knows, Suffices, LateKnown;
    var before := ServiceAndRules(f);
    StagesSuffice(SERVICE_COUNT, f, p);
    RulesSuffice(f, p);
    EnterSuffices(Blame("IngressFailed", None), p, LateKnown(p, f));
    SaneRun(r, env, before, p, LateKnown(p, f));
    Frame(r, env, before);
    SaneParts(RunAll(r, env, before), p);
  }

  lemma LateUp(r: Run, env: Env, f: ServiceFlags, p: Promise)
    requires Calm(env) && Up(r, {TheNamespace, PostgresSecret, CaSecret}, true) && Fine(r, env, p, LateKnown(p, f))
    ensures RunAll(r, env, LateActions(f)).out == Going <==> !Has(Mine(r.w), r.w.me, LdapsRoute)
    ensures RunAll(r, env, LateActions(f)).out == Going ==> RunAll(r, env, LateActions(f)).w.alive
  {
    hide RunAll, LateActions, ServiceStages, IngressRules, Sane, Knows, Suffices, LateKnown, Up;
    var before := ServiceAndRules(f);
    LateBeforeRoute(r, env, f, p);
    Frame(r, env, before);
    ServicesAvoidRoute(f);
    Untouched(r, env, before, LdapsRoute);
    UpLate(r, env, f, {TheNamespace, PostgresSecret, CaSecret});
  }

  lemma EnterSuffices(blame: Blame, p: Promise, k: Known)
    ensures Suffices(k, p, Enter(blame))
  {
  }

  /** Whether a condition of type Ready is stored. */
  predicate ReadyConditionStored(w: World) {
    w.cr.Some? && exists i ::
        0 <= i < |w.cr.value.status.conditions| && w.cr.value.status.conditions[i].ctype == "Ready"
  }

  /** Exact recoverability. Take any reachable state, however many faulted or crashed runs and spec edits led to it,
      whose spec has a services section. A calm run ends with phase Ready stored if and only if the phase was Ready
      already, or no Ready condition is stored and the LDAPS route does not exist. */
  lemma ExactRecovery(w0: World, steps: seq<Step>, env: Env)
    requires Fresh(w0) && Calm(env)
    requires Play(w0, steps).cr.Some? && Play(w0, steps).cr.value.spec.services.Some?
    ensures var w := Play(w0, steps); var w' := Reconcile(w, env);
            && w'.cr.Some?
            && (w'.cr.value.status.phase == Phase.Ready <==>
                  || w.cr.value.status.phase == Phase.Ready
                  || (!ReadyConditionStored(w) && K(w, LdapsRoute) !in Mine(w)))
  {
    hide Apply, Sane, Reconcile;
    HistoryIsCoherent(w0, steps);
    assert Keeps(NO_PROMISE, steps);
    HistoryIsSane(w0, steps, NO_PROMISE);
    var w := Play(w0, steps);
    RunMoves(w, env);
    if w.cr.value.status.phase in {NoPhase, Pending, Provisioning} {
      CalmReconcile(w, env);
    }
  }

  /** From a state without a Ready condition. */
  lemma CalmReconcile(w: World, env: Env)
    requires Managed(w) && Calm(env) && Sane(Mine(w), w.me, NO_PROMISE) && w.cr.value.spec.services.Some?
    requires Coherent(w.cr.value.status) && w.cr.value.status.phase in {NoPhase, Pending, Provisioning}
    ensures var w' := Reconcile(w, env);
            w'.cr.Some? && (w'.cr.value.status.phase == Phase.Ready <==> K(w, LdapsRoute) !in Mine(w))
  {
    hide RunAll, Actions, Reconcile, Sane;
    var spec := w.cr.value.spec;
    assert Tolerated(env, CrRead) && Tolerated(env, FinalizerAdd) && Tolerated(env, ProvisioningWrite);
    var began, r0 := ReconcileShape(w, env);
    assert Fine(r0, env, NO_PROMISE, Nothing());
    CalmPipeline(r0, env, spec);
    var r := RunAll(r0, env, Actions(spec));
    Frame(r0, env, Actions(spec));
    FinishMoves(r, env);
    if r.out == Going {
      ReadyIsStored(r, env);
    }
  }

  lemma ReadyIsStored(r: Run, env: Env)
    requires Calm(env) && r.out == Going && r.w.alive && r.w.cr.Some? && r.cn.version == r.w.cr.value.version
    requires r.cn.status.conditions == []
    ensures Finish(r, env).cr.Some? && Finish(r, env).cr.value.status.phase == Phase.Ready
  {
    hide StatusUpdate;
    var status := ReadyStatus(r.cn.status, r.cn.spec);
    assert Tolerated(env, ReadyWrite) && DistinctConditionTypes(status.conditions);
    StatusUpdateFacts(r.w, env, ReadyWrite, r.cn.(status := status));
  }

  // ---- No way back ------------------------------------------------------------------------------

  /** The state from which Ready can still be reached is given by the stored phase and the route alone. */
  predicate Stranded(w: World) {
    w.cr.Some? && (w.cr.value.status.phase == Phase.Failed
                   || (w.cr.value.status.phase != Phase.Ready && K(w, LdapsRoute) in Mine(w)))
  }

  /** Every run reaches its route step with no Secret of the route's name around. */
  lemma RouteMoment(r: Run, env: Env, spec: Spec) returns (r1: Run)
    requires Fine(r, env, NO_PROMISE, Nothing())
    ensures r1.w.me == r.w.me && Extends(Mine(r.w), Mine(r1.w)) && !Has(Mine(r1.w), r.w.me, LdapsSecret)
    ensures RunAll(r, env, Actions(spec)) == RunAll(Exec(r1, env, EnsureRoute), env, PolicyActions())
  {
    hide Exec, SecretActions, CertStage, LateActions, ServiceAndRules, PolicyActions, Sane, Knows;
    var p, f := NO_PROMISE, FlagsOf(spec);
    var early, before, late :=
        SecretActions(spec) + CertStage(spec), ServiceAndRules(f), [EnsureRoute] + PolicyActions();
    Split(r, env, SecretActions(spec), CertStage(spec));
    FineSecrets(r, env, spec, p);
    FineCerts(RunAll(r, env, SecretActions(spec)), env, spec, p);
    var r2 := RunAll(r, env, early);
    LateBeforeRoute(r2, env, f, p);
    r1 := RunAll(r2, env, before);
    Frame(r, env, early);
    Frame(r2, env, before);
    LateSplits(f);
    assert Actions(spec) == early + (before + late);
    Split(r, env, early, before + late);
    Split(r2, env, before, late);
    assert late[1..] == PolicyActions();
  }

  /** With the route in place no run gets through, whatever the environment does. */
  lemma RouteBlocks(r: Run, env: Env, spec: Spec)
    requires Fine(r, env, NO_PROMISE, Nothing()) && Has(Mine(r.w), r.w.me, LdapsRoute)
    ensures RunAll(r, env, Actions(spec)).out != Going
  {
    hide Exec, Actions, PolicyActions, Fine;
    var r1 := RouteMoment(r, env, spec);
    ExecFacts(r1, env, EnsureRoute);
    Frame(Exec(r1, env, EnsureRoute), env, PolicyActions());
    if Exec(r1, env, EnsureRoute).out == Going {
      RouteNeedsAbsence(r1, env);
    }
  }

  lemma RouteNeedsAbsence(r: Run, env: Env)
    requires r.out == Going && Exec(r, env, EnsureRoute).out == Going && !Has(Mine(r.w), r.w.me, LdapsSecret)
    ensures !Has(Mine(r.w), r.w.me, LdapsRoute)
  {
    RouteFacts(r.w, r.cn, r.loc, env);
  }

  lemma StrandedStays(w: World, s: Step)
    requires Managed(w) && Coherent(w.cr.value.status) && Sane(Mine(w), w.me, NO_PROMISE) && Stranded(w)
    ensures Stranded(Apply(w, s))
  {
    hide RunAll, Actions, Reconcile, Sane;
    StepMoves(w, s);
    StepIsWriteOnce(w, s);
    ApplyKeepsManaged(w, s);
    if s.RunOnce? && w.cr.value.status.phase != Phase.Failed {
      var spec := w.cr.value.spec;
      var began, r0 := ReconcileShape(w, s.env);
      if began {
        assert Fine(r0, s.env, NO_PROMISE, Nothing());
        RouteBlocks(r0, s.env, spec);
        Frame(r0, s.env, Actions(spec));
        FinishMoves(RunAll(r0, s.env, Actions(spec)), s.env);
      }
    }
  }

  /** A stranded client stays stranded, whatever runs, edits and interference follow. */
  lemma {:induction false} StrandedForever(w0: World, steps: seq<Step>, n: nat)
    requires Fresh(w0) && n <= |steps| && Stranded(Play(w0, steps[..n]))
    ensures Stranded(Play(w0, steps))
    decreases |steps|
  {
    if n == |steps| {
      assert steps[..n] == steps;
    } else {
      hide Apply, Sane, Stranded;
      var before, last := steps[..|steps| - 1], steps[|steps| - 1];
      assert before[..n] == steps[..n];
      StrandedForever(w0, before, n);
      HistoryIsCoherent(w0, before);
      assert Keeps(NO_PROMISE, before);
      HistoryIsSane(w0, before, NO_PROMISE);
      StrandedStays(Play(w0, before), last);
    }
  }

  predicate IsReady(w: World) { w.cr.Some? && w.cr.value.status.phase == Phase.Ready }

  /** The spec with an empty services section, if it had none. */
  function WithServices(spec: Spec): Spec {
    if spec.services.Some? then spec else spec.(services := Some(FlagsOf(spec)))
  }

  /** The shortest way to Ready: add a services section if there is none, and run undisturbed once. */
  function WayToReady(w: World): seq<Step>
    requires w.cr.Some?
  {
    (if w.cr.value.spec.services.Some? then [] else [EditSpec(WithServices(w.cr.value.spec))]) + [RunOnce(PEACE)]
  }

  lemma EditKeepsStranding(w: World, spec: Spec)
    requires Managed(w)
    ensures var w' := Apply(w, EditSpec(spec)); w'.cr.Some? && w'.cr.value.spec == spec && Stranded(w') == Stranded(w)
  {
    assert Mine(Apply(w, EditSpec(spec))) == Mine(w);
  }

  /** Recovery, sharply: from any reachable state, Ready can be reached by some continuation if and only if the client
      is not stranded; and then one undisturbed run already gets there, after an edit if the spec has no services
      section. */
  lemma ReadyReachable(w0: World, steps: seq<Step>)
    requires Fresh(w0)
    ensures Play(w0, steps).cr.Some?
    ensures (exists more :: IsReady(Play(w0, steps + more))) <==> !Stranded(Play(w0, steps))
    ensures !Stranded(Play(w0, steps)) ==> IsReady(Play(w0, steps + WayToReady(Play(w0, steps))))
  {
    hide Reconcile, Play, Apply, IsReady, Stranded;
    PlayKeepsManaged(w0, steps);
    var w := Play(w0, steps);
    if Stranded(w) {
      forall more ensures !IsReady(Play(w0, steps + more)) {
        assert (steps + more)[..|steps|] == steps;
        StrandedForever(w0, steps + more, |steps|);
        StrandedIsNotReady(Play(w0, steps + more));
      }
    } else if w.cr.value.spec.services.Some? {
      OneRunToReady(w0, steps);
      assert [] + [RunOnce(PEACE)] == [RunOnce(PEACE)];
    } else {
      var edit := EditSpec(WithServices(w.cr.value.spec));
      PlayOneMore(w0, steps, edit);
      EditKeepsStranding(w, edit.spec);
      OneRunToReady(w0, steps + [edit]);
      assert steps + [edit] + [RunOnce(PEACE)] == steps + ([edit] + [RunOnce(PEACE)]);
    }
  }

  lemma StrandedIsNotReady(w: World)
    requires Stranded(w)
    ensures !IsReady(w)
  {
  }

  lemma OneRunToReady(w0: World, steps: seq<Step>)
    requires Fresh(w0) && Play(w0, steps).cr.Some? && Play(w0, steps).cr.value.spec.services.Some?
    requires !Stranded(Play(w0, steps))
    ensures IsReady(Play(w0, steps + [RunOnce(PEACE)]))
  {
    hide Reconcile;
    HistoryIsCoherent(w0, steps);
    ExactRecovery(w0, steps, PEACE);
    assert (steps + [RunOnce(PEACE)])[..|steps|] == steps;
  }

  // ---- A resource without a services section ----------------------------------------------------

  lemma NeedStops(r: Run, env: Env, spec: Spec)
    requires r.cn.spec == spec && spec.services.None?
    ensures RunAll(r, env, CertStage(spec)).out != Going
  {
    hide Exec, CertActions;
    var acts := CertStage(spec);
    var enter := Enter(Blame("CertFailed", None));
    assert acts[0] == enter && acts[1..][0] == LoadCa && acts[1..][1..][0] == NeedServices;
    ExecFacts(r, env, enter);
    var r1 := Exec(r, env, enter);
    ExecFacts(r1, env, LoadCa);
    var r2 := Exec(r1, env, LoadCa);
    NeedPanics(r2, env);
    assert RunAll(r, env, acts) == RunAll(r1, env, acts[1..]);
    assert RunAll(r1, env, acts[1..]) == RunAll(r2, env, acts[1..][1..]);
    Frame(Exec(r2, env, NeedServices), env, acts[1..][1..][1..]);
  }

  lemma NeedPanics(r: Run, env: Env)
    requires r.cn.spec.services.None?
    ensures Exec(r, env, NeedServices).out != Going
  {
  }

  predicate NeverHasServices(steps: seq<Step>) { forall s | s in steps && s.EditSpec? :: s.spec.services.None? }

  lemma NoServicesStep(w: World, s: Step)
    requires Managed(w) && Coherent(w.cr.value.status) && w.cr.value.spec.services.None? && !IsReady(w)
             && NeverHasServices([s])
    ensures var w' := Apply(w, s); !IsReady(w') && w'.cr.Some? && w'.cr.value.spec.services.None?
  {
    hide RunAll, SecretActions, CertStage, LateActions, Reconcile;
    assert s in [s];
    if s.RunOnce? {
      var env, spec := s.env, w.cr.value.spec;
      RunKeepsManaged(w, env);
      RunMoves(w, env);
      var began, r0 := ReconcileShape(w, env);
      if began {
        Split(r0, env, SecretActions(spec), CertStage(spec) + LateActions(FlagsOf(spec)));
        var r1 := RunAll(r0, env, SecretActions(spec));
        Split(r1, env, CertStage(spec), LateActions(FlagsOf(spec)));
        Frame(r0, env, SecretActions(spec));
        NeedStops(r1, env, spec);
        Frame(r0, env, Actions(spec));
        FinishMoves(RunAll(r0, env, Actions(spec)), env);
      }
    }
  }

  /** The services section is optional in the schema, but without one no client ever becomes Ready. */
  lemma {:induction false} NoServicesNeverReady(w0: World, steps: seq<Step>)
    requires Fresh(w0) && w0.cr.value.spec.services.None? && NeverHasServices(steps)
    ensures var w := Play(w0, steps); !IsReady(w) && w.cr.Some? && w.cr.value.spec.services.None?
    decreases |steps|
  {
    if steps != [] {
      hide Apply;
      var before, last := steps[..|steps| - 1], steps[|steps| - 1];
      assert forall s | s in before :: s in steps;
      assert last in steps;
      NoServicesNeverReady(w0, before);
      HistoryIsCoherent(w0, before);
      NoServicesStep(Play(w0, before), last);
    }
  }
}
