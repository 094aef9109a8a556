/** Where two parts of the code disagree: histories without any fault that end with objects that do not fit together. */
module Discrepancies {
  import opened Objects
  import opened Api
  import opened Passwords
  import opened Contents
  import opened Pipeline
  import opened Runs
  import opened Histories
  import opened Phases
  import opened Prefix
  import opened Invariants
  import opened CleanRuns
  import opened Recovery
  import opened Completeness
  import opened Agreement
  import opened Closure
  import opened Births
  import opened Origins
  import opened Provisos

  /** A calm first run reaches Ready and makes every object of the plan. */
  lemma CalmFirstRun(w: World, env: Env)
    requires Fresh(w) && Calm(env) && w.cr.value.spec.services.Some?
    ensures IsReady(Reconcile(w, env)) && forall id | id in Plan(w.cr.value.spec) :: K(w, id) in Mine(Reconcile(w, env))
  {
    hide Reconcile, Plan, Sane, Mine, Calm;
    FreshIsSane(w);
    NothingAtFirst(w);
    CalmReconcile(w, env);
    CompleteRun(w, env);
  }

  // ---- The login between Ninegate and Dex -------------------------------------------------------------

  /** In particular a run in which nothing goes wrong can end Ready with a Dex that refuses Ninegate. */
  lemma ReadyWithoutLogin(w: World)
    requires Fresh(w) && w.cr.value.spec.services.Some? && w.cr.value.spec.services.value.dex
    ensures var w' := Reconcile(w, PEACE.(draws := map[ForOidc := [Value(1)]])); IsReady(w') && !LoginFits(w')
  {
    hide Reconcile, NewPassword, Letter, LoginFits, Plan, Build;
    var env := PEACE.(draws := map[ForOidc := [Value(1)]]);
    WorkingGenerator(env, ForAppSecret, 0);
    WorkingGenerator(env, ForOidc, 1);
    FirstLetters();
    assert DexConfig in Plan(w.cr.value.spec) by { PlanHasMember(w.cr.value.spec, 5, DexConfig); }
    CalmFirstRun(w, env);
    PlayOnce(w, env);
    BornAtOnce(w, env, NinegateSecret);
    BornAtOnce(w, env, DexConfig);
    LoginFitsByChance(w, [RunOnce(env)]);
  }

  // ---- Certificates and ingress rules of different domains ---------------------------------------------------

  const RULE := IngressFor(Ninegate)

  /** Everything up to the first ingress rule. */
  function BeforeRules(spec: Spec): seq<Action> {
    SecretActions(spec) + (CertStage(spec)
        + (ServiceStages(SERVICE_COUNT, FlagsOf(spec)) + [Enter(Blame("IngressFailed", None))]))
  }

  function AfterFirstRule(f: ServiceFlags): seq<Action> { IngressRules(f)[1..] + ([EnsureRoute] + PolicyActions()) }

  lemma RulesSplit(spec: Spec)
    ensures Actions(spec) == BeforeRules(spec) + ([On(RULE)] + AfterFirstRule(FlagsOf(spec)))
  {
    hide SecretActions, CertStage, ServiceStages, PolicyActions;
    var rules := IngressRules(FlagsOf(spec));
    assert rules == [On(RULE)] + rules[1..];
    hide IngressRules;
  }

  /** Nothing before the rules concerns a rule or the route. */
  lemma BeforeRulesAvoid(spec: Spec)
    ensures forall a | a in BeforeRules(spec) && Target(a).Some? ::
            !Target(a).value.IngressFor? && Target(a).value != LdapsRoute
  {
    hide SecretActions, CertStage, ServiceStages, Rank, Ordered;
    var f := FlagsOf(spec);
    SecretsOrdered(spec);
    CertsOrdered(spec);
    ServiceStagesOrdered(SERVICE_COUNT, f);
    Fallbacks(spec);
    ServiceFallbacks(SERVICE_COUNT, f);
    OrderedTargets(SecretActions(spec), 0, 10);
    OrderedTargets(CertStage(spec), 10, 20);
    OrderedTargets(ServiceStages(SERVICE_COUNT, f), 20, 70);
    RuleRanks();
  }

  lemma OrderedTargets(acts: seq<Action>, lo: nat, hi: nat)
    requires Ordered(acts, lo, hi)
    ensures forall a | a in acts && NewTarget(a).Some? :: Rank(NewTarget(a).value) < hi
  {
    hide Rank;
  }

  lemma RuleRanks()
    ensures forall app :: Rank(IngressFor(app)) >= 70
    ensures Rank(LdapsRoute) >= 70
  {
  }

  ghost predicate CutBeforeRules(env: Env) {
    Random(env) && forall s :: FaultAt(env, s) == if s == Creating(RULE, Pipeline) then CrashBefore else Clean
  }

  /** An undisturbed run stays up until the first rule, with the certificates in place. */
  lemma UpToRules(r: Run, env: Env, spec: Spec)
    requires Up(r, {}, false) && CutBeforeRules(env) && r.cn.spec == spec && spec.services.Some?
    requires Fine(r, env, NO_PROMISE, Nothing())
    ensures var r' := RunAll(r, env, BeforeRules(spec));
            Up(r', {TheNamespace}, true) && Has(Mine(r'.w), r.w.me, Tls(Ninegate))
  {
    hide RunAll, SecretActions, CertStage, ServiceStages, Sane, Knows, CutBeforeRules, Mine;
    var p, f := NO_PROMISE, FlagsOf(spec);
    var stages := ServiceStages(SERVICE_COUNT, f) + [Enter(Blame("IngressFailed", None))];
    var have := {TheNamespace, PostgresSecret, CaSecret};
    AllCalmBefore(env, spec);
    var r1 := RunAll(r, env, SecretActions(spec));
    UpSecrets(r, env, spec);
    FineSecrets(r, env, spec, p);
    Frame(r, env, SecretActions(spec));
    SaneParts(r1, p);
    UpCerts(r1, env, spec, have);
    var r2 := RunAll(r1, env, CertStage(spec));
    FirstCert(spec);
    Done(r1, env, CertStage(spec), On(Tls(Ninegate)));
    Frame(r1, env, CertStage(spec));
    StagesFeasible(SERVICE_COUNT, f, have);
    EnterFeasible(Blame("IngressFailed", None), have);
    UpStays(r2, env, stages, have, true);
    Frame(r2, env, stages);
    Split(r1, env, CertStage(spec), stages);
    Split(r, env, SecretActions(spec), CertStage(spec) + stages);
  }

  lemma FirstCert(spec: Spec)
    ensures On(Tls(Ninegate)) in CertStage(spec)
  {
    assert CertStage(spec)[3] == CertActions(FlagsOf(spec))[0] == On(Tls(Ninegate));
  }

  lemma AllCalmBefore(env: Env, spec: Spec)
    requires CutBeforeRules(env)
    ensures AllUndisturbed(env, SecretActions(spec)) && AllUndisturbed(env, CertStage(spec))
    ensures AllUndisturbed(env, ServiceStages(SERVICE_COUNT, FlagsOf(spec)) + [Enter(Blame("IngressFailed", None))])
  {
    assert OnlyAt(env, RULE);
    hide SecretActions, CertStage, ServiceStages, CutBeforeRules, OnlyAt;
    BeforeRulesAvoid(spec);
    AvoidedIsUndisturbed(env, SecretActions(spec), RULE);
    AvoidedIsUndisturbed(env, CertStage(spec), RULE);
    AvoidedIsUndisturbed(env, ServiceStages(SERVICE_COUNT, FlagsOf(spec)) + [Enter(Blame("IngressFailed", None))],
        RULE);
  }

  lemma RuleCrash(r: Run, env: Env)
    requires Up(r, {TheNamespace}, true) && CutBeforeRules(env) && !Has(Mine(r.w), r.w.me, RULE)
    ensures var r' := Exec(r, env, On(RULE)); !r'.w.alive && Mine(r'.w) == Mine(r.w)
  {
    hide LabelsFor, PlainPayload;
    var wi := Interfere(r.w, env, Reading(RULE, Pipeline));
    assert K(r.w, RULE) !in Mine(wi);
  }

  lemma CutAtRule(r: Run, env: Env, spec: Spec)
    requires Up(r, {}, false) && CutBeforeRules(env) && r.cn.spec == spec && spec.services.Some? && Mine(r.w) == map[]
    requires Fine(r, env, NO_PROMISE, Nothing())
    ensures var r' := RunAll(r, env, Actions(spec));
            && Finish(r', env) == r'.w && r'.w.cr == r.w.cr && r'.w.me == r.w.me
            && Has(Mine(r'.w), r.w.me, Tls(Ninegate)) && !Has(Mine(r'.w), r.w.me, RULE)
               && !Has(Mine(r'.w), r.w.me, LdapsRoute)
  {
    hide RunAll, Actions, Finish, BeforeRules, AfterFirstRule, Fine, Exec, Up, CutBeforeRules;
    var before, rest := BeforeRules(spec), AfterFirstRule(FlagsOf(spec));
    UpToRules(r, env, spec);
    var r3 := RunAll(r, env, before);
    BeforeRulesAvoid(spec);
    Untouched(r, env, before, RULE);
    Untouched(r, env, before, LdapsRoute);
    Frame(r, env, before);
    RuleCrash(r3, env);
    var r4 := Exec(r3, env, On(RULE));
    ExecFacts(r3, env, On(RULE));
    DeadRunIsInert(r4, env, rest);
    RulesSplit(spec);
    Split(r, env, before, [On(RULE)] + rest);
    Cons(r3, env, On(RULE), rest);
  }

  /** What a first run leaves behind that is cut off at the first ingress rule. */
  lemma CutRun(w: World, env: Env)
    requires Fresh(w) && CutBeforeRules(env) && w.cr.value.spec.services.Some?
    ensures var w' := Reconcile(w, env);
            && Managed(w') && w'.me == w.me && w'.cr.value.spec == w.cr.value.spec
            && Coherent(w'.cr.value.status) && w'.cr.value.status.phase == Provisioning
            && Has(Mine(w'), w.me, Tls(Ninegate)) && !Has(Mine(w'), w.me, RULE) && !Has(Mine(w'), w.me, LdapsRoute)
  {
    CutBegins(env);
    hide RunAll, Actions, Reconcile, Finish, Begin, Begins, EnvKeeps, CutBeforeRules, Fine, Up;
    RunKeepsManaged(w, env);
    RunMoves(w, env);
    var began, r0 := ReconcileShape(w, env);
    FreshRunIsFine(w, r0, env);
    CutAtRule(r0, env, w.cr.value.spec);
  }

  lemma CutBegins(env: Env)
    requires CutBeforeRules(env)
    ensures Begins(env) && EnvKeeps(NO_PROMISE, env)
  {
  }

  lemma FirstRulePlanned(spec: Spec)
    ensures RULE in Plan(spec)
  {
    hide BeforeRules, AfterFirstRule;
    RulesSplit(spec);
    assert NewTarget(On(RULE)) == Some(RULE);
    PlanMember(Actions(spec), RULE);
    assert On(RULE) in Actions(spec);
  }

  /** Why coverage needs a constant domain: after a run cut off at the first ingress rule, an edit of the spec and an
      undisturbed second run, the client is Ready, and its rule is covered by its certificate exactly when the edit
      kept the domain. */
  lemma CoverageNeedsConstantDomain(w: World, env1: Env, spec: Spec, env2: Env)
    requires Fresh(w) && CutBeforeRules(env1) && Calm(env2) && w.cr.value.spec.services.Some? && spec.services.Some?
    ensures var now := Play(w, Interrupted(env1, spec, env2));
            && IsReady(now) && Has(Mine(now), now.me, RULE)
            && (RuleCovered(now, Ninegate) <==> spec.domain == w.cr.value.spec.domain)
  {
    hide Reconcile, Sane, Plan, CutBeforeRules, Calm, Mine, Play;
    var steps := Interrupted(env1, spec, env2);
    InterruptedParts(w, env1, spec, env2);
    CutRun(w, env1);
    var w1 := Apply(w, RunOnce(env1));
    var w2 := Apply(w1, EditSpec(spec));
    IdleStep(w1, EditSpec(spec));
    FreshIsSane(w);
    assert EnvKeeps(NO_PROMISE, env1);
    SaneReconcile(w, env1, NO_PROMISE);
    SecondBuild(w2, env2);
    RunKeepsManaged(w2, env2);
    NothingAtFirst(w);
    BirthAt(w, steps, 0, Tls(Ninegate));
    BirthAt(w, steps, 2, RULE);
    CoverageExactly(w, steps, Ninegate);
  }

  /** The second run reaches Ready and makes the rule. */
  lemma SecondBuild(w: World, env: Env)
    requires Managed(w) && Calm(env) && Sane(Mine(w), w.me, NO_PROMISE) && w.cr.value.spec.services.Some?
    requires Coherent(w.cr.value.status) && w.cr.value.status.phase == Provisioning && !Has(Mine(w), w.me, LdapsRoute)
    ensures IsReady(Reconcile(w, env)) && Has(Mine(Reconcile(w, env)), w.me, RULE)
  {
    hide Reconcile, Plan, Sane, Mine;
    CalmReconcile(w, env);
    CompleteRun(w, env);
    FirstRulePlanned(w.cr.value.spec);
  }

  /** Such environments exist. */
  lemma CutExists()
    ensures CutBeforeRules(PEACE.(faults := map[Creating(RULE, Pipeline) := CrashBefore]))
  {
  }
}
