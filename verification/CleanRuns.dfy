/** What a run achieves where the environment behaves: calls that are not disturbed, randomness that works. */
module CleanRuns {
  import opened Objects
  import opened Api
  import opened Passwords
  import opened Contents
  import opened ServiceStatuses
  import opened Pipeline
  import opened Runs
  import opened Invariants

  /** The calls an action may make. */
  function SitesOf(a: Action): set<Site> {
    match a
    case Ensure(id, place) => {Reading(id, place), Creating(id, place)} + CrossReads(id)
    case EnsureRoute => {Reading(LdapsSecret, Pipeline), Creating(LdapsRoute, Pipeline)}
    case ReadPasswords => {Reading(PostgresSecret, PasswordRead), Reading(RustfsSecret, PasswordRead)}
    case LoadCa => {Reading(CaSecret, CaRead)}
    case _ => {}
  }

  /** The reads made while an object is built. */
  function CrossReads(id: Id): set<Site> {
    match id
    case NinegateSecret => {Reading(AdminCredentials, NinegateRead)}
    case GlauthConfig => {Reading(PostgresSecret, GlauthRead)}
    case DexConfig => {Reading(AdminCredentials, DexRead), Reading(NinegateSecret, DexRead)}
    case _ => {}
  }

  /** Reads whose errors the code ignores: it goes on with a default or a new value. */
  predicate Swallowed(s: Site) {
    s.Reading? && (s.place in {PasswordRead, NinegateRead, DexRead} || s.id == LdapsSecret)
  }

  /** The call does not stop the run: it is undisturbed, or a failing read whose error is ignored. */
  predicate Tolerated(env: Env, s: Site) {
    if Swallowed(s) then Survives(env, s) else FaultAt(env, s) == Clean
  }

  predicate Undisturbed(env: Env, a: Action) { forall s | s in SitesOf(a) :: Tolerated(env, s) }

  /** The purposes for which a failing random source is an error; elsewhere the failure is ignored. */
  predicate NeedsRandom(p: Purpose) { p == ForAdmin || p == ForCa || p.ForCert? || p.ForFallbackCert? }

  /** The random source does not fail where that matters. */
  predicate Random(env: Env) {
    forall p, i | p in env.draws && NeedsRandom(p) && 0 <= i < |env.draws[p]| :: env.draws[p][i].Value?
  }

  /** A run that is going, in a living process, with these objects in place and the CA loaded or not. */
  predicate Up(r: Run, have: set<Id>, ca: bool) {
    r.out == Going && r.w.alive && HasAll(Mine(r.w), r.w.me, have) && (ca ==> r.loc.ca.Some?)
  }

  lemma UpWith(r: Run, have: set<Id>, less: set<Id>)
    requires Up(r, have, true) && less <= have
    ensures Up(r, less, true) && Up(r, less, false)
  {
  }

  /** The action's own requirements. */
  predicate Feasible(a: Action, have: set<Id>, ca: bool) {
    && a != EnsureRoute && a != LoadCa && a != NeedServices
    && (a.Ensure? ==>
          && a.id != LdapsRoute && a.id != LdapsSecret && a.place in {Pipeline, Fallback}
          && (a.id == TheNamespace || TheNamespace in have)
          && (a.id == GlauthConfig ==> PostgresSecret in have)
          && (a.id.Tls? && a.place != Fallback ==> ca))
  }

  lemma DrawsWork(env: Env, p: Purpose)
    requires Random(env) && NeedsRandom(p)
    ensures NewPassword(env, p).Some? && Head(DrawsFor(env, p)).Value?
  {
    GenerateSucceeds(DrawsFor(env, p), Length(p));
  }

  /** Everything the run builds can be built. */
  lemma BuildWorks(w: World, cn: CR, loc: Locals, env: Env, id: Id, place: Place, have: set<Id>, ca: bool)
    requires w.alive && HasAll(Mine(w), w.me, have) && (ca ==> loc.ca.Some?)
    requires Feasible(Ensure(id, place), have, ca) && Undisturbed(env, Ensure(id, place)) && Random(env)
    ensures var (w', o) := Build(w, cn, loc, env, id, place); w'.alive && o.Ok?
  {
    hide NewPassword, LabelsFor, PlainPayload, NinegateFields, ReadOr;
    match id {
      case AdminCredentials => DrawsWork(env, ForAdmin);
      case CaSecret => DrawsWork(env, ForCa);
      case Tls(app) => DrawsWork(env, ForCert(app)); DrawsWork(env, ForFallbackCert(app));
      case GlauthConfig =>
        assert Tolerated(env, Reading(PostgresSecret, GlauthRead));
        assert K(w, PostgresSecret) in Mine(Interfere(w, env, Reading(PostgresSecret, GlauthRead)));
      case NinegateSecret =>
        assert Tolerated(env, Reading(AdminCredentials, NinegateRead));
        ReadOrLives(w, env, AdminCredentials, NinegateRead, AdminPassword, ForNinegateAdmin);
      case DexConfig =>
        assert Tolerated(env, Reading(AdminCredentials, DexRead)) && Tolerated(env, Reading(NinegateSecret, DexRead));
        ReadOrLives(w, env, AdminCredentials, DexRead, AdminPassword, ForDexAdmin);
        ReadOrLives(ReadOr(w, env, AdminCredentials, DexRead, AdminPassword, ForDexAdmin).0, env,
                    NinegateSecret, DexRead, AppSecret, ForDexClient);
      case _ =>
    }
  }

  lemma ReadOrLives(w: World, env: Env, id: Id, place: Place, field: Field, p: Purpose)
    requires w.alive && Survives(env, Reading(id, place))
    ensures ReadOr(w, env, id, place, field, p).0.alive
  {
    hide NewPassword;
  }

  lemma PasswordLives(w: World, env: Env, override: string, id: Id, field: Field, p: Purpose)
    requires w.alive && Survives(env, Reading(id, PasswordRead))
    ensures GetOrCreatePassword(w, env, override, id, field, p).0.alive
  {
    hide NewPassword;
  }

  /** Undisturbed, get-else-create succeeds. */
  lemma EnsureWorks(w: World, cn: CR, loc: Locals, env: Env, id: Id, place: Place, have: set<Id>, ca: bool)
    requires w.alive && HasAll(Mine(w), w.me, have) && (ca ==> loc.ca.Some?)
    requires Feasible(Ensure(id, place), have, ca) && Undisturbed(env, Ensure(id, place)) && Random(env)
    ensures var (w', e) := EnsureObject(w, cn, loc, env, id, place); w'.alive && e.None?
  {
    assert Tolerated(env, Reading(id, place)) && Tolerated(env, Creating(id, place));
    hide Build, Undisturbed;
    var (w1, g) := Get(w, env, Reading(id, place), K(w, id));
    if g.Missed? {
      assert K(w, id) !in Mine(w1);
      BuildWorks(w1, cn, loc, env, id, place, have, ca);
      var (w2, o) := Build(w1, cn, loc, env, id, place);
      CreateWorks(w2, env, Creating(id, place), id, o.value);
    }
  }

  lemma CreateWorks(w: World, env: Env, s: Site, id: Id, o: Obj)
    requires w.alive && FaultAt(env, s) == Clean && K(w, id) !in Mine(w)
    requires id != TheNamespace ==> K(w, TheNamespace) in Mine(w)
    ensures var (w', e) := Create(w, env, s, K(w, id), o); w'.alive && e.None?
  {
    var wi := Interfere(w, env, s);
    assert forall k | Own(w.me, k) :: k in wi.store <==> k in Mine(wi);
  }

  lemma UpExec(r: Run, env: Env, a: Action, have: set<Id>, ca: bool)
    requires Up(r, have, ca) && Feasible(a, have, ca) && Undisturbed(env, a) && Random(env)
    ensures Up(Exec(r, env, a), have, ca)
  {
    ExecFacts(r, env, a);
    hide EnsureObject, Build, GetOrCreatePassword;
    match a {
      case Ensure(id, place) => EnsureWorks(r.w, r.cn, r.loc, env, id, place, have, ca);
      case ReadPasswords =>
        assert Tolerated(env, Reading(PostgresSecret, PasswordRead))
            && Tolerated(env, Reading(RustfsSecret, PasswordRead));
        PasswordLives(r.w, env, PgOverride(r.cn.spec), PostgresSecret, PostgresPassword, ForPostgres);
        var w1 := GetOrCreatePassword(r.w, env, PgOverride(r.cn.spec), PostgresSecret, PostgresPassword, ForPostgres).0;
        PasswordLives(w1, env, S3Override(r.cn.spec), RustfsSecret, RustfsPassword, ForRustfs);
      case _ =>
    }
  }

  predicate Smooth(env: Env, acts: seq<Action>, have: set<Id>, ca: bool) {
    Random(env) && forall a | a in acts :: Feasible(a, have, ca) && Undisturbed(env, a)
  }

  /** An undisturbed stretch of actions completes; afterwards what it ensured is there too. */
  lemma {:induction false} UpRun(r: Run, env: Env, acts: seq<Action>, have: set<Id>, ca: bool, ids: set<Id>)
    requires Up(r, have, ca) && Smooth(env, acts, have, ca) && forall id | id in ids :: On(id) in acts
    ensures Up(RunAll(r, env, acts), have + ids, ca)
    decreases |acts|
  {
    UpStays(r, env, acts, have, ca);
    hide Exec, Smooth;
    Frame(r, env, acts);
    var r' := RunAll(r, env, acts);
    forall id | id in ids ensures Has(Mine(r'.w), r'.w.me, id) {
      Done(r, env, acts, On(id));
    }
  }

  lemma {:induction false} UpStays(r: Run, env: Env, acts: seq<Action>, have: set<Id>, ca: bool)
    requires Up(r, have, ca) && Smooth(env, acts, have, ca)
    ensures Up(RunAll(r, env, acts), have, ca)
    decreases |acts|
  {
    if acts != [] {
      hide Exec, Up, Feasible, Undisturbed, Random;
      UpExec(r, env, acts[0], have, ca);
      UpStays(Exec(r, env, acts[0]), env, acts[1..], have, ca);
    }
  }

  /** Loading the CA works once its Secret is there with a key pair in it. */
  lemma UpLoadCa(r: Run, env: Env, have: set<Id>)
    requires Up(r, have, false) && CaSecret in have && Undisturbed(env, LoadCa) && Certified(Mine(r.w), r.w.me)
    ensures Up(Exec(r, env, LoadCa), have, true)
  {
    assert Tolerated(env, Reading(CaSecret, CaRead));
    assert K(r.w, CaSecret) in Mine(Interfere(r.w, env, Reading(CaSecret, CaRead)));
  }

  /** The route step gets through exactly when neither the route nor the Secret of its name exists yet. */
  lemma RouteWorks(r: Run, env: Env, have: set<Id>, ca: bool)
    requires Up(r, have, ca) && TheNamespace in have && Undisturbed(env, EnsureRoute)
             && !Has(Mine(r.w), r.w.me, LdapsSecret)
    ensures Exec(r, env, EnsureRoute).out == Going <==> !Has(Mine(r.w), r.w.me, LdapsRoute)
    ensures !Has(Mine(r.w), r.w.me, LdapsRoute) ==> Up(Exec(r, env, EnsureRoute), have, ca)
  {
    assert Tolerated(env, Reading(LdapsSecret, Pipeline)) && Tolerated(env, Creating(LdapsRoute, Pipeline));
    RouteRead(r.w, env);
    hide Get, Create, Mine;
    ExecFacts(r, env, EnsureRoute);
    RouteFacts(r.w, r.cn, r.loc, env);
    var w1 := Get(r.w, env, Reading(LdapsSecret, Pipeline), K(r.w, LdapsSecret)).0;
    if !Has(Mine(r.w), r.w.me, LdapsRoute) {
      CreateWorks(w1, env, Creating(LdapsRoute, Pipeline), LdapsRoute, RouteObject(r.cn, r.loc, env));
    }
  }

  lemma RouteRead(w: World, env: Env)
    requires w.alive && Tolerated(env, Reading(LdapsSecret, Pipeline)) && !Has(Mine(w), w.me, LdapsSecret)
    ensures var (w1, g) := Get(w, env, Reading(LdapsSecret, Pipeline), K(w, LdapsSecret)); w1.alive && g.Missed?
  {
  }

  // ---- The stages of an undisturbed run ---------------------------------------------------------

  predicate AllUndisturbed(env: Env, acts: seq<Action>) {
    Random(env) && forall a | a in acts :: Undisturbed(env, a)
  }

  lemma SmoothSecrets(spec: Spec, env: Env)
    requires AllUndisturbed(env, SecretActions(spec))
    ensures var rest := AdminStage(spec) + (RootStage() + (NinegateStage() + CaStage()));
            Smooth(env, NamespaceStage(), {}, false) && Smooth(env, rest, {TheNamespace}, false)
            && On(TheNamespace) in NamespaceStage() && On(PostgresSecret) in rest && On(CaSecret) in rest
  {
    hide Undisturbed, Feasible, NamespaceStage, AdminStage, RootStage, NinegateStage, CaStage;
    SecretsFeasible(spec);
    assert SecretActions(spec) == NamespaceStage() + (AdminStage(spec) + (RootStage() + (NinegateStage() + CaStage())));
  }

  lemma SecretsFeasible(spec: Spec)
    ensures forall a | a in NamespaceStage() :: Feasible(a, {}, false)
    ensures forall a | a in AdminStage(spec) :: Feasible(a, {TheNamespace}, false)
    ensures forall a | a in RootStage() :: Feasible(a, {TheNamespace}, false)
    ensures forall a | a in NinegateStage() + CaStage() :: Feasible(a, {TheNamespace}, false)
    ensures On(TheNamespace) in NamespaceStage() && On(PostgresSecret) in RootStage() && On(CaSecret) in CaStage()
  {
    assert NamespaceStage()[1] == On(TheNamespace) && RootStage()[2] == On(PostgresSecret)
        && CaStage()[1] == On(CaSecret);
  }

  lemma UpSecrets(r: Run, env: Env, spec: Spec)
    requires Up(r, {}, false) && AllUndisturbed(env, SecretActions(spec))
    ensures Up(RunAll(r, env, SecretActions(spec)), {TheNamespace, PostgresSecret, CaSecret}, false)
  {
    hide Up, RunAll, NamespaceStage, AdminStage, RootStage, NinegateStage, CaStage, Smooth, AllUndisturbed;
    var rest := AdminStage(spec) + (RootStage() + (NinegateStage() + CaStage()));
    SmoothSecrets(spec, env);
    UpRun(r, env, NamespaceStage(), {}, false, {TheNamespace});
    var ids: set<Id> := {};
    assert ids + {TheNamespace} == {TheNamespace};
    UpRun(RunAll(r, env, NamespaceStage()), env, rest, {TheNamespace}, false, {PostgresSecret, CaSecret});
    assert {TheNamespace} + {PostgresSecret, CaSecret} == {TheNamespace, PostgresSecret, CaSecret};
    Split(r, env, NamespaceStage(), rest);
  }

  lemma UpCerts(r: Run, env: Env, spec: Spec, have: set<Id>)
    requires Up(r, have, false) && TheNamespace in have && CaSecret in have && Certified(Mine(r.w), r.w.me)
    requires AllUndisturbed(env, CertStage(spec)) && r.cn.spec == spec && spec.services.Some?
    ensures Up(RunAll(r, env, CertStage(spec)), have, true)
  {
    hide Up, Exec, CertActions, Certified, Undisturbed;
    var f := FlagsOf(spec);
    var enter, certs := Enter(Blame("CertFailed", None)), CertActions(f);
    var acts := CertStage(spec);
    assert acts[0] == enter && acts[1] == LoadCa && acts[2] == NeedServices && acts[3..] == certs;
    var r1 := Exec(r, env, enter);
    UpExec(r, env, enter, have, false);
    ExecFacts(r, env, enter);
    var r2 := Exec(r1, env, LoadCa);
    UpLoadCa(r1, env, have);
    ExecFacts(r1, env, LoadCa);
    NeedIsMet(r2, env);
    CertsEnsured(f);
    assert Smooth(env, certs, have, true);
    UpStays(r2, env, certs, have, true);
    assert acts[1..][0] == LoadCa && acts[1..][1..][0] == NeedServices && acts[1..][1..][1..] == certs;
    assert RunAll(r1, env, acts[1..]) == RunAll(Exec(r2, env, NeedServices), env, certs);
  }

  lemma NeedIsMet(r: Run, env: Env)
    requires r.cn.spec.services.Some?
    ensures Exec(r, env, NeedServices) == r
  {
  }

  /** The actions between the certificates and the route. */
  function ServiceAndRules(f: ServiceFlags): seq<Action> {
    ServiceStages(SERVICE_COUNT, f) + ([Enter(Blame("IngressFailed", None))] + IngressRules(f))
  }

  lemma LateSplits(f: ServiceFlags)
    ensures LateActions(f) == ServiceAndRules(f) + ([EnsureRoute] + PolicyActions())
  {
    hide ServiceStages, IngressRules, PolicyActions;
  }

  lemma ServicesFeasible(i: nat, f: ServiceFlags, have: set<Id>)
    requires TheNamespace in have && PostgresSecret in have
    ensures forall a | a in ServiceActions(i, f) :: Feasible(a, have, true)
  {
  }

  lemma {:induction false} StagesFeasible(n: nat, f: ServiceFlags, have: set<Id>)
    requires TheNamespace in have && PostgresSecret in have
    ensures forall a | a in ServiceStages(n, f) :: Feasible(a, have, true)
  {
    if n > 0 {
      hide ServiceActions, ServiceBlame;
      StagesFeasible(n - 1, f, have);
      ServicesFeasible(n - 1, f, have);
    }
  }

  lemma RulesFeasible(f: ServiceFlags, have: set<Id>)
    requires TheNamespace in have
    ensures forall a | a in IngressRules(f) :: Feasible(a, have, true)
    ensures forall a | a in PolicyActions() :: Feasible(a, have, true)
  {
  }

  /** From the services on: everything gets through exactly when the route does. */
  lemma UpLate(r: Run, env: Env, f: ServiceFlags, have: set<Id>)
    requires Up(r, have, true) && TheNamespace in have && PostgresSecret in have && AllUndisturbed(env, LateActions(f))
    requires !Has(Mine(RunAll(r, env, ServiceAndRules(f)).w), r.w.me, LdapsSecret)
    requires !Has(Mine(r.w), r.w.me, LdapsRoute) ==>
             !Has(Mine(RunAll(r, env, ServiceAndRules(f)).w), r.w.me, LdapsRoute)
    ensures RunAll(r, env, LateActions(f)).out == Going <==> !Has(Mine(r.w), r.w.me, LdapsRoute)
    ensures RunAll(r, env, LateActions(f)).out == Going ==> RunAll(r, env, LateActions(f)).w.alive
  {
    hide Exec, ServiceStages, IngressRules, PolicyActions, Undisturbed, Feasible;
    LateSplits(f);
    var before := ServiceAndRules(f);
    var r1 := RunAll(r, env, before);
    StagesFeasible(SERVICE_COUNT, f, have);
    RulesFeasible(f, have);
    assert Feasible(Enter(Blame("IngressFailed", None)), have, true) by {
      EnterFeasible(Blame("IngressFailed", None), have);
    }
    assert Smooth(env, before, have, true);
    UpStays(r, env, before, have, true);
    Frame(r, env, before);
    RouteWorks(r1, env, have, true);
    var r2 := Exec(r1, env, EnsureRoute);
    Split(r, env, before, [EnsureRoute] + PolicyActions());
    assert ([EnsureRoute] + PolicyActions())[1..] == PolicyActions();
    if r2.out == Going {
      UpStays(r2, env, PolicyActions(), have, true);
    } else {
      Frame(r2, env, PolicyActions());
    }
  }

  lemma EnterFeasible(blame: Blame, have: set<Id>)
    ensures Feasible(Enter(blame), have, true)
  {
  }

  predicate Avoids(acts: seq<Action>, id: Id) { forall a | a in acts :: Target(a) != Some(id) }

  /** Only the actions that target an object can create it. */
  lemma {:induction false} Untouched(r: Run, env: Env, acts: seq<Action>, id: Id)
    requires Avoids(acts, id)
    ensures Has(Mine(RunAll(r, env, acts).w), r.w.me, id) == Has(Mine(r.w), r.w.me, id)
    decreases |acts|
  {
    if acts != [] {
      hide Exec;
      ExecFacts(r, env, acts[0]);
      Untouched(Exec(r, env, acts[0]), env, acts[1..], id);
    }
  }

  lemma SecretsAvoidRoute(spec: Spec)
    ensures Avoids(SecretActions(spec), LdapsRoute)
  {
    hide NamespaceStage, AdminStage, RootStage, NinegateStage, CaStage;
    SecretsFeasible(spec);
  }

  lemma CertsAvoidRoute(spec: Spec)
    ensures Avoids(CertStage(spec), LdapsRoute)
  {
    hide CertActions;
    CertsEnsured(FlagsOf(spec));
  }

  lemma ServicesAvoidRoute(f: ServiceFlags)
    ensures Avoids(ServiceAndRules(f), LdapsRoute)
  {
    hide ServiceStages, IngressRules;
    var have := {TheNamespace, PostgresSecret};
    StagesFeasible(SERVICE_COUNT, f, have);
    RulesFeasible(f, have);
  }

  /** At most the create of one object is disturbed. */
  ghost predicate OnlyAt(env: Env, id: Id) {
    Random(env) && forall s :: s != Creating(id, Pipeline) ==> FaultAt(env, s) == Clean
  }

  lemma AvoidedIsUndisturbed(env: Env, acts: seq<Action>, id: Id)
    requires OnlyAt(env, id) && Avoids(acts, id)
    ensures AllUndisturbed(env, acts)
  {
    forall a, s | a in acts && s in SitesOf(a) ensures s != Creating(id, Pipeline) {
    }
  }
}
