/** The creation order: after any history of a fixed spec, what exists is exactly a prefix of the plan. */
module Prefix {
  import opened Objects
  import opened Api
  import opened Contents
  import opened ServiceStatuses
  import opened Pipeline
  import opened Runs
  import opened Histories

  // ---- The plan -----------------------------------------------------------------

  /** The object an action is the one to create; the certificate fallbacks come after the certificates. */
  function NewTarget(a: Action): Option<Id> {
    if a.Ensure? && a.place == Fallback then None else Target(a)
  }

  function New(a: Action): seq<Id> { match NewTarget(a) case None => [] case Some(id) => [id] }

  function PlanOf(acts: seq<Action>): seq<Id> {
    if acts == [] then [] else New(acts[0]) + PlanOf(acts[1..])
  }

  /** The objects a clean run creates, in order. */
  function Plan(spec: Spec): seq<Id> { PlanOf(Actions(spec)) }

  lemma {:induction false} PlanOfAppend(a: seq<Action>, b: seq<Action>)
    ensures PlanOf(a + b) == PlanOf(a) + PlanOf(b)
    decreases |a|
  {
    if a == [] {
      assert a + b == b;
    } else {
      assert (a + b)[1..] == a[1..] + b;
      PlanOfAppend(a[1..], b);
    }
  }

  lemma {:induction false} PlanMember(acts: seq<Action>, id: Id)
    ensures id in PlanOf(acts) <==> exists a :: a in acts && NewTarget(a) == Some(id)
    decreases |acts|
  {
    if acts != [] {
      PlanMember(acts[1..], id);
      assert forall a :: a in acts <==> a == acts[0] || a in acts[1..];
    }
  }

  // ---- No object is planned twice ---------------------------------------------------

  /** A position for every object, increasing along every plan. */
  function Rank(id: Id): nat {
    match id
    case TheNamespace => 0
    case AdminCredentials => 1
    case PostgresSecret => 2
    case RustfsSecret => 3
    case NinegateSecret => 4
    case CaSecret => 5
    case Tls(app) => 10 + AppRank(app)
    case PostgresConfig => 20
    case PostgresSet => 21
    case Deployment(app) => 22 + 2 * CoreRank(app) + (if app == Redis then 0 else 1)
    case Service(app) => if app == Postgresql then 22 else 23 + 2 * CoreRank(app) + (if app == Redis then 0 else 1)
    case RustfsData => 30
    case Uploads => 40
    case PublicUploads => 41
    case GlauthConfig => 50
    case DexConfig => 60
    case IngressFor(app) => 70 + AppRank(app)
    case LdapsRoute => 80
    case EgressPolicy => 81
    case IngressPolicy => 82
    case _ => 90
  }

  function AppRank(app: App): nat {
    match app
    case Ninegate => 0 case Dex => 1 case Rustfs => 2 case RustfsApi => 3 case Glauth => 4
    case Nextcloud => 5 case Wordpress => 6 case Dolibarr => 7 case _ => 8
  }

  function CoreRank(app: App): nat {
    match app
    case Redis => 1 case Rustfs => 5 case Ninegate => 10 case Glauth => 15 case Dex => 20 case _ => 23
  }

  /** New targets have ranks in [lo, hi), strictly increasing. */
  predicate Ordered(acts: seq<Action>, lo: nat, hi: nat) {
    && (forall i | 0 <= i < |acts| && NewTarget(acts[i]).Some? :: lo <= Rank(NewTarget(acts[i]).value) < hi)
    && (forall i, j | 0 <= i < j < |acts| && NewTarget(acts[i]).Some? && NewTarget(acts[j]).Some? ::
          Rank(NewTarget(acts[i]).value) < Rank(NewTarget(acts[j]).value))
  }

  lemma OrderedAppend(a: seq<Action>, b: seq<Action>, lo: nat, mid: nat, hi: nat)
    requires lo <= mid <= hi && Ordered(a, lo, mid) && Ordered(b, mid, hi)
    ensures Ordered(a + b, lo, hi)
  {
  }

  predicate Fits(a: Action, lo: nat, hi: nat) {
    NewTarget(a).Some? ==> lo <= Rank(NewTarget(a).value) < hi
  }

  /** A list of actions, each in its own rank interval. */
  lemma Ordered1(a: Action, lo: nat, hi: nat)
    requires lo <= hi && Fits(a, lo, hi)
    ensures Ordered([a], lo, hi)
  {
  }

  lemma Ordered2(a: Action, b: Action, lo: nat, m: nat, hi: nat)
    requires lo <= m <= hi && Fits(a, lo, m) && Fits(b, m, hi)
    ensures Ordered([a, b], lo, hi)
  {
    Ordered1(a, lo, m);
    Ordered1(b, m, hi);
    OrderedAppend([a], [b], lo, m, hi);
    assert [a] + [b] == [a, b];
  }

  lemma Ordered3(a: Action, b: Action, c: Action, lo: nat, m: nat, n: nat, hi: nat)
    requires lo <= m <= n <= hi && Fits(a, lo, m) && Fits(b, m, n) && Fits(c, n, hi)
    ensures Ordered([a, b, c], lo, hi)
  {
    Ordered2(a, b, lo, m, n);
    Ordered1(c, n, hi);
    OrderedAppend([a, b], [c], lo, n, hi);
    assert [a, b] + [c] == [a, b, c];
  }

  lemma Ordered4(a: Action, b: Action, c: Action, d: Action, lo: nat, m: nat, n: nat, o: nat, hi: nat)
    requires lo <= m <= n <= o <= hi && Fits(a, lo, m) && Fits(b, m, n) && Fits(c, n, o) && Fits(d, o, hi)
    ensures Ordered([a, b, c, d], lo, hi)
  {
    Ordered2(a, b, lo, m, n);
    Ordered2(c, d, n, o, hi);
    OrderedAppend([a, b], [c, d], lo, n, hi);
    assert [a, b] + [c, d] == [a, b, c, d];
  }

  /** The three optional services, after some front part. */
  lemma OrderedOptional(front: seq<Action>, x: bool, a: Action, y: bool, b: Action, z: bool, c: Action,
                        first: nat, lo: nat, m: nat, n: nat, hi: nat)
    requires first <= lo <= m <= n <= hi && Ordered(front, first, lo)
    requires Fits(a, lo, m) && Fits(b, m, n) && Fits(c, n, hi)
    ensures Ordered(front + If(x, [a]) + If(y, [b]) + If(z, [c]), first, hi)
  {
    Ordered1(a, lo, m);
    Ordered1(b, m, n);
    Ordered1(c, n, hi);
    OrderedAppend(front, If(x, [a]), first, lo, m);
    OrderedAppend(front + If(x, [a]), If(y, [b]), first, m, n);
    OrderedAppend(front + If(x, [a]) + If(y, [b]), If(z, [c]), first, n, hi);
  }

  predicate Distinct(ids: seq<Id>) {
    forall i, j | 0 <= i < j < |ids| :: ids[i] != ids[j]
  }

  lemma {:induction false} OrderedIsDistinct(acts: seq<Action>, lo: nat, hi: nat)
    requires Ordered(acts, lo, hi)
    ensures Distinct(PlanOf(acts))
    decreases |acts|
  {
    if acts != [] {
      OrderedIsDistinct(acts[1..], lo, hi);
      if NewTarget(acts[0]).Some? {
        var id := NewTarget(acts[0]).value;
        PlanMember(acts[1..], id);
        assert id !in PlanOf(acts[1..]);
      }
    }
  }

  lemma SecretsOrdered(spec: Spec)
    ensures Ordered(SecretActions(spec), 0, 10)
  {
    hide Ordered;
    Ordered3(Enter(Blame("NamespaceFailed", None)), On(TheNamespace), SetNamespace, 0, 0, 1, 1);
    Ordered1(On(AdminCredentials), 1, 2);
    Ordered1(Enter(Blame("AdminCredentialsFailed", None)), 1, 1);
    Ordered1(SetAdminSecretName, 2, 2);
    OrderedNil(1, 2);
    OrderedAppend(AdminActions(spec), [SetAdminSecretName], 1, 2, 2);
    OrderedAppend([Enter(Blame("AdminCredentialsFailed", None))], AdminActions(spec) + [SetAdminSecretName], 1, 1, 2);
    Ordered2(Enter(Blame("RootSecretsFailed", None)), ReadPasswords, 2, 2, 2);
    Ordered2(On(PostgresSecret), On(RustfsSecret), 2, 3, 4);
    OrderedAppend([Enter(Blame("RootSecretsFailed", None)), ReadPasswords], [On(PostgresSecret), On(RustfsSecret)], 2,
        2, 4);
    Ordered2(Enter(Blame("NinegateSecretFailed", None)), On(NinegateSecret), 4, 4, 5);
    Ordered2(Enter(Blame("CAFailed", None)), On(CaSecret), 5, 5, 10);
    OrderedAppend(NinegateStage(), CaStage(), 4, 5, 10);
    OrderedAppend(RootStage(), NinegateStage() + CaStage(), 2, 4, 10);
    OrderedAppend(AdminStage(spec), RootStage() + (NinegateStage() + CaStage()), 1, 2, 10);
    OrderedAppend(NamespaceStage(), AdminStage(spec) + (RootStage() + (NinegateStage() + CaStage())), 0, 1, 10);
  }

  lemma OrderedNil(lo: nat, hi: nat)
    ensures Ordered([], lo, hi)
  {
  }

  lemma CertsOrdered(spec: Spec)
    ensures Ordered(CertStage(spec), 10, 20)
  {
    hide Ordered;
    var f := FlagsOf(spec);
    Ordered4(On(Tls(Ninegate)), On(Tls(Dex)), On(Tls(Rustfs)), On(Tls(Glauth)), 10, 11, 12, 13, 15);
    OrderedOptional([On(Tls(Ninegate)), On(Tls(Dex)), On(Tls(Rustfs)), On(Tls(Glauth))],
                    f.nextcloud, On(Tls(Nextcloud)), f.wordpress, On(Tls(Wordpress)), f.dolibarr, On(Tls(Dolibarr)),
                    10, 15, 16, 17, 20);
    Ordered2(LoadCa, NeedServices, 10, 10, 10);
    OrderedAppend([LoadCa, NeedServices], CertActions(f), 10, 10, 20);
    Ordered1(Enter(Blame("CertFailed", None)), 10, 10);
    OrderedAppend([Enter(Blame("CertFailed", None))], [LoadCa, NeedServices] + CertActions(f), 10, 10, 20);
  }

  function StageBound(i: nat): nat {
    match i case 0 => 20 case 1 => 24 case 2 => 30 case 3 => 40 case 4 => 50 case 5 => 60 case _ => 70
  }

  lemma StoreServicesOrdered(i: nat, f: ServiceFlags)
    requires i < 3
    ensures Ordered(ServiceActions(i, f), StageBound(i), StageBound(i + 1))
  {
    hide Ordered;
    OrderedNil(StageBound(i), StageBound(i + 1));
    match i {
      case 0 => Ordered3(On(PostgresConfig), On(PostgresSet), On(Service(Postgresql)), 20, 21, 22, 24);
      case 1 => Ordered2(On(Deployment(Redis)), On(Service(Redis)), 24, 25, 30);
      case _ => Ordered3(On(RustfsData), On(Deployment(Rustfs)), On(Service(Rustfs)), 30, 31, 34, 40);
    }
  }

  lemma NinegateOrdered(f: ServiceFlags)
    ensures Ordered(ServiceActions(3, f), 40, 50)
  {
    hide Ordered;
    OrderedNil(40, 50);
    Ordered4(On(Uploads), On(PublicUploads), On(Deployment(Ninegate)), On(Service(Ninegate)), 40, 41, 42, 44, 50);
  }

  lemma GlauthOrdered(f: ServiceFlags)
    ensures Ordered(ServiceActions(4, f), 50, 60)
  {
    hide Ordered;
    OrderedNil(50, 60);
    Ordered4(On(GlauthConfig), Ensure(Tls(Glauth), Fallback), On(Deployment(Glauth)), On(Service(Glauth)), 50, 51, 51,
        54, 60);
  }

  lemma DexOrdered(f: ServiceFlags)
    ensures Ordered(ServiceActions(5, f), 60, 70)
  {
    hide Ordered;
    OrderedNil(60, 70);
    Ordered4(On(DexConfig), Ensure(Tls(Dex), Fallback), On(Deployment(Dex)), On(Service(Dex)), 60, 61, 61, 64, 70);
  }

  lemma ServiceStageOrdered(i: nat, f: ServiceFlags)
    requires i < SERVICE_COUNT
    ensures Ordered(ServiceStage(i, f), StageBound(i), StageBound(i + 1))
  {
    hide Ordered, ServiceActions, ServiceName;
    var lo, hi := StageBound(i), StageBound(i + 1);
    match i {
      case 3 => NinegateOrdered(f);
      case 4 => GlauthOrdered(f);
      case 5 => DexOrdered(f);
      case _ => StoreServicesOrdered(i, f);
    }
    Ordered1(Enter(ServiceBlame(i)), lo, lo);
    Ordered1(ServiceDone(i), hi, hi);
    OrderedAppend([Enter(ServiceBlame(i))], ServiceActions(i, f), lo, lo, hi);
    OrderedAppend([Enter(ServiceBlame(i))] + ServiceActions(i, f), [ServiceDone(i)], lo, hi, hi);
  }

  lemma {:induction false} ServiceStagesOrdered(n: nat, f: ServiceFlags)
    requires n <= SERVICE_COUNT
    ensures Ordered(ServiceStages(n, f), 20, StageBound(n))
  {
    hide ServiceStage, Ordered;
    if n == 0 {
      OrderedNil(20, StageBound(0));
    } else {
      var front, stage := ServiceStages(n - 1, f), ServiceStage(n - 1, f);
      assert ServiceStages(n, f) == front + stage;
      hide ServiceStages;
      ServiceStagesOrdered(n - 1, f);
      ServiceStageOrdered(n - 1, f);
      OrderedAppend(front, stage, 20, StageBound(n - 1), StageBound(n));
    }
  }

  lemma IngressRulesOrdered(f: ServiceFlags)
    ensures Ordered(IngressRules(f), 70, 80)
  {
    hide Ordered;
    Ordered4(On(IngressFor(Ninegate)), On(IngressFor(Dex)), On(IngressFor(Rustfs)), On(IngressFor(RustfsApi)), 70, 71,
        72, 73, 75);
    OrderedOptional([On(IngressFor(Ninegate)), On(IngressFor(Dex)), On(IngressFor(Rustfs)), On(IngressFor(RustfsApi))],
                    f.nextcloud, On(IngressFor(Nextcloud)), f.wordpress, On(IngressFor(Wordpress)),
                    f.dolibarr, On(IngressFor(Dolibarr)), 70, 75, 76, 77, 80);
  }

  lemma NetworkOrdered(f: ServiceFlags)
    ensures Ordered(IngressActions(f) + PolicyActions(), 70, 90)
  {
    hide Ordered, IngressRules;
    IngressRulesOrdered(f);
    Ordered1(EnsureRoute, 80, 81);
    OrderedAppend(IngressRules(f), [EnsureRoute], 70, 80, 81);
    Ordered1(Enter(Blame("IngressFailed", None)), 70, 70);
    OrderedAppend([Enter(Blame("IngressFailed", None))], IngressRules(f) + [EnsureRoute], 70, 70, 81);
    Ordered1(Enter(Blame("NetworkPolicyFailed", None)), 81, 81);
    Ordered2(On(EgressPolicy), On(IngressPolicy), 81, 82, 90);
    OrderedAppend([Enter(Blame("NetworkPolicyFailed", None))], [On(EgressPolicy), On(IngressPolicy)], 81, 81, 90);
    OrderedAppend(IngressActions(f), PolicyActions(), 70, 81, 90);
  }

  lemma {:induction false} OrderedBounds(acts: seq<Action>, lo: nat, hi: nat, id: Id)
    requires Ordered(acts, lo, hi) && id in PlanOf(acts)
    ensures lo <= Rank(id) < hi
  {
    hide Rank;
    PlanMember(acts, id);
  }

  lemma ActionsOrdered(spec: Spec)
    ensures Ordered(Actions(spec), 0, 90)
  {
    hide Rank, SecretActions, CertStage, ServiceStages, IngressActions, PolicyActions, Ordered;
    var f := FlagsOf(spec);
    SecretsOrdered(spec);
    CertsOrdered(spec);
    ServiceStagesOrdered(SERVICE_COUNT, f);
    NetworkOrdered(f);
    OrderedAppend(ServiceStages(SERVICE_COUNT, f), IngressActions(f) + PolicyActions(), 20, 70, 90);
    OrderedAppend(CertStage(spec), LateActions(f), 10, 20, 90);
    OrderedAppend(SecretActions(spec), CertStage(spec) + LateActions(f), 0, 10, 90);
  }

  /** Every plan lists distinct objects, none of them the Secret the route check looks for. */
  lemma PlanIsDistinct(spec: Spec)
    ensures Distinct(Plan(spec)) && LdapsSecret !in Plan(spec)
  {
    hide Rank, Actions, Ordered;
    ActionsOrdered(spec);
    OrderedIsDistinct(Actions(spec), 0, 90);
    if LdapsSecret in Plan(spec) {
      OrderedBounds(Actions(spec), 0, 90, LdapsSecret);
      LdapsRank();
    }
  }

  lemma LdapsRank()
    ensures Rank(LdapsSecret) == 90
  {
  }

  // ---- The prefix invariant ------------------------------------------------------------

  function KeysOf(w: World, ids: seq<Id>): seq<Key> { seq(|ids|, i requires 0 <= i < |ids| => K(w, ids[i])) }

  /** The client's objects are exactly the first `n` of the plan, and the effective creates of the whole
      history are exactly those, once each and in plan order. */
  predicate IsPrefix(w: World, plan: seq<Id>, n: nat) {
    && n <= |plan|
    && (forall i | 0 <= i < n :: K(w, plan[i]) in Mine(w))
    && (forall k | k in Mine(w) :: k.id in plan[..n])
    && Creates(w.log) == KeysOf(w, plan[..n])
  }

  /** Growing by the next planned object keeps the prefix property. */
  lemma PrefixGrows(w: World, w': World, plan: seq<Id>, n: nat, p: nat)
    requires IsPrefix(w, plan, n) && Distinct(plan) && p < |plan| && p <= n
    requires GainsAtMost(w, w', plan[p])
    ensures K(w, plan[p]) in Mine(w) <==> p < n
    ensures K(w, plan[p]) in Mine(w') ==> IsPrefix(w', plan, if p < n then n else n + 1)
    ensures K(w, plan[p]) !in Mine(w') ==> IsPrefix(w', plan, n)
  {
    var key := K(w, plan[p]);
    assert key in Mine(w) ==> key.id in plan[..n];
    if key !in Mine(w) && key in Mine(w') {
      assert p == n;
      CreatesAppend(w.log, Created(key, Mine(w')[key]));
      assert plan[..n + 1] == plan[..n] + [plan[n]];
      assert KeysOf(w', plan[..n + 1]) == KeysOf(w, plan[..n]) + [key];
    } else {
      assert KeysOf(w', plan[..n]) == KeysOf(w, plan[..n]);
    }
  }

  /** The route step succeeds only by creating the route. */
  lemma RouteCompletes(r: Run, env: Env)
    requires r.out == Going && Exec(r, env, EnsureRoute).out == Going && K(r.w, LdapsSecret) !in Mine(r.w)
    ensures K(r.w, LdapsRoute) in Mine(Exec(r, env, EnsureRoute).w) && K(r.w, LdapsRoute) !in Mine(r.w)
  {
    RouteFacts(r.w, r.cn, r.loc, env);
  }

  /** An action that is to create the object at plan position `p`. */
  lemma PrefixTarget(r: Run, env: Env, a: Action, plan: seq<Id>, n: nat, p: nat) returns (n': nat)
    requires IsPrefix(r.w, plan, n) && Distinct(plan) && LdapsSecret !in plan
    requires r.out == Going && p <= n && p < |plan| && NewTarget(a) == Some(plan[p])
    ensures n <= n' && IsPrefix(Exec(r, env, a).w, plan, n')
    ensures Exec(r, env, a).out == Going ==> p < n'
  {
    hide Exec, IsPrefix;
    var r' := Exec(r, env, a);
    ExecFacts(r, env, a);
    PrefixGrows(r.w, r'.w, plan, n, p);
    n' := if K(r.w, plan[p]) in Mine(r'.w) && p == n then n + 1 else n;
    if a == EnsureRoute && r'.out == Going {
      Unplanned(r.w, plan, n, LdapsSecret);
      RouteCompletes(r, env);
    }
  }

  lemma Unplanned(w: World, plan: seq<Id>, n: nat, id: Id)
    requires IsPrefix(w, plan, n) && id !in plan
    ensures K(w, id) !in Mine(w)
  {
  }

  /** Any other action: nothing is added, because a fallback's certificate already exists. */
  lemma PrefixOther(r: Run, env: Env, a: Action, plan: seq<Id>, n: nat, p: nat)
    requires IsPrefix(r.w, plan, n) && Distinct(plan)
    requires r.out == Going ==> p <= n && p <= |plan|
    requires NewTarget(a).None? && (r.out == Going && Target(a).Some? ==> Target(a).value in plan[..p])
    ensures IsPrefix(Exec(r, env, a).w, plan, n)
  {
    hide Exec;
    var r' := Exec(r, env, a);
    ExecFacts(r, env, a);
    if r.out == Going && Target(a).Some? {
      var i :| 0 <= i < p && plan[i] == Target(a).value;
      PrefixGrows(r.w, r'.w, plan, n, i);
    } else {
      assert KeysOf(r'.w, plan[..n]) == KeysOf(r.w, plan[..n]);
    }
  }

  lemma StoppedStays(r: Run, env: Env, a: Action)
    ensures r.out != Going ==> Exec(r, env, a) == r
  {
  }

  /** A stretch of actions whose plan comes after `before`; its fallbacks only concern objects in `early`. */
  lemma {:induction false} PrefixRun(r: Run, env: Env, acts: seq<Action>, plan: seq<Id>, n: nat,
                                     before: seq<Id>, after: seq<Id>, early: set<Id>) returns (n': nat)
    requires IsPrefix(r.w, plan, n) && Distinct(plan) && LdapsSecret !in plan
    requires plan == before + (PlanOf(acts) + after)
    requires r.out == Going ==> |before| <= n
    requires forall id | id in early :: id in before
    requires forall a | a in acts && a.Ensure? && a.place == Fallback :: a.id in early
    ensures n <= n' && IsPrefix(RunAll(r, env, acts).w, plan, n')
    ensures RunAll(r, env, acts).out == Going ==> |before| + |PlanOf(acts)| <= n'
    decreases |acts|
  {
    n' := n;
    hide Exec, IsPrefix, Distinct, Mine, Target, New;
    if acts != [] {
      var a, rest := acts[0], acts[1..];
      var r' := Exec(r, env, a);
      assert RunAll(r, env, acts) == RunAll(r', env, rest);
      assert PlanOf(acts) == New(a) + PlanOf(rest);
      hide RunAll, PlanOf;
      assert before + (New(a) + PlanOf(rest) + after) == before + (New(a) + (PlanOf(rest) + after));
      n' := PrefixOne(r, env, a, plan, n, before, PlanOf(rest) + after, early);
      assert before + (New(a) + (PlanOf(rest) + after)) == before + New(a) + (PlanOf(rest) + after);
      n' := PrefixRun(r', env, rest, plan, n', before + New(a), after, early);
    }
  }

  /** One action of such a stretch. */
  lemma PrefixOne(r: Run, env: Env, a: Action, plan: seq<Id>, n: nat, before: seq<Id>, tail: seq<Id>, early: set<Id>)
      returns (n': nat)
    requires IsPrefix(r.w, plan, n) && Distinct(plan) && LdapsSecret !in plan
    requires plan == before + (New(a) + tail) && (r.out == Going ==> |before| <= n)
    requires forall id | id in early :: id in before
    requires a.Ensure? && a.place == Fallback ==> a.id in early
    ensures n <= n' && IsPrefix(Exec(r, env, a).w, plan, n')
    ensures Exec(r, env, a).out == Going ==> |before + New(a)| <= n'
  {
    hide Exec, IsPrefix, Distinct, Mine;
    n' := n;
    StoppedStays(r, env, a);
    if NewTarget(a).Some? {
      assert plan[|before|] == NewTarget(a).value;
      if r.out == Going {
        n' := PrefixTarget(r, env, a, plan, n, |before|);
      }
    } else {
      assert plan[..|before|] == before;
      PrefixOther(r, env, a, plan, n, |before|);
    }
  }

  const EARLY: set<Id> := {Tls(Glauth), Tls(Dex)}

  lemma EarlyCerts(spec: Spec)
    ensures forall id | id in EARLY :: id in PlanOf(SecretActions(spec) + CertStage(spec))
  {
    hide SecretActions;
    var acts := SecretActions(spec) + CertStage(spec);
    CertsAreThere(spec, acts);
    assert NewTarget(On(Tls(Dex))) == Some(Tls(Dex)) && NewTarget(On(Tls(Glauth))) == Some(Tls(Glauth));
    PlanMember(acts, Tls(Dex));
    PlanMember(acts, Tls(Glauth));
  }

  lemma CertsAreThere(spec: Spec, acts: seq<Action>)
    requires acts == SecretActions(spec) + CertStage(spec)
    ensures On(Tls(Dex)) in acts && On(Tls(Glauth)) in acts
  {
    hide SecretActions;
    var certs := CertActions(FlagsOf(spec));
    assert certs[1] == On(Tls(Dex)) && certs[3] == On(Tls(Glauth));
    assert CertStage(spec)[4] == certs[1] && CertStage(spec)[6] == certs[3];
  }

  predicate FallsBackEarly(acts: seq<Action>) {
    forall a | a in acts && a.Ensure? && a.place == Fallback :: a.id in EARLY
  }

  predicate NoFallback(acts: seq<Action>) {
    forall a | a in acts && a.Ensure? :: a.place == Pipeline
  }

  lemma ActionFallbacks(i: nat, f: ServiceFlags)
    ensures FallsBackEarly(ServiceActions(i, f))
  {
  }

  lemma {:induction false} ServiceFallbacks(n: nat, f: ServiceFlags)
    ensures FallsBackEarly(ServiceStages(n, f))
  {
    if n > 0 {
      hide ServiceActions, ServiceBlame;
      ServiceFallbacks(n - 1, f);
      ActionFallbacks(n - 1, f);
      assert FallsBackEarly(ServiceStage(n - 1, f));
    }
  }

  lemma SecretFallbacks(spec: Spec)
    ensures NoFallback(SecretActions(spec))
  {
    assert NoFallback(NamespaceStage()) && NoFallback(AdminStage(spec)) && NoFallback(RootStage());
    assert NoFallback(NinegateStage()) && NoFallback(CaStage());
  }

  lemma CertFallbacks(spec: Spec)
    ensures NoFallback(CertStage(spec))
  {
  }

  lemma NetworkFallbacks(f: ServiceFlags)
    ensures FallsBackEarly(IngressActions(f) + PolicyActions())
  {
  }

  lemma Fallbacks(spec: Spec)
    ensures NoFallback(SecretActions(spec) + CertStage(spec))
    ensures FallsBackEarly(LateActions(FlagsOf(spec)))
  {
    hide SecretActions, CertStage, ServiceStages, IngressActions, PolicyActions;
    SecretFallbacks(spec);
    CertFallbacks(spec);
    ServiceFallbacks(SERVICE_COUNT, FlagsOf(spec));
    NetworkFallbacks(FlagsOf(spec));
  }

  /** A whole pipeline keeps the prefix property; if it got through, the plan is complete. */
  lemma PrefixPipeline(r: Run, env: Env, spec: Spec, n: nat) returns (n': nat)
    requires IsPrefix(r.w, Plan(spec), n)
    ensures n <= n' && IsPrefix(RunAll(r, env, Actions(spec)).w, Plan(spec), n')
    ensures RunAll(r, env, Actions(spec)).out == Going ==> n' == |Plan(spec)|
  {
    hide SecretActions, CertStage, LateActions, IsPrefix, Distinct;
    var a, b := SecretActions(spec) + CertStage(spec), LateActions(FlagsOf(spec));
    assert Actions(spec) == a + b;
    PlanOfAppend(a, b);
    Split(r, env, a, b);
    PlanIsDistinct(spec);
    Fallbacks(spec);
    EarlyCerts(spec);
    var plan := Plan(spec);
    assert plan == [] + (PlanOf(a) + PlanOf(b));
    assert plan == PlanOf(a) + (PlanOf(b) + []);
    n' := PrefixRun(r, env, a, plan, n, [], PlanOf(b), {});
    n' := PrefixRun(RunAll(r, env, a), env, b, plan, n', PlanOf(a), [], EARLY);
    assert n' <= |plan| by { PrefixLength(RunAll(RunAll(r, env, a), env, b).w, plan, n'); }
  }

  lemma PrefixLength(w: World, plan: seq<Id>, n: nat)
    requires IsPrefix(w, plan, n)
    ensures n <= |plan|
  {
  }

  // ---- Histories ------------------------------------------------------------------------

  /** Stored phases and other clients' activity do not matter for the prefix property. */
  lemma SamePrefix(w: World, w': World, plan: seq<Id>, n: nat)
    requires IsPrefix(w, plan, n) && w'.me == w.me && Mine(w') == Mine(w) && Creates(w'.log) == Creates(w.log)
    ensures IsPrefix(w', plan, n)
  {
    assert KeysOf(w', plan[..n]) == KeysOf(w, plan[..n]);
  }

  /** One run under any faults: the prefix only grows. */
  lemma PrefixReconcile(w: World, env: Env, n: nat) returns (n': nat)
    requires Managed(w) && IsPrefix(w, Plan(w.cr.value.spec), n)
    ensures n <= n' && IsPrefix(Reconcile(w, env), Plan(w.cr.value.spec), n')
  {
    hide RunAll, Finish, Actions, IsPrefix, Plan;
    var spec := w.cr.value.spec;
    var began, r0 := ReconcileShape(w, env);
    n' := n;
    if began {
      SamePrefix(w, r0.w, Plan(spec), n);
      n' := PrefixPipeline(r0, env, spec, n);
      var r := RunAll(r0, env, Actions(spec));
      FinishFacts(r, env);
      SamePrefix(r.w, Finish(r, env), Plan(spec), n');
    } else {
      SamePrefix(w, Reconcile(w, env), Plan(spec), n);
    }
  }

  /** No spec edit changes the spec. */
  predicate SpecKept(spec: Spec, steps: seq<Step>) {
    forall s | s in steps && s.EditSpec? :: s.spec == spec
  }

  lemma PrefixStep(w: World, s: Step, n: nat) returns (n': nat)
    requires Managed(w) && IsPrefix(w, Plan(w.cr.value.spec), n) && SpecKept(w.cr.value.spec, [s])
    ensures var w' := Apply(w, s);
            && Managed(w') && w'.cr.value.spec == w.cr.value.spec
            && n <= n' && IsPrefix(w', Plan(w.cr.value.spec), n')
  {
    hide IsPrefix, Plan, Reconcile;
    ApplyKeepsManaged(w, s);
    if s.RunOnce? {
      n' := PrefixReconcile(w, s.env, n);
      RunKeepsManaged(w, s.env);
    } else {
      assert s in [s];
      IdleStep(w, s);
      SamePrefix(w, Apply(w, s), Plan(w.cr.value.spec), n);
      n' := n;
    }
  }

  lemma PrefixStart(w: World)
    requires Fresh(w)
    ensures IsPrefix(w, Plan(w.cr.value.spec), 0)
  {
    assert KeysOf(w, Plan(w.cr.value.spec)[..0]) == [];
  }

  /** The prefix theorem: for a fixed spec, after any number of runs with drops, stale reads, ambiguous writes and
      crashes at any call, the client's objects are exactly a prefix of the plan, each created exactly once over the
      whole history and in plan order. The prefix has only grown since any earlier point. */
  lemma {:induction false} PrefixTheorem(w: World, steps: seq<Step>, m: nat) returns (early: nat, n: nat)
    requires Fresh(w) && SpecKept(w.cr.value.spec, steps) && m <= |steps|
    ensures var plan := Plan(w.cr.value.spec);
            && IsPrefix(Play(w, steps[..m]), plan, early) && IsPrefix(Play(w, steps), plan, n) && early <= n
    ensures Managed(Play(w, steps)) && Play(w, steps).cr.value.spec == w.cr.value.spec
    decreases |steps|
  {
    hide IsPrefix, Plan, Apply;
    if steps == [] {
      PrefixStart(w);
      early, n := 0, 0;
      assert steps[..m] == steps;
    } else {
      var before, last := steps[..|steps| - 1], steps[|steps| - 1];
      var spec := w.cr.value.spec;
      assert SpecKept(spec, before) by { assert forall s | s in before :: s in steps; }
      if m == |steps| {
        assert steps[..m] == steps;
        early, n := PrefixTheorem(w, before, 0);
        early := PrefixStep(Play(w, before), last, n);
        n := early;
      } else {
        assert before[..m] == steps[..m];
        early, n := PrefixTheorem(w, before, m);
        n := PrefixStep(Play(w, before), last, n);
      }
    }
  }

  /** Conservation: over the whole history, the creates that took effect are as many as the objects that exist,
      and never more than the plan has. */
  lemma Conservation(w: World, steps: seq<Step>)
    requires Fresh(w) && SpecKept(w.cr.value.spec, steps)
    ensures var now := Play(w, steps);
            |Creates(now.log)| == |Mine(now)| <= |Plan(w.cr.value.spec)|
  {
    hide Plan, Apply, IsPrefix;
    var _, n := PrefixTheorem(w, steps, 0);
    PlanIsDistinct(w.cr.value.spec);
    PrefixCounts(Play(w, steps), Plan(w.cr.value.spec), n);
  }

  lemma PrefixCounts(w: World, plan: seq<Id>, n: nat)
    requires IsPrefix(w, plan, n) && Distinct(plan)
    ensures |Creates(w.log)| == n == |Mine(w)| <= |plan|
  {
    var ids := plan[..n];
    var keys := set k | k in Mine(w) :: k;
    DistinctCount(w, ids);
    assert Mine(w).Keys == set id | id in ids :: K(w, id);
  }

  lemma {:induction false} DistinctCount(w: World, ids: seq<Id>)
    requires Distinct(ids)
    ensures |set id | id in ids :: K(w, id)| == |ids|
    decreases |ids|
  {
    if ids != [] {
      var last := ids[|ids| - 1];
      var front := ids[..|ids| - 1];
      DistinctCount(w, front);
      assert (set id | id in ids :: K(w, id)) == (set id | id in front :: K(w, id)) + {K(w, last)};
      assert K(w, last) !in (set id | id in front :: K(w, id));
    }
  }
}
