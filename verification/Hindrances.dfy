/** Which errors stop a run for good: failing reads, failing draws, a CA that cannot be loaded. */
module Hindrances {
  import opened Objects
  import opened Api
  import opened Passwords
  import opened Contents
  import opened Pipeline
  import opened Runs
  import opened Phases
  import opened Histories
  import opened Prefix
  import opened Invariants
  import opened CleanRuns
  import opened Recovery
  import opened Completeness
  import opened Strandings
  import opened FailureReports
  import opened Births
  import opened Origins

  // ---- Failing reads ----------------------------------------------------------------------------------------

  /** The read of this object, for this purpose, fails with an error other than "not found". */
  predicate ReadFailsAt(env: Env, id: Id, place: Place) { FaultAt(env, Reading(id, place)) in {Drop, Ambiguous} }

  /** The read of the CA before the certificates finds nothing, truthfully or not. */
  predicate CaUnread(env: Env) { FaultAt(env, Reading(CaSecret, CaRead)) in {Drop, Ambiguous, Stale} }

  /** An action that such an error stops. */
  predicate Hindered(env: Env, a: Action) {
    (a.Ensure? && ReadFailsAt(env, a.id, a.place)) || (a == LoadCa && CaUnread(env))
  }

  lemma HinderedStops(r: Run, env: Env, a: Action)
    requires Hindered(env, a)
    ensures Exec(r, env, a).out != Going
  {
    hide Build, Create;
  }

  lemma {:induction false} HinderedRun(r: Run, env: Env, acts: seq<Action>, a: Action)
    requires a in acts && Hindered(env, a)
    ensures RunAll(r, env, acts).out != Going
    decreases |acts|
  {
    hide Exec, Hindered;
    var r1 := Exec(r, env, acts[0]);
    if a == acts[0] {
      HinderedStops(r, env, a);
      Frame(r1, env, acts[1..]);
    } else {
      HinderedRun(r1, env, acts[1..], a);
    }
  }

  /** What a run looks for: every planned object but the route at its own place, and the certificates of Glauth and Dex
      once more with their services. */
  predicate LooksFor(spec: Spec, id: Id, place: Place) {
    || (place == Pipeline && id != LdapsRoute && id in Plan(spec))
    || (place == Fallback && FlagsOf(spec).glauth && id == Tls(Glauth))
    || (place == Fallback && FlagsOf(spec).dex && id == Tls(Dex))
  }

  lemma LookedFor(spec: Spec, id: Id, place: Place)
    requires LooksFor(spec, id, place)
    ensures Ensure(id, place) in Actions(spec)
  {
    hide SecretActions, CertStage, ServiceStages, IngressActions, PolicyActions;
    var f := FlagsOf(spec);
    if place == Pipeline {
      hide Actions;
      PlanMember(Actions(spec), id);
      PlacesOf(spec);
      RouteIsNoEnsure(spec);
    } else if id == Tls(Glauth) {
      FallbackThere(4, f);
      InStages(4, SERVICE_COUNT, f, Ensure(Tls(Glauth), Fallback));
    } else {
      FallbackThere(5, f);
      InStages(5, SERVICE_COUNT, f, Ensure(Tls(Dex), Fallback));
    }
  }

  lemma RouteIsNoEnsure(spec: Spec)
    ensures forall a | a in Actions(spec) && Target(a).Some? && Target(a) != Some(LdapsRoute) :: a.Ensure?
  {
  }

  lemma FallbackThere(i: nat, f: ServiceFlags)
    ensures i == 4 && f.glauth ==> Ensure(Tls(Glauth), Fallback) in ServiceActions(i, f)
    ensures i == 5 && f.dex ==> Ensure(Tls(Dex), Fallback) in ServiceActions(i, f)
  {
    if i == 4 && f.glauth {
      assert ServiceActions(i, f)[1] == Ensure(Tls(Glauth), Fallback);
    }
    if i == 5 && f.dex {
      assert ServiceActions(i, f)[1] == Ensure(Tls(Dex), Fallback);
    }
  }

  lemma LoadsCa(spec: Spec)
    ensures LoadCa in Actions(spec)
  {
    hide SecretActions, CertActions, LateActions;
    assert CertStage(spec)[1] == LoadCa;
    hide CertStage;
  }

  lemma HinderedStrands(w0: World, steps: seq<Step>, env: Env, a: Action)
    requires Fresh(w0) && !IsReady(Play(w0, steps)) && NoCrash(env) && Reports(env) && Hindered(env, a)
    requires Play(w0, steps).cr.Some? && Play(w0, steps).cr.value.spec.services.Some?
    requires a in Actions(Play(w0, steps).cr.value.spec)
    ensures Stranded(Play(w0, steps + [RunOnce(env)]))
  {
    hide Play, Reconcile, Begin, RunAll, Actions, NoCrash, Reports, Hindered;
    var w := Play(w0, steps);
    HistoryIsCoherent(w0, steps);
    PlayOneMore(w0, steps, RunOnce(env));
    ReadyOrStranded(w, env);
    HinderedRun(Begin(w, env).value, env, Actions(w.cr.value.spec), a);
  }

  /** One failing read strands. Take any reachable state that is not Ready, and any object the run looks for, there or
      not: a run in which that read fails, and in which nothing else need go wrong, strands the client for good. */
  lemma OneFailedReadStrands(w0: World, steps: seq<Step>, id: Id, place: Place, env: Env)
    requires Fresh(w0) && !IsReady(Play(w0, steps)) && NoCrash(env) && Reports(env) && ReadFailsAt(env, id, place)
    requires Play(w0, steps).cr.Some? && Play(w0, steps).cr.value.spec.services.Some?
    requires LooksFor(Play(w0, steps).cr.value.spec, id, place)
    ensures Stranded(Play(w0, steps + [RunOnce(env)]))
  {
    hide Play, Actions, NoCrash, Reports, LooksFor, Stranded;
    LookedFor(Play(w0, steps).cr.value.spec, id, place);
    HinderedStrands(w0, steps, env, Ensure(id, place));
  }

  /** So does one run that cannot read the CA, even if every certificate is there. */
  lemma OneUnreadCaStrands(w0: World, steps: seq<Step>, env: Env)
    requires Fresh(w0) && !IsReady(Play(w0, steps)) && NoCrash(env) && Reports(env) && CaUnread(env)
    requires Play(w0, steps).cr.Some? && Play(w0, steps).cr.value.spec.services.Some?
    ensures Stranded(Play(w0, steps + [RunOnce(env)]))
  {
    hide Play, Actions, NoCrash, Reports, Stranded, CaUnread;
    LoadsCa(Play(w0, steps).cr.value.spec);
    HinderedStrands(w0, steps, env, LoadCa);
  }

  // ---- Failing draws ----------------------------------------------------------------------------------------

  /** The random source fails where the failure is an error: for the admin password, the CA and certificates. */
  predicate DrawFails(env: Env, id: Id) {
    match id
    case AdminCredentials => NewPassword(env, ForAdmin).None?
    case CaSecret => Head(DrawsFor(env, ForCa)) == NoRandom
    case Tls(app) => Head(DrawsFor(env, ForCert(app))) == NoRandom
    case _ => false
  }

  lemma NotBuilt(w: World, cn: CR, loc: Locals, env: Env, id: Id)
    requires DrawFails(env, id)
    ensures Build(w, cn, loc, env, id, Pipeline).1.Fail?
  {
    hide NewPassword, LabelsFor;
  }

  lemma ExecUnbuilt(r: Run, env: Env, a: Action, id: Id)
    requires DrawFails(env, id) && !Has(Mine(r.w), r.w.me, id) && (a.Ensure? && a.id == id ==> a.place == Pipeline)
    ensures !Has(Mine(Exec(r, env, a).w), r.w.me, id)
  {
    ExecFacts(r, env, a);
    hide Build, Mine, Exec;
    if Has(Mine(Exec(r, env, a).w), r.w.me, id) {
      BuiltAnyhow(r, env, a, id);
    }
  }

  lemma BuiltAnyhow(r: Run, env: Env, a: Action, id: Id)
    requires id != LdapsRoute && !Has(Mine(r.w), r.w.me, id) && Has(Mine(Exec(r, env, a).w), r.w.me, id)
    requires a.Ensure? && a.id == id ==> a.place == Pipeline
    ensures !DrawFails(env, id)
  {
    hide Build, Mine, Exec, DrawFails;
    var wb := BuiltNow(r, env, a, id);
    if DrawFails(env, id) {
      NotBuilt(wb, r.cn, r.loc, env, id);
    }
  }

  lemma {:induction false} RunUnbuilt(r: Run, env: Env, acts: seq<Action>, id: Id)
    requires DrawFails(env, id) && !Has(Mine(r.w), r.w.me, id)
    requires forall a | a in acts && a.Ensure? && a.id == id :: a.place == Pipeline
    ensures !Has(Mine(RunAll(r, env, acts).w), r.w.me, id)
    decreases |acts|
  {
    hide Exec, Mine, DrawFails;
    if acts != [] {
      ExecUnbuilt(r, env, acts[0], id);
      ExecFacts(r, env, acts[0]);
      RunUnbuilt(Exec(r, env, acts[0]), env, acts[1..], id);
    }
  }

  /** What needs randomness is ensured before the services. */
  lemma DrawnEarly(spec: Spec, id: Id)
    requires On(id) in Actions(spec) && (id in {AdminCredentials, CaSecret} || id.Tls?)
    ensures On(id) in SecretActions(spec) + CertStage(spec)
  {
    hide SecretActions, CertStage, ServiceStages, IngressActions, PolicyActions, Ordered, Rank;
    var f := FlagsOf(spec);
    ServiceStagesOrdered(SERVICE_COUNT, f);
    NetworkOrdered(f);
    EarlyRank(id);
    OrderedAppend(ServiceStages(SERVICE_COUNT, f), IngressActions(f) + PolicyActions(), 20, 70, 90);
    RankedBefore(LateActions(f), 20, 90, id);
  }

  lemma EarlyRank(id: Id)
    ensures id in {AdminCredentials, CaSecret} || id.Tls? ==> Rank(id) < 20
  {
  }

  lemma RankedBefore(acts: seq<Action>, lo: nat, hi: nat, id: Id)
    requires Ordered(acts, lo, hi) && Rank(id) < lo
    ensures On(id) !in acts
  {
    hide Rank;
    forall i | 0 <= i < |acts| ensures acts[i] != On(id) {
      assert NewTarget(On(id)) == Some(id);
    }
  }

  lemma UndrawnStops(r: Run, env: Env, spec: Spec, id: Id)
    requires DrawFails(env, id) && !Has(Mine(r.w), r.w.me, id) && On(id) in Actions(spec)
    ensures RunAll(r, env, Actions(spec)).out != Going
  {
    hide RunAll, SecretActions, CertStage, LateActions, Mine, NewPassword;
    var early := SecretActions(spec) + CertStage(spec);
    Split(r, env, early, LateActions(FlagsOf(spec)));
    assert Actions(spec) == early + LateActions(FlagsOf(spec));
    DrawnEarly(spec, id);
    Fallbacks(spec);
    hide DrawFails;
    if RunAll(r, env, Actions(spec)).out == Going {
      Done(r, env, early, On(id));
      RunUnbuilt(r, env, early, id);
    }
  }

  /** One failing draw strands, where the object that needs it is planned and not there yet: the admin credentials, the
      CA, a certificate. */
  lemma OneFailedDrawStrands(w0: World, steps: seq<Step>, id: Id, env: Env)
    requires Fresh(w0) && !IsReady(Play(w0, steps)) && NoCrash(env) && Reports(env) && DrawFails(env, id)
    requires Play(w0, steps).cr.Some? && Play(w0, steps).cr.value.spec.services.Some?
    requires id in Plan(Play(w0, steps).cr.value.spec) && K(w0, id) !in Mine(Play(w0, steps))
    ensures Stranded(Play(w0, steps + [RunOnce(env)]))
  {
    hide Play, Reconcile, Begin, RunAll, Actions, NoCrash, Reports, DrawFails, Plan;
    var w := Play(w0, steps);
    HistoryIsCoherent(w0, steps);
    PlayKeepsManaged(w0, steps);
    PlayOneMore(w0, steps, RunOnce(env));
    ReadyOrStranded(w, env);
    var began, r0 := ReconcileShape(w, env);
    NoDrawForRoute(env, id);
    LookedFor(w.cr.value.spec, id, Pipeline);
    UndrawnStops(r0, env, w.cr.value.spec, id);
  }

  lemma NoDrawForRoute(env: Env, id: Id)
    requires DrawFails(env, id)
    ensures id != LdapsRoute
  {
  }
}
