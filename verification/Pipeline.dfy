/** The provisioning run as a sequence of actions, and what one run does to the world. */
module Pipeline {
  import opened Objects
  import opened Api
  import opened Passwords
  import opened Contents
  import opened ServiceStatuses

  /** What a failure is reported as: the condition reason, and the service whose status shows it. */
  datatype Blame = Blame(reason: string, svc: Option<nat>)

  datatype Outcome = Going | Stopped(error: Err) | Panicked

  /** A run in progress: the world, the in-memory resource, the run's locals, and how it goes. */
  datatype Run = Run(w: World, cn: CR, loc: Locals, blame: Blame, out: Outcome)

  datatype Action =
    | Enter(blame: Blame)
    | Ensure(id: Id, place: Place)
    | EnsureRoute
    | SetNamespace
    | SetAdminSecretName
    | ReadPasswords
    | LoadCa
    | NeedServices
    | ServiceDone(i: nat)

  // ---- One action -----------------------------------------------------------

  /** Get, else create once. */
  function EnsureObject(w: World, cn: CR, loc: Locals, env: Env, id: Id, place: Place): (World, Option<Err>) {
    var (w1, g) := Get(w, env, Reading(id, place), K(w, id));
    if g.Found? then (w1, None)
    else if g.error != NotFound then (w1, Some(g.error))
    else
      var (w2, o) := Build(w1, cn, loc, env, id, place);
      match o
      case Fail(e) => (w2, Some(e))
      case Ok(obj) => Create(w2, env, Creating(id, place), K(w, id), obj)
  }

  function RouteObject(cn: CR, loc: Locals, env: Env): Obj {
    Obj(LabelsFor(cn.name, LdapsRoute, Pipeline), PlainPayload(cn, loc, env, LdapsRoute))
  }

  /** The existence check looks for a Secret of the route's name, and any error leads to a create. */
  function EnsureLdapsRoute(w: World, cn: CR, loc: Locals, env: Env): (World, Option<Err>) {
    var (w1, g) := Get(w, env, Reading(LdapsSecret, Pipeline), K(w, LdapsSecret));
    if g.Found? then (w1, None)
    else Create(w1, env, Creating(LdapsRoute, Pipeline), K(w, LdapsRoute), RouteObject(cn, loc, env))
  }

  function PgOverride(spec: Spec): string {
    if spec.storage.Some? then spec.storage.value.postgresRootPassword else ""
  }

  function S3Override(spec: Spec): string {
    if spec.storage.Some? then spec.storage.value.rustfsRootPassword else ""
  }

  /** An override wins; else the stored password; else a new one. Any read error counts as "none stored". */
  function GetOrCreatePassword(w: World, env: Env, override: string, id: Id, field: Field,
      p: Purpose): (r: (World, string))
    ensures Mine(r.0) == Mine(w)
    ensures r.0 == w.(store := r.0.store, alive := r.0.alive)
  {
    if |override| > 0 then (w, override) else
      var (w', g) := Get(w, env, Reading(id, PasswordRead), K(w, id));
      if g.Found? && |FieldOf(g.obj, field)| > 0 then (w', FieldOf(g.obj, field))
      else (w', OrEmpty(NewPassword(env, p)))
  }

  function ReadBothPasswords(w: World, cn: CR, env: Env): (r: (World, string, string))
    ensures Mine(r.0) == Mine(w)
    ensures r.0 == w.(store := r.0.store, alive := r.0.alive)
  {
    var (w1, pg) := GetOrCreatePassword(w, env, PgOverride(cn.spec), PostgresSecret, PostgresPassword, ForPostgres);
    var (w2, s3) := GetOrCreatePassword(w1, env, S3Override(cn.spec), RustfsSecret, RustfsPassword, ForRustfs);
    (w2, pg, s3)
  }

  function GetCa(w: World, env: Env): (r: (World, Result<nat>))
    ensures Mine(r.0) == Mine(w)
    ensures r.0 == w.(store := r.0.store, alive := r.0.alive)
  {
    var (w', g) := Get(w, env, Reading(CaSecret, CaRead), K(w, CaSecret));
    match g
    case Missed(e) => (w', Fail(Wrapped(LoadCaSecret, e)))
    case Found(o) => (w', if o.payload.CaPair? then Ok(o.payload.ca) else Fail(Wrapped(LoadCaSecret, BadCA)))
  }

  function OutcomeOf(e: Option<Err>): Outcome {
    match e case None => Going case Some(x) => Stopped(x)
  }

  function Exec(r: Run, env: Env, a: Action): Run {
    if r.out != Going then r else
      match a
      case Enter(blame) => r.(blame := blame)
      case Ensure(id, place) =>
        var (w, e) := EnsureObject(r.w, r.cn, r.loc, env, id, place);
        r.(w := w, out := OutcomeOf(e))
      case EnsureRoute =>
        var (w, e) := EnsureLdapsRoute(r.w, r.cn, r.loc, env);
        r.(w := w, out := OutcomeOf(e))
      case SetNamespace => r.(cn := r.cn.(status := r.cn.status.(namespace := NsName(r.cn.name))))
      case SetAdminSecretName => r.(cn := r.cn.(status := r.cn.status.(adminSecretName := "admin-credentials")))
      case ReadPasswords =>
        var (w, pg, s3) := ReadBothPasswords(r.w, r.cn, env);
        r.(w := w, loc := r.loc.(pg := pg, s3 := s3))
      case LoadCa =>
        var (w, ca) := GetCa(r.w, env);
        if ca.Ok? then r.(w := w, loc := r.loc.(ca := Some(ca.value))) else r.(w := w, out := Stopped(ca.error))
      case NeedServices => if r.cn.spec.services.None? then r.(out := Panicked) else r
      case ServiceDone(i) =>
        r.(cn := r.cn.(status := r.cn.status.(services := Upsert(r.cn.status.services, ServiceName(i), true, None))))
  }

  function RunAll(r: Run, env: Env, acts: seq<Action>): Run
    decreases |acts|
  {
    if acts == [] then r else RunAll(Exec(r, env, acts[0]), env, acts[1..])
  }

  lemma {:induction false} RunAllAppend(r: Run, env: Env, a: seq<Action>, b: seq<Action>)
    ensures RunAll(r, env, a + b) == RunAll(RunAll(r, env, a), env, b)
    decreases |a|
  {
    if a == [] {
      assert a + b == b;
    } else {
      assert (a + b)[1..] == a[1..] + b;
      RunAllAppend(Exec(r, env, a[0]), env, a[1..], b);
    }
  }

  // ---- The plan ---------------------------------------------------------------

  function On(id: Id): Action { Ensure(id, Pipeline) }

  function If(c: bool, acts: seq<Action>): seq<Action> { if c then acts else [] }

  function AdminActions(spec: Spec): seq<Action> {
    If(!spec.passwordSecretRef, [On(AdminCredentials)])
  }

  function NamespaceStage(): seq<Action> {
    [Enter(Blame("NamespaceFailed", None)), On(TheNamespace), SetNamespace]
  }

  function AdminStage(spec: Spec): seq<Action> {
    [Enter(Blame("AdminCredentialsFailed", None))] + (AdminActions(spec) + [SetAdminSecretName])
  }

  function RootStage(): seq<Action> {
    [Enter(Blame("RootSecretsFailed", None)), ReadPasswords] + [On(PostgresSecret), On(RustfsSecret)]
  }

  function NinegateStage(): seq<Action> {
    [Enter(Blame("NinegateSecretFailed", None)), On(NinegateSecret)]
  }

  function CaStage(): seq<Action> {
    [Enter(Blame("CAFailed", None)), On(CaSecret)]
  }

  /** Everything before the certificates. */
  function SecretActions(spec: Spec): seq<Action> {
    NamespaceStage() + (AdminStage(spec) + (RootStage() + (NinegateStage() + CaStage())))
  }

  function CertActions(f: ServiceFlags): seq<Action> {
    [On(Tls(Ninegate)), On(Tls(Dex)), On(Tls(Rustfs)), On(Tls(Glauth))]
    + If(f.nextcloud, [On(Tls(Nextcloud))]) + If(f.wordpress, [On(Tls(Wordpress))])
    + If(f.dolibarr, [On(Tls(Dolibarr))])
  }

  /** Load the CA, stop hard without a services section, ensure the certificates. */
  function CertStage(spec: Spec): seq<Action> {
    [Enter(Blame("CertFailed", None))] + ([LoadCa, NeedServices] + CertActions(FlagsOf(spec)))
  }

  /** What the i-th service reconciler does (the order is fixed at start-up). */
  function ServiceActions(i: nat, f: ServiceFlags): seq<Action> {
    match i
    case 0 => If(f.postgresql, [On(PostgresConfig), On(PostgresSet), On(Service(Postgresql))])
    case 1 => If(f.redis, [On(Deployment(Redis)), On(Service(Redis))])
    case 2 => If(f.rustfs, [On(RustfsData), On(Deployment(Rustfs)), On(Service(Rustfs))])
    case 3 => If(f.ninegate, [On(Uploads), On(PublicUploads), On(Deployment(Ninegate)), On(Service(Ninegate))])
    case 4 => If(f.glauth,
        [On(GlauthConfig), Ensure(Tls(Glauth), Fallback), On(Deployment(Glauth)), On(Service(Glauth))])
    case 5 => If(f.dex, [On(DexConfig), Ensure(Tls(Dex), Fallback), On(Deployment(Dex)), On(Service(Dex))])
    case _ => []
  }

  const SERVICE_COUNT: nat := 6

  function ServiceBlame(i: nat): Blame { Blame(ServiceName(i) + "Failed", Some(i)) }

  function ServiceStage(i: nat, f: ServiceFlags): seq<Action> {
    [Enter(ServiceBlame(i))] + ServiceActions(i, f) + [ServiceDone(i)]
  }

  /** The first n service stages. */
  function ServiceStages(n: nat, f: ServiceFlags): seq<Action> {
    if n == 0 then [] else ServiceStages(n - 1, f) + ServiceStage(n - 1, f)
  }

  function IngressRules(f: ServiceFlags): seq<Action> {
    [On(IngressFor(Ninegate)), On(IngressFor(Dex)), On(IngressFor(Rustfs)), On(IngressFor(RustfsApi))]
    + If(f.nextcloud, [On(IngressFor(Nextcloud))]) + If(f.wordpress, [On(IngressFor(Wordpress))])
    + If(f.dolibarr, [On(IngressFor(Dolibarr))])
  }

  function IngressActions(f: ServiceFlags): seq<Action> {
    [Enter(Blame("IngressFailed", None))] + (IngressRules(f) + [EnsureRoute])
  }

  function PolicyActions(): seq<Action> {
    [Enter(Blame("NetworkPolicyFailed", None))] + [On(EgressPolicy), On(IngressPolicy)]
  }

  /** After the certificates. */
  function LateActions(f: ServiceFlags): seq<Action> {
    ServiceStages(SERVICE_COUNT, f) + (IngressActions(f) + PolicyActions())
  }

  function Actions(spec: Spec): seq<Action> {
    SecretActions(spec) + (CertStage(spec) + LateActions(FlagsOf(spec)))
  }

  // ---- The ends of a run --------------------------------------------------------

  function IndexOfReady(cs: seq<Condition>): (i: nat)
    ensures i <= |cs|
    ensures i < |cs| ==> cs[i].ctype == "Ready"
    ensures forall j | 0 <= j < i :: cs[j].ctype != "Ready"
  {
    if cs == [] || cs[0].ctype == "Ready" then 0 else IndexOfReady(cs[1..]) + 1
  }

  /** The failure path updates an existing Ready condition, or appends one. */
  function FailedConditions(cs: seq<Condition>, reason: string, error: Err): seq<Condition> {
    var c := Condition("Ready", false, reason, Some(error));
    var i := IndexOfReady(cs);
    if i < |cs| then cs[i := c] else cs + [c]
  }

  function FailedStatus(s: Status, reason: string, error: Err): Status {
    s.(phase := Phase.Failed, conditions := FailedConditions(s.conditions, reason, error))
  }

  /** The success path appends its condition unconditionally. */
  function ReadyStatus(s: Status, spec: Spec): Status {
    s.(phase := Phase.Ready, endpoint := "https://" + spec.domain,
       conditions := s.conditions + [Condition("Ready", true, "Provisioned", None)])
  }

  function SetFailed(w: World, cn: CR, env: Env, reason: string, error: Err): World {
    StatusUpdate(w, env, FailedWrite, cn.(status := FailedStatus(cn.status, reason, error))).0
  }

  /** A failing service first records itself in the service list, with a status write of its own. */
  function ReportService(w: World, cn: CR, env: Env, i: nat, error: Err): (World, CR) {
    var cn1 := cn.(status := cn.status.(services := Upsert(cn.status.services, ServiceName(i), false, Some(error))));
    var (w1, e) := StatusUpdate(w, env, ServiceWrite, cn1);
    (w1, Refreshed(cn1, e))
  }

  function Finish(r: Run, env: Env): World {
    match r.out
    case Panicked => r.w
    case Stopped(error) =>
      if r.blame.svc.None? then SetFailed(r.w, r.cn, env, r.blame.reason, error)
      else
        var (w1, cn1) := ReportService(r.w, r.cn, env, r.blame.svc.value, error);
        SetFailed(w1, cn1, env, r.blame.reason, error)
    case Going => StatusUpdate(r.w, env, ReadyWrite, r.cn.(status := ReadyStatus(r.cn.status, r.cn.spec))).0
  }

  // ---- The whole run --------------------------------------------------------------

  function Start(w: World, cn: CR): Run { Run(w, cn, NO_LOCALS, Blame("", None), Going) }

  /** From the phase check on: provisioning of a resource that carries the finalizer. */
  function ProvisionPhase(w: World, env: Env, cn: CR): World {
    if cn.status.phase == Phase.Ready then w
    else if cn.status.phase == NoPhase || cn.status.phase == Pending then
      var cn1 := cn.(status := cn.status.(phase := Provisioning));
      var (w1, e) := StatusUpdate(w, env, ProvisioningWrite, cn1);
      if e.Some? then w1 else Finish(RunAll(Start(w1, Refreshed(cn1, e)), env, Actions(cn.spec)), env)
    else Finish(RunAll(Start(w, cn), env, Actions(cn.spec)), env)
  }

  /** One reconcile run of a resource that is not being deleted. */
  function Reconcile(w0: World, env: Env): World {
    var (w, got) := ReadCr(w0, env);
    if got.Fail? || got.value.deleting then w
    else
      var cn := got.value;
      if FINALIZER in cn.finalizers then ProvisionPhase(w, env, cn)
      else
        var cn1 := cn.(finalizers := cn.finalizers + {FINALIZER});
        var (w1, e) := MetaUpdate(w, env, FinalizerAdd, cn1);
        if e.Some? then w1 else ProvisionPhase(w1, env, Refreshed(cn1, e))
  }

  // ---- Frame facts ------------------------------------------------------------------

  /** The client's namespace gained at most the object `id`, logged exactly when it did. */
  predicate GainsAtMost(w: World, w': World, id: Id) {
    && w' == w.(store := w'.store, alive := w'.alive, log := w'.log)
    && (|| (Mine(w') == Mine(w) && w'.log == w.log)
        || (&& K(w, id) !in Mine(w)
            && K(w, id) in Mine(w') && Mine(w') == Mine(w)[K(w, id) := Mine(w')[K(w, id)]]
            && w'.log == w.log + [Created(K(w, id), Mine(w')[K(w, id)])]
            && (id != TheNamespace ==> K(w, TheNamespace) in Mine(w))))
  }

  /** Ensuring adds at most the one object, with the content built from an unchanged namespace; success means it
      exists. */
  lemma EnsureFacts(w: World, cn: CR, loc: Locals, env: Env, id: Id, place: Place) returns (wb: World)
    ensures var (w', e) := EnsureObject(w, cn, loc, env, id, place);
            && GainsAtMost(w, w', id)
            && (e.None? ==> K(w, id) in Mine(w') && w'.alive)
            && (K(w, id) in Mine(w') && K(w, id) !in Mine(w) ==>
                  && Build(wb, cn, loc, env, id, place).1 == Ok(Mine(w')[K(w, id)])
                  && Build(wb, cn, loc, env, id, place).0.alive && wb.alive && w.alive)
    ensures Mine(wb) == Mine(w) && wb == w.(store := wb.store, alive := wb.alive)
  {
    hide Build, Create;
    var (w1, g) := Get(w, env, Reading(id, place), K(w, id));
    wb := w1;
    if g.Missed? && g.error == NotFound {
      var (w2, o) := Build(w1, cn, loc, env, id, place);
      if o.Ok? {
        CreateFacts(w2, env, Creating(id, place), K(w, id), o.value);
      }
    }
  }

  lemma RouteFacts(w: World, cn: CR, loc: Locals, env: Env)
    ensures var (w', e) := EnsureLdapsRoute(w, cn, loc, env);
            && GainsAtMost(w, w', LdapsRoute)
            && (e.None? && K(w, LdapsSecret) !in Mine(w) ==>
               K(w, LdapsRoute) in Mine(w') && K(w, LdapsRoute) !in Mine(w))
            && (e.None? ==> w'.alive)
            && (K(w, LdapsRoute) in Mine(w') && K(w, LdapsRoute) !in Mine(w) ==>
                  Mine(w')[K(w, LdapsRoute)] == RouteObject(cn, loc, env))
  {
    var (w1, g) := Get(w, env, Reading(LdapsSecret, Pipeline), K(w, LdapsSecret));
    if g.Missed? {
      CreateFacts(w1, env, Creating(LdapsRoute, Pipeline), K(w, LdapsRoute), RouteObject(cn, loc, env));
    }
  }

  /** The object an action may create. */
  function Target(a: Action): Option<Id> {
    match a
    case Ensure(id, _) => Some(id)
    case EnsureRoute => Some(LdapsRoute)
    case _ => None
  }

  /** Any action: the resource in the store is untouched, and the namespace gains at most the action's target. */
  lemma ExecFacts(r: Run, env: Env, a: Action)
    ensures var r' := Exec(r, env, a);
            && r'.w.me == r.w.me && r'.w.cr == r.w.cr
            && (Target(a).None? ==> Mine(r'.w) == Mine(r.w) && r'.w.log == r.w.log)
            && (Target(a).Some? ==> GainsAtMost(r.w, r'.w, Target(a).value))
            && (r.out == Going && r'.out == Going && a.Ensure? ==> K(r.w, a.id) in Mine(r'.w))
            && r'.cn == r.cn.(status := r'.cn.status)
            && r'.cn.status.phase == r.cn.status.phase && r'.cn.status.conditions == r.cn.status.conditions
            && r'.cn.status.endpoint == r.cn.status.endpoint
            && (!a.ServiceDone? ==> r'.cn.status.services == r.cn.status.services)
            && (!a.SetNamespace? ==> r'.cn.status.namespace == r.cn.status.namespace)
            && (a != ReadPasswords && a != LoadCa ==> r'.loc == r.loc)
            && (r'.w.alive ==> r.w.alive)
            && (r.out != Going ==> r' == r)
  {
    hide Upsert, ServiceName, Build, Mine;
    match a
    case Ensure(id, place) =>
      var _ := EnsureFacts(r.w, r.cn, r.loc, env, id, place);
      EnsureNeedsLife(r.w, r.cn, r.loc, env, id, place);
    case EnsureRoute => RouteFacts(r.w, r.cn, r.loc, env);
    case _ =>
  }

  /** A dead process does not come back. */
  lemma EnsureNeedsLife(w: World, cn: CR, loc: Locals, env: Env, id: Id, place: Place)
    ensures EnsureObject(w, cn, loc, env, id, place).0.alive ==> w.alive
  {
    hide Build, Create, Mine;
  }
}
