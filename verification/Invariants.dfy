/** What is true of a client's objects in every reachable state, and under which promises by user and environment. */
module Invariants {
  import opened Objects
  import opened Api
  import opened Passwords
  import opened Contents
  import opened ServiceStatuses
  import opened Pipeline
  import opened Runs
  import opened Histories

  // ---- Promises ---------------------------------------------------------------------

  /** What may be assumed along a history. `domain`: the spec's domain never differs from this one.
      `overrides`: the two password overrides never differ from these, and where they are empty the reads in
      getOrCreatePassword tell the truth and the generator works. `autoAdmin`: the user never supplies an admin
      password, and the cross-reads of the credentials tell the truth. `login`: the cross-read of the app secret
      tells the truth, and the app secret can be generated. */
  datatype Promise = Promise(domain: Option<string>, overrides: Option<(string, string)>, autoAdmin: bool, login: bool)

  const NO_PROMISE := Promise(None, None, false, false)

  /** A read that does not fail while the process lives on. */
  predicate Truthful(env: Env, s: Site) {
    FaultAt(env, s) !in {Drop, Ambiguous, Stale}
  }

  predicate PasswordKept(env: Env, override: string, id: Id, p: Purpose) {
    |override| > 0 || (Truthful(env, Reading(id, PasswordRead)) && NewPassword(env, p).Some?)
  }

  predicate SpecKeeps(p: Promise, spec: Spec) {
    && (p.domain.Some? ==> spec.domain == p.domain.value)
    && (p.overrides.Some? ==> (PgOverride(spec), S3Override(spec)) == p.overrides.value)
    && (p.autoAdmin ==> !spec.passwordSecretRef)
  }

  predicate EnvKeeps(p: Promise, env: Env) {
    && (p.overrides.Some? ==>
          && PasswordKept(env, p.overrides.value.0, PostgresSecret, ForPostgres)
          && PasswordKept(env, p.overrides.value.1, RustfsSecret, ForRustfs))
    && (p.autoAdmin ==>
          && Truthful(env, Reading(AdminCredentials, NinegateRead))
             && Truthful(env, Reading(AdminCredentials, DexRead)))
    && (p.login ==> Truthful(env, Reading(NinegateSecret, DexRead)) && NewPassword(env, ForAppSecret).Some?)
  }

  predicate Keeps(p: Promise, steps: seq<Step>) {
    && (forall s | s in steps && s.RunOnce? :: EnvKeeps(p, s.env))
    && (forall s | s in steps && s.EditSpec? :: SpecKeeps(p, s.spec))
  }

  // ---- The invariant ------------------------------------------------------------------

  type Objs = map<Key, Obj>

  function In(me: string, id: Id): Key { Key(NsName(me), id) }

  predicate Has(m: Objs, me: string, id: Id) { In(me, id) in m }

  function PayloadOf(m: Objs, me: string, id: Id): Payload
    requires Has(m, me, id)
  {
    m[In(me, id)].payload
  }

  function Read(m: Objs, me: string, id: Id, f: Field): string
    requires Has(m, me, id)
  {
    FieldOf(m[In(me, id)], f)
  }

  /** Every object carries the client's labels and lives in an existing namespace. */
  predicate Labelled(m: Objs, me: string) {
    && (forall k | k in m :: Matches(m[k].labels, ClientLabels(me)))
    && (m != map[] ==> Has(m, me, TheNamespace))
    && !Has(m, me, LdapsSecret)
  }

  predicate SignedByCa(m: Objs, me: string, payload: Payload) {
    && Has(m, me, CaSecret) && PayloadOf(m, me, CaSecret).CaPair?
    && payload.Certificate? && payload.issuer == SignedBy(PayloadOf(m, me, CaSecret).ca)
  }

  /** One trust root: every certificate is signed by the one CA of the namespace. */
  predicate Certified(m: Objs, me: string) {
    && (Has(m, me, CaSecret) ==> PayloadOf(m, me, CaSecret).CaPair?)
    && (forall k | k in m && k.id.Tls? :: SignedByCa(m, me, m[k].payload))
  }

  predicate GlauthReads(m: Objs, me: string, payload: Payload) {
    && Has(m, me, PostgresSecret) && payload.GlauthSettings?
    && payload.connection == GlauthConnection(Read(m, me, PostgresSecret, PostgresPassword))
  }

  /** Glauth's configuration always carries the stored database password. */
  predicate Rendered(m: Objs, me: string) {
    Has(m, me, GlauthConfig) ==> GlauthReads(m, me, PayloadOf(m, me, GlauthConfig))
  }

  predicate NinegateComplete(payload: Payload) {
    payload.Data? && NINEGATE_KEYS <= payload.fields.Keys
  }

  /** Workloads refer to what they should, and the Ninegate secret has every key. */
  predicate Wired(m: Objs, me: string) {
    && (forall k | k in m && k.id.Deployment? :: m[k].payload == Workload(WorkloadRefs(k.id.app)))
    && (Has(m, me, PostgresSet) ==> PayloadOf(m, me, PostgresSet) == Workload(WorkloadRefs(Postgresql)))
    && (Has(m, me, NinegateSecret) ==> NinegateComplete(PayloadOf(m, me, NinegateSecret)))
  }

  predicate RuleFor(m: Objs, me: string, domain: string, app: App, payload: Payload) {
    payload == HostRule(IngressHost(app, domain), IngressTls(app), Service(app)) && Has(m, me, IngressTls(app))
  }

  /** Certificates and ingress rules agree on the domain, and every rule's certificate exists. */
  predicate Covered(m: Objs, me: string, domain: string) {
    && (forall k | k in m && k.id.Tls? :: m[k].payload.Certificate? && m[k].payload.dns == CertDns(k.id.app, domain))
    && (forall k | k in m && k.id.IngressFor? :: RuleFor(m, me, domain, k.id.app, m[k].payload))
  }

  /** A stored password is usable: not empty, and the override if there is one, else a generated one. */
  predicate Usable(pass: string, override: string) {
    |pass| > 0 && (if |override| > 0 then pass == override else FromCharset(pass))
  }

  predicate NinegateReads(m: Objs, me: string, o: Obj) {
    && Has(m, me, PostgresSecret) && Has(m, me, RustfsSecret)
    && FieldOf(o, DatabaseUrl) == DatabaseUrlFor(Read(m, me, PostgresSecret, PostgresPassword))
    && FieldOf(o, S3SecretKey) == Read(m, me, RustfsSecret, RustfsPassword)
  }

  /** The Ninegate secret carries exactly the passwords of the two root secrets. */
  predicate Agreed(m: Objs, me: string, overrides: (string, string)) {
    && (Has(m, me, PostgresSecret) ==> Usable(Read(m, me, PostgresSecret, PostgresPassword), overrides.0))
    && (Has(m, me, RustfsSecret) ==> Usable(Read(m, me, RustfsSecret, RustfsPassword), overrides.1))
    && (Has(m, me, NinegateSecret) ==> NinegateReads(m, me, m[In(me, NinegateSecret)]))
  }

  predicate NinegateAdmin(m: Objs, me: string, o: Obj) {
    Has(m, me, AdminCredentials) && FieldOf(o, AppAdminPassword) == Read(m, me, AdminCredentials, AdminPassword)
  }

  predicate DexAdmin(m: Objs, me: string, payload: Payload) {
    && Has(m, me, AdminCredentials) && payload.DexSettings?
    && payload.bindPW == Read(m, me, AdminCredentials, AdminPassword)
  }

  /** The admin password is the same everywhere. */
  predicate AdminAgreed(m: Objs, me: string) {
    && (Has(m, me, AdminCredentials) ==> |Read(m, me, AdminCredentials, AdminPassword)| > 0)
    && (Has(m, me, NinegateSecret) ==> NinegateAdmin(m, me, m[In(me, NinegateSecret)]))
    && (Has(m, me, DexConfig) ==> DexAdmin(m, me, PayloadOf(m, me, DexConfig)))
  }

  predicate DexLogin(m: Objs, me: string, payload: Payload) {
    && Has(m, me, NinegateSecret) && payload.DexSettings?
    && payload.ninegateSecret == Read(m, me, NinegateSecret, AppSecret)
  }

  /** Dex's secret for the Ninegate client is the stored app secret. */
  predicate LoginAgreed(m: Objs, me: string) {
    && (Has(m, me, NinegateSecret) ==> |Read(m, me, NinegateSecret, AppSecret)| > 0)
    && (Has(m, me, DexConfig) ==> DexLogin(m, me, PayloadOf(m, me, DexConfig)))
  }

  predicate Sane(m: Objs, me: string, p: Promise) {
    && Labelled(m, me) && Certified(m, me) && Rendered(m, me) && Wired(m, me)
    && (p.domain.Some? ==> Covered(m, me, p.domain.value))
    && (p.overrides.Some? ==> Agreed(m, me, p.overrides.value))
    && (p.autoAdmin ==> AdminAgreed(m, me))
    && (p.login ==> LoginAgreed(m, me))
  }

  // ---- Growing by one object --------------------------------------------------------------

  /** What the new object must satisfy, given the objects that exist. */
  predicate Welcome(m: Objs, me: string, p: Promise, id: Id, o: Obj) {
    && Matches(o.labels, ClientLabels(me)) && (id == TheNamespace || Has(m, me, TheNamespace))
    && match id
       case LdapsSecret => false
       case CaSecret => o.payload.CaPair?
       case Tls(app) =>
         SignedByCa(m, me, o.payload) && (p.domain.Some? ==> o.payload.dns == CertDns(app, p.domain.value))
       case GlauthConfig => GlauthReads(m, me, o.payload)
       case Deployment(app) => o.payload == Workload(WorkloadRefs(app))
       case PostgresSet => o.payload == Workload(WorkloadRefs(Postgresql))
       case IngressFor(app) => p.domain.Some? ==> RuleFor(m, me, p.domain.value, app, o.payload)
       case PostgresSecret => p.overrides.Some? ==> Usable(FieldOf(o, PostgresPassword), p.overrides.value.0)
       case RustfsSecret => p.overrides.Some? ==> Usable(FieldOf(o, RustfsPassword), p.overrides.value.1)
       case AdminCredentials => p.autoAdmin ==> |FieldOf(o, AdminPassword)| > 0
       case NinegateSecret =>
         && NinegateComplete(o.payload)
         && (p.overrides.Some? ==> NinegateReads(m, me, o))
         && (p.autoAdmin ==> NinegateAdmin(m, me, o))
         && (p.login ==> |FieldOf(o, AppSecret)| > 0)
       case DexConfig =>
         (p.autoAdmin ==> DexAdmin(m, me, o.payload)) && (p.login ==> DexLogin(m, me, o.payload))
       case _ => true
  }

  lemma GrowBasics(m: Objs, me: string, p: Promise, id: Id, o: Obj)
    requires Sane(m, me, p) && !Has(m, me, id) && Welcome(m, me, p, id, o)
    ensures var m' := m[In(me, id) := o]; Labelled(m', me) && Certified(m', me) && Rendered(m', me) && Wired(m', me)
  {
    hide WorkloadRefs, Matches, GlauthConnection, NinegateComplete;
  }

  lemma GrowPromised(m: Objs, me: string, p: Promise, id: Id, o: Obj)
    requires Sane(m, me, p) && !Has(m, me, id) && Welcome(m, me, p, id, o)
    ensures var m' := m[In(me, id) := o];
            && (p.domain.Some? ==> Covered(m', me, p.domain.value))
            && (p.overrides.Some? ==> Agreed(m', me, p.overrides.value))
            && (p.autoAdmin ==> AdminAgreed(m', me))
            && (p.login ==> LoginAgreed(m', me))
  {
    hide WorkloadRefs, Matches, GlauthConnection, DatabaseUrlFor, NinegateComplete, CertDns, IngressHost, IngressTls;
  }

  lemma SaneGrows(m: Objs, me: string, p: Promise, id: Id, o: Obj)
    requires Sane(m, me, p) && !Has(m, me, id) && Welcome(m, me, p, id, o)
    ensures Sane(m[In(me, id) := o], me, p)
  {
    hide Welcome;
    GrowBasics(m, me, p, id, o);
    GrowPromised(m, me, p, id, o);
  }

  // ---- What a run must know before an action ------------------------------------------------

  /** Objects that must exist before the action. */
  function NeedsObjects(p: Promise, a: Action): set<Id> {
    if !a.Ensure? then {}
    else match a.id
      case Tls(_) => if a.place == Fallback then {a.id} else {}
      case NinegateSecret =>
        (if p.overrides.Some? then {PostgresSecret, RustfsSecret} else {})
            + (if p.autoAdmin then {AdminCredentials} else {})
      case DexConfig => (if p.autoAdmin then {AdminCredentials} else {}) + (if p.login then {NinegateSecret} else {})
      case IngressFor(app) => {IngressTls(app)}
      case LdapsSecret => {LdapsSecret}
      case _ => {}
  }

  predicate NeedsPasswords(a: Action) { a.Ensure? && a.id in {PostgresSecret, RustfsSecret, NinegateSecret} }

  predicate NeedsCa(a: Action) { a.Ensure? && a.id.Tls? && a.place != Fallback }

  predicate Loads(a: Action) { a == ReadPasswords || a == LoadCa }

  /** A password the run holds: usable, and the stored one if there is one. */
  predicate Loaded(m: Objs, me: string, id: Id, f: Field, pass: string, override: string) {
    Usable(pass, override) && (Has(m, me, id) ==> Read(m, me, id, f) == pass)
  }

  predicate PasswordsLoaded(m: Objs, me: string, p: Promise, loc: Locals) {
    p.overrides.Some? ==>
      && Loaded(m, me, PostgresSecret, PostgresPassword, loc.pg, p.overrides.value.0)
      && Loaded(m, me, RustfsSecret, RustfsPassword, loc.s3, p.overrides.value.1)
  }

  predicate CaLoaded(m: Objs, me: string, loc: Locals) {
    loc.ca.Some? ==> Has(m, me, CaSecret) && PayloadOf(m, me, CaSecret) == CaPair(loc.ca.value)
  }

  /** What has been established so far: which objects exist, and which locals are loaded. */
  datatype Known = Known(objects: set<Id>, passwords: bool, ca: bool)

  predicate HasAll(m: Objs, me: string, ids: set<Id>) { forall id | id in ids :: Has(m, me, id) }

  predicate Knows(r: Run, p: Promise, k: Known) {
    r.out == Going ==>
      && HasAll(Mine(r.w), r.w.me, k.objects)
      && (k.passwords && r.w.alive ==> PasswordsLoaded(Mine(r.w), r.w.me, p, r.loc))
      && (k.ca ==> CaLoaded(Mine(r.w), r.w.me, r.loc))
  }

  predicate Suffices(k: Known, p: Promise, a: Action) {
    && !Loads(a) && NeedsObjects(p, a) <= k.objects
    && (NeedsPasswords(a) ==> k.passwords) && (NeedsCa(a) ==> k.ca)
  }

  /** The run belongs to the client, and user and environment keep their promises. */
  predicate Trusted(r: Run, env: Env, p: Promise) {
    r.cn.name == r.w.me && SpecKeeps(p, r.cn.spec) && EnvKeeps(p, env)
  }

  // ---- What is built is welcome -----------------------------------------------------------------

  /** A truthful read of a non-empty field yields the field, unless the process dies. */
  lemma ReadTruth(w: World, env: Env, id: Id, place: Place, field: Field, p: Purpose)
    requires Has(Mine(w), w.me, id) && |Read(Mine(w), w.me, id, field)| > 0 && Truthful(env, Reading(id, place))
    requires ReadOr(w, env, id, place, field, p).0.alive
    ensures ReadOr(w, env, id, place, field, p).1 == Read(Mine(w), w.me, id, field)
  {
    hide NewPassword;
    var (_, g) := Get(w, env, Reading(id, place), K(w, id));
    assert K(w, id) in Mine(Interfere(w, env, Reading(id, place)));
  }

  lemma NinegateFieldFacts(cn: CR, loc: Locals, env: Env, adminPass: string)
    ensures var m := NinegateFields(cn, loc, env, adminPass);
            && NINEGATE_KEYS <= m.Keys
            && m[DatabaseUrl] == DatabaseUrlFor(loc.pg) && m[S3SecretKey] == loc.s3
            && m[AppAdminPassword] == adminPass && m[AppSecret] == OrEmpty(NewPassword(env, ForAppSecret))
  {
    hide NewPassword, DatabaseUrlFor;
  }

  lemma NinegateWelcome(w: World, cn: CR, loc: Locals, env: Env, p: Promise)
    requires Sane(Mine(w), w.me, p) && SpecKeeps(p, cn.spec) && EnvKeeps(p, env)
    requires HasAll(Mine(w), w.me, NeedsObjects(p, On(NinegateSecret))) && PasswordsLoaded(Mine(w), w.me, p, loc)
    requires NinegatePayload(w, cn, loc, env).0.alive
    ensures NinegatePayload(w, cn, loc, env).1.Ok?
    ensures var payload := NinegatePayload(w, cn, loc, env).1.value;
            && NinegateComplete(payload)
            && forall labels :: (p.overrides.Some? ==> NinegateReads(Mine(w), w.me, Obj(labels, payload)))
                             && (p.autoAdmin ==> NinegateAdmin(Mine(w), w.me, Obj(labels, payload)))
                             && (p.login ==> |FieldOf(Obj(labels, payload), AppSecret)| > 0)
  {
    hide ReadOr, NewPassword, DatabaseUrlFor, NinegateFields, Certified, Rendered, Wired, Covered, Labelled;
    var (_, adminPass) := ReadOr(w, env, AdminCredentials, NinegateRead, AdminPassword, ForNinegateAdmin);
    NinegateFieldFacts(cn, loc, env, adminPass);
    if p.overrides.Some? {
      assert Has(Mine(w), w.me, PostgresSecret) && Has(Mine(w), w.me, RustfsSecret);
    }
    if p.autoAdmin {
      assert Has(Mine(w), w.me, AdminCredentials);
      ReadTruth(w, env, AdminCredentials, NinegateRead, AdminPassword, ForNinegateAdmin);
    }
    if p.login {
      PasswordNotEmpty(env, ForAppSecret);
    }
  }

  lemma DexWelcome(w: World, cn: CR, env: Env, p: Promise)
    requires Sane(Mine(w), w.me, p) && EnvKeeps(p, env)
    requires HasAll(Mine(w), w.me, NeedsObjects(p, On(DexConfig)))
    requires DexPayload(w, cn, env).0.alive
    ensures DexPayload(w, cn, env).1.Ok?
    ensures p.autoAdmin ==> DexAdmin(Mine(w), w.me, DexPayload(w, cn, env).1.value)
    ensures p.login ==> DexLogin(Mine(w), w.me, DexPayload(w, cn, env).1.value)
  {
    hide ReadOr, NewPassword, Certified, Rendered, Wired, Covered, Agreed, Labelled;
    var (w1, _) := ReadOr(w, env, AdminCredentials, DexRead, AdminPassword, ForDexAdmin);
    assert w1.alive by { ReadKeepsDead(w1, env, NinegateSecret, DexRead, AppSecret, ForDexClient); }
    if p.autoAdmin {
      assert Has(Mine(w), w.me, AdminCredentials);
      ReadTruth(w, env, AdminCredentials, DexRead, AdminPassword, ForDexAdmin);
    }
    if p.login {
      assert Has(Mine(w), w.me, NinegateSecret);
      ReadTruth(w1, env, NinegateSecret, DexRead, AppSecret, ForDexClient);
    }
  }

  lemma ReadKeepsDead(w: World, env: Env, id: Id, place: Place, field: Field, p: Purpose)
    ensures ReadOr(w, env, id, place, field, p).0.alive ==> w.alive
  {
    hide NewPassword;
  }

  lemma GlauthWelcome(w: World, cn: CR, env: Env)
    requires GlauthPayload(w, cn, env).1.Ok?
    ensures GlauthReads(Mine(w), w.me, GlauthPayload(w, cn, env).1.value)
  {
    hide GlauthConnection;
  }

  /** Whatever the run builds may join the namespace. */
  lemma BuildWelcome(w: World, cn: CR, loc: Locals, env: Env, id: Id, place: Place, p: Promise, k: Known, o: Obj)
    requires Sane(Mine(w), w.me, p) && cn.name == w.me && SpecKeeps(p, cn.spec) && EnvKeeps(p, env)
    requires Build(w, cn, loc, env, id, place).1 == Ok(o) && Build(w, cn, loc, env, id, place).0.alive
    requires Suffices(k, p, Ensure(id, place)) && HasAll(Mine(w), w.me, k.objects) && !Has(Mine(w), w.me, id)
    requires k.passwords ==> PasswordsLoaded(Mine(w), w.me, p, loc)
    requires k.ca ==> CaLoaded(Mine(w), w.me, loc)
    requires id != TheNamespace ==> Has(Mine(w), w.me, TheNamespace)
    ensures Welcome(Mine(w), w.me, p, id, o)
  {
    hide NinegatePayload, DexPayload, GlauthPayload, Matches, ClientLabels, LabelsFor, NewPassword, WorkloadRefs, Sane;
    LabelsMatch(cn.name, id, place);
    match id {
      case NinegateSecret => NinegateWelcome(w, cn, loc, env, p);
      case DexConfig => DexWelcome(w, cn, env, p);
      case GlauthConfig => GlauthWelcome(w, cn, env);
      case AdminCredentials => PasswordNotEmpty(env, ForAdmin);
      case _ =>
    }
  }

  // ---- One action, a stretch of actions -----------------------------------------------------

  /** One action keeps the invariant, if the run knows enough. */
  lemma SaneExec(r: Run, env: Env, a: Action, p: Promise, k: Known)
    requires Sane(Mine(r.w), r.w.me, p) && Trusted(r, env, p) && Knows(r, p, k) && Suffices(k, p, a)
    ensures Sane(Mine(Exec(r, env, a).w), r.w.me, p)
  {
    hide Sane, Welcome, Build, EnsureObject, EnsureLdapsRoute, SpecKeeps, EnvKeeps, PasswordsLoaded, CaLoaded;
    var m, r' := Mine(r.w), Exec(r, env, a);
    if r.out == Going && a.Ensure? {
      var wb := EnsureFacts(r.w, r.cn, r.loc, env, a.id, a.place);
      if Mine(r'.w) != m {
        var o := Mine(r'.w)[K(r.w, a.id)];
        BuildWelcome(wb, r.cn, r.loc, env, a.id, a.place, p, k, o);
        SaneGrows(m, r.w.me, p, a.id, o);
      }
    } else if r.out == Going && a == EnsureRoute {
      RouteFacts(r.w, r.cn, r.loc, env);
      if Mine(r'.w) != m {
        RouteWelcome(m, r, env, p);
        SaneGrows(m, r.w.me, p, LdapsRoute, RouteObject(r.cn, r.loc, env));
      }
    } else {
      ExecFacts(r, env, a);
    }
  }

  lemma RouteWelcome(m: Objs, r: Run, env: Env, p: Promise)
    requires r.cn.name == r.w.me && Has(m, r.w.me, TheNamespace)
    ensures Welcome(m, r.w.me, p, LdapsRoute, RouteObject(r.cn, r.loc, env))
  {
    LabelsMatch(r.cn.name, LdapsRoute, Pipeline);
  }

  /** What the run knows stays true. */
  lemma KnowsStays(r: Run, env: Env, a: Action, p: Promise, k: Known)
    requires Knows(r, p, k) && Suffices(k, p, a)
    ensures Knows(Exec(r, env, a), p, k)
  {
    hide Build, EnsureObject, EnsureLdapsRoute;
    ExecFacts(r, env, a);
    var r' := Exec(r, env, a);
    if r.out == Going && a.Ensure? && Mine(r'.w) != Mine(r.w) && a.id in {PostgresSecret, RustfsSecret} {
      hide Exec;
      var wb := EnsureFacts(r.w, r.cn, r.loc, env, a.id, a.place);
      BuiltPassword(wb, r.cn, r.loc, env, a.id, a.place);
    }
  }

  lemma BuiltPassword(w: World, cn: CR, loc: Locals, env: Env, id: Id, place: Place)
    requires id in {PostgresSecret, RustfsSecret} && Build(w, cn, loc, env, id, place).1.Ok?
    ensures var o := Build(w, cn, loc, env, id, place).1.value;
            if id == PostgresSecret then FieldOf(o, PostgresPassword) == loc.pg
                else FieldOf(o, RustfsPassword) == loc.s3
  {
    hide LabelsFor;
  }

  /** A stretch of actions keeps the invariant and what the run knows. */
  lemma {:induction false} SaneRun(r: Run, env: Env, acts: seq<Action>, p: Promise, k: Known)
    requires Sane(Mine(r.w), r.w.me, p) && Trusted(r, env, p) && Knows(r, p, k)
    requires forall a | a in acts :: Suffices(k, p, a)
    ensures var r' := RunAll(r, env, acts); Sane(Mine(r'.w), r.w.me, p) && Trusted(r', env, p) && Knows(r', p, k)
    decreases |acts|
  {
    if acts != [] {
      hide Exec, Sane, Knows, Suffices, SpecKeeps, EnvKeeps;
      SaneExec(r, env, acts[0], p, k);
      KnowsStays(r, env, acts[0], p, k);
      ExecFacts(r, env, acts[0]);
      SaneRun(Exec(r, env, acts[0]), env, acts[1..], p, k);
    }
  }

  // ---- A whole run ------------------------------------------------------------------------------

  /** The invariant, the promises and what the run knows. */
  predicate Fine(r: Run, env: Env, p: Promise, k: Known) {
    Sane(Mine(r.w), r.w.me, p) && Trusted(r, env, p) && Knows(r, p, k)
  }

  predicate AllSuffice(k: Known, p: Promise, acts: seq<Action>) { forall a | a in acts :: Suffices(k, p, a) }

  /** After a stretch of actions the run also knows the objects it ensured. */
  lemma FineRun(r: Run, env: Env, acts: seq<Action>, p: Promise, k: Known, ids: set<Id>)
    requires Fine(r, env, p, k) && AllSuffice(k, p, acts) && forall id | id in ids :: On(id) in acts
    ensures Fine(RunAll(r, env, acts), env, p, k.(objects := k.objects + ids))
  {
    hide Sane, Trusted, Suffices, RunAll;
    SaneRun(r, env, acts, p, k);
    Frame(r, env, acts);
    var r' := RunAll(r, env, acts);
    if r'.out == Going {
      forall id | id in ids ensures Has(Mine(r'.w), r'.w.me, id) {
        Done(r, env, acts, On(id));
      }
    }
  }

  /** Reading the passwords: what the run holds agrees with what is stored. */
  lemma FineReadPasswords(r: Run, env: Env, p: Promise, k: Known)
    requires Fine(r, env, p, k)
    ensures Fine(Exec(r, env, ReadPasswords), env, p, k.(passwords := true))
  {
    hide Labelled, Certified, Rendered, Wired, Covered, AdminAgreed, LoginAgreed, NinegateReads, NewPassword;
    if r.out == Going && p.overrides.Some? {
      var spec := r.cn.spec;
      var (w1, pg) := GetOrCreatePassword(r.w, env, PgOverride(spec), PostgresSecret, PostgresPassword, ForPostgres);
      var (w2, s3) := GetOrCreatePassword(w1, env, S3Override(spec), RustfsSecret, RustfsPassword, ForRustfs);
      if w2.alive {
        PasswordLoads(r.w, env, PgOverride(spec), PostgresSecret, PostgresPassword, ForPostgres);
        PasswordLoads(w1, env, S3Override(spec), RustfsSecret, RustfsPassword, ForRustfs);
      }
    }
  }

  lemma PasswordLoads(w: World, env: Env, override: string, id: Id, field: Field, p: Purpose)
    requires PasswordKept(env, override, id, p)
    requires Has(Mine(w), w.me, id) ==> Usable(Read(Mine(w), w.me, id, field), override)
    ensures var (w', pass) := GetOrCreatePassword(w, env, override, id, field, p);
            (w'.alive ==> w.alive && Loaded(Mine(w), w.me, id, field, pass, override))
  {
    hide NewPassword;
    if |override| == 0 {
      PasswordNotEmpty(env, p);
      assert K(w, id) in Mine(w) ==> K(w, id) in Mine(Interfere(w, env, Reading(id, PasswordRead)));
    }
  }

  lemma FineLoadCa(r: Run, env: Env, p: Promise, k: Known)
    requires Fine(r, env, p, k)
    ensures Fine(Exec(r, env, LoadCa), env, p, k.(ca := true))
  {
    hide Sane, SpecKeeps, EnvKeeps;
  }

  function Nothing(): Known { Known({}, false, false) }

  function AdminObjects(p: Promise): set<Id> { if p.autoAdmin then {AdminCredentials} else {} }

  /** The secrets a run has ensured before the CA. */
  function SecretObjects(p: Promise): set<Id> { AdminObjects(p) + {PostgresSecret, RustfsSecret, NinegateSecret} }

  lemma FineStart(r: Run, env: Env, spec: Spec, p: Promise)
    requires Fine(r, env, p, Nothing()) && SpecKeeps(p, spec)
    ensures Fine(RunAll(r, env, NamespaceStage() + AdminStage(spec)), env, p, Known(AdminObjects(p), false, false))
  {
    hide Fine, RunAll;
    var acts := NamespaceStage() + AdminStage(spec);
    assert p.autoAdmin ==> acts[4] == On(AdminCredentials);
    assert AllSuffice(Nothing(), p, acts);
    FineRun(r, env, acts, p, Nothing(), AdminObjects(p));
    assert {} + AdminObjects(p) == AdminObjects(p);
  }

  lemma FineRoot(r: Run, env: Env, p: Promise)
    requires Fine(r, env, p, Known(AdminObjects(p), false, false))
    ensures Fine(RunAll(r, env, RootStage()), env, p,
            Known(AdminObjects(p) + {PostgresSecret, RustfsSecret}, true, false))
  {
    hide Fine, Exec;
    var k := Known(AdminObjects(p), false, false);
    var enter, secrets := [Enter(Blame("RootSecretsFailed", None))], [On(PostgresSecret), On(RustfsSecret)];
    var r1 := RunAll(r, env, enter);
    FineRun(r, env, enter, p, k, {});
    assert k.objects + {} == k.objects;
    FineReadPasswords(r1, env, p, k);
    var r2 := Exec(r1, env, ReadPasswords);
    assert RunAll(r, env, enter + [ReadPasswords]) == r2 by {
      Split(r, env, enter, [ReadPasswords]);
      assert [ReadPasswords][1..] == [];
    }
    assert AllSuffice(k.(passwords := true), p, secrets);
    FineRun(r2, env, secrets, p, k.(passwords := true), {PostgresSecret, RustfsSecret});
    assert RootStage() == enter + [ReadPasswords] + secrets;
    Split(r, env, enter + [ReadPasswords], secrets);
  }

  lemma FineNinegateAndCa(r: Run, env: Env, p: Promise)
    requires Fine(r, env, p, Known(AdminObjects(p) + {PostgresSecret, RustfsSecret}, true, false))
    ensures Fine(RunAll(r, env, NinegateStage() + CaStage()), env, p, Known(SecretObjects(p), true, false))
  {
    hide Fine, RunAll;
    var k := Known(AdminObjects(p) + {PostgresSecret, RustfsSecret}, true, false);
    var acts := NinegateStage() + CaStage();
    assert acts[1] == On(NinegateSecret);
    assert AllSuffice(k, p, acts);
    FineRun(r, env, acts, p, k, {NinegateSecret});
    assert k.objects + {NinegateSecret} == SecretObjects(p);
  }

  lemma FineSecrets(r: Run, env: Env, spec: Spec, p: Promise)
    requires Fine(r, env, p, Nothing()) && SpecKeeps(p, spec)
    ensures Fine(RunAll(r, env, SecretActions(spec)), env, p, Known(SecretObjects(p), true, false))
  {
    hide Fine, RunAll, NamespaceStage, AdminStage, RootStage, NinegateStage, CaStage;
    var a, b, c := NamespaceStage() + AdminStage(spec), RootStage(), NinegateStage() + CaStage();
    FineStart(r, env, spec, p);
    FineRoot(RunAll(r, env, a), env, p);
    FineNinegateAndCa(RunAll(RunAll(r, env, a), env, b), env, p);
    Split(r, env, a, b);
    Split(r, env, a + b, c);
    assert SecretActions(spec) == a + b + c;
  }

  /** The certificates the services section asks for. */
  function CertObjects(f: ServiceFlags): set<Id> {
    {Tls(Ninegate), Tls(Dex), Tls(Rustfs), Tls(Glauth)}
    + (if f.nextcloud then {Tls(Nextcloud)} else {}) + (if f.wordpress then {Tls(Wordpress)} else {})
    + (if f.dolibarr then {Tls(Dolibarr)} else {})
  }

  lemma CertsEnsured(f: ServiceFlags)
    ensures forall id | id in CertObjects(f) :: On(id) in CertActions(f)
    ensures forall a | a in CertActions(f) :: a.Ensure? && a.id.Tls? && a.place == Pipeline
  {
    var core := [On(Tls(Ninegate)), On(Tls(Dex)), On(Tls(Rustfs)), On(Tls(Glauth))];
    assert forall id | id in {Tls(Ninegate), Tls(Dex), Tls(Rustfs), Tls(Glauth)} :: On(id) in core by {
      assert core[0] == On(Tls(Ninegate)) && core[1] == On(Tls(Dex)) && core[2] == On(Tls(Rustfs))
          && core[3] == On(Tls(Glauth));
    }
    assert forall c: bool, a: Action :: c ==> If(c, [a])[0] == a;
  }

  lemma FineCerts(r: Run, env: Env, spec: Spec, p: Promise)
    requires Fine(r, env, p, Known(SecretObjects(p), true, false))
    ensures Fine(RunAll(r, env, CertStage(spec)), env, p,
            Known(SecretObjects(p) + CertObjects(FlagsOf(spec)), true, true))
  {
    hide Fine, Exec, CertActions, CertObjects, SecretObjects;
    var f := FlagsOf(spec);
    var k := Known(SecretObjects(p), true, false);
    var enter := [Enter(Blame("CertFailed", None))];
    FineRun(r, env, enter, p, k, {});
    assert k.objects + {} == k.objects;
    var r1 := RunAll(r, env, enter);
    FineLoadCa(r1, env, p, k);
    var r2 := Exec(r1, env, LoadCa);
    var rest := [NeedServices] + CertActions(f);
    CertsEnsured(f);
    FineRun(r2, env, rest, p, k.(ca := true), CertObjects(f));
    assert CertStage(spec) == enter + ([LoadCa] + rest);
    Split(r, env, enter, [LoadCa] + rest);
    assert ([LoadCa] + rest)[1..] == rest;
  }

  /** What a run knows when it reaches the services. */
  function LateKnown(p: Promise, f: ServiceFlags): Known { Known(SecretObjects(p) + CertObjects(f), true, true) }

  lemma ServiceActionsSuffice(i: nat, f: ServiceFlags, p: Promise, k: Known)
    requires {Tls(Glauth), Tls(Dex), NinegateSecret} <= k.objects && AdminObjects(p) <= k.objects
    ensures AllSuffice(k, p, ServiceActions(i, f))
  {
  }

  lemma ServicesSuffice(i: nat, f: ServiceFlags, p: Promise)
    ensures AllSuffice(LateKnown(p, f), p, ServiceStage(i, f))
  {
    hide ServiceBlame, ServiceActions;
    ServiceActionsSuffice(i, f, p, LateKnown(p, f));
  }

  lemma {:induction false} StagesSuffice(n: nat, f: ServiceFlags, p: Promise)
    ensures AllSuffice(LateKnown(p, f), p, ServiceStages(n, f))
  {
    if n > 0 {
      hide Suffices, ServiceStage, LateKnown;
      StagesSuffice(n - 1, f, p);
      ServicesSuffice(n - 1, f, p);
    }
  }

  lemma RulesSuffice(f: ServiceFlags, p: Promise)
    ensures AllSuffice(LateKnown(p, f), p, IngressRules(f))
  {
    hide SecretObjects;
  }

  lemma NetworkSuffices(f: ServiceFlags, p: Promise)
    ensures AllSuffice(LateKnown(p, f), p, IngressActions(f) + PolicyActions())
  {
    hide IngressRules;
    RulesSuffice(f, p);
    assert AllSuffice(LateKnown(p, f), p, PolicyActions());
  }

  lemma FineActions(r: Run, env: Env, spec: Spec, p: Promise)
    requires Fine(r, env, p, Nothing()) && SpecKeeps(p, spec)
    ensures Sane(Mine(RunAll(r, env, Actions(spec)).w), RunAll(r, env, Actions(spec)).w.me, p)
  {
    hide RunAll, SecretActions, CertStage, ServiceStages, IngressActions, PolicyActions, Sane, Trusted, Suffices;
    var f := FlagsOf(spec);
    FineSecrets(r, env, spec, p);
    var r1 := RunAll(r, env, SecretActions(spec));
    FineCerts(r1, env, spec, p);
    StagesSuffice(SERVICE_COUNT, f, p);
    NetworkSuffices(f, p);
    assert AllSuffice(LateKnown(p, f), p, LateActions(f));
    FineRun(RunAll(r1, env, CertStage(spec)), env, LateActions(f), p, LateKnown(p, f), {});
    Split(r1, env, CertStage(spec), LateActions(f));
    Split(r, env, SecretActions(spec), CertStage(spec) + LateActions(f));
  }

  // ---- Histories --------------------------------------------------------------------------------

  lemma SaneReconcile(w: World, env: Env, p: Promise)
    requires Managed(w) && Sane(Mine(w), w.me, p) && SpecKeeps(p, w.cr.value.spec) && EnvKeeps(p, env)
    ensures Sane(Mine(Reconcile(w, env)), w.me, p)
  {
    hide RunAll, Finish, Actions, Reconcile, Sane, SpecKeeps, EnvKeeps;
    var spec := w.cr.value.spec;
    var began, r0 := ReconcileShape(w, env);
    if began {
      assert Fine(r0, env, p, Nothing());
      FineActions(r0, env, spec, p);
      Frame(r0, env, Actions(spec));
      FinishFacts(RunAll(r0, env, Actions(spec)), env);
    }
  }

  /** Nothing has been created yet. */
  lemma FreshIsSane(w: World)
    requires Fresh(w)
    ensures forall p :: Sane(Mine(w), w.me, p)
  {
  }

  lemma StepIsSane(w: World, s: Step, p: Promise)
    requires Managed(w) && Sane(Mine(w), w.me, p) && SpecKeeps(p, w.cr.value.spec) && Keeps(p, [s])
    ensures var w' := Apply(w, s);
            Sane(Mine(w'), w.me, p) && Managed(w') && SpecKeeps(p, w'.cr.value.spec) && w'.me == w.me
  {
    hide Sane, SpecKeeps, EnvKeeps, Reconcile;
    assert s in [s];
    ApplyKeepsManaged(w, s);
    if s.RunOnce? {
      RunKeepsManaged(w, s.env);
      SaneReconcile(w, s.env, p);
    } else {
      IdleStep(w, s);
    }
  }

  /** The invariant holds in every reachable state, for every set of promises that user and environment keep. */
  lemma {:induction false} HistoryIsSane(w: World, steps: seq<Step>, p: Promise)
    requires Fresh(w) && SpecKeeps(p, w.cr.value.spec) && Keeps(p, steps)
    ensures var now := Play(w, steps);
            Sane(Mine(now), w.me, p) && Managed(now) && SpecKeeps(p, now.cr.value.spec) && now.me == w.me
    decreases |steps|
  {
    hide Apply, SpecKeeps, EnvKeeps;
    if steps != [] {
      hide Sane;
      var before, last := steps[..|steps| - 1], steps[|steps| - 1];
      assert forall s | s in before :: s in steps;
      HistoryIsSane(w, before, p);
      StepIsSane(Play(w, before), last, p);
    }
  }
}
