/** What the controller puts into each object it creates. */
module Contents {
  import opened Objects
  import opened Api
  import opened Passwords
  import opened DomainDn
  import opened InitScript

  /** What a run remembers between calls: the two root passwords and the loaded CA. */
  datatype Locals = Locals(pg: string, s3: string, ca: Option<nat>)

  const NO_LOCALS := Locals("", "", None)

  function HostOf(app: App, domain: string): string { AppName(app) + "." + domain }

  function S3Host(domain: string): string { "s3." + domain }

  /** The DNS names a service certificate is issued for. */
  function CertDns(app: App, domain: string): seq<string> {
    [HostOf(app, domain)] + (if app == Rustfs then [S3Host(domain)] else [])
  }

  function IngressHost(app: App, domain: string): string {
    if app == RustfsApi then S3Host(domain) else HostOf(app, domain)
  }

  function IngressTls(app: App): Id { Tls(if app == RustfsApi then Rustfs else app) }

  function FlagsOf(spec: Spec): ServiceFlags {
    if spec.services.Some? then spec.services.value
    else ServiceFlags(false, false, false, false, false, false, false, false, false)
  }

  const CATALOG: map<App, string> :=
    map[Nextcloud := "nextcloud", Wordpress := "wordpress", Dolibarr := "dolibarr"]

  function OptionalFlags(spec: Spec): (m: map<App, bool>)
    ensures m.Keys == {Nextcloud, Wordpress, Dolibarr}
  {
    var f := FlagsOf(spec);
    map[Nextcloud := f.nextcloud, Wordpress := f.wordpress, Dolibarr := f.dolibarr]
  }

  /** The order in which the runtime iterates the map of optional services. */
  function SqlOrder(env: Env): (order: seq<App>)
    ensures Iterates(order, {Nextcloud, Wordpress, Dolibarr})
  {
    if Iterates(env.sqlOrder, {Nextcloud, Wordpress, Dolibarr}) then env.sqlOrder
    else [Nextcloud, Wordpress, Dolibarr]
  }

  // ---- Labels ---------------------------------------------------------------

  function AppLabelOf(id: Id, place: Place): Option<string> {
    match id
    case NinegateSecret | Uploads | PublicUploads => Some("ninegate")
    case PostgresConfig | PostgresSet => Some("postgresql")
    case Deployment(app) => Some(AppName(app))
    case Service(app) => Some(AppName(app))
    case RustfsData => Some("rustfs")
    case GlauthConfig => Some("glauth")
    case DexConfig => Some("dex")
    case Tls(app) => if place == Fallback then Some(AppName(app)) else None
    case _ => None
  }

  function LabelsFor(client: string, id: Id, place: Place): map<Label, string> {
    var base := ClientLabels(client);
    match AppLabelOf(id, place)
    case None => base
    case Some(app) => base[AppLabel := app]
  }

  /** Every created object carries the three client labels. */
  lemma LabelsMatch(client: string, id: Id, place: Place)
    ensures Carries(LabelsFor(client, id, place), client)
    ensures Matches(LabelsFor(client, id, place), ClientLabels(client))
  {
    SelectorCarries(LabelsFor(client, id, place), client);
  }

  // ---- Payloads ---------------------------------------------------------------

  /** The keys the Ninegate workload takes from its secret. */
  const NINEGATE_KEYS: set<Field> := {
    AppSecret, DatabaseUrl, DefaultUri, LdapBase, OidcIssuer, OidcClientSecret, OidcRedirectUri,
    AppAdminPassword, StorageDsn, S3Endpoint, S3Bucket, S3AccessKey, S3SecretKey, S3Region }

  function WorkloadRefs(app: App): set<Ref> {
    match app
    case Postgresql => {WholeObject(PostgresConfig), WholeObject(PostgresSecret)}
    case Rustfs => {WholeObject(RustfsSecret), WholeObject(RustfsData)}
    case Ninegate =>
      (set f | f in NINEGATE_KEYS :: SecretKey(NinegateSecret, f))
      + {WholeObject(Uploads), WholeObject(PublicUploads), WholeObject(GlauthConfig)}
    case Glauth => {WholeObject(GlauthConfig), WholeObject(Tls(Glauth))}
    case Dex => {WholeObject(DexConfig), WholeObject(Tls(Dex))}
    case _ => {}
  }

  /** The payloads that depend on nothing but the resource, the run's locals and the map order. */
  function PlainPayload(cn: CR, loc: Locals, env: Env, id: Id): Payload {
    match id
    case TheNamespace => NamespaceMeta(cn.spec.domain, cn.spec.plan, cn.spec.email)
    case PostgresSecret => Data(map[PostgresUser := "root", PostgresPassword := loc.pg, PostgresDb := "ninegate"])
    case RustfsSecret => Data(map[RustfsUser := cn.name, RustfsPassword := loc.s3])
    case PostgresConfig =>
      Data(map[InitdbArgs := "--auth-host=md5 --auth-local=trust",
               InitSql := InitSqlFor(SqlOrder(env), OptionalFlags(cn.spec), CATALOG)])
    case PostgresSet => Workload(WorkloadRefs(Postgresql))
    case Deployment(app) => Workload(WorkloadRefs(app))
    case Service(_) => Port
    case IngressFor(app) => HostRule(IngressHost(app, cn.spec.domain), IngressTls(app), Service(app))
    case LdapsRoute => SniRoute(HostOf(Glauth, cn.spec.domain))
    case EgressPolicy => AllowAll(true)
    case IngressPolicy => AllowAll(false)
    case _ => Volume
  }

  /** Read a secret's field, fall back to a default when it is empty, or to a fresh password when the read fails. */
  function ReadOr(w: World, env: Env, id: Id, place: Place, field: Field, p: Purpose): (r: (World, string))
    ensures Mine(r.0) == Mine(w)
    ensures r.0 == w.(store := r.0.store, alive := r.0.alive)
  {
    var (w', g) := Get(w, env, Reading(id, place), K(w, id));
    match g
    case Found(o) => (w', if |FieldOf(o, field)| > 0 then FieldOf(o, field) else "changeme")
    case Missed(_) => (w', OrEmpty(NewPassword(env, p)))
  }

  function NinegateFields(cn: CR, loc: Locals, env: Env, adminPass: string): map<Field, string> {
    var domain := cn.spec.domain;
    map[AppSecret := OrEmpty(NewPassword(env, ForAppSecret)),
        AppAdminPassword := adminPass,
        DatabaseUrl := DatabaseUrlFor(loc.pg),
        LdapBase := DnOf(domain),
        OidcClientSecret := OrEmpty(NewPassword(env, ForOidc)),
        DefaultUri := "https://ninegate." + domain,
        OidcIssuer := "https://dex." + domain,
        OidcRedirectUri := "https://ninegate." + domain + "/callback",
        StorageDsn := "s3://ninegate-uploads",
        S3Endpoint := "http://rustfs:9000",
        S3Bucket := "ninegate-uploads",
        S3AccessKey := cn.name,
        S3SecretKey := loc.s3,
        S3Region := "us-east-1"]
  }

  function AdminPayload(cn: CR, env: Env): Result<Payload> {
    match NewPassword(env, ForAdmin)
    case None => Fail(Wrapped(GenerateAdminPassword, NoEntropy))
    case Some(p) => Ok(Data(map[Username := cn.spec.username, AdminPassword := p, Email := cn.spec.email]))
  }

  function NinegatePayload(w: World, cn: CR, loc: Locals, env: Env): (World, Result<Payload>) {
    var (w', adminPass) := ReadOr(w, env, AdminCredentials, NinegateRead, AdminPassword, ForNinegateAdmin);
    (w', Ok(Data(NinegateFields(cn, loc, env, adminPass))))
  }

  function CaPayload(env: Env): Result<Payload> {
    match Head(DrawsFor(env, ForCa))
    case NoRandom => Fail(Wrapped(GenerateCa, NoEntropy))
    case Value(n) => Ok(CaPair(n))
  }

  function CertPayload(cn: CR, loc: Locals, env: Env, app: App, place: Place): Result<Payload> {
    if place == Fallback then
      if Head(DrawsFor(env, ForFallbackCert(app))) == NoRandom then Fail(Wrapped(GenerateCert, NoEntropy))
      else Ok(Certificate(SelfSigned, [HostOf(app, cn.spec.domain)]))
    else if loc.ca.None? then Fail(BadCA)
    else if Head(DrawsFor(env, ForCert(app))) == NoRandom then Fail(Wrapped(SignCert, NoEntropy))
    else Ok(Certificate(SignedBy(loc.ca.value), CertDns(app, cn.spec.domain)))
  }

  function GlauthPayload(w: World, cn: CR, env: Env): (World, Result<Payload>) {
    var (w', g) := Get(w, env, Reading(PostgresSecret, GlauthRead), K(w, PostgresSecret));
    match g
    case Missed(e) => (w', Fail(Wrapped(FindPostgresSecret, e)))
    case Found(o) =>
      (w', Ok(GlauthSettings(GlauthConnection(FieldOf(o, PostgresPassword)), DnOf(cn.spec.domain))))
  }

  function DexPayload(w: World, cn: CR, env: Env): (World, Result<Payload>) {
    var (w1, adminPass) := ReadOr(w, env, AdminCredentials, DexRead, AdminPassword, ForDexAdmin);
    var (w2, clientSecret) := ReadOr(w1, env, NinegateSecret, DexRead, AppSecret, ForDexClient);
    (w2, Ok(DexSettings(adminPass, clientSecret,
                        OrEmpty(NewPassword(env, ForNextcloudClient)), OrEmpty(NewPassword(env, ForFilesClient)),
                        DnOf(cn.spec.domain))))
  }

  function BuildPayload(w: World, cn: CR, loc: Locals, env: Env, id: Id, place: Place): (World, Result<Payload>) {
    match id
    case AdminCredentials => (w, AdminPayload(cn, env))
    case NinegateSecret => NinegatePayload(w, cn, loc, env)
    case CaSecret => (w, CaPayload(env))
    case Tls(app) => (w, CertPayload(cn, loc, env, app, place))
    case GlauthConfig => GlauthPayload(w, cn, env)
    case DexConfig => DexPayload(w, cn, env)
    case _ => (w, Ok(PlainPayload(cn, loc, env, id)))
  }

  /** Building an object reads but never changes the client's own objects. */
  function Build(w: World, cn: CR, loc: Locals, env: Env, id: Id, place: Place): (r: (World, Result<Obj>))
    ensures Mine(r.0) == Mine(w)
    ensures r.0 == w.(store := r.0.store, alive := r.0.alive)
  {
    var (w', payload) := BuildPayload(w, cn, loc, env, id, place);
    match payload
    case Fail(e) => (w', Fail(e))
    case Ok(p) => (w', Ok(Obj(LabelsFor(cn.name, id, place), p)))
  }
}
