/** The cluster vocabulary: object identities, object contents, and the custom resource. */
module Objects {

  datatype Option<+T> = None | Some(value: T)

  /** The error kinds the controller can tell apart, and the ones it wraps. */
  datatype Err =
    | NotFound
    | AlreadyExists
    | Conflict
    | Invalid
    | Transient
    | NoEntropy
    | BadCA
    | Wrapped(context: Attempt, cause: Err)

  /** What the controller was doing when it wrapped an error. */
  datatype Attempt = GenerateAdminPassword | GenerateCa | GenerateCert | SignCert | FindPostgresSecret | LoadCaSecret

  datatype Result<+T> = Ok(value: T) | Fail(error: Err)

  // ---- Identities -------------------------------------------------------

  datatype Kind =
    | Namespaces | Secrets | ConfigMaps | Volumes | Deployments | StatefulSets
    | Services | Ingresses | TcpRoutes | NetworkPolicies

  datatype App =
    | Postgresql | Redis | Rustfs | Ninegate | Glauth | Dex
    | Nextcloud | Wordpress | Dolibarr | RustfsApi

  /** Every object the controller names, and `Other` for everything else in the cluster. */
  datatype Id =
    | TheNamespace
    | AdminCredentials
    | PostgresSecret
    | RustfsSecret
    | NinegateSecret
    | CaSecret
    | Tls(app: App)
    | PostgresConfig
    | PostgresSet
    | Deployment(app: App)
    | Service(app: App)
    | RustfsData
    | Uploads
    | PublicUploads
    | GlauthConfig
    | DexConfig
    | IngressFor(app: App)
    | LdapsRoute
    | LdapsSecret  // looked up by name, never created
    | EgressPolicy
    | IngressPolicy
    | Other(kind: Kind, name: string)

  function AppName(app: App): string {
    match app
    case Postgresql => "postgresql"
    case Redis => "redis"
    case Rustfs => "rustfs"
    case Ninegate => "ninegate"
    case Glauth => "glauth"
    case Dex => "dex"
    case Nextcloud => "nextcloud"
    case Wordpress => "wordpress"
    case Dolibarr => "dolibarr"
    case RustfsApi => "rustfs-api"
  }

  function KindOf(id: Id): Kind {
    match id
    case TheNamespace => Namespaces
    case AdminCredentials | PostgresSecret | RustfsSecret | NinegateSecret | CaSecret => Secrets
    case Tls(_) | DexConfig | LdapsSecret => Secrets
    case PostgresConfig | GlauthConfig => ConfigMaps
    case PostgresSet => StatefulSets
    case Deployment(_) => Deployments
    case Service(_) => Services
    case RustfsData | Uploads | PublicUploads => Volumes
    case IngressFor(_) => Ingresses
    case LdapsRoute => TcpRoutes
    case EgressPolicy | IngressPolicy => NetworkPolicies
    case Other(kind, _) => kind
  }

  /** The object's name inside its namespace (the namespace itself is identified by its own name). */
  function NameOf(id: Id): string {
    match id
    case TheNamespace => ""
    case AdminCredentials => "admin-credentials"
    case PostgresSecret => "postgres-secret"
    case RustfsSecret => "rustfs-secret"
    case NinegateSecret => "ninegate-secret"
    case CaSecret => "ca"
    case Tls(app) => AppName(app) + "-tls"
    case PostgresConfig => "postgres-config"
    case PostgresSet => "postgresql"
    case Deployment(app) => AppName(app)
    case Service(app) => AppName(app)
    case RustfsData => "rustfs-data"
    case Uploads => "ninegate-uploads"
    case PublicUploads => "ninegate-public-uploads"
    case GlauthConfig => "ninegate-glauth-config"
    case DexConfig => "dex-config"
    case IngressFor(app) => AppName(app)
    case LdapsRoute | LdapsSecret => "glauth-ldaps"
    case EgressPolicy => "ninekube-allow-all-egress"
    case IngressPolicy => "ninekube-allow-all-ingress"
    case Other(_, name) => name
  }

  /** A namespaced object lives in `ns`; the Namespace object named `ns` is `Key(ns, TheNamespace)`. */
  datatype Key = Key(ns: string, id: Id)

  /** The namespace a client owns. */
  function NsName(client: string): string { client + "-ns" }

  // ---- Contents ---------------------------------------------------------

  datatype Label = AppLabel | PartOf | ManagedBy | ClientLabel

  function ClientLabels(client: string): map<Label, string> {
    map[PartOf := "ninekube", ManagedBy := "ninekube-operator", ClientLabel := client]
  }

  predicate Matches(labels: map<Label, string>, selector: map<Label, string>) {
    forall l | l in selector :: l in labels && labels[l] == selector[l]
  }

  /** The three labels every object of a client carries, written out. */
  predicate Carries(labels: map<Label, string>, client: string) {
    && PartOf in labels && labels[PartOf] == "ninekube"
    && ManagedBy in labels && labels[ManagedBy] == "ninekube-operator"
    && ClientLabel in labels && labels[ClientLabel] == client
  }

  /** The selector picks exactly the objects that carry the three labels. */
  lemma SelectorCarries(labels: map<Label, string>, client: string)
    ensures Matches(labels, ClientLabels(client)) <==> Carries(labels, client)
  {
    if Matches(labels, ClientLabels(client)) {
      assert PartOf in ClientLabels(client) && ManagedBy in ClientLabels(client) && ClientLabel in ClientLabels(client);
    }
  }

  /** The data keys of the Secrets and ConfigMaps. */
  datatype Field =
    | PostgresUser | PostgresPassword | PostgresDb
    | RustfsUser | RustfsPassword
    | Username | AdminPassword | Email
    | AppSecret | AppAdminPassword | DatabaseUrl | LdapBase | OidcClientSecret | DefaultUri
    | OidcIssuer | OidcRedirectUri | StorageDsn | S3Endpoint | S3Bucket | S3AccessKey
    | S3SecretKey | S3Region
    | InitdbArgs | InitSql

  datatype Issuer = SignedBy(ca: nat) | SelfSigned

  /** What a workload's pod template refers to. */
  datatype Ref = WholeObject(id: Id) | SecretKey(id: Id, field: Field)

  datatype Payload =
    | NamespaceMeta(domain: string, plan: string, admin: string)
    | Data(fields: map<Field, string>)
    | CaPair(ca: nat)
    | Certificate(issuer: Issuer, dns: seq<string>)
    | DexSettings(bindPW: string, ninegateSecret: string, nextcloudSecret: string, filesSecret: string,
        bindBase: string)
    | GlauthSettings(connection: string, baseDN: string)
    | Workload(refs: set<Ref>)
    | Volume
    | Port
    | HostRule(host: string, tls: Id, backend: Id)
    | SniRoute(host: string)
    | AllowAll(egress: bool)

  datatype Obj = Obj(labels: map<Label, string>, payload: Payload)

  /** The value a client reads for a data key; the empty string when the key is missing. */
  function FieldOf(o: Obj, f: Field): string {
    if o.payload.Data? && f in o.payload.fields then o.payload.fields[f] else ""
  }

  // ---- The custom resource ------------------------------------------------

  datatype ServiceFlags = ServiceFlags(
    postgresql: bool, redis: bool, rustfs: bool, ninegate: bool, glauth: bool, dex: bool,
    nextcloud: bool, wordpress: bool, dolibarr: bool)

  datatype Storage = Storage(postgresRootPassword: string, rustfsRootPassword: string)

  datatype Spec = Spec(
    domain: string, plan: string, username: string, email: string, passwordSecretRef: bool,
    storage: Option<Storage>, services: Option<ServiceFlags>)

  datatype Phase = NoPhase | Pending | Provisioning | Ready | Failed

  datatype ServiceStatus = ServiceStatus(name: string, ready: bool, message: Option<Err>)

  datatype Condition = Condition(ctype: string, status: bool, reason: string, message: Option<Err>)

  datatype Status = Status(
    phase: Phase, namespace: string, endpoint: string, adminSecretName: string,
    services: seq<ServiceStatus>, conditions: seq<Condition>)

  /** A ClientNamespace as stored, or as held in memory by a run. */
  datatype CR = CR(
    name: string, spec: Spec, finalizers: set<string>, deleting: bool, status: Status, version: nat)

  const FINALIZER := "provisioning.ninekube.io/finalizer"

  /** The CRD declares `conditions` as a list keyed by type: a repeated type is rejected. */
  predicate DistinctConditionTypes(cs: seq<Condition>) {
    forall i, j | 0 <= i < j < |cs| :: cs[i].ctype != cs[j].ctype
  }

  /** Different clients own different namespaces. */
  lemma NsNameInjective(a: string, b: string)
    requires NsName(a) == NsName(b)
    ensures a == b
  {
    assert a == NsName(a)[..|NsName(a)| - 3];
    assert b == NsName(b)[..|NsName(b)| - 3];
  }

  /** Length and first letter tell the names of one kind apart. */
  function Fingerprint(id: Id): (nat, char)
    requires !id.Other? && id != TheNamespace
  {
    match id
    case AdminCredentials => (17, 'a') case PostgresSecret => (15, 'p') case RustfsSecret => (13, 'r')
    case NinegateSecret => (15, 'n') case CaSecret => (2, 'c') case DexConfig => (10, 'd')
    case PostgresConfig => (15, 'p') case GlauthConfig => (22, 'n') case PostgresSet => (10, 'p')
    case RustfsData => (11, 'r') case Uploads => (16, 'n') case PublicUploads => (23, 'n')
    case LdapsRoute => (12, 'g') case LdapsSecret => (12, 'g')
    case EgressPolicy => (25, 'n') case IngressPolicy => (26, 'n')
    case Tls(app) => (AppPrint(app).0 + 4, AppPrint(app).1)
    case Deployment(app) => AppPrint(app) case Service(app) => AppPrint(app) case IngressFor(app) => AppPrint(app)
  }

  function AppPrint(app: App): (nat, char) {
    match app
    case Postgresql => (10, 'p') case Redis => (5, 'r') case Rustfs => (6, 'r') case Ninegate => (8, 'n')
    case Glauth => (6, 'g') case Dex => (3, 'd') case Nextcloud => (9, 'n') case Wordpress => (9, 'w')
    case Dolibarr => (8, 'd') case RustfsApi => (10, 'r')
  }

  lemma Fingerprints(id: Id)
    requires !id.Other? && id != TheNamespace
    ensures NameOf(id) != "" && (|NameOf(id)|, NameOf(id)[0]) == Fingerprint(id)
  {
  }

  /** No two of the controller's objects are the same API object: kind and name identify them. */
  lemma NamesIdentify(a: Id, b: Id)
    requires !a.Other? && !b.Other? && KindOf(a) == KindOf(b) && NameOf(a) == NameOf(b)
    ensures a == b
  {
    hide NameOf;
    if a != TheNamespace && b != TheNamespace {
      Fingerprints(a);
      Fingerprints(b);
    }
  }
}
