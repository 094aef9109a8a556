/** The controller's own code, method by method, proved to perform the actions of module Pipeline. */
module Operator {
  import opened Objects
  import opened Passwords
  import opened DomainDn
  import opened InitScript
  import opened ServiceStatuses
  import opened Contents
  import opened Pipeline
  import opened Cluster
  import opened Deletion
  import Api

  // ---- Composing actions ------------------------------------------------------

  /** Performing `acts` from `r` leads to world `w` and error `e`, and changes nothing else. */
  ghost predicate Did(r: Run, env: Api.Env, acts: seq<Action>, w: Api.World, e: Option<Err>) {
    RunAll(r, env, acts) == r.(w := w, out := OutcomeOf(e))
  }

  lemma {:induction false} Sticks(r: Run, env: Api.Env, acts: seq<Action>)
    requires r.out != Going
    ensures RunAll(r, env, acts) == r
    decreases |acts|
  {
    if acts != [] {
      Sticks(r, env, acts[1..]);
    }
  }

  lemma One(r: Run, env: Api.Env, a: Action)
    ensures RunAll(r, env, [a]) == Exec(r, env, a)
  {
    assert [a][1..] == [];
  }

  lemma NoActions(r: Run, env: Api.Env, acts: seq<Action>)
    ensures RunAll(r, env, acts[..0]) == r
  {
  }

  /** `a` then `b`: if `a` stops, `b` does nothing. */
  lemma Chain(r: Run, env: Api.Env, a: seq<Action>, b: seq<Action>)
    ensures RunAll(r, env, a + b) == RunAll(RunAll(r, env, a), env, b)
    ensures RunAll(r, env, a).out != Going ==> RunAll(r, env, a + b) == RunAll(r, env, a)
  {
    RunAllAppend(r, env, a, b);
    if RunAll(r, env, a).out != Going {
      Sticks(RunAll(r, env, a), env, b);
    }
  }

  /** Advancing through a list of actions one by one, with an early exit. */
  lemma StepAt(r: Run, env: Api.Env, acts: seq<Action>, i: nat)
    requires i < |acts|
    ensures RunAll(r, env, acts[..i + 1]) == RunAll(RunAll(r, env, acts[..i]), env, [acts[i]])
    ensures RunAll(r, env, acts[..i + 1]).out != Going ==> RunAll(r, env, acts) == RunAll(r, env, acts[..i + 1])
  {
    hide RunAll, Exec;
    assert acts[..i + 1] == acts[..i] + [acts[i]];
    Chain(r, env, acts[..i], [acts[i]]);
    assert acts[..i + 1] + acts[i + 1..] == acts;
    Chain(r, env, acts[..i + 1], acts[i + 1..]);
  }

  /** Once a service stage has stopped, the remaining ones do nothing. */
  lemma {:induction false} StagesStick(r: Run, env: Api.Env, n: nat, f: ServiceFlags)
    requires n <= SERVICE_COUNT && RunAll(r, env, ServiceStages(n, f)).out != Going
    ensures RunAll(r, env, ServiceStages(SERVICE_COUNT, f)) == RunAll(r, env, ServiceStages(n, f))
    decreases SERVICE_COUNT - n
  {
    if n < SERVICE_COUNT {
      hide RunAll, Exec, ServiceStage;
      Chain(r, env, ServiceStages(n, f), ServiceStage(n, f));
      StagesStick(r, env, n + 1, f);
    }
  }

  lemma SweepSix(w: Api.World, env: Api.Env)
    ensures Sweep(w, env, SWEPT) ==
            var w3 := SweepKind(SweepKind(SweepKind(w, env, Secrets), env, ConfigMaps), env, Deployments);
            SweepKind(SweepKind(SweepKind(w3, env, StatefulSets), env, Services), env, Volumes)
  {
    hide SweepKind;
    assert SWEPT[1..][1..][1..][1..][1..][1..] == [];
  }

  /** Objects whose payload is fixed before the call. */
  predicate Plain(id: Id) {
    !(id in {AdminCredentials, NinegateSecret, CaSecret, GlauthConfig, DexConfig} || id.Tls?)
  }

  /** One ingress rule to be ensured. */
  datatype IngressDef = IngressDef(app: App, host: string, tls: Id)

  class ClientNamespaceReconciler {
    const api: ApiServer

    constructor (api: ApiServer)
      ensures this.api == api
    {
      this.api := api;
    }

    /** The ghost run `r` is what the abstract pipeline has done so far. */
    ghost predicate At(r: Run, cn: ClientNamespace)
      reads api, cn
    {
      r.w == api.World() && r.cn == cn.Snapshot() && r.out == Going && cn.name == api.me
    }

    // ---- Get, else create once ------------------------------------------------

    /** The shape shared by every object whose content needs no further calls. */
    method EnsurePlain(env: Api.Env, cn: ClientNamespace, ghost r: Run, ns: string, id: Id, payload: Payload)
      returns (e: Option<Err>)
      requires At(r, cn) && ns == NsName(api.me)
      requires Plain(id) && payload == PlainPayload(r.cn, r.loc, env, id)
      modifies api
      ensures Did(r, env, [On(id)], api.World(), e)
    {
      One(r, env, On(id));
      var g := api.Get(env, Api.Reading(id, Api.Pipeline), Key(ns, id));
      if g.Found? {
        return None;
      }
      if g.error != NotFound {
        return Some(g.error);
      }
      e := api.Create(env, Api.Creating(id, Api.Pipeline), Key(ns, id),
                      Obj(LabelsFor(cn.name, id, Api.Pipeline), payload));
    }

    method EnsureNamespace(env: Api.Env, cn: ClientNamespace, ghost r: Run, nsName: string) returns (e: Option<Err>)
      requires At(r, cn) && nsName == NsName(api.me)
      modifies api
      ensures Did(r, env, [On(TheNamespace)], api.World(), e)
    {
      hide Exec;
      e := EnsurePlain(env, cn, r, nsName, TheNamespace, NamespaceMeta(cn.spec.domain, cn.spec.plan, cn.spec.email));
    }

    method EnsureAdminCredentials(env: Api.Env, cn: ClientNamespace, ghost r: Run, ns: string) returns (e: Option<Err>)
      requires At(r, cn) && ns == NsName(api.me)
      modifies api
      ensures Did(r, env, AdminActions(cn.spec), api.World(), e)
    {
      if cn.spec.passwordSecretRef {
        return None;
      }
      One(r, env, On(AdminCredentials));
      var g := api.Get(env, Api.Reading(AdminCredentials, Api.Pipeline), Key(ns, AdminCredentials));
      if g.Found? {
        return None;
      }
      if g.error != NotFound {
        return Some(g.error);
      }
      var password := GenerateRandomPassword(Api.DrawsFor(env, Api.ForAdmin), Length(Api.ForAdmin));
      if password.None? {
        return Some(Wrapped(GenerateAdminPassword, NoEntropy));
      }
      var data := map[Username := cn.spec.username, AdminPassword := password.value, Email := cn.spec.email];
      e := api.Create(env, Api.Creating(AdminCredentials, Api.Pipeline), Key(ns, AdminCredentials),
                      Obj(ClientLabels(cn.name), Data(data)));
    }

    /** An error of the generator is ignored: the password is then empty. */
    method PasswordIgnoringError(env: Api.Env, p: Api.Purpose) returns (s: string)
      ensures s == OrEmpty(NewPassword(env, p))
    {
      var generated := GenerateRandomPassword(Api.DrawsFor(env, p), Length(p));
      if generated.None? {
        return "";
      }
      return generated.value;
    }

    /** The override that a field of the storage section gives, if any. */
    ghost function OverrideIn(storage: Option<Storage>, storageField: string): string {
      if storage.None? then ""
      else if storageField == "postgresRootPassword" then storage.value.postgresRootPassword
      else if storageField == "rustfsRootPassword" then storage.value.rustfsRootPassword
      else ""
    }

    /** The override of the named storage field wins; else the stored password; else a new one. */
    method GetOrCreatePassword(env: Api.Env, ns: string, id: Id, field: Field, storage: Option<Storage>,
                               storageField: string, p: Api.Purpose)
      returns (pass: string)
      requires ns == NsName(api.me)
      modifies api
      ensures (api.World(), pass) ==
              Pipeline.GetOrCreatePassword(old(api.World()), env, OverrideIn(storage, storageField), id, field, p)
      ensures storage.Some? && storageField == "postgresRootPassword" && storage.value.postgresRootPassword != "" ==>
                pass == storage.value.postgresRootPassword && api.World() == old(api.World())
      ensures storage.Some? && storageField == "rustfsRootPassword" && storage.value.rustfsRootPassword != "" ==>
                pass == storage.value.rustfsRootPassword && api.World() == old(api.World())
    {
      hide NewPassword;
      ghost var override := OverrideIn(storage, storageField);
      if storage.Some? {
        if storageField == "postgresRootPassword" && storage.value.postgresRootPassword != "" {
          return storage.value.postgresRootPassword;
        }
        if storageField == "rustfsRootPassword" && storage.value.rustfsRootPassword != "" {
          return storage.value.rustfsRootPassword;
        }
      }
      var g := api.Get(env, Api.Reading(id, Api.PasswordRead), Key(ns, id));
      if g.Found? && |FieldOf(g.obj, field)| > 0 {
        return FieldOf(g.obj, field);
      }
      ghost var w := api.World();
      pass := PasswordIgnoringError(env, p);
      ghost var w0 := old(api.World());
      assert Api.Get(w0, env, Api.Reading(id, Api.PasswordRead), Api.K(w0, id)) == (w, g);
      assert (w, pass) == Pipeline.GetOrCreatePassword(w0, env, override, id, field, p);
      assert api.World() == w;
    }

    method EnsureRootSecrets(env: Api.Env, cn: ClientNamespace, ghost r: Run, ns: string, pgPass: string,
        rustfsPass: string)
      returns (e: Option<Err>)
      requires At(r, cn) && ns == NsName(api.me) && r.loc.pg == pgPass && r.loc.s3 == rustfsPass
      modifies api
      ensures Did(r, env, [On(PostgresSecret), On(RustfsSecret)], api.World(), e)
    {
      hide Exec;
      Chain(r, env, [On(PostgresSecret)], [On(RustfsSecret)]);
      e := EnsurePlain(env, cn, r, ns, PostgresSecret,
                       Data(map[PostgresUser := "root", PostgresPassword := pgPass, PostgresDb := "ninegate"]));
      if e.Some? {
        return;
      }
      e := EnsurePlain(env, cn, r.(w := api.World()), ns, RustfsSecret,
                       Data(map[RustfsUser := cn.name, RustfsPassword := rustfsPass]));
    }

    /** Reads a secret's field as the Ninegate and Dex settings do. */
    method ReadSecretField(env: Api.Env, ns: string, id: Id, place: Api.Place, field: Field, p: Api.Purpose)
      returns (value: string)
      requires ns == NsName(api.me)
      modifies api
      ensures (api.World(), value) == ReadOr(old(api.World()), env, id, place, field, p)
    {
      hide NewPassword;
      value := "changeme";
      var g := api.Get(env, Api.Reading(id, place), Key(ns, id));
      if g.Found? {
        if |FieldOf(g.obj, field)| > 0 {
          value := FieldOf(g.obj, field);
        }
      } else {
        ghost var w := api.World();
        value := PasswordIgnoringError(env, p);
        ghost var w0 := old(api.World());
        assert Api.Get(w0, env, Api.Reading(id, place), Api.K(w0, id)) == (w, g);
        assert (w, value) == ReadOr(w0, env, id, place, field, p);
        assert api.World() == w;
      }
    }

    method EnsureNinegateSecret(env: Api.Env, cn: ClientNamespace, ghost r: Run, ns: string, pgPass: string,
        rustfsPass: string)
      returns (e: Option<Err>)
      requires At(r, cn) && ns == NsName(api.me) && r.loc.pg == pgPass && r.loc.s3 == rustfsPass
      modifies api
      ensures Did(r, env, [On(NinegateSecret)], api.World(), e)
    {
      hide NewPassword;
      One(r, env, On(NinegateSecret));
      var g := api.Get(env, Api.Reading(NinegateSecret, Api.Pipeline), Key(ns, NinegateSecret));
      if g.Found? {
        return None;
      }
      if g.error != NotFound {
        return Some(g.error);
      }
      var adminPass := ReadSecretField(env, ns, AdminCredentials, Api.NinegateRead, AdminPassword,
          Api.ForNinegateAdmin);
      var appSecret := PasswordIgnoringError(env, Api.ForAppSecret);
      var oidcClientSecret := PasswordIgnoringError(env, Api.ForOidc);
      var domain := cn.spec.domain;
      var ldapBaseDN := ReplaceDotsWithDC(domain);
      var data := map[
        AppSecret := appSecret,
        AppAdminPassword := adminPass,
        DatabaseUrl := DatabaseUrlFor(pgPass),
        LdapBase := ldapBaseDN,
        OidcClientSecret := oidcClientSecret,
        DefaultUri := "https://ninegate." + domain,
        OidcIssuer := "https://dex." + domain,
        OidcRedirectUri := "https://ninegate." + domain + "/callback",
        StorageDsn := "s3://ninegate-uploads",
        S3Endpoint := "http://rustfs:9000",
        S3Bucket := "ninegate-uploads",
        S3AccessKey := cn.name,
        S3SecretKey := rustfsPass,
        S3Region := "us-east-1"];
      assert data == NinegateFields(r.cn, r.loc, env, adminPass);
      e := api.Create(env, Api.Creating(NinegateSecret, Api.Pipeline), Key(ns, NinegateSecret),
                      Obj(LabelsFor(cn.name, NinegateSecret, Api.Pipeline), Data(data)));
    }

    // ---- Certificates -----------------------------------------------------------

    method EnsureCA(env: Api.Env, cn: ClientNamespace, ghost r: Run, ns: string) returns (e: Option<Err>)
      requires At(r, cn) && ns == NsName(api.me)
      modifies api
      ensures Did(r, env, [On(CaSecret)], api.World(), e)
    {
      One(r, env, On(CaSecret));
      var g := api.Get(env, Api.Reading(CaSecret, Api.Pipeline), Key(ns, CaSecret));
      if g.Found? {
        return None;
      }
      if g.error != NotFound {
        return Some(g.error);
      }
      var draw := Head(Api.DrawsFor(env, Api.ForCa));
      if draw.NoRandom? {
        return Some(Wrapped(GenerateCa, NoEntropy));
      }
      e := api.Create(env, Api.Creating(CaSecret, Api.Pipeline), Key(ns, CaSecret),
          Obj(ClientLabels(cn.name), CaPair(draw.n)));
    }

    method GetCA(env: Api.Env, ns: string) returns (ca: Result<nat>)
      requires ns == NsName(api.me)
      modifies api
      ensures (api.World(), ca) == GetCa(old(api.World()), env)
    {
      var g := api.Get(env, Api.Reading(CaSecret, Api.CaRead), Key(ns, CaSecret));
      if g.Missed? {
        return Fail(Wrapped(LoadCaSecret, g.error));
      }
      if !g.obj.payload.CaPair? {
        return Fail(Wrapped(LoadCaSecret, BadCA));
      }
      return Ok(g.obj.payload.ca);
    }

    method EnsureCertSecret(env: Api.Env, cn: ClientNamespace, ghost r: Run, ns: string, ca: nat, app: App,
        extra: seq<string>)
      returns (e: Option<Err>)
      requires At(r, cn) && ns == NsName(api.me) && r.loc.ca == Some(ca)
      requires extra == if app == Rustfs then [S3Host(cn.spec.domain)] else []
      modifies api
      ensures Did(r, env, [On(Tls(app))], api.World(), e)
    {
      One(r, env, On(Tls(app)));
      var g := api.Get(env, Api.Reading(Tls(app), Api.Pipeline), Key(ns, Tls(app)));
      if g.Found? {
        return None;
      }
      if g.error != NotFound {
        return Some(g.error);
      }
      if Head(Api.DrawsFor(env, Api.ForCert(app))).NoRandom? {
        return Some(Wrapped(SignCert, NoEntropy));
      }
      var cert := Certificate(SignedBy(ca), [HostOf(app, cn.spec.domain)] + extra);
      e := api.Create(env, Api.Creating(Tls(app), Api.Pipeline), Key(ns, Tls(app)), Obj(ClientLabels(cn.name), cert));
    }

    /** Loads the CA, then looks at the services section: a resource without one makes the process panic. */
    method LoadCaAndServices(env: Api.Env, cn: ClientNamespace, ghost r: Run, ns: string)
      returns (loaded: Result<nat>, panicked: bool)
      requires At(r, cn) && ns == NsName(api.me)
      modifies api
      ensures RunAll(r, env, [LoadCa, NeedServices]) ==
              (match loaded
               case Fail(e) => r.(w := api.World(), out := Stopped(e))
               case Ok(n) =>
                 r.(w := api.World(), loc := r.loc.(ca := Some(n)), out := if panicked then Panicked else Going))
      ensures loaded.Ok? ==> (panicked <==> cn.spec.services.None?)
    {
      Chain(r, env, [LoadCa], [NeedServices]);
      assert [LoadCa] + [NeedServices] == [LoadCa, NeedServices];
      One(r, env, LoadCa);
      loaded := GetCA(env, ns);
      panicked := loaded.Ok? && cn.spec.services.None?;
      if loaded.Ok? {
        One(r.(w := api.World(), loc := r.loc.(ca := Some(loaded.value))), env, NeedServices);
      }
    }

    /** The collected certificates are those the actions ask for; RustFS also gets the S3 host. */
    ghost predicate Asks(certs: seq<(App, seq<string>)>, acts: seq<Action>, domain: string) {
      && |certs| == |acts| && (forall i | 0 <= i < |certs| :: acts[i] == On(Tls(certs[i].0)))
      && forall c | c in certs :: c.1 == if c.0 == Rustfs then [S3Host(domain)] else []
    }

    /** The certificates a resource needs, with the extra DNS names of each. */
    method CollectCerts(cn: ClientNamespace) returns (certs: seq<(App, seq<string>)>)
      requires cn.spec.services.Some?
      ensures Asks(certs, CertActions(FlagsOf(cn.spec)), cn.spec.domain)
    {
      var flags := cn.spec.services.value;
      certs := [(Ninegate, []), (Dex, []), (Rustfs, [S3Host(cn.spec.domain)]), (Glauth, [])];
      ghost var acts := [On(Tls(Ninegate)), On(Tls(Dex)), On(Tls(Rustfs)), On(Tls(Glauth))];
      ghost var domain := cn.spec.domain;
      assert Asks(certs, acts, domain);
      hide Asks, S3Host;
      AsksMore(certs, acts, domain, flags.nextcloud, Nextcloud);
      if flags.nextcloud { certs := certs + [(Nextcloud, [])]; }
      acts := acts + If(flags.nextcloud, [On(Tls(Nextcloud))]);
      AsksMore(certs, acts, domain, flags.wordpress, Wordpress);
      if flags.wordpress { certs := certs + [(Wordpress, [])]; }
      acts := acts + If(flags.wordpress, [On(Tls(Wordpress))]);
      AsksMore(certs, acts, domain, flags.dolibarr, Dolibarr);
      if flags.dolibarr { certs := certs + [(Dolibarr, [])]; }
      acts := acts + If(flags.dolibarr, [On(Tls(Dolibarr))]);
      assert acts == CertActions(FlagsOf(cn.spec));
    }

    lemma AsksMore(certs: seq<(App, seq<string>)>, acts: seq<Action>, domain: string, more: bool, app: App)
      requires Asks(certs, acts, domain) && app != Rustfs
      ensures Asks(if more then certs + [(app, [])] else certs, acts + If(more, [On(Tls(app))]), domain)
    {
    }

    /** Loads the CA, collects the certificates that are needed, and ensures them one by one. */
    method EnsureServiceCerts(env: Api.Env, cn: ClientNamespace, ghost r: Run, ns: string)
      returns (e: Option<Err>, panicked: bool, ghost ca: Option<nat>)
      requires At(r, cn) && ns == NsName(api.me)
      modifies api
      ensures RunAll(r, env, [LoadCa, NeedServices] + CertActions(FlagsOf(cn.spec))) ==
              r.(w := api.World(), loc := r.loc.(ca := if ca.Some? then ca else r.loc.ca),
                 out := if panicked then Panicked else OutcomeOf(e))
      ensures e.None? && !panicked ==> cn.spec.services.Some?
    {
      hide Exec;
      ghost var acts := CertActions(FlagsOf(cn.spec));
      Chain(r, env, [LoadCa, NeedServices], acts);
      var loaded;
      loaded, panicked := LoadCaAndServices(env, cn, r, ns);
      ca := None;
      if loaded.Fail? {
        return Some(loaded.error), false, None;
      }
      ca := Some(loaded.value);
      if panicked {
        return None, true, ca;
      }
      ghost var r1 := r.(w := api.World(), loc := r.loc.(ca := ca));
      var certs := CollectCerts(cn);
      for i := 0 to |certs|
        invariant RunAll(r1, env, acts[..i]) == r1.(w := api.World())
      {
        assert certs[i] in certs;
        StepAt(r1, env, acts, i);
        e := EnsureCertSecret(env, cn, r1.(w := api.World()), ns, loaded.value, certs[i].0, certs[i].1);
        if e.Some? {
          return;
        }
      }
      assert acts[..|certs|] == acts;
      e := None;
    }

    /** The service reconcilers' own existence check for a certificate, with a self-signed fallback. */
    method EnsureTLSSecret(env: Api.Env, cn: ClientNamespace, ghost r: Run, ns: string, app: App)
        returns (e: Option<Err>)
      requires At(r, cn) && ns == NsName(api.me)
      modifies api
      ensures Did(r, env, [Ensure(Tls(app), Api.Fallback)], api.World(), e)
    {
      One(r, env, Ensure(Tls(app), Api.Fallback));
      var g := api.Get(env, Api.Reading(Tls(app), Api.Fallback), Key(ns, Tls(app)));
      if g.Found? {
        return None;
      }
      if g.error != NotFound {
        return Some(g.error);
      }
      if Head(Api.DrawsFor(env, Api.ForFallbackCert(app))).NoRandom? {
        return Some(Wrapped(GenerateCert, NoEntropy));
      }
      e := api.Create(env, Api.Creating(Tls(app), Api.Fallback), Key(ns, Tls(app)),
                      Obj(ClientLabels(cn.name)[AppLabel := AppName(app)],
                          Certificate(SelfSigned, [HostOf(app, cn.spec.domain)])));
    }

    // ---- Services ----------------------------------------------------------------

    method EnsurePostgresConfig(env: Api.Env, cn: ClientNamespace, ghost r: Run, ns: string) returns (e: Option<Err>)
      requires At(r, cn) && ns == NsName(api.me)
      modifies api
      ensures Did(r, env, [On(PostgresConfig)], api.World(), e)
    {
      hide InitSqlFor, SqlOrder, OptionalFlags, Iterates;
      One(r, env, On(PostgresConfig));
      var g := api.Get(env, Api.Reading(PostgresConfig, Api.Pipeline), Key(ns, PostgresConfig));
      if g.Found? {
        return None;
      }
      if g.error != NotFound {
        return Some(g.error);
      }
      ghost var w := api.World();
      var sql := GenerateInitSQL(SqlOrder(env), OptionalFlags(cn.spec), CATALOG);
      assert api.World() == w;
      var data := map[InitdbArgs := "--auth-host=md5 --auth-local=trust", InitSql := sql];
      assert Data(data) == PlainPayload(r.cn, r.loc, env, PostgresConfig);
      e := api.Create(env, Api.Creating(PostgresConfig, Api.Pipeline), Key(ns, PostgresConfig),
                      Obj(LabelsFor(cn.name, PostgresConfig, Api.Pipeline), Data(data)));
    }

    method EnsurePostgresWorkload(env: Api.Env, cn: ClientNamespace, ghost r: Run, ns: string) returns (e: Option<Err>)
      requires At(r, cn) && ns == NsName(api.me)
      modifies api
      ensures Did(r, env, [On(PostgresSet), On(Service(Postgresql))], api.World(), e)
    {
      hide Exec;
      Chain(r, env, [On(PostgresSet)], [On(Service(Postgresql))]);
      e := EnsurePlain(env, cn, r, ns, PostgresSet, Workload(WorkloadRefs(Postgresql)));
      if e.Some? { return; }
      e := EnsurePlain(env, cn, r.(w := api.World()), ns, Service(Postgresql), Port);
    }

    method ReconcilePostgreSQL(env: Api.Env, cn: ClientNamespace, ghost r: Run) returns (e: Option<Err>)
      requires At(r, cn) && cn.namespace == NsName(api.me)
      modifies api
      ensures Did(r, env, ServiceActions(0, FlagsOf(cn.spec)), api.World(), e)
    {
      hide Exec;
      if cn.spec.services.None? || !cn.spec.services.value.postgresql {
        return None;
      }
      ghost var a, b := [On(PostgresConfig)], [On(PostgresSet), On(Service(Postgresql))];
      Chain(r, env, a, b);
      assert a + b == ServiceActions(0, FlagsOf(cn.spec));
      e := EnsurePostgresConfig(env, cn, r, cn.namespace);
      if e.Some? { return; }
      e := EnsurePostgresWorkload(env, cn, r.(w := api.World()), cn.namespace);
    }

    /** A Deployment followed by its Service. */
    method EnsureWorkload(env: Api.Env, cn: ClientNamespace, ghost r: Run, ns: string, app: App)
        returns (e: Option<Err>)
      requires At(r, cn) && ns == NsName(api.me)
      modifies api
      ensures Did(r, env, [On(Deployment(app)), On(Service(app))], api.World(), e)
    {
      hide Exec;
      Chain(r, env, [On(Deployment(app))], [On(Service(app))]);
      e := EnsurePlain(env, cn, r, ns, Deployment(app), Workload(WorkloadRefs(app)));
      if e.Some? { return; }
      e := EnsurePlain(env, cn, r.(w := api.World()), ns, Service(app), Port);
    }

    method ReconcileRedis(env: Api.Env, cn: ClientNamespace, ghost r: Run) returns (e: Option<Err>)
      requires At(r, cn) && cn.namespace == NsName(api.me)
      modifies api
      ensures Did(r, env, ServiceActions(1, FlagsOf(cn.spec)), api.World(), e)
    {
      hide Exec;
      if cn.spec.services.None? || !cn.spec.services.value.redis {
        return None;
      }
      e := EnsureWorkload(env, cn, r, cn.namespace, Redis);
    }

    method ReconcileRustFS(env: Api.Env, cn: ClientNamespace, ghost r: Run) returns (e: Option<Err>)
      requires At(r, cn) && cn.namespace == NsName(api.me)
      modifies api
      ensures Did(r, env, ServiceActions(2, FlagsOf(cn.spec)), api.World(), e)
    {
      hide Exec;
      if cn.spec.services.None? || !cn.spec.services.value.rustfs {
        return None;
      }
      Chain(r, env, [On(RustfsData)], [On(Deployment(Rustfs)), On(Service(Rustfs))]);
      e := EnsurePlain(env, cn, r, cn.namespace, RustfsData, Volume);
      if e.Some? { return; }
      e := EnsureWorkload(env, cn, r.(w := api.World()), cn.namespace, Rustfs);
    }

    method EnsurePVCs(env: Api.Env, cn: ClientNamespace, ghost r: Run, ns: string) returns (e: Option<Err>)
      requires At(r, cn) && ns == NsName(api.me)
      modifies api
      ensures Did(r, env, [On(Uploads), On(PublicUploads)], api.World(), e)
    {
      hide Exec;
      var claims := [Uploads, PublicUploads];
      ghost var acts := [On(Uploads), On(PublicUploads)];
      for i := 0 to |claims|
        invariant RunAll(r, env, acts[..i]) == r.(w := api.World())
      {
        StepAt(r, env, acts, i);
        e := EnsurePlain(env, cn, r.(w := api.World()), ns, claims[i], Volume);
        if e.Some? {
          return;
        }
      }
      assert acts[..2] == acts;
      return None;
    }

    method ReconcileNinegate(env: Api.Env, cn: ClientNamespace, ghost r: Run) returns (e: Option<Err>)
      requires At(r, cn) && cn.namespace == NsName(api.me)
      modifies api
      ensures Did(r, env, ServiceActions(3, FlagsOf(cn.spec)), api.World(), e)
    {
      hide Exec;
      if cn.spec.services.None? || !cn.spec.services.value.ninegate {
        return None;
      }
      ghost var a, b := [On(Uploads), On(PublicUploads)], [On(Deployment(Ninegate)), On(Service(Ninegate))];
      Chain(r, env, a, b);
      assert a + b == ServiceActions(3, FlagsOf(cn.spec));
      e := EnsurePVCs(env, cn, r, cn.namespace);
      if e.Some? { return; }
      e := EnsureWorkload(env, cn, r.(w := api.World()), cn.namespace, Ninegate);
    }

    method EnsureGlauthConfig(env: Api.Env, cn: ClientNamespace, ghost r: Run, ns: string) returns (e: Option<Err>)
      requires At(r, cn) && ns == NsName(api.me)
      modifies api
      ensures Did(r, env, [On(GlauthConfig)], api.World(), e)
    {
      One(r, env, On(GlauthConfig));
      var g := api.Get(env, Api.Reading(GlauthConfig, Api.Pipeline), Key(ns, GlauthConfig));
      if g.Found? {
        return None;
      }
      if g.error != NotFound {
        return Some(g.error);
      }
      var secret := api.Get(env, Api.Reading(PostgresSecret, Api.GlauthRead), Key(ns, PostgresSecret));
      if secret.Missed? {
        return Some(Wrapped(FindPostgresSecret, secret.error));
      }
      var pgPass := FieldOf(secret.obj, PostgresPassword);
      var ldapBaseDN := ReplaceDotsWithDC(cn.spec.domain);
      e := api.Create(env, Api.Creating(GlauthConfig, Api.Pipeline), Key(ns, GlauthConfig),
                      Obj(LabelsFor(cn.name, GlauthConfig, Api.Pipeline),
                          GlauthSettings(GlauthConnection(pgPass), ldapBaseDN)));
    }

    method ReconcileGlauth(env: Api.Env, cn: ClientNamespace, ghost r: Run) returns (e: Option<Err>)
      requires At(r, cn) && cn.namespace == NsName(api.me)
      modifies api
      ensures Did(r, env, ServiceActions(4, FlagsOf(cn.spec)), api.World(), e)
    {
      hide Exec;
      if cn.spec.services.None? || !cn.spec.services.value.glauth {
        return None;
      }
      var ns := cn.namespace;
      ghost var a, b := [On(GlauthConfig)], [Ensure(Tls(Glauth), Api.Fallback)];
      ghost var c := [On(Deployment(Glauth)), On(Service(Glauth))];
      Chain(r, env, a, b + c);
      assert a + (b + c) == ServiceActions(4, FlagsOf(cn.spec));
      e := EnsureGlauthConfig(env, cn, r, ns);
      if e.Some? { return; }
      ghost var r1 := r.(w := api.World());
      Chain(r1, env, b, c);
      e := EnsureTLSSecret(env, cn, r1, ns, Glauth);
      if e.Some? { return; }
      e := EnsureWorkload(env, cn, r1.(w := api.World()), ns, Glauth);
    }

    method EnsureDexConfig(env: Api.Env, cn: ClientNamespace, ghost r: Run, ns: string) returns (e: Option<Err>)
      requires At(r, cn) && ns == NsName(api.me)
      modifies api
      ensures Did(r, env, [On(DexConfig)], api.World(), e)
    {
      hide NewPassword;
      One(r, env, On(DexConfig));
      var g := api.Get(env, Api.Reading(DexConfig, Api.Pipeline), Key(ns, DexConfig));
      if g.Found? {
        return None;
      }
      if g.error != NotFound {
        return Some(g.error);
      }
      var adminPass := ReadSecretField(env, ns, AdminCredentials, Api.DexRead, AdminPassword, Api.ForDexAdmin);
      var ninegateClientSecret := ReadSecretField(env, ns, NinegateSecret, Api.DexRead, AppSecret, Api.ForDexClient);
      var nextcloudSecret := PasswordIgnoringError(env, Api.ForNextcloudClient);
      var tfmSecret := PasswordIgnoringError(env, Api.ForFilesClient);
      var ldapBaseDN := ReplaceDotsWithDC(cn.spec.domain);
      e := api.Create(env, Api.Creating(DexConfig, Api.Pipeline), Key(ns, DexConfig),
                      Obj(LabelsFor(cn.name, DexConfig, Api.Pipeline),
                          DexSettings(adminPass, ninegateClientSecret, nextcloudSecret, tfmSecret, ldapBaseDN)));
    }

    method ReconcileDex(env: Api.Env, cn: ClientNamespace, ghost r: Run) returns (e: Option<Err>)
      requires At(r, cn) && cn.namespace == NsName(api.me)
      modifies api
      ensures Did(r, env, ServiceActions(5, FlagsOf(cn.spec)), api.World(), e)
    {
      hide Exec;
      if cn.spec.services.None? || !cn.spec.services.value.dex {
        return None;
      }
      var ns := cn.namespace;
      ghost var a, b := [On(DexConfig)], [Ensure(Tls(Dex), Api.Fallback)];
      ghost var c := [On(Deployment(Dex)), On(Service(Dex))];
      Chain(r, env, a, b + c);
      assert a + (b + c) == ServiceActions(5, FlagsOf(cn.spec));
      e := EnsureDexConfig(env, cn, r, ns);
      if e.Some? { return; }
      ghost var r1 := r.(w := api.World());
      Chain(r1, env, b, c);
      e := EnsureTLSSecret(env, cn, r1, ns, Dex);
      if e.Some? { return; }
      e := EnsureWorkload(env, cn, r1.(w := api.World()), ns, Dex);
    }

    /** Dispatch to the i-th registered service reconciler. */
    method ReconcileService(i: nat, env: Api.Env, cn: ClientNamespace, ghost r: Run) returns (e: Option<Err>)
      requires i < SERVICE_COUNT
      requires At(r, cn) && cn.namespace == NsName(api.me)
      modifies api
      ensures Did(r, env, ServiceActions(i, FlagsOf(cn.spec)), api.World(), e)
    {
      hide Exec;
      match i {
        case 0 => e := ReconcilePostgreSQL(env, cn, r);
        case 1 => e := ReconcileRedis(env, cn, r);
        case 2 => e := ReconcileRustFS(env, cn, r);
        case 3 => e := ReconcileNinegate(env, cn, r);
        case 4 => e := ReconcileGlauth(env, cn, r);
        case _ => e := ReconcileDex(env, cn, r);
      }
    }

    // ---- Ingresses and policies ----------------------------------------------------

    method EnsureGlauthIngressRouteTCP(env: Api.Env, cn: ClientNamespace, ghost r: Run, ns: string)
        returns (e: Option<Err>)
      requires At(r, cn) && ns == NsName(api.me)
      modifies api
      ensures Did(r, env, [EnsureRoute], api.World(), e)
    {
      One(r, env, EnsureRoute);
      assert "glauth." + cn.spec.domain == HostOf(Glauth, cn.spec.domain) by {
        assert AppName(Glauth) + "." == "glauth.";
      }
      var g := api.Get(env, Api.Reading(LdapsSecret, Api.Pipeline), Key(ns, LdapsSecret));
      if g.Found? {
        return None;
      }
      e := api.Create(env, Api.Creating(LdapsRoute, Api.Pipeline), Key(ns, LdapsRoute),
                      Obj(ClientLabels(cn.name), SniRoute("glauth." + cn.spec.domain)));
    }

    /** The rules a resource needs. */
    method CollectIngresses(cn: ClientNamespace) returns (rules: seq<IngressDef>)
      requires cn.spec.services.Some?
      ensures Wants(rules, IngressRules(FlagsOf(cn.spec)), cn.spec.domain)
    {
      var flags, domain := cn.spec.services.value, cn.spec.domain;
      rules := [IngressDef(Ninegate, "ninegate." + domain, Tls(Ninegate)), IngressDef(Dex, "dex." + domain, Tls(Dex)),
                IngressDef(Rustfs, "rustfs." + domain, Tls(Rustfs)),
                    IngressDef(RustfsApi, "s3." + domain, Tls(Rustfs))];
      ghost var acts := [On(IngressFor(Ninegate)), On(IngressFor(Dex)), On(IngressFor(Rustfs)),
          On(IngressFor(RustfsApi))];
      RuleTexts(domain);
      hide IngressHost, AppName, HostOf, S3Host;
      assert Wants(rules, acts, domain);
      hide Wants;
      WantsMore(rules, acts, domain, flags.nextcloud, Nextcloud, "nextcloud." + domain);
      if flags.nextcloud { rules := rules + [IngressDef(Nextcloud, "nextcloud." + domain, Tls(Nextcloud))]; }
      acts := acts + If(flags.nextcloud, [On(IngressFor(Nextcloud))]);
      WantsMore(rules, acts, domain, flags.wordpress, Wordpress, "wordpress." + domain);
      if flags.wordpress { rules := rules + [IngressDef(Wordpress, "wordpress." + domain, Tls(Wordpress))]; }
      acts := acts + If(flags.wordpress, [On(IngressFor(Wordpress))]);
      WantsMore(rules, acts, domain, flags.dolibarr, Dolibarr, "dolibarr." + domain);
      if flags.dolibarr { rules := rules + [IngressDef(Dolibarr, "dolibarr." + domain, Tls(Dolibarr))]; }
      acts := acts + If(flags.dolibarr, [On(IngressFor(Dolibarr))]);
      assert acts == IngressRules(FlagsOf(cn.spec));
    }

    /** The collected rules are those the actions ask for. */
    ghost predicate Wants(rules: seq<IngressDef>, acts: seq<Action>, domain: string) {
      && |rules| == |acts|
      && forall i | 0 <= i < |rules| ::
           && acts[i] == On(IngressFor(rules[i].app))
           && rules[i].host == IngressHost(rules[i].app, domain) && rules[i].tls == IngressTls(rules[i].app)
    }

    lemma WantsMore(rules: seq<IngressDef>, acts: seq<Action>, domain: string, more: bool, app: App, host: string)
      requires Wants(rules, acts, domain) && app != RustfsApi && host == IngressHost(app, domain)
      ensures Wants(if more then rules + [IngressDef(app, host, Tls(app))] else rules,
                    acts + If(more, [On(IngressFor(app))]), domain)
    {
      hide IngressHost;
    }

    lemma RuleTexts(domain: string)
      ensures IngressHost(Ninegate, domain) == "ninegate." + domain && IngressHost(Dex, domain) == "dex." + domain
      ensures IngressHost(Rustfs, domain) == "rustfs." + domain && IngressHost(RustfsApi, domain) == "s3." + domain
      ensures IngressHost(Nextcloud, domain) == "nextcloud." + domain
      ensures IngressHost(Wordpress, domain) == "wordpress." + domain
      ensures IngressHost(Dolibarr, domain) == "dolibarr." + domain
    {
      assert "ninegate" + "." == "ninegate." && "dex" + "." == "dex." && "rustfs" + "." == "rustfs.";
      assert "nextcloud" + "." == "nextcloud." && "wordpress" + "." == "wordpress." && "dolibarr" + "." == "dolibarr.";
    }

    method EnsureIngresses(env: Api.Env, cn: ClientNamespace, ghost r: Run, ns: string) returns (e: Option<Err>)
      requires At(r, cn) && ns == NsName(api.me) && cn.spec.services.Some?
      modifies api
      ensures Did(r, env, IngressRules(FlagsOf(cn.spec)) + [EnsureRoute], api.World(), e)
    {
      hide Exec, RunAll, IngressRules, IngressHost, IngressTls;
      var rules := CollectIngresses(cn);
      ghost var acts := IngressRules(FlagsOf(cn.spec));
      Chain(r, env, acts, [EnsureRoute]);
      NoActions(r, env, acts);
      for i := 0 to |rules|
        invariant RunAll(r, env, acts[..i]) == r.(w := api.World())
      {
        StepAt(r, env, acts, i);
        var app := rules[i].app;
        e := EnsurePlain(env, cn, r.(w := api.World()), ns, IngressFor(app),
                         HostRule(rules[i].host, rules[i].tls, Service(app)));
        if e.Some? {
          return;
        }
      }
      assert acts[..|rules|] == acts;
      assert RunAll(r, env, acts) == r.(w := api.World());
      e := EnsureGlauthIngressRouteTCP(env, cn, r.(w := api.World()), ns);
    }

    method EnsureNetworkPolicies(env: Api.Env, cn: ClientNamespace, ghost r: Run, ns: string) returns (e: Option<Err>)
      requires At(r, cn) && ns == NsName(api.me)
      modifies api
      ensures Did(r, env, [On(EgressPolicy), On(IngressPolicy)], api.World(), e)
    {
      hide Exec;
      Chain(r, env, [On(EgressPolicy)], [On(IngressPolicy)]);
      e := EnsurePlain(env, cn, r, ns, EgressPolicy, AllowAll(true));
      if e.Some? { return; }
      e := EnsurePlain(env, cn, r.(w := api.World()), ns, IngressPolicy, AllowAll(false));
    }

    // ---- Status edits ---------------------------------------------------------------

    /** Scan the list; overwrite the first entry with this name, or append one. */
    method UpdateServiceStatus(cn: ClientNamespace, name: string, ready: bool, message: Option<Err>)
      modifies cn`services
      ensures cn.services == Upsert(old(cn.services), name, ready, message)
    {
      for i := 0 to |cn.services|
        invariant cn.services == old(cn.services)
        invariant forall j | 0 <= j < i :: cn.services[j].name != name
      {
        if cn.services[i].name == name {
          assert IndexOf(cn.services, name) == i;
          cn.services := cn.services[i := cn.services[i].(ready := ready, message := message)];
          return;
        }
      }
      assert IndexOf(cn.services, name) == |cn.services|;
      cn.services := cn.services + [ServiceStatus(name, ready, message)];
    }

    /** Record a failure: update the first Ready condition or append one, then write the status, ignoring errors. */
    method SetFailed(env: Api.Env, cn: ClientNamespace, reason: string, error: Err)
      modifies api, cn
      ensures api.World() == Pipeline.SetFailed(old(api.World()), old(cn.Snapshot()), env, reason, error)
    {
      hide DistinctConditionTypes, Api.StatusUpdate;
      ghost var before := cn.Snapshot();
      cn.phase := Phase.Failed;
      var found := false;
      var i := 0;
      while i < |cn.conditions| && !found
        invariant 0 <= i <= |cn.conditions| && api.World() == old(api.World())
        invariant cn.Snapshot() == before.(status := before.status.(phase := Phase.Failed, conditions := cn.conditions))
        invariant !found ==> cn.conditions == before.status.conditions && forall j | 0 <= j < i ::
                  cn.conditions[j].ctype != "Ready"
        invariant found ==> cn.conditions == FailedConditions(before.status.conditions, reason, error)
        decreases |cn.conditions| - i, !found
      {
        if cn.conditions[i].ctype == "Ready" {
          assert IndexOfReady(cn.conditions) == i;
          cn.conditions := cn.conditions[i := Condition("Ready", false, reason, Some(error))];
          found := true;
        } else {
          i := i + 1;
        }
      }
      if !found {
        assert IndexOfReady(cn.conditions) == |cn.conditions|;
        cn.conditions := cn.conditions + [Condition("Ready", false, reason, Some(error))];
      }
      assert cn.Snapshot() == before.(status := FailedStatus(before.status, reason, error));
      var _ := api.StatusUpdate(env, Api.FailedWrite, cn);
    }

    // ---- The reconcile run ------------------------------------------------------------

    /** The run `r` is now in the state of the API server and the in-memory resource, ending with error `e`. */
    ghost predicate Reflects(r: Run, cn: ClientNamespace, e: Option<Err>)
      reads api, cn
    {
      r.w == api.World() && r.cn == cn.Snapshot() && cn.name == api.me && r.out == OutcomeOf(e)
    }

    method RunNamespaceStage(env: Api.Env, cn: ClientNamespace, ghost r: Run) returns (e: Option<Err>, ghost r': Run)
      requires At(r, cn)
      modifies api, cn
      ensures r' == RunAll(r, env, NamespaceStage()) && Reflects(r', cn, e)
      ensures r'.blame == Blame("NamespaceFailed", None)
      ensures e.None? ==> cn.namespace == NsName(api.me)
    {
      ghost var enter, rest := [Enter(Blame("NamespaceFailed", None))], [On(TheNamespace)];
      Chain(r, env, enter, rest + [SetNamespace]);
      assert enter + (rest + [SetNamespace]) == NamespaceStage();
      One(r, env, enter[0]);
      ghost var r1 := r.(blame := Blame("NamespaceFailed", None));
      Chain(r1, env, rest, [SetNamespace]);
      var nsName := cn.name + "-ns";
      e := EnsureNamespace(env, cn, r1, nsName);
      r' := r1.(w := api.World(), out := OutcomeOf(e));
      if e.None? {
        One(r', env, SetNamespace);
        cn.namespace := nsName;
        r' := r'.(cn := cn.Snapshot());
      }
    }

    method RunAdminStage(env: Api.Env, cn: ClientNamespace, ghost r: Run) returns (e: Option<Err>, ghost r': Run)
      requires At(r, cn)
      modifies api, cn
      ensures r' == RunAll(r, env, AdminStage(cn.spec)) && Reflects(r', cn, e)
      ensures r'.blame == Blame("AdminCredentialsFailed", None)
      ensures cn.namespace == old(cn.namespace)
    {
      ghost var enter, rest := [Enter(Blame("AdminCredentialsFailed", None))], AdminActions(cn.spec);
      Chain(r, env, enter, rest + [SetAdminSecretName]);
      One(r, env, enter[0]);
      ghost var r1 := r.(blame := Blame("AdminCredentialsFailed", None));
      Chain(r1, env, rest, [SetAdminSecretName]);
      e := EnsureAdminCredentials(env, cn, r1, NsName(cn.name));
      r' := r1.(w := api.World(), out := OutcomeOf(e));
      if e.None? {
        One(r', env, SetAdminSecretName);
        cn.adminSecretName := "admin-credentials";
        r' := r'.(cn := cn.Snapshot());
      }
    }

    /** The two root passwords, each read or generated once and reused. */
    method ReadPasswordsOnce(env: Api.Env, cn: ClientNamespace, ghost r: Run)
      returns (pgPass: string, rustfsPass: string, ghost r': Run)
      requires At(r, cn)
      modifies api
      ensures r' == RunAll(r, env, [Enter(Blame("RootSecretsFailed", None)), ReadPasswords]) && Reflects(r', cn, None)
      ensures r'.blame == Blame("RootSecretsFailed", None) && r'.loc.pg == pgPass && r'.loc.s3 == rustfsPass
    {
      ghost var enter := [Enter(Blame("RootSecretsFailed", None))];
      Chain(r, env, enter, [ReadPasswords]);
      assert enter + [ReadPasswords] == [enter[0], ReadPasswords];
      One(r, env, enter[0]);
      ghost var r1 := r.(blame := Blame("RootSecretsFailed", None));
      One(r1, env, ReadPasswords);
      var ns := NsName(cn.name);
      var storage := cn.spec.storage;
      pgPass := GetOrCreatePassword(env, ns, PostgresSecret, PostgresPassword, storage, "postgresRootPassword",
          Api.ForPostgres);
      rustfsPass := GetOrCreatePassword(env, ns, RustfsSecret, RustfsPassword, storage, "rustfsRootPassword",
          Api.ForRustfs);
      r' := r1.(w := api.World(), loc := r1.loc.(pg := pgPass, s3 := rustfsPass));
    }

    method RunRootStage(env: Api.Env, cn: ClientNamespace, ghost r: Run)
      returns (e: Option<Err>, pgPass: string, rustfsPass: string, ghost r': Run)
      requires At(r, cn)
      modifies api
      ensures r' == RunAll(r, env, RootStage()) && Reflects(r', cn, e)
      ensures r'.blame == Blame("RootSecretsFailed", None) && r'.loc.pg == pgPass && r'.loc.s3 == rustfsPass
    {
      hide Exec;
      Chain(r, env, [Enter(Blame("RootSecretsFailed", None)), ReadPasswords], [On(PostgresSecret), On(RustfsSecret)]);
      pgPass, rustfsPass, r' := ReadPasswordsOnce(env, cn, r);
      ghost var r1 := r';
      e := EnsureRootSecrets(env, cn, r1, NsName(cn.name), pgPass, rustfsPass);
      r' := r1.(w := api.World(), out := OutcomeOf(e));
    }

    method RunNinegateStage(env: Api.Env, cn: ClientNamespace, ghost r: Run, pgPass: string, rustfsPass: string)
      returns (e: Option<Err>, ghost r': Run)
      requires At(r, cn) && r.loc.pg == pgPass && r.loc.s3 == rustfsPass
      modifies api
      ensures r' == RunAll(r, env, NinegateStage()) && Reflects(r', cn, e)
      ensures r'.blame == Blame("NinegateSecretFailed", None)
    {
      ghost var enter := [Enter(Blame("NinegateSecretFailed", None))];
      Chain(r, env, enter, [On(NinegateSecret)]);
      assert enter + [On(NinegateSecret)] == NinegateStage();
      One(r, env, enter[0]);
      ghost var r1 := r.(blame := Blame("NinegateSecretFailed", None));
      e := EnsureNinegateSecret(env, cn, r1, NsName(cn.name), pgPass, rustfsPass);
      r' := r1.(w := api.World(), out := OutcomeOf(e));
    }

    method RunCaStage(env: Api.Env, cn: ClientNamespace, ghost r: Run) returns (e: Option<Err>, ghost r': Run)
      requires At(r, cn)
      modifies api
      ensures r' == RunAll(r, env, CaStage()) && Reflects(r', cn, e)
      ensures r'.blame == Blame("CAFailed", None)
    {
      ghost var enter := [Enter(Blame("CAFailed", None))];
      Chain(r, env, enter, [On(CaSecret)]);
      assert enter + [On(CaSecret)] == CaStage();
      One(r, env, enter[0]);
      ghost var r1 := r.(blame := Blame("CAFailed", None));
      e := EnsureCA(env, cn, r1, NsName(cn.name));
      r' := r1.(w := api.World(), out := OutcomeOf(e));
    }

    /** Namespace, admin credentials, root secrets, Ninegate secret, CA: stops at the first error. */
    method RunSecrets(env: Api.Env, cn: ClientNamespace, ghost r: Run)
        returns (e: Option<Err>, reason: string, ghost r': Run)
      requires At(r, cn)
      modifies api, cn
      ensures r' == RunAll(r, env, SecretActions(cn.spec)) && Reflects(r', cn, e)
      ensures e.Some? ==> r'.blame == Blame(reason, None)
      ensures e.None? ==> cn.namespace == NsName(api.me)
    {
      hide Exec, RunAll, NamespaceStage, AdminStage, RootStage, NinegateStage, CaStage;
      ghost var tail4 := NinegateStage() + CaStage();
      ghost var tail3 := RootStage() + tail4;
      ghost var tail2 := AdminStage(cn.spec) + tail3;
      Chain(r, env, NamespaceStage(), tail2);
      e, r' := RunNamespaceStage(env, cn, r);
      if e.Some? { reason := "NamespaceFailed"; return; }
      Chain(r', env, AdminStage(cn.spec), tail3);
      e, r' := RunAdminStage(env, cn, r');
      if e.Some? { reason := "AdminCredentialsFailed"; return; }
      Chain(r', env, RootStage(), tail4);
      var pgPass, rustfsPass;
      e, pgPass, rustfsPass, r' := RunRootStage(env, cn, r');
      if e.Some? { reason := "RootSecretsFailed"; return; }
      Chain(r', env, NinegateStage(), CaStage());
      e, r' := RunNinegateStage(env, cn, r', pgPass, rustfsPass);
      if e.Some? { reason := "NinegateSecretFailed"; return; }
      e, r' := RunCaStage(env, cn, r');
      reason := "CAFailed";
    }

    method RunCertStage(env: Api.Env, cn: ClientNamespace, ghost r: Run)
      returns (e: Option<Err>, panicked: bool, ghost r': Run)
      requires At(r, cn)
      modifies api
      ensures r' == RunAll(r, env, CertStage(cn.spec))
      ensures r'.w == api.World() && r'.cn == cn.Snapshot() && r'.out == if panicked then Panicked else OutcomeOf(e)
      ensures r'.blame == Blame("CertFailed", None)
      ensures e.None? && !panicked ==> cn.spec.services.Some?
    {
      ghost var enter := [Enter(Blame("CertFailed", None))];
      Chain(r, env, enter, [LoadCa, NeedServices] + CertActions(FlagsOf(cn.spec)));
      One(r, env, enter[0]);
      ghost var r1 := r.(blame := Blame("CertFailed", None));
      ghost var ca;
      e, panicked, ca := EnsureServiceCerts(env, cn, r1, NsName(cn.name));
      r' := RunAll(r1, env, [LoadCa, NeedServices] + CertActions(FlagsOf(cn.spec)));
    }

    /** One turn of the service loop: on success the service is marked ready. */
    method RunServiceStage(i: nat, env: Api.Env, cn: ClientNamespace, ghost r: Run)
        returns (e: Option<Err>, ghost r': Run)
      requires i < SERVICE_COUNT && At(r, cn) && cn.namespace == NsName(api.me)
      modifies api, cn`services
      ensures r' == RunAll(r, env, ServiceStage(i, FlagsOf(cn.spec))) && Reflects(r', cn, e)
      ensures r'.blame == ServiceBlame(i)
    {
      hide ServiceActions;
      ghost var enter, acts := [Enter(ServiceBlame(i))], ServiceActions(i, FlagsOf(cn.spec));
      Chain(r, env, enter + acts, [ServiceDone(i)]);
      Chain(r, env, enter, acts);
      One(r, env, enter[0]);
      ghost var r1 := r.(blame := ServiceBlame(i));
      e := ReconcileService(i, env, cn, r1);
      r' := r1.(w := api.World(), out := OutcomeOf(e));
      if e.None? {
        One(r', env, ServiceDone(i));
        UpdateServiceStatus(cn, ServiceName(i), true, None);
        r' := r'.(cn := cn.Snapshot());
      }
    }

    /** The service loop. */
    method RunServices(env: Api.Env, cn: ClientNamespace, ghost r: Run)
        returns (e: Option<Err>, failed: nat, ghost r': Run)
      requires At(r, cn) && cn.namespace == NsName(api.me)
      modifies api, cn`services
      ensures r' == RunAll(r, env, ServiceStages(SERVICE_COUNT, FlagsOf(cn.spec))) && Reflects(r', cn, e)
      ensures e.Some? ==> r'.blame == ServiceBlame(failed)
    {
      hide Exec, ServiceStage;
      ghost var f := FlagsOf(cn.spec);
      r' := r;
      for i := 0 to SERVICE_COUNT
        invariant r' == RunAll(r, env, ServiceStages(i, f)) && At(r', cn) && cn.namespace == NsName(api.me)
      {
        Chain(r, env, ServiceStages(i, f), ServiceStage(i, f));
        e, r' := RunServiceStage(i, env, cn, r');
        if e.Some? {
          StagesStick(r, env, i + 1, f);
          return e, i, r';
        }
      }
      e := None;
      failed := 0;
    }

    method RunNetwork(env: Api.Env, cn: ClientNamespace, ghost r: Run)
        returns (e: Option<Err>, reason: string, ghost r': Run)
      requires At(r, cn) && cn.namespace == NsName(api.me) && cn.spec.services.Some?
      modifies api
      ensures r' == RunAll(r, env, IngressActions(FlagsOf(cn.spec)) + PolicyActions()) && Reflects(r', cn, e)
      ensures e.Some? ==> r'.blame == Blame(reason, None)
    {
      ghost var f := FlagsOf(cn.spec);
      var ns := cn.namespace;
      Chain(r, env, IngressActions(f), PolicyActions());
      e, r' := RunIngresses(env, cn, r, ns);
      if e.Some? { reason := "IngressFailed"; return; }
      ghost var enter := [Enter(Blame("NetworkPolicyFailed", None))];
      Chain(r', env, enter, [On(EgressPolicy), On(IngressPolicy)]);
      One(r', env, enter[0]);
      ghost var r1 := r'.(blame := Blame("NetworkPolicyFailed", None));
      e := EnsureNetworkPolicies(env, cn, r1, ns);
      r' := r1.(w := api.World(), out := OutcomeOf(e));
      reason := "NetworkPolicyFailed";
    }

    method RunIngresses(env: Api.Env, cn: ClientNamespace, ghost r: Run, ns: string)
        returns (e: Option<Err>, ghost r': Run)
      requires At(r, cn) && ns == NsName(api.me) && cn.spec.services.Some?
      modifies api
      ensures r' == RunAll(r, env, IngressActions(FlagsOf(cn.spec))) && Reflects(r', cn, e)
      ensures r'.blame == Blame("IngressFailed", None)
    {
      ghost var enter := [Enter(Blame("IngressFailed", None))];
      Chain(r, env, enter, IngressRules(FlagsOf(cn.spec)) + [EnsureRoute]);
      One(r, env, enter[0]);
      ghost var r1 := r.(blame := Blame("IngressFailed", None));
      e := EnsureIngresses(env, cn, r1, ns);
      r' := r1.(w := api.World(), out := OutcomeOf(e));
    }

    /** A failing service is reported in its own status write before the run is marked failed. */
    method FailService(env: Api.Env, cn: ClientNamespace, i: nat, error: Err)
      modifies api, cn
      ensures api.World() ==
              (var (w1, cn1) := ReportService(old(api.World()), old(cn.Snapshot()), env, i, error);
               Pipeline.SetFailed(w1, cn1, env, ServiceName(i) + "Failed", error))
    {
      var svcName := ServiceName(i);
      UpdateServiceStatus(cn, svcName, false, Some(error));
      var _ := api.StatusUpdate(env, Api.ServiceWrite, cn);
      SetFailed(env, cn, svcName + "Failed", error);
    }

    method MarkReady(env: Api.Env, cn: ClientNamespace)
      modifies api, cn
      ensures api.World() ==
              Api.StatusUpdate(old(api.World()), env, Api.ReadyWrite,
                           old(cn.Snapshot()).(status := ReadyStatus(old(cn.Snapshot()).status, cn.spec))).0
    {
      cn.phase := Phase.Ready;
      cn.endpoint := "https://" + cn.spec.domain;
      cn.conditions := cn.conditions + [Condition("Ready", true, "Provisioned", None)];
      var _ := api.StatusUpdate(env, Api.ReadyWrite, cn);
    }

    /** The provisioning part of a run: every action in order, the first failure recorded, success marked ready. */
    method Provision(env: Api.Env, cn: ClientNamespace)
      requires cn.name == api.me
      modifies api, cn
      ensures api.World() == Finish(RunAll(Start(old(api.World()), old(cn.Snapshot())), env, Actions(cn.spec)), env)
    {
      hide Exec, RunAll, SecretActions, CertStage, ServiceStages, IngressActions, PolicyActions;
      ghost var r := Start(api.World(), cn.Snapshot());
      ghost var f := FlagsOf(cn.spec);
      ghost var network := IngressActions(f) + PolicyActions();
      Chain(r, env, SecretActions(cn.spec), CertStage(cn.spec) + LateActions(f));
      var e, reason, r1 := RunSecrets(env, cn, r);
      if e.Some? {
        SetFailed(env, cn, reason, e.value);
        return;
      }
      Chain(r1, env, CertStage(cn.spec), LateActions(f));
      var panicked;
      ghost var r2;
      e, panicked, r2 := RunCertStage(env, cn, r1);
      if panicked {
        return;
      }
      if e.Some? {
        SetFailed(env, cn, "CertFailed", e.value);
        return;
      }
      Chain(r2, env, ServiceStages(SERVICE_COUNT, f), network);
      var failed;
      ghost var r3;
      e, failed, r3 := RunServices(env, cn, r2);
      if e.Some? {
        FailService(env, cn, failed, e.value);
        return;
      }
      ghost var r4;
      e, reason, r4 := RunNetwork(env, cn, r3);
      if e.Some? {
        SetFailed(env, cn, reason, e.value);
        return;
      }
      MarkReady(env, cn);
    }

    method ProvisionFromPhase(env: Api.Env, cn: ClientNamespace)
      requires cn.name == api.me
      modifies api, cn
      ensures api.World() == ProvisionPhase(old(api.World()), env, old(cn.Snapshot()))
    {
      hide RunAll, Finish, Actions;
      if cn.phase == Phase.Ready {
        return;
      }
      if cn.phase == NoPhase || cn.phase == Pending {
        cn.phase := Provisioning;
        var e := api.StatusUpdate(env, Api.ProvisioningWrite, cn);
        if e.Some? {
          return;
        }
      }
      Provision(env, cn);
    }

    // ---- Deletion -------------------------------------------------------------------

    /** Services have nothing of their own to clean up. */
    method CleanupService(i: nat) returns (e: Option<Err>)
      requires i < SERVICE_COUNT
      ensures e.None?
    {
      return None;
    }

    /** Delete what a list returns; errors of the list and of the deletes are ignored. */
    method DeleteListed(env: Api.Env, kind: Kind)
      modifies api
      ensures api.World() == SweepKind(old(api.World()), env, kind)
    {
      hide Api.List, Api.Delete;
      var items := api.List(env, kind);
      if items.None? {
        return;
      }
      ghost var w := api.World();
      var keys := items.value;
      assert keys[0..] == keys;
      for i := 0 to |keys|
        invariant DeleteEach(w, env, keys) == DeleteEach(api.World(), env, keys[i..])
      {
        assert keys[i..][0] == keys[i] && keys[i..][1..] == keys[i + 1..];
        var _ := api.Delete(env, Api.Deleting(keys[i]), keys[i]);
      }
      assert keys[|keys|..] == [];
    }

    method CleanupClientResources(env: Api.Env)
      modifies api
      ensures api.World() == Sweep(old(api.World()), env, SWEPT)
    {
      hide SweepKind;
      SweepSix(api.World(), env);
      DeleteListed(env, Secrets);
      DeleteListed(env, ConfigMaps);
      DeleteListed(env, Deployments);
      DeleteListed(env, StatefulSets);
      DeleteListed(env, Services);
      DeleteListed(env, Volumes);
    }

    /** Sweep the labelled objects, drop the namespace, let go of the resource. */
    method ReconcileDelete(env: Api.Env, cn: ClientNamespace)
      requires cn.name == api.me
      modifies api, cn
      ensures api.World() == DeletePhase(old(api.World()), env, old(cn.Snapshot()))
    {
      hide Sweep, Api.Delete, Api.Get, Api.MetaUpdate;
      for i := SERVICE_COUNT downto 0
        invariant api.World() == old(api.World()) && cn.Snapshot() == old(cn.Snapshot())
      {
        var e := CleanupService(i);
        if e.Some? {
          return;
        }
      }
      CleanupClientResources(env);
      var nsName := NsName(cn.name);
      var ns := Key(nsName, TheNamespace);
      ghost var w1 := api.World();
      assert w1.me == api.me;
      var g := api.Get(env, Api.NamespaceRead, ns);
      if g.Found? && LabelValue(g.obj, ClientLabel) == cn.name {
        var e := api.Delete(env, Api.NamespaceDelete, ns);
        if e.Some? && e.value != NotFound {
          return;
        }
      }
      ghost var w2 := api.World();
      assert (w2, None) == DropNamespace(w1, env);
      cn.finalizers := cn.finalizers - {FINALIZER};
      var _ := api.Update(env, Api.FinalizerRemove, cn);
    }

    /** One reconcile run. */
    method Reconcile(env: Api.Env)
      requires api.cr.Some? ==> api.cr.value.name == api.me
      modifies api
      ensures api.World() == ReconcileAny(old(api.World()), env)
    {
      hide ProvisionPhase, DeletePhase;
      var got := api.Fetch(env);
      if got.Fail? {
        return;
      }
      var cn := new ClientNamespace(got.value);
      if cn.deleting {
        ReconcileDelete(env, cn);
        return;
      }
      if FINALIZER !in cn.finalizers {
        cn.finalizers := cn.finalizers + {FINALIZER};
        var e := api.Update(env, Api.FinalizerAdd, cn);
        if e.Some? {
          return;
        }
      }
      ProvisionFromPhase(env, cn);
    }
  }
}
