/** What the stored objects of a history say, word for word, in terms of the spec that the run that made them read. */
module Written {
  import opened Objects
  import opened Api
  import opened Passwords
  import opened DomainDn
  import opened InitScript
  import opened Contents
  import opened Pipeline
  import opened Runs
  import opened Histories
  import opened Prefix
  import opened Invariants
  import opened CleanRuns
  import opened Agreement
  import opened Closure
  import opened Deletion
  import opened Births
  import opened Origins

  // ---- From the stored object to its maker ---------------------------------------------------------------

  /** The spec the run that made the object read. */
  function SpecOf(w0: World, steps: seq<Step>, id: Id): Spec
    requires Before(w0, steps, id).cr.Some?
  {
    Before(w0, steps, id).cr.value.spec
  }

  /** A stored object is what its maker built, for the client and for the spec it read. */
  lemma MadeOf(w0: World, steps: seq<Step>, id: Id) returns (wb: World, cn: CR, loc: Locals, place: Place)
    requires Fresh(w0) && Has(Mine(Play(w0, steps)), w0.me, id) && id != LdapsRoute
    ensures var w, env := Before(w0, steps, id), Maker(w0, steps, id);
            && w.cr.Some? && cn.spec == w.cr.value.spec && cn.name == w0.me
            && Build(wb, cn, loc, env, id, place).1 == Ok(Mine(Play(w0, steps))[In(w0.me, id)])
            && wb.alive && wb.me == w0.me && Ensure(id, place) in Actions(cn.spec)
  {
    hide Play, Reconcile, RunAll, Actions, Build, Mine, Makes, BirthStep;
    Born(w0, steps, id);
    var w, env := Before(w0, steps, id), Maker(w0, steps, id);
    MakesMeans(w, env, id);
    var r := MakerRun(w, env, id);
    wb, cn, loc, place := BuiltInRun(r, env, Actions(w.cr.value.spec), id);
  }

  /** The same for objects that depend on nothing but the resource, the run's locals and the map order. */
  predicate IsPlain(id: Id) {
    id !in {AdminCredentials, NinegateSecret, CaSecret, GlauthConfig, DexConfig} && !id.Tls?
  }

  lemma PlainOf(w0: World, steps: seq<Step>, id: Id) returns (cn: CR, loc: Locals)
    requires Fresh(w0) && Has(Mine(Play(w0, steps)), w0.me, id) && id != LdapsRoute && IsPlain(id)
    ensures var w, env := Before(w0, steps, id), Maker(w0, steps, id);
            && w.cr.Some? && cn.spec == w.cr.value.spec && cn.name == w0.me
            && PayloadOf(Mine(Play(w0, steps)), w0.me, id) == PlainPayload(cn, loc, env, id)
  {
    hide Play, Mine, BirthStep, Before, Maker, Actions, PlainPayload, LabelsFor;
    var wb, place;
    wb, cn, loc, place := MadeOf(w0, steps, id);
  }

  /** The route, which has a step of its own. */
  lemma {:induction false} RouteInRun(r: Run, env: Env, acts: seq<Action>) returns (cn: CR, loc: Locals)
    requires !Has(Mine(r.w), r.w.me, LdapsRoute) && Has(Mine(RunAll(r, env, acts).w), r.w.me, LdapsRoute)
    requires forall a | a in acts && a.Ensure? :: a.id != LdapsRoute
    ensures cn.spec == r.cn.spec && cn.name == r.cn.name
    ensures Mine(RunAll(r, env, acts).w)[K(r.w, LdapsRoute)] == RouteObject(cn, loc, env)
    decreases |acts|
  {
    hide Exec, Mine, RouteObject;
    NotYet(r, env, acts, LdapsRoute);
    var a := acts[0];
    var r1 := Exec(r, env, a);
    assert RunAll(r, env, acts) == RunAll(r1, env, acts[1..]);
    ExecFacts(r, env, a);
    Frame(r1, env, acts[1..]);
    hide RunAll;
    if K(r.w, LdapsRoute) in Mine(r1.w) {
      assert a in acts;
      cn, loc := r.cn, r.loc;
      RouteNow(r, env, a);
    } else {
      cn, loc := RouteInRun(r1, env, acts[1..]);
    }
  }

  lemma RouteNow(r: Run, env: Env, a: Action)
    requires !Has(Mine(r.w), r.w.me, LdapsRoute) && Has(Mine(Exec(r, env, a).w), r.w.me, LdapsRoute)
    requires a.Ensure? ==> a.id != LdapsRoute
    ensures Mine(Exec(r, env, a).w)[K(r.w, LdapsRoute)] == RouteObject(r.cn, r.loc, env)
  {
    ExecFacts(r, env, a);
    hide EnsureLdapsRoute, EnsureObject, Mine, RouteObject;
    RouteFacts(r.w, r.cn, r.loc, env);
  }

  lemma RouteOf(w0: World, steps: seq<Step>) returns (cn: CR, loc: Locals)
    requires Fresh(w0) && Has(Mine(Play(w0, steps)), w0.me, LdapsRoute)
    ensures var w, env := Before(w0, steps, LdapsRoute), Maker(w0, steps, LdapsRoute);
            && w.cr.Some? && cn.spec == w.cr.value.spec && cn.name == w0.me
            && Mine(Play(w0, steps))[In(w0.me, LdapsRoute)] == RouteObject(cn, loc, env)
  {
    hide Play, Reconcile, RunAll, Mine, Makes, BirthStep, SecretActions, CertStage, LateActions, RouteObject;
    Born(w0, steps, LdapsRoute);
    var w, env := Before(w0, steps, LdapsRoute), Maker(w0, steps, LdapsRoute);
    MakesMeans(w, env, LdapsRoute);
    var r := MakerRun(w, env, LdapsRoute);
    NobodyEnsuresRoute(w.cr.value.spec);
    cn, loc := RouteInRun(r, env, Actions(w.cr.value.spec));
  }

  lemma NobodyEnsuresRoute(spec: Spec)
    ensures forall a | a in Actions(spec) && a.Ensure? :: a.id != LdapsRoute
  {
    hide SecretActions, CertStage, ServiceStages, IngressRules, PolicyActions;
    var f := FlagsOf(spec);
    var have := {TheNamespace, PostgresSecret};
    SecretsAvoidRoute(spec);
    CertsAvoidRoute(spec);
    LateSplits(f);
    StagesFeasible(SERVICE_COUNT, f, have);
    RulesFeasible(f, have);
  }

  // ---- Labels -----------------------------------------------------------------------------------------------

  /** The service whose name the application label gives, in start-up order. */
  const LABELLED: seq<string> := ["postgresql", "redis", "rustfs", "ninegate", "glauth", "dex"]

  lemma LabelsOf(w0: World, steps: seq<Step>, id: Id) returns (place: Place)
    requires Fresh(w0) && Has(Mine(Play(w0, steps)), w0.me, id)
    ensures Mine(Play(w0, steps))[In(w0.me, id)].labels == LabelsFor(w0.me, id, place)
    ensures place == Pipeline || (place == Fallback && id.Tls?)
  {
    hide Play, Mine, BirthStep, Before, Maker, Actions, LabelsFor, BuildPayload, PlainPayload;
    if id == LdapsRoute {
      var cn, loc := RouteOf(w0, steps);
      place := Pipeline;
    } else {
      var wb, cn, loc;
      wb, cn, loc, place := MadeOf(w0, steps, id);
      PlacesOf(cn.spec);
    }
  }

  /** Every stored object of a history carries the three labels of its client. Besides, exactly the objects of the
      services and the Ninegate secret carry an application label, and it names their service. */
  lemma EveryObjectIsLabelled(w0: World, steps: seq<Step>, id: Id)
    requires Fresh(w0) && Has(Mine(Play(w0, steps)), w0.me, id)
    ensures Carries(Mine(Play(w0, steps))[In(w0.me, id)].labels, w0.me)
    ensures !id.Tls? ==>
              var labels := Mine(Play(w0, steps))[In(w0.me, id)].labels;
              && (forall i | 0 <= i < SERVICE_COUNT && id in Members(i) ::
                 AppLabel in labels && labels[AppLabel] == LABELLED[i])
              && (id == NinegateSecret ==> AppLabel in labels && labels[AppLabel] == "ninegate")
              && (AppLabel in labels && !id.Deployment? && !id.Service? ==>
                    id == NinegateSecret || exists i :: 0 <= i < SERVICE_COUNT && id in Members(i))
  {
    hide Play, Mine;
    var place := LabelsOf(w0, steps, id);
    LabelsMatch(w0.me, id, place);
    if !id.Tls? {
      AppLabelTexts(w0.me, id);
    }
  }

  lemma AppLabelTexts(client: string, id: Id)
    requires !id.Tls?
    ensures var labels := LabelsFor(client, id, Pipeline);
            && (forall i | 0 <= i < SERVICE_COUNT && id in Members(i) ::
               AppLabel in labels && labels[AppLabel] == LABELLED[i])
            && (id == NinegateSecret ==> AppLabel in labels && labels[AppLabel] == "ninegate")
            && (AppLabel in labels && !id.Deployment? && !id.Service? ==>
                  id == NinegateSecret || exists i :: 0 <= i < SERVICE_COUNT && id in Members(i))
  {
    hide LabelsFor, Members;
    if AppLabel in LabelsFor(client, id, Pipeline) && !id.Deployment? && !id.Service? && id != NinegateSecret {
      AppLabelMeans(client, id);
    }
    forall i | 0 <= i < SERVICE_COUNT && id in Members(i)
      ensures AppLabel in LabelsFor(client, id, Pipeline) && LabelsFor(client, id, Pipeline)[AppLabel] == LABELLED[i]
    {
      MemberLabel(client, id, i);
    }
    SecretLabel(client);
  }

  lemma MemberLabel(client: string, id: Id, i: nat)
    requires i < SERVICE_COUNT && id in Members(i)
    ensures var labels := LabelsFor(client, id, Pipeline); AppLabel in labels && labels[AppLabel] == LABELLED[i]
  {
    MemberName(id, i);
    hide Members, LABELLED, AppLabelOf;
  }

  lemma MemberName(id: Id, i: nat)
    requires i < SERVICE_COUNT && id in Members(i)
    ensures AppLabelOf(id, Pipeline) == Some(LABELLED[i])
  {
    if i < 3 {
      assert i == 0 || i == 1 || i == 2;
    } else {
      assert i == 3 || i == 4 || i == 5;
    }
  }

  lemma SecretLabel(client: string)
    ensures var labels := LabelsFor(client, NinegateSecret, Pipeline);
            AppLabel in labels && labels[AppLabel] == "ninegate"
  {
  }

  lemma AppLabelMeans(client: string, id: Id)
    requires !id.Tls? && !id.Deployment? && !id.Service? && id != NinegateSecret
             && AppLabel in LabelsFor(client, id, Pipeline)
    ensures exists i :: 0 <= i < SERVICE_COUNT && id in Members(i)
  {
    assert PostgresConfig in Members(0) && PostgresSet in Members(0) && RustfsData in Members(2);
    assert Uploads in Members(3) && PublicUploads in Members(3) && GlauthConfig in Members(4)
        && DexConfig in Members(5);
  }

  /** A deletion run spares what is not labelled for the client: unless the namespace goes, every own object that lacks
      one of the three labels, or has another value for it, stays as it is, whatever the lists show. */
  lemma DeletionSparesOthers(w: World, env: Env, k: Key)
    requires w.cr.Some? && w.cr.value.deleting && k in Mine(w) && !Carries(Mine(w)[k].labels, w.me)
    requires K(w, TheNamespace) in Mine(w) ==> K(w, TheNamespace) in Mine(ReconcileAny(w, env))
    ensures k in Mine(ReconcileAny(w, env)) && Mine(ReconcileAny(w, env))[k] == Mine(w)[k]
  {
    hide ReconcileAny, Carries, LabelValue, Sweepable;
    DeletionTakesOwnOnly(w, env);
  }

  // ---- The root secrets ---------------------------------------------------------------------------------------

  /** What of the pipeline comes after the reading of the passwords. */
  function Afterwards(spec: Spec): seq<Action> { Roots() + ([On(NinegateSecret)] + AfterNinegate(spec)) }

  lemma PasswordSplit(spec: Spec)
    ensures Actions(spec) == Opening(spec) + ([ReadPasswords] + Afterwards(spec))
  {
    hide Actions, Opening, Roots, AfterNinegate;
    NinegateSplit(spec);
  }

  lemma {:induction false} NoSecondReading(spec: Spec)
    ensures ReadPasswords !in Afterwards(spec)
  {
    hide CertActions, ServiceStages, IngressRules;
    var f := FlagsOf(spec);
    CertsEnsured(f);
    StagesRead(SERVICE_COUNT, f);
    RulesRead(f);
  }

  lemma {:induction false} StagesRead(n: nat, f: ServiceFlags)
    ensures ReadPasswords !in ServiceStages(n, f)
  {
    if n > 0 {
      hide ServiceActions, ServiceBlame;
      StagesRead(n - 1, f);
      NoReadingIn(n - 1, f);
    }
  }

  lemma NoReadingIn(i: nat, f: ServiceFlags)
    ensures ReadPasswords !in ServiceActions(i, f)
  {
  }

  lemma RulesRead(f: ServiceFlags)
    ensures ReadPasswords !in IngressRules(f)
  {
  }

  /** A root secret carries the password its maker held, of which there was none stored before. */
  lemma RootMade(w: World, env: Env, root: Id)
    requires IsRoot(root) && Makes(w, env, root)
    ensures Stored(Mine(Reconcile(w, env)), w.me, root) == Held(root, w.cr.value.spec, env, "")
  {
    hide Reconcile, RunAll, Exec, Actions, Build, Held, Opening, Afterwards, WithPasswords, Mine, Avoids;
    var spec := w.cr.value.spec;
    var r := MakerRun(w, env, root);
    MakesMeans(w, env, root);
    PasswordSplit(spec);
    NoSecondReading(spec);
    OpeningAvoids(spec);
    var r1 := RunAll(r, env, Opening(spec));
    var r2 := Exec(r1, env, ReadPasswords);
    Split(r, env, Opening(spec), [ReadPasswords] + Afterwards(spec));
    Cons(r1, env, ReadPasswords, Afterwards(spec));
    Frame(r, env, Opening(spec));
    Untouched(r, env, Opening(spec), root);
    ExecFacts(r1, env, ReadPasswords);
    var wb, cn, loc, place := BuiltInRun(r2, env, Afterwards(spec), root);
    ReadStep(r1, env);
    BuiltPassword(wb, cn, loc, env, root, place);
  }

  /** The password of a root secret, in the spec's own words: the override of that secret if the spec has one, else the
      one found stored, else the one drawn for it. */
  function RootPassword(storage: Option<Storage>, postgres: bool, found: string, draw: Option<string>): string {
    match storage
    case Some(s) =>
      if postgres && s.postgresRootPassword != "" then s.postgresRootPassword
      else if !postgres && s.rustfsRootPassword != "" then s.rustfsRootPassword
      else if found != "" then found
      else OrEmpty(draw)
    case None => if found != "" then found else OrEmpty(draw)
  }

  /** What a run finds stored of a root password before it. */
  function FoundPassword(w: World, env: Env, root: Id, f: Field): string {
    if Has(Mine(w), w.me, root) && FaultAt(env, Reading(root, PasswordRead)) == Clean then Read(Mine(w), w.me, root, f)
        else ""
  }

  lemma HeldWritten(w: World, env: Env, spec: Spec)
    ensures Held(PostgresSecret, spec, env, Stored(Mine(w), w.me, PostgresSecret)) ==
            RootPassword(spec.storage, true, FoundPassword(w, env, PostgresSecret, PostgresPassword),
                NewPassword(env, ForPostgres))
    ensures Held(RustfsSecret, spec, env, Stored(Mine(w), w.me, RustfsSecret)) ==
            RootPassword(spec.storage, false, FoundPassword(w, env, RustfsSecret, RustfsPassword),
                NewPassword(env, ForRustfs))
  {
    hide NewPassword;
  }

  /** The stored root passwords, over every history: `postgresRootPassword` of the spec its maker read for the database,
      `rustfsRootPassword` for S3, and without one the password drawn for that secret. The users and the database. */
  lemma RootSecretsWritten(w0: World, steps: seq<Step>, root: Id)
    requires Fresh(w0) && IsRoot(root) && Has(Mine(Play(w0, steps)), w0.me, root)
    ensures var m, env := Mine(Play(w0, steps)), Maker(w0, steps, root);
            && Before(w0, steps, root).cr.Some?
            && var storage := SpecOf(w0, steps, root).storage;
            && (root == PostgresSecret ==>
                  && Read(m, w0.me, root, PostgresUser) == "root" && Read(m, w0.me, root, PostgresDb) == "ninegate"
                  && Read(m, w0.me, root, PostgresPassword) ==
                     RootPassword(storage, true, "", NewPassword(env, ForPostgres)))
            && (root == RustfsSecret ==>
                  && Read(m, w0.me, root, RustfsUser) == w0.me
                  && Read(m, w0.me, root, RustfsPassword) ==
                     RootPassword(storage, false, "", NewPassword(env, ForRustfs)))
  {
    hide Play, Reconcile, NewPassword, Mine, Makes, BirthStep, Before, Maker;
    Born(w0, steps, root);
    var w, env := Before(w0, steps, root), Maker(w0, steps, root);
    MakesMeans(w, env, root);
    RootMade(w, env, root);
    var cn, loc := PlainOf(w0, steps, root);
    assert Stored(Mine(Play(w0, steps)), w0.me, root) == Held(root, w.cr.value.spec, env, "");
  }

  /** A drawn password has 32 characters, an admin password 24. */
  lemma DrawnLengths(env: Env, p: Purpose)
    requires NewPassword(env, p).Some?
    ensures |NewPassword(env, p).value| == if p in {ForAdmin, ForNinegateAdmin, ForDexAdmin} then 24 else 32
  {
    GeneratedShape(DrawsFor(env, p), Length(p));
  }

  // ---- Namespace and admin credentials --------------------------------------------------------------------------

  lemma NamespaceWritten(w0: World, steps: seq<Step>)
    requires Fresh(w0) && Has(Mine(Play(w0, steps)), w0.me, TheNamespace)
    ensures Before(w0, steps, TheNamespace).cr.Some?
    ensures var spec := SpecOf(w0, steps, TheNamespace);
            PayloadOf(Mine(Play(w0, steps)), w0.me, TheNamespace) == NamespaceMeta(spec.domain, spec.plan, spec.email)
  {
    hide Play, Mine, BirthStep, Before, Maker;
    var cn, loc := PlainOf(w0, steps, TheNamespace);
  }

  lemma AdminWritten(w0: World, steps: seq<Step>)
    requires Fresh(w0) && Has(Mine(Play(w0, steps)), w0.me, AdminCredentials)
    ensures Before(w0, steps, AdminCredentials).cr.Some?
    ensures var m, spec := Mine(Play(w0, steps)), SpecOf(w0, steps, AdminCredentials);
            && Read(m, w0.me, AdminCredentials, Username) == spec.username
            && Read(m, w0.me, AdminCredentials, Email) == spec.email
            && |Read(m, w0.me, AdminCredentials, AdminPassword)| == 24
            && !spec.passwordSecretRef
  {
    hide Play, Mine, BirthStep, Before, Maker, NewPassword, Actions, LabelsFor, Avoids;
    var wb, cn, loc, place := MadeOf(w0, steps, AdminCredentials);
    AdminBorn(w0, steps);
    DrawnLengths(Maker(w0, steps, AdminCredentials), ForAdmin);
    if cn.spec.passwordSecretRef {
      NoAdminAction(cn.spec);
      AvoidedNotEnsured(Actions(cn.spec), AdminCredentials, place);
    }
  }

  lemma AvoidedNotEnsured(acts: seq<Action>, id: Id, place: Place)
    requires Avoids(acts, id)
    ensures Ensure(id, place) !in acts
  {
    assert Target(Ensure(id, place)) == Some(id);
  }

  // ---- The Ninegate secret ----------------------------------------------------------------------------------------

  lemma NinegateFieldTexts(cn: CR, loc: Locals, env: Env, adminPass: string)
    ensures var m := NinegateFields(cn, loc, env, adminPass); var d := cn.spec.domain;
            && m[LdapBase] == DnOf(d)
            && m[DefaultUri] == "https://ninegate." + d && m[OidcIssuer] == "https://dex." + d
            && m[OidcRedirectUri] == "https://ninegate." + d + "/callback"
            && m[StorageDsn] == "s3://ninegate-uploads" && m[S3Bucket] == "ninegate-uploads"
            && m[S3Endpoint] == "http://rustfs:9000" && m[S3Region] == "us-east-1" && m[S3AccessKey] == cn.name
  {
    hide NewPassword, DatabaseUrlFor, DnOf;
  }

  lemma NinegateKeys(cn: CR, loc: Locals, env: Env, adminPass: string)
    ensures NinegateFields(cn, loc, env, adminPass).Keys == NINEGATE_KEYS
  {
    hide NewPassword, DatabaseUrlFor, DnOf;
  }

  /** The fields of the stored Ninegate secret that do not depend on passwords: the directory base is the domain's
      labels, each prefixed with `dc=` and joined by commas, and a DN reader gets the domain back from it unless it
      contains `,dc=`; the addresses are those of the domain; storage is where the RustFS service and its secret say. */
  lemma NinegateWritten(w0: World, steps: seq<Step>)
    requires Fresh(w0) && Has(Mine(Play(w0, steps)), w0.me, NinegateSecret)
    ensures Before(w0, steps, NinegateSecret).cr.Some?
    ensures var m, d := Mine(Play(w0, steps)), SpecOf(w0, steps, NinegateSecret).domain;
            && Read(m, w0.me, NinegateSecret, LdapBase) == JoinDc(SplitDots(d))
            && (ReadDn(Read(m, w0.me, NinegateSecret, LdapBase)) == Some(d) <==> !HasDc(d))
            && Read(m, w0.me, NinegateSecret, DefaultUri) == "https://ninegate." + d
            && Read(m, w0.me, NinegateSecret, OidcIssuer) == "https://dex." + d
            && Read(m, w0.me, NinegateSecret, OidcRedirectUri) ==
               Read(m, w0.me, NinegateSecret, DefaultUri) + "/callback"
            && Read(m, w0.me, NinegateSecret, S3Endpoint) == "http://" + NameOf(Service(Rustfs)) + ":9000"
            && Read(m, w0.me, NinegateSecret, S3Bucket) == "ninegate-uploads"
            && Read(m, w0.me, NinegateSecret, StorageDsn) == "s3://" + Read(m, w0.me, NinegateSecret, S3Bucket)
            && Read(m, w0.me, NinegateSecret, S3Region) == "us-east-1"
            && Has(m, w0.me, RustfsSecret)
            && Read(m, w0.me, NinegateSecret, S3AccessKey) == Read(m, w0.me, RustfsSecret, RustfsUser)
  {
    hide Play, Mine, BirthStep, Before, Maker, Actions, Build, NinegateFields, DnOf, JoinDc, SplitDots, ReadDn, HasDc;
    hide RootPassword, NameOf;
    var wb, cn, loc, place := MadeOf(w0, steps, NinegateSecret);
    var fields := NinegateData(wb, cn, loc, Maker(w0, steps, NinegateSecret), place);
    DnIsJoinedLabels(cn.spec.domain);
    DnRoundTrip(cn.spec.domain);
    StorageParts();
    AgreementExactly(w0, steps, RustfsSecret);
    RootSecretsWritten(w0, steps, RustfsSecret);
  }

  lemma StorageParts()
    ensures "http://" + NameOf(Service(Rustfs)) + ":9000" == "http://rustfs:9000"
    ensures "s3://" + "ninegate-uploads" == "s3://ninegate-uploads"
  {
  }

  lemma NinegateData(w: World, cn: CR, loc: Locals, env: Env, place: Place) returns (fields: map<Field, string>)
    requires Build(w, cn, loc, env, NinegateSecret, place).1.Ok?
    ensures Build(w, cn, loc, env, NinegateSecret, place).1.value.payload == Data(fields)
    ensures var d := cn.spec.domain;
            && fields.Keys == NINEGATE_KEYS && fields[LdapBase] == DnOf(d)
            && fields[DefaultUri] == "https://ninegate." + d && fields[OidcIssuer] == "https://dex." + d
            && fields[OidcRedirectUri] == "https://ninegate." + d + "/callback"
            && fields[StorageDsn] == "s3://ninegate-uploads" && fields[S3Bucket] == "ninegate-uploads"
            && fields[S3Endpoint] == "http://rustfs:9000" && fields[S3Region] == "us-east-1"
               && fields[S3AccessKey] == cn.name
  {
    hide NinegateFields, ReadOr, LabelsFor, DnOf, NewPassword;
    var (_, adminPass) := ReadOr(w, env, AdminCredentials, NinegateRead, AdminPassword, ForNinegateAdmin);
    fields := NinegateFields(cn, loc, env, adminPass);
    NinegateFieldTexts(cn, loc, env, adminPass);
    NinegateKeys(cn, loc, env, adminPass);
  }

  lemma Assoc(a: string, b: string, c: string)
    ensures a + (b + c) == a + b + c
  {
  }

  lemma ServiceNames()
    ensures NameOf(Service(Postgresql)) == "postgresql" && NameOf(Service(Rustfs)) == "rustfs"
  {
  }

  lemma UrlParts()
    ensures "postgresql://" + "root" + ":" == URL_HEAD
    ensures "postgresql" + ":5432/" + "ninegate" + "?serverVersion=16" == URL_TAIL
  {
  }

  lemma UrlText(pass: string)
    ensures DatabaseUrlFor(pass) ==
            "postgresql://" + "root" + ":" + pass + "@" + NameOf(Service(Postgresql)) + ":5432/" + "ninegate"
                + "?serverVersion=16"
  {
    UrlParts();
    ServiceNames();
    hide URL_HEAD, URL_TAIL, NameOf;
    var front, host := URL_HEAD + pass + "@", "postgresql";
    Assoc(front, host, ":5432/");
    Assoc(front, host + ":5432/", "ninegate");
    Assoc(front, host + ":5432/" + "ninegate", "?serverVersion=16");
  }

  lemma ConnectionHead()
    ensures "host=" + "postgresql" + " port=5432 user=" == "host=postgresql port=5432 user="
  {
  }

  lemma ConnectionUser()
    ensures "host=postgresql port=5432 user=" + "root" + " password=" == CONN_HEAD
  {
  }

  lemma ConnectionTail()
    ensures " dbname=" + "ninegate" + " sslmode=disable" == " " + CONN_TAIL
  {
  }

  lemma ConnectionText(pass: string)
    ensures GlauthConnection(pass) ==
            "host=" + NameOf(Service(Postgresql)) + " port=5432 user=" + "root" + " password=" + pass
            + " dbname=" + "ninegate" + " sslmode=disable"
  {
    ConnectionHead();
    ConnectionUser();
    ConnectionTail();
    ServiceNames();
    hide CONN_HEAD, CONN_TAIL, NameOf;
    var front := CONN_HEAD + pass;
    Assoc(front, " dbname=", "ninegate");
    Assoc(front, " dbname=" + "ninegate", " sslmode=disable");
    Assoc(front, " ", CONN_TAIL);
  }

  /** The passwords in the stored Ninegate secret, over every history: the database URL is made of the user, database
      and service of PostgreSQL and of the password its maker worked with, which is the spec's override, else the one it
      found stored, else the one it drew; the S3 secret key likewise. */
  lemma NinegatePasswordsWritten(w0: World, steps: seq<Step>)
    requires Fresh(w0) && Has(Mine(Play(w0, steps)), w0.me, NinegateSecret)
    ensures var m, w, env := Mine(Play(w0, steps)), Before(w0, steps, NinegateSecret), Maker(w0, steps, NinegateSecret);
            && w.cr.Some? && Has(m, w0.me, PostgresSecret)
            && var storage := w.cr.value.spec.storage;
            && Read(m, w0.me, NinegateSecret, DatabaseUrl) ==
               "postgresql://" + Read(m, w0.me, PostgresSecret, PostgresUser) + ":"
               + RootPassword(storage, true, FoundPassword(w, env, PostgresSecret, PostgresPassword),
                   NewPassword(env, ForPostgres))
               + "@" + NameOf(Service(Postgresql)) + ":5432/" + Read(m, w0.me, PostgresSecret, PostgresDb)
                   + "?serverVersion=16"
            && Read(m, w0.me, NinegateSecret, S3SecretKey) ==
               RootPassword(storage, false, FoundPassword(w, env, RustfsSecret, RustfsPassword),
                   NewPassword(env, ForRustfs))
  {
    hide Play, Reconcile, NewPassword, Mine, Makes, BirthStep, Held, DatabaseUrlFor, RootPassword, FoundPassword,
         NameOf, Stored;
    Born(w0, steps, NinegateSecret);
    var w, env := Before(w0, steps, NinegateSecret), Maker(w0, steps, NinegateSecret);
    MakesMeans(w, env, NinegateSecret);
    NinegateMade(w, env);
    HeldWritten(w, env, w.cr.value.spec);
    UrlText(Held(PostgresSecret, w.cr.value.spec, env, Stored(Mine(w), w0.me, PostgresSecret)));
    AgreementExactly(w0, steps, PostgresSecret);
    RootSecretsWritten(w0, steps, PostgresSecret);
  }

  // ---- The directory ------------------------------------------------------------------------------------------

  /** Glauth's stored settings: the connection is made of what the database secret says, and the directory base is the
      domain's. */
  lemma GlauthWritten(w0: World, steps: seq<Step>)
    requires Fresh(w0) && Has(Mine(Play(w0, steps)), w0.me, GlauthConfig)
    ensures var m := Mine(Play(w0, steps));
            && Before(w0, steps, GlauthConfig).cr.Some? && Has(m, w0.me, PostgresSecret)
            && var settings := PayloadOf(m, w0.me, GlauthConfig);
            && settings.GlauthSettings?
            && settings.baseDN == JoinDc(SplitDots(SpecOf(w0, steps, GlauthConfig).domain))
            && settings.connection ==
               "host=" + NameOf(Service(Postgresql)) + " port=5432 user=" + Read(m, w0.me, PostgresSecret, PostgresUser)
               + " password=" + Read(m, w0.me, PostgresSecret, PostgresPassword)
               + " dbname=" + Read(m, w0.me, PostgresSecret, PostgresDb) + " sslmode=disable"
  {
    hide Play, Mine, BirthStep, Before, Maker, Actions, DnOf, JoinDc, SplitDots, GlauthConnection, NameOf, LabelsFor;
    var wb, cn, loc, place := MadeOf(w0, steps, GlauthConfig);
    DnIsJoinedLabels(cn.spec.domain);
    GlauthCarriesStoredPassword(w0, steps);
    RootSecretsWritten(w0, steps, PostgresSecret);
    ConnectionText(Read(Mine(Play(w0, steps)), w0.me, PostgresSecret, PostgresPassword));
  }

  /** Dex's stored settings that do not come from other objects: the directory base is the domain's, and the two further
      clients get passwords drawn for them. */
  lemma DexWritten(w0: World, steps: seq<Step>)
    requires Fresh(w0) && Has(Mine(Play(w0, steps)), w0.me, DexConfig)
    ensures Before(w0, steps, DexConfig).cr.Some?
    ensures var settings, env := PayloadOf(Mine(Play(w0, steps)), w0.me, DexConfig), Maker(w0, steps, DexConfig);
            && settings.DexSettings?
            && settings.bindBase == JoinDc(SplitDots(SpecOf(w0, steps, DexConfig).domain))
            && settings.nextcloudSecret == OrEmpty(NewPassword(env, ForNextcloudClient))
            && settings.filesSecret == OrEmpty(NewPassword(env, ForFilesClient))
  {
    hide Play, Mine, BirthStep, Before, Maker, Actions, DnOf, JoinDc, SplitDots, ReadOr, NewPassword, LabelsFor;
    var wb, cn, loc, place := MadeOf(w0, steps, DexConfig);
    DnIsJoinedLabels(cn.spec.domain);
  }

  /** One directory: Ninegate, Glauth and Dex search under the same base if their makers read the same domain, and for
      domains without a comma only then. */
  lemma OneDirectory(w0: World, steps: seq<Step>)
    requires Fresh(w0) && Has(Mine(Play(w0, steps)), w0.me, NinegateSecret)
    requires Has(Mine(Play(w0, steps)), w0.me, GlauthConfig) && Has(Mine(Play(w0, steps)), w0.me, DexConfig)
    ensures var m := Mine(Play(w0, steps));
            && Before(w0, steps, NinegateSecret).cr.Some? && Before(w0, steps, GlauthConfig).cr.Some?
            && Before(w0, steps, DexConfig).cr.Some?
            && PayloadOf(m, w0.me, GlauthConfig).GlauthSettings? && PayloadOf(m, w0.me, DexConfig).DexSettings?
            && var n, g, d := SpecOf(w0, steps, NinegateSecret).domain, SpecOf(w0, steps, GlauthConfig).domain,
                              SpecOf(w0, steps, DexConfig).domain;
               var base := Read(m, w0.me, NinegateSecret, LdapBase);
            && (n == g ==> PayloadOf(m, w0.me, GlauthConfig).baseDN == base)
            && (n == d ==> PayloadOf(m, w0.me, DexConfig).bindBase == base)
            && (',' !in n + g && PayloadOf(m, w0.me, GlauthConfig).baseDN == base ==> n == g)
            && (',' !in n + d && PayloadOf(m, w0.me, DexConfig).bindBase == base ==> n == d)
  {
    hide Play, Mine, BirthStep, Before, Maker, DnOf, JoinDc, SplitDots, ReadDn;
    NinegateWritten(w0, steps);
    GlauthWritten(w0, steps);
    DexWritten(w0, steps);
    var n, g, d := SpecOf(w0, steps, NinegateSecret).domain, SpecOf(w0, steps, GlauthConfig).domain,
                   SpecOf(w0, steps, DexConfig).domain;
    DnIsJoinedLabels(n);
    DnIsJoinedLabels(g);
    DnIsJoinedLabels(d);
    if ',' !in n + g && DnOf(n) == DnOf(g) {
      CommaIn(n, g);
      DnInjective(n, g);
    }
    if ',' !in n + d && DnOf(n) == DnOf(d) {
      CommaIn(n, d);
      DnInjective(n, d);
    }
  }

  lemma CommaIn(a: string, b: string)
    ensures ',' in a || ',' in b <==> ',' in a + b
  {
  }

  // ---- Hosts and certificates -----------------------------------------------------------------------------------

  /** The first label of a host, by the application it serves. */
  function Subdomain(app: App): string {
    match app
    case RustfsApi => "s3"
    case Rustfs => "rustfs"
    case Ninegate => "ninegate"
    case Dex => "dex"
    case Glauth => "glauth"
    case Nextcloud => "nextcloud"
    case Wordpress => "wordpress"
    case Dolibarr => "dolibarr"
    case Postgresql => "postgresql"
    case Redis => "redis"
  }

  lemma HostTexts(app: App, domain: string)
    ensures IngressHost(app, domain) == Subdomain(app) + "." + domain
    ensures CertDns(app, domain) ==
            if app == Rustfs then ["rustfs." + domain, "s3." + domain] else [AppName(app) + "." + domain]
    ensures app != RustfsApi ==> AppName(app) == Subdomain(app)
  {
    assert "rustfs" + "." == "rustfs." && "s3" + "." == "s3.";
  }

  /** Ingress rules, over every history: the host is the application's name, or `s3` for the RustFS API, before the
      domain its maker read; the certificate named is the application's, that of RustFS for the API; the backend has the
      rule's name. */
  lemma RulesWritten(w0: World, steps: seq<Step>, app: App)
    requires Fresh(w0) && Has(Mine(Play(w0, steps)), w0.me, IngressFor(app))
    ensures Before(w0, steps, IngressFor(app)).cr.Some?
    ensures var rule := PayloadOf(Mine(Play(w0, steps)), w0.me, IngressFor(app));
            && rule.HostRule? && rule.host == Subdomain(app) + "." + SpecOf(w0, steps, IngressFor(app)).domain
            && rule.tls == Tls(if app == RustfsApi then Rustfs else app) && rule.backend == Service(app)
  {
    hide Play, Mine, BirthStep, Before, Maker, IngressHost;
    var cn, loc := PlainOf(w0, steps, IngressFor(app));
    HostTexts(app, cn.spec.domain);
  }

  /** Certificates, over every history: the names are the application's host, for RustFS also that of its API. */
  lemma CertificatesWritten(w0: World, steps: seq<Step>, app: App)
    requires Fresh(w0) && Has(Mine(Play(w0, steps)), w0.me, Tls(app))
    ensures Before(w0, steps, Tls(app)).cr.Some?
    ensures var cert, d := PayloadOf(Mine(Play(w0, steps)), w0.me, Tls(app)), SpecOf(w0, steps, Tls(app)).domain;
            && cert.Certificate?
            && cert.dns == if app == Rustfs then ["rustfs." + d, "s3." + d] else [AppName(app) + "." + d]
  {
    hide Play, Reconcile, Mine, Makes, BirthStep, CertDns;
    Born(w0, steps, Tls(app));
    var w, env := Before(w0, steps, Tls(app)), Maker(w0, steps, Tls(app));
    MakesMeans(w, env, Tls(app));
    CertMade(w, env, app);
    SingleTrustRoot(w0, steps, app);
    HostTexts(app, w.cr.value.spec.domain);
  }

  /** The route, over every history: it passes `glauth.` and the domain its maker read, and the stored certificate of
      Glauth covers that host exactly if its maker read the same domain. */
  lemma RouteWritten(w0: World, steps: seq<Step>)
    requires Fresh(w0) && Has(Mine(Play(w0, steps)), w0.me, LdapsRoute)
    ensures Before(w0, steps, LdapsRoute).cr.Some?
    ensures var m, d := Mine(Play(w0, steps)), SpecOf(w0, steps, LdapsRoute).domain;
            && PayloadOf(m, w0.me, LdapsRoute) == SniRoute("glauth." + d)
            && (Has(m, w0.me, Tls(Glauth)) ==>
                  && Before(w0, steps, Tls(Glauth)).cr.Some? && PayloadOf(m, w0.me, Tls(Glauth)).Certificate?
                  && ("glauth." + d in PayloadOf(m, w0.me, Tls(Glauth)).dns <==>
                        d == SpecOf(w0, steps, Tls(Glauth)).domain))
  {
    hide Play, Mine, BirthStep, Before, Maker, LabelsFor;
    var cn, loc := RouteOf(w0, steps);
    var d := cn.spec.domain;
    assert HostOf(Glauth, d) == "glauth." + d by {
      assert AppName(Glauth) + "." == "glauth.";
    }
    if Has(Mine(Play(w0, steps)), w0.me, Tls(Glauth)) {
      CertificatesWritten(w0, steps, Glauth);
      var d' := SpecOf(w0, steps, Tls(Glauth)).domain;
      PrefixedDiffer("glauth", d, d');
      assert "glauth" + "." == "glauth.";
    }
  }

  /** Two stored rules of one domain never share a host. */
  lemma HostsApart(w0: World, steps: seq<Step>, a: App, b: App)
    requires Fresh(w0) && a != b
    requires Has(Mine(Play(w0, steps)), w0.me, IngressFor(a)) && Has(Mine(Play(w0, steps)), w0.me, IngressFor(b))
    ensures var m := Mine(Play(w0, steps));
            && Before(w0, steps, IngressFor(a)).cr.Some? && Before(w0, steps, IngressFor(b)).cr.Some?
            && PayloadOf(m, w0.me, IngressFor(a)).HostRule? && PayloadOf(m, w0.me, IngressFor(b)).HostRule?
            && (SpecOf(w0, steps, IngressFor(a)).domain == SpecOf(w0, steps, IngressFor(b)).domain ==>
                  PayloadOf(m, w0.me, IngressFor(a)).host != PayloadOf(m, w0.me, IngressFor(b)).host)
  {
    hide Play, Mine, BirthStep, Before, Maker, Subdomain;
    RulesWritten(w0, steps, a);
    RulesWritten(w0, steps, b);
    SubdomainsDiffer(a, b, SpecOf(w0, steps, IngressFor(a)).domain);
  }

  lemma SubdomainPrint(app: App)
    ensures var s := Subdomain(app);
            |s| >= 2 && (|s|, s[0]) == if app == RustfsApi then (2, 's') else AppPrint(app)
  {
  }

  lemma SubdomainsDiffer(a: App, b: App, domain: string)
    requires a != b
    ensures Subdomain(a) + "." + domain != Subdomain(b) + "." + domain
  {
    SubdomainPrint(a);
    SubdomainPrint(b);
    hide Subdomain;
    var x, y := Subdomain(a) + "." + domain, Subdomain(b) + "." + domain;
    assert x[0] == Subdomain(a)[0] && y[0] == Subdomain(b)[0];
    assert |x| == |Subdomain(a)| + 1 + |domain| && |y| == |Subdomain(b)| + 1 + |domain|;
  }

  // ---- The init script ------------------------------------------------------------------------------------------

  /** Which database the services section asks for. */
  predicate Asked(services: Option<ServiceFlags>, db: string) {
    services.Some? && ((db == "nextcloud" && services.value.nextcloud)
        || (db == "wordpress" && services.value.wordpress)
                       || (db == "dolibarr" && services.value.dolibarr))
  }

  /** The stored init script, over every history and every map order: it creates `ninegate` first, and then exactly the
      databases of the optional services enabled in the spec its maker read, each once. */
  lemma InitScriptWritten(w0: World, steps: seq<Step>)
    requires Fresh(w0) && Has(Mine(Play(w0, steps)), w0.me, PostgresConfig)
    ensures Before(w0, steps, PostgresConfig).cr.Some?
    ensures var m := Mine(Play(w0, steps)); var dbs := ParseScript(Read(m, w0.me, PostgresConfig, InitSql));
            && dbs.Some? && dbs.value != [] && dbs.value[0] == "ninegate" && InitScript.Distinct(dbs.value)
            && (forall db :: db in dbs.value[1..] <==> Asked(SpecOf(w0, steps, PostgresConfig).services, db))
            && Read(m, w0.me, PostgresConfig, InitdbArgs) == "--auth-host=md5 --auth-local=trust"
  {
    hide Play, Mine, BirthStep, Before, Maker, InitSqlFor, ParseScript;
    var cn, loc := PlainOf(w0, steps, PostgresConfig);
    var env := Maker(w0, steps, PostgresConfig);
    var flags := OptionalFlags(cn.spec);
    CatalogIsProper(flags);
    ScriptIsOrderIndependent(SqlOrder(env), flags, CATALOG);
    forall db ensures (exists s :: Needs(s, flags, CATALOG) && CATALOG[s] == db) <==> Asked(cn.spec.services, db) {
      NeededIsAsked(cn.spec, db);
    }
  }

  lemma CatalogIsProper(flags: map<App, bool>)
    ensures ProperNames(flags, CATALOG)
  {
  }

  lemma NeededIsAsked(spec: Spec, db: string)
    ensures (exists s :: Needs(s, OptionalFlags(spec), CATALOG) && CATALOG[s] == db) <==> Asked(spec.services, db)
  {
    var flags := OptionalFlags(spec);
    if Asked(spec.services, db) {
      var s := if db == "nextcloud" then Nextcloud else if db == "wordpress" then Wordpress else Dolibarr;
      assert Needs(s, flags, CATALOG) && CATALOG[s] == db;
    }
  }

  // ---- Workloads, volumes, policies -----------------------------------------------------------------------------

  /** What the workloads refer to, and what the remaining objects are. */
  lemma WorkloadsWritten(w0: World, steps: seq<Step>, id: Id)
    requires Fresh(w0) && Has(Mine(Play(w0, steps)), w0.me, id)
    ensures var payload := PayloadOf(Mine(Play(w0, steps)), w0.me, id);
            && (id == PostgresSet ==> payload == Workload({WholeObject(PostgresConfig), WholeObject(PostgresSecret)}))
            && (id == Deployment(Redis) ==> payload == Workload({}))
            && (id == Deployment(Rustfs) ==> payload == Workload({WholeObject(RustfsSecret), WholeObject(RustfsData)}))
            && (id == Deployment(Glauth) ==> payload == Workload({WholeObject(GlauthConfig), WholeObject(Tls(Glauth))}))
            && (id == Deployment(Dex) ==> payload == Workload({WholeObject(DexConfig), WholeObject(Tls(Dex))}))
            && (id == EgressPolicy ==> payload == AllowAll(true))
               && (id == IngressPolicy ==> payload == AllowAll(false))
            && (id in {RustfsData, Uploads, PublicUploads} ==> payload == Volume)
            && (id.Service? ==> payload == Port)
  {
    hide Play, Mine, BirthStep, Before, Maker;
    if id != LdapsRoute && IsPlain(id) {
      var cn, loc := PlainOf(w0, steps, id);
    }
  }

  /** The workload of Ninegate refers to every key of the stored Ninegate secret and to no other key of it, to both
      upload volumes and to Glauth's configuration, and to nothing else. */
  lemma NinegateRefersToItsSecret(w0: World, steps: seq<Step>)
    requires Fresh(w0) && Has(Mine(Play(w0, steps)), w0.me, Deployment(Ninegate))
             && Has(Mine(Play(w0, steps)), w0.me, NinegateSecret)
    ensures var m := Mine(Play(w0, steps));
            && PayloadOf(m, w0.me, NinegateSecret).Data? && PayloadOf(m, w0.me, Deployment(Ninegate)).Workload?
            && forall ref :: ref in PayloadOf(m, w0.me, Deployment(Ninegate)).refs <==>
                 match ref
                 case SecretKey(id, f) => id == NinegateSecret && f in PayloadOf(m, w0.me, NinegateSecret).fields
                 case WholeObject(id) => id in {Uploads, PublicUploads, GlauthConfig}
  {
    hide Play, Mine, BirthStep, Before, Maker, Build, Actions, NINEGATE_KEYS;
    var cn, loc := PlainOf(w0, steps, Deployment(Ninegate));
    var wb, cn', loc', place := MadeOf(w0, steps, NinegateSecret);
    var fields := NinegateData(wb, cn', loc', Maker(w0, steps, NinegateSecret), place);
  }

  // ---- What a deletion run leaves, by name ------------------------------------------------------------------------

  /** The objects of the controller that no list of the sweep shows. */
  predicate NeverListed(id: Id) { id in {TheNamespace, LdapsRoute, EgressPolicy, IngressPolicy} || id.IngressFor? }

  lemma KindsOfIds(id: Id)
    requires !id.Other?
    ensures NeverListed(id) <==> KindOf(id) !in {Secrets, ConfigMaps, Deployments, StatefulSets, Services, Volumes}
    ensures KindOf(id) == ConfigMaps <==> id in {PostgresConfig, GlauthConfig}
    ensures KindOf(id) == Volumes <==> id in {RustfsData, Uploads, PublicUploads}
    ensures KindOf(id) == Deployments <==> id.Deployment?
    ensures KindOf(id) == Services <==> id.Service?
    ensures KindOf(id) == StatefulSets <==> id == PostgresSet
  {
  }

  /** After a deletion run in which only the read of the namespace failed and every object was listed, what is left of
      the controller's objects is the namespace, the ingress rules, the route and the two policies. */
  lemma LeftAfterDeletion(w: World, env: Env, id: Id)
    requires w.cr.Some? && w.cr.value.deleting && FINALIZER in w.cr.value.finalizers && Labelled(Mine(w), w.me)
    requires ReadFails(env) && CalmSweep(env) && !id.Other? && K(w, id) in env.listed
    requires FaultAt(env, CrRead) == Clean && FaultAt(env, FinalizerRemove) in {Clean, Ambiguous, CrashAfter}
    ensures Has(Mine(ReconcileAny(w, env)), w.me, id) <==> Has(Mine(w), w.me, id) && NeverListed(id)
  {
    hide ReconcileAny, Labelled;
    SwallowedErrorOrphans(w, env, K(w, id));
    KindsOfIds(id);
  }
}
