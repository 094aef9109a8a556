/** Exactly when the stored objects of a client agree, over every history: what each object says was settled by the run
    that made it. */
module Origins {
  import opened Objects
  import opened Api
  import opened Passwords
  import opened Contents
  import opened Pipeline
  import opened Runs
  import opened Histories
  import opened Prefix
  import opened PlanOrder
  import opened Invariants
  import opened CleanRuns
  import opened Agreement
  import opened Births

  // ---- The two root secrets ---------------------------------------------------------------------

  predicate IsRoot(id: Id) { id == PostgresSecret || id == RustfsSecret }

  function OverrideFor(root: Id, spec: Spec): string
  {
    if root == PostgresSecret then PgOverride(spec) else S3Override(spec)
  }

  function PasswordField(root: Id): Field { if root == PostgresSecret then PostgresPassword else RustfsPassword }

  function PurposeFor(root: Id): Purpose { if root == PostgresSecret then ForPostgres else ForRustfs }

  /** The stored password of a root secret, empty if there is none. */
  function Stored(m: Objs, me: string, root: Id): string {
    if Has(m, me, root) then Read(m, me, root, PasswordField(root)) else ""
  }

  /** With `stored` in the cluster, the password a living run holds. */
  function Held(root: Id, spec: Spec, env: Env, stored: string): string {
    if |OverrideFor(root, spec)| > 0 then OverrideFor(root, spec)
    else if FaultAt(env, Reading(root, PasswordRead)) == Clean && |stored| > 0 then stored
    else OrEmpty(NewPassword(env, PurposeFor(root)))
  }

  lemma PasswordHeld(w: World, env: Env, spec: Spec, root: Id)
    requires IsRoot(root)
    requires GetOrCreatePassword(w, env, OverrideFor(root, spec), root, PasswordField(root), PurposeFor(root)).0.alive
    ensures w.alive
    ensures GetOrCreatePassword(w, env, OverrideFor(root, spec), root, PasswordField(root), PurposeFor(root)).1 ==
            Held(root, spec, env, Stored(Mine(w), w.me, root))
  {
    hide NewPassword;
    var wi := Interfere(w, env, Reading(root, PasswordRead));
    assert K(w, root) in wi.store <==> K(w, root) in Mine(wi);
  }

  /** A run whose process lives on after reading the passwords holds one for each root secret. */
  lemma ReadStep(r: Run, env: Env)
    requires r.out == Going && Exec(r, env, ReadPasswords).w.alive
    ensures var r' := Exec(r, env, ReadPasswords);
            && r'.out == Going && Mine(r'.w) == Mine(r.w) && r'.w.me == r.w.me
            && r'.loc.pg == Held(PostgresSecret, r.cn.spec, env, Stored(Mine(r.w), r.w.me, PostgresSecret))
            && r'.loc.s3 == Held(RustfsSecret, r.cn.spec, env, Stored(Mine(r.w), r.w.me, RustfsSecret))
  {
    hide GetOrCreatePassword, Held, Stored, Mine;
    var w1 := GetOrCreatePassword(r.w, env, PgOverride(r.cn.spec), PostgresSecret, PostgresPassword, ForPostgres).0;
    PasswordHeld(w1, env, r.cn.spec, RustfsSecret);
    PasswordHeld(r.w, env, r.cn.spec, PostgresSecret);
  }

  // ---- The secrets stage, cut at the reading of the passwords -------------------------------------

  function Opening(spec: Spec): seq<Action> {
    NamespaceStage() + AdminStage(spec) + [Enter(Blame("RootSecretsFailed", None))]
  }

  function Roots(): seq<Action> {
    [On(PostgresSecret), On(RustfsSecret), Enter(Blame("NinegateSecretFailed", None))]
  }

  function FromNinegate(): seq<Action> { [On(NinegateSecret)] + CaStage() }

  lemma SecretsSplit(spec: Spec)
    ensures SecretActions(spec) == Opening(spec) + ([ReadPasswords] + (Roots() + FromNinegate()))
  {
    hide NamespaceStage, AdminStage, CaStage;
  }

  /** The run right after it has read the passwords. */
  function WithPasswords(r: Run, env: Env, spec: Spec): Run { Exec(RunAll(r, env, Opening(spec)), env, ReadPasswords) }

  /** Everything up to the Ninegate secret, and everything after it. */
  function ToNinegate(spec: Spec): seq<Action> { Opening(spec) + ([ReadPasswords] + Roots()) }

  function AfterNinegate(spec: Spec): seq<Action> { CaStage() + (CertStage(spec) + LateActions(FlagsOf(spec))) }

  lemma NinegateSplit(spec: Spec)
    ensures Actions(spec) == ToNinegate(spec) + ([On(NinegateSecret)] + AfterNinegate(spec))
  {
    hide SecretActions, Opening, Roots, CaStage, CertStage, LateActions;
    SecretsSplit(spec);
  }

  lemma NinegateOnce(spec: Spec)
    ensures Avoids(ToNinegate(spec), NinegateSecret) && Avoids(AfterNinegate(spec), NinegateSecret)
  {
    hide Actions, ToNinegate, AfterNinegate, Avoids;
    NinegateSplit(spec);
    var i := |ToNinegate(spec)|;
    OnlyOnce(spec, i, NinegateSecret);
    assert Actions(spec)[..i] == ToNinegate(spec) && Actions(spec)[i + 1..] == AfterNinegate(spec);
  }

  lemma OpeningAvoids(spec: Spec)
    ensures Avoids(Opening(spec), PostgresSecret) && Avoids(Opening(spec), RustfsSecret)
  {
  }

  lemma RootsThere()
    ensures On(PostgresSecret) in Roots() && On(RustfsSecret) in Roots() && ReadPasswords !in Roots()
  {
    assert Roots()[0] == On(PostgresSecret) && Roots()[1] == On(RustfsSecret);
  }

  // ---- Database and S3 ------------------------------------------------------------------------------

  lemma NinegateBuilt(w: World, cn: CR, loc: Locals, env: Env, place: Place)
    requires Build(w, cn, loc, env, NinegateSecret, place).1.Ok?
    ensures var o := Build(w, cn, loc, env, NinegateSecret, place).1.value;
            FieldOf(o, DatabaseUrl) == DatabaseUrlFor(loc.pg) && FieldOf(o, S3SecretKey) == loc.s3
  {
    hide ReadOr, NinegateFields, LabelsFor, NewPassword, DatabaseUrlFor;
    var (_, adminPass) := ReadOr(w, env, AdminCredentials, NinegateRead, AdminPassword, ForNinegateAdmin);
    NinegateFieldFacts(cn, loc, env, adminPass);
  }

  lemma UpToNinegate(r: Run, env: Env, spec: Spec)
    ensures RunAll(r, env, ToNinegate(spec)) == RunAll(WithPasswords(r, env, spec), env, Roots())
  {
    hide RunAll, Exec, Opening, Roots;
    Split(r, env, Opening(spec), [ReadPasswords] + Roots());
    Cons(RunAll(r, env, Opening(spec)), env, ReadPasswords, Roots());
  }

  /** The passwords of a run that got as far as the Ninegate secret. */
  lemma PasswordsOf(r: Run, env: Env, spec: Spec)
    requires r.cn.spec == spec && RunAll(r, env, ToNinegate(spec)).out == Going
             && RunAll(r, env, ToNinegate(spec)).w.alive
    ensures var r2 := WithPasswords(r, env, spec);
            && r2.w.me == r.w.me && r2.out == Going && Extends(Mine(r.w), Mine(r2.w))
            && r2.loc.pg == Held(PostgresSecret, spec, env, Stored(Mine(r.w), r.w.me, PostgresSecret))
            && r2.loc.s3 == Held(RustfsSecret, spec, env, Stored(Mine(r.w), r.w.me, RustfsSecret))
            && forall root | IsRoot(root) :: Has(Mine(r2.w), r.w.me, root) == Has(Mine(r.w), r.w.me, root)
  {
    hide RunAll, Exec, Opening, Roots, Held, Mine, Avoids;
    UpToNinegate(r, env, spec);
    OpeningAvoids(spec);
    var r1 := RunAll(r, env, Opening(spec));
    Frame(r, env, Opening(spec));
    Frame(WithPasswords(r, env, spec), env, Roots());
    ExecFacts(r1, env, ReadPasswords);
    ReadStep(r1, env);
    Untouched(r, env, Opening(spec), PostgresSecret);
    Untouched(r, env, Opening(spec), RustfsSecret);
  }

  /** Both root secrets are there, and one that was not there before carries the password the run held. */
  lemma RootsOf(r: Run, env: Env, root: Id)
    requires IsRoot(root) && RunAll(r, env, Roots()).out == Going
    ensures var m := Mine(RunAll(r, env, Roots()).w);
            && Has(m, r.w.me, root)
            && (!Has(Mine(r.w), r.w.me, root) ==>
                  Stored(m, r.w.me, root) == if root == PostgresSecret then r.loc.pg else r.loc.s3)
  {
    hide RunAll, Roots, Build, Mine;
    RootsThere();
    Done(r, env, Roots(), On(root));
    if !Has(Mine(r.w), r.w.me, root) {
      var wb, cn, loc, place := BuiltInRun(r, env, Roots(), root);
      BuiltPassword(wb, cn, loc, env, root, place);
    }
  }

  /** What the Ninegate secret says was settled by the run that made it. */
  lemma NinegateMade(w: World, env: Env)
    requires Makes(w, env, NinegateSecret)
    ensures var m := Mine(Reconcile(w, env)); var spec := w.cr.value.spec;
            && Read(m, w.me, NinegateSecret, DatabaseUrl) ==
               DatabaseUrlFor(Held(PostgresSecret, spec, env, Stored(Mine(w), w.me, PostgresSecret)))
            && Read(m, w.me, NinegateSecret, S3SecretKey) ==
               Held(RustfsSecret, spec, env, Stored(Mine(w), w.me, RustfsSecret))
            && (forall root | IsRoot(root) ::
                  && Has(m, w.me, root)
                  && Stored(m, w.me, root) == if Has(Mine(w), w.me, root) then Stored(Mine(w), w.me, root)
                                              else Held(root, spec, env, ""))
  {
    hide RunAll, Actions, ToNinegate, AfterNinegate, Reconcile, Build, Held, Roots, WithPasswords, DatabaseUrlFor, Mine,
         Avoids;
    var spec := w.cr.value.spec;
    var r := MakerRun(w, env, NinegateSecret);
    var before, rest := ToNinegate(spec), AfterNinegate(spec);
    NinegateSplit(spec);
    NinegateOnce(spec);
    var wb := BuiltAt(r, env, before, NinegateSecret, rest);
    var r1, r2 := RunAll(r, env, before), WithPasswords(r, env, spec);
    NinegateBuilt(wb, r1.cn, r1.loc, env, Pipeline);
    PasswordsOf(r, env, spec);
    UpToNinegate(r, env, spec);
    PasswordsKept(r2, env);
    Split(r, env, before, [On(NinegateSecret)] + rest);
    Frame(r1, env, [On(NinegateSecret)] + rest);
    Frame(r2, env, Roots());
    RootsOf(r2, env, PostgresSecret);
    RootsOf(r2, env, RustfsSecret);
  }

  lemma PasswordsKept(r: Run, env: Env)
    ensures RunAll(r, env, Roots()).loc.pg == r.loc.pg && RunAll(r, env, Roots()).loc.s3 == r.loc.s3
  {
    hide Exec, RunAll;
    var enter := Enter(Blame("NinegateSecretFailed", None));
    var r1, r2 := Exec(r, env, On(PostgresSecret)), Exec(Exec(r, env, On(PostgresSecret)), env, On(RustfsSecret));
    Cons(r, env, On(PostgresSecret), [On(RustfsSecret), enter]);
    assert [On(PostgresSecret)] + [On(RustfsSecret), enter] == Roots();
    Cons(r1, env, On(RustfsSecret), [enter]);
    assert [On(RustfsSecret)] + [enter] == [On(RustfsSecret), enter];
    Cons(r2, env, enter, []);
    assert [enter] + [] == [enter];
    PasswordsStay(r, env, On(PostgresSecret));
    PasswordsStay(r1, env, On(RustfsSecret));
    PasswordsStay(r2, env, enter);
    NothingRun(Exec(r2, env, enter), env);
  }

  lemma NothingRun(r: Run, env: Env)
    ensures RunAll(r, env, []) == r
  {
  }

  lemma UrlInjective(a: string, b: string)
    requires DatabaseUrlFor(a) == DatabaseUrlFor(b)
    ensures a == b
  {
    hide URL_HEAD, URL_TAIL;
    var tail := "@" + URL_TAIL;
    var url := DatabaseUrlFor(a);
    assert url[|URL_HEAD|..|url| - |tail|] == a;
    assert url[|URL_HEAD|..|url| - |tail|] == b;
  }

  /** The Ninegate secret carries another password than the root secret. */
  predicate Disagrees(root: Id, w: World) {
    && Has(Mine(w), w.me, root) && Has(Mine(w), w.me, NinegateSecret)
    && var pass := Read(Mine(w), w.me, root, PasswordField(root));
       if root == PostgresSecret then Read(Mine(w), w.me, NinegateSecret, DatabaseUrl) != DatabaseUrlFor(pass)
       else Read(Mine(w), w.me, NinegateSecret, S3SecretKey) != pass
  }

  /** Database and S3 agreement, exactly, over every history: no proviso. Ninegate disagrees with a root secret if and
      only if that secret was there before the run that made the Ninegate secret, and that run worked with another
      password than the stored one. */
  lemma AgreementExactly(w0: World, steps: seq<Step>, root: Id)
    requires Fresh(w0) && IsRoot(root) && Has(Mine(Play(w0, steps)), w0.me, NinegateSecret)
    ensures var w, env := Before(w0, steps, NinegateSecret), Maker(w0, steps, NinegateSecret);
            && w.cr.Some? && Has(Mine(Play(w0, steps)), w0.me, root)
            && var stored := Stored(Mine(w), w0.me, root);
               Disagrees(root, Play(w0, steps)) <==>
                 Has(Mine(w), w0.me, root) && Held(root, w.cr.value.spec, env, stored) != stored
  {
    hide Play, Reconcile, Held, DatabaseUrlFor, Mine, Makes, BirthStep;
    Born(w0, steps, NinegateSecret);
    PlayKeepsManaged(w0, steps);
    var w, env := Before(w0, steps, NinegateSecret), Maker(w0, steps, NinegateSecret);
    MakesMeans(w, env, NinegateSecret);
    NinegateMade(w, env);
    var held := Held(root, w.cr.value.spec, env, Stored(Mine(w), w0.me, root));
    var stored := Stored(Mine(Reconcile(w, env)), w0.me, root);
    if root == PostgresSecret && DatabaseUrlFor(held) == DatabaseUrlFor(stored) {
      UrlInjective(held, stored);
    }
  }

  lemma MakesMeans(w: World, env: Env, id: Id)
    requires Makes(w, env, id)
    ensures Managed(w) && Has(Mine(Reconcile(w, env)), w.me, id) && !Has(Mine(w), w.me, id)
  {
  }

  // ---- The secrets of the login -------------------------------------------------------------------------

  lemma BuiltSecrets(w: World, cn: CR, loc: Locals, env: Env, place: Place)
    requires Build(w, cn, loc, env, NinegateSecret, place).1.Ok?
    ensures var o := Build(w, cn, loc, env, NinegateSecret, place).1.value;
            FieldOf(o, AppSecret) == OrEmpty(NewPassword(env, ForAppSecret))
                && FieldOf(o, OidcClientSecret) == OrEmpty(NewPassword(env, ForOidc))
  {
    hide NewPassword, ReadOr, LabelsFor, DatabaseUrlFor;
  }

  /** The two secrets of the stored Ninegate secret come from the run that made it, each from its own draws. */
  lemma SecretsBorn(w0: World, steps: seq<Step>)
    requires Fresh(w0) && Has(Mine(Play(w0, steps)), w0.me, NinegateSecret)
    ensures var m, env := Mine(Play(w0, steps)), Maker(w0, steps, NinegateSecret);
            && Read(m, w0.me, NinegateSecret, AppSecret) == OrEmpty(NewPassword(env, ForAppSecret))
            && Read(m, w0.me, NinegateSecret, OidcClientSecret) == OrEmpty(NewPassword(env, ForOidc))
  {
    hide Play, Reconcile, RunAll, Actions, Build, NewPassword, Mine, Makes, BirthStep;
    Born(w0, steps, NinegateSecret);
    var w, env := Before(w0, steps, NinegateSecret), Maker(w0, steps, NinegateSecret);
    MakesMeans(w, env, NinegateSecret);
    var r := MakerRun(w, env, NinegateSecret);
    var wb, cn, loc := FoundBy(r, env, w.cr.value.spec, NinegateSecret);
    BuiltSecrets(wb, cn, loc, env, Pipeline);
  }

  /** The client secret Dex expects from Ninegate, and the one Ninegate sends. */
  predicate LoginFits(w: World) {
    && Has(Mine(w), w.me, DexConfig) && Has(Mine(w), w.me, NinegateSecret)
    && PayloadOf(Mine(w), w.me, DexConfig).DexSettings?
    && PayloadOf(Mine(w), w.me, DexConfig).ninegateSecret == Read(Mine(w), w.me, NinegateSecret, OidcClientSecret)
  }

  lemma BuiltDex(w: World, cn: CR, loc: Locals, env: Env, place: Place) returns (w1: World)
    requires Build(w, cn, loc, env, DexConfig, place).1.Ok?
    ensures w1.me == w.me && Mine(w1) == Mine(w)
    ensures Build(w, cn, loc, env, DexConfig, place).0.alive ==> w1.alive
    ensures var payload := Build(w, cn, loc, env, DexConfig, place).1.value.payload;
            && payload.DexSettings?
            && payload.bindPW == ReadOr(w, env, AdminCredentials, DexRead, AdminPassword, ForDexAdmin).1
            && payload.ninegateSecret == ReadOr(w1, env, NinegateSecret, DexRead, AppSecret, ForDexClient).1
  {
    hide NewPassword, ReadOr, LabelsFor, Mine;
    w1 := ReadOr(w, env, AdminCredentials, DexRead, AdminPassword, ForDexAdmin).0;
    ReadKeepsDead(w1, env, NinegateSecret, DexRead, AppSecret, ForDexClient);
  }

  /** What the run that made Dex's configuration took for Ninegate's secret, where `app` is the stored app secret. */
  function SecretSeen(env: Env, app: string): string {
    if FaultAt(env, Reading(NinegateSecret, DexRead)) != Clean then OrEmpty(NewPassword(env, ForDexClient))
    else if |app| > 0 then app
    else "changeme"
  }

  /** A read is the field found, a default for an empty one, or a new password where the read fails or finds nothing. */
  lemma ReadExactly(w: World, env: Env, id: Id, place: Place, field: Field, p: Purpose)
    requires w.alive
    ensures ReadOr(w, env, id, place, field, p).1 ==
            if FaultAt(env, Reading(id, place)) != Clean || !Has(Mine(w), w.me, id) then OrEmpty(NewPassword(env, p))
            else if |Read(Mine(w), w.me, id, field)| > 0 then Read(Mine(w), w.me, id, field)
            else "changeme"
  {
    hide NewPassword;
    var wi := Interfere(w, env, Reading(id, place));
    assert K(w, id) in wi.store <==> K(w, id) in Mine(wi);
  }

  lemma SecretActionsIn(spec: Spec)
    ensures On(NinegateSecret) in Actions(spec)
    ensures !spec.passwordSecretRef ==> On(AdminCredentials) in Actions(spec)
    ensures Rank(AdminCredentials) < Rank(NinegateSecret) < Rank(DexConfig)
  {
    hide NamespaceStage, RootStage, CaStage, CertStage, LateActions;
    assert NinegateStage()[1] == On(NinegateSecret);
    if !spec.passwordSecretRef {
      assert AdminStage(spec)[1] == On(AdminCredentials);
    }
    hide NinegateStage, AdminStage;
  }

  // ---- The admin password ---------------------------------------------------------------------------------

  /** Whether the run read stored admin credentials: the read succeeds, and they were there before the run, or the run
      makes them itself because the spec has no reference to a password of the user's. */
  predicate AdminFound(w: World, env: Env, place: Place)
    requires w.cr.Some?
  {
    FaultAt(env, Reading(AdminCredentials, place)) == Clean
    && (Has(Mine(w), w.me, AdminCredentials) || !w.cr.value.spec.passwordSecretRef)
  }

  /** The admin password the run took, where `m` are the objects it left. */
  function AdminSeen(w: World, env: Env, m: Objs, place: Place, p: Purpose): string
    requires w.cr.Some?
  {
    if AdminFound(w, env, place) && Has(m, w.me, AdminCredentials) then Read(m, w.me, AdminCredentials, AdminPassword)
    else OrEmpty(NewPassword(env, p))
  }

  lemma BuiltAdmin(w: World, cn: CR, loc: Locals, env: Env, place: Place)
    requires Build(w, cn, loc, env, AdminCredentials, place).1.Ok?
    ensures NewPassword(env, ForAdmin).Some?
    ensures FieldOf(Build(w, cn, loc, env, AdminCredentials, place).1.value, AdminPassword) ==
            NewPassword(env, ForAdmin).value
  {
    hide NewPassword, LabelsFor;
  }

  lemma BuiltNinegate(w: World, cn: CR, loc: Locals, env: Env, place: Place)
    requires Build(w, cn, loc, env, NinegateSecret, place).1.Ok?
    ensures FieldOf(Build(w, cn, loc, env, NinegateSecret, place).1.value, AppAdminPassword) ==
            ReadOr(w, env, AdminCredentials, NinegateRead, AdminPassword, ForNinegateAdmin).1
  {
    hide NewPassword, ReadOr, LabelsFor, NinegateFields;
    var (_, adminPass) := ReadOr(w, env, AdminCredentials, NinegateRead, AdminPassword, ForNinegateAdmin);
    NinegateFieldFacts(cn, loc, env, adminPass);
  }

  /** The admin password Ninegate starts with, and the one Dex binds with. */
  function NinegateAdminOf(w: World): string
    requires Has(Mine(w), w.me, NinegateSecret)
  {
    Read(Mine(w), w.me, NinegateSecret, AppAdminPassword)
  }

  predicate DexBinds(w: World, pass: string) {
    && Has(Mine(w), w.me, DexConfig) && PayloadOf(Mine(w), w.me, DexConfig).DexSettings?
    && PayloadOf(Mine(w), w.me, DexConfig).bindPW == pass
  }

  /** Which of the two secrets are planned. */
  lemma SecretPlanned(spec: Spec)
    ensures NinegateSecret in Plan(spec) && (AdminCredentials in Plan(spec) <==> !spec.passwordSecretRef)
  {
    hide Rank, SecretActions, CertStage, LateActions, Ordered, PlanOf;
    var rest := CertStage(spec) + LateActions(FlagsOf(spec));
    PlanOfAppend(SecretActions(spec), rest);
    SecretsInOrder(spec);
    LaterIsOrdered(spec);
    if AdminCredentials in PlanOf(rest) {
      OrderedBounds(rest, 10, 90, AdminCredentials);
      AdminRank();
    }
  }

  lemma AdminRank()
    ensures Rank(AdminCredentials) == 1
  {
  }

  lemma LaterIsOrdered(spec: Spec)
    ensures Ordered(CertStage(spec) + LateActions(FlagsOf(spec)), 10, 90)
  {
    hide Rank, CertStage, ServiceStages, IngressActions, PolicyActions, Ordered;
    var f := FlagsOf(spec);
    CertsOrdered(spec);
    ServiceStagesOrdered(SERVICE_COUNT, f);
    NetworkOrdered(f);
    OrderedAppend(ServiceStages(SERVICE_COUNT, f), IngressActions(f) + PolicyActions(), 20, 70, 90);
    OrderedAppend(CertStage(spec), LateActions(f), 10, 20, 90);
  }

  lemma NoAdminAction(spec: Spec)
    requires spec.passwordSecretRef
    ensures Avoids(Actions(spec), AdminCredentials)
  {
    hide Actions;
    SecretPlanned(spec);
    TargetsArePlanned(spec);
    PlanMember(Actions(spec), AdminCredentials);
  }

  /** Generated admin passwords are not empty, and the stored one is the one its maker generated. */
  lemma AdminBorn(w0: World, steps: seq<Step>)
    requires Fresh(w0) && Has(Mine(Play(w0, steps)), w0.me, AdminCredentials)
    ensures var generated := NewPassword(Maker(w0, steps, AdminCredentials), ForAdmin);
            generated.Some? && Read(Mine(Play(w0, steps)), w0.me, AdminCredentials, AdminPassword) ==
                generated.value != ""
  {
    hide Play, Reconcile, RunAll, Actions, Build, NewPassword, Mine, Makes, BirthStep;
    Born(w0, steps, AdminCredentials);
    var w, env := Before(w0, steps, AdminCredentials), Maker(w0, steps, AdminCredentials);
    MakesMeans(w, env, AdminCredentials);
    var r := MakerRun(w, env, AdminCredentials);
    var wb, cn, loc := FoundBy(r, env, w.cr.value.spec, AdminCredentials);
    BuiltAdmin(wb, cn, loc, env, Pipeline);
    PasswordNotEmpty(env, ForAdmin);
  }

  /** Stored admin credentials are never empty. */
  predicate AdminFilled(m: Objs, me: string) {
    Has(m, me, AdminCredentials) ==> Read(m, me, AdminCredentials, AdminPassword) != ""
  }

  /** The run that makes the Ninegate secret or Dex's configuration finds admin credentials exactly if they were there
      before it or it has to make them itself; it reads their password, or takes a new one. */
  lemma AdminRead(w: World, env: Env, id: Id, wb: World, place: Place, p: Purpose)
    requires Makes(w, env, id) && id in {NinegateSecret, DexConfig} && AdminFilled(Mine(Reconcile(w, env)), w.me)
    requires wb.me == w.me && wb.alive && Extends(Mine(w), Mine(wb)) && Extends(Mine(wb), Mine(Reconcile(w, env)))
    requires forall j | On(j) in Actions(w.cr.value.spec) && Rank(j) < Rank(id) :: Has(Mine(wb), w.me, j)
    requires forall j | Avoids(Actions(w.cr.value.spec), j) && !Has(Mine(w), w.me, j) :: !Has(Mine(wb), w.me, j)
    ensures ReadOr(wb, env, AdminCredentials, place, AdminPassword, p).1 ==
            AdminSeen(w, env, Mine(Reconcile(w, env)), place, p)
    ensures AdminFound(w, env, place) ==> Has(Mine(Reconcile(w, env)), w.me, AdminCredentials)
  {
    hide Reconcile, Actions, NewPassword, Mine, ReadOr, Rank, Avoids;
    var spec := w.cr.value.spec;
    SecretActionsIn(spec);
    if spec.passwordSecretRef {
      NoAdminAction(spec);
    }
    assert Has(Mine(wb), w.me, AdminCredentials) <==> Has(Mine(w), w.me, AdminCredentials) || !spec.passwordSecretRef;
    ReadExactly(wb, env, AdminCredentials, place, AdminPassword, p);
  }

  lemma NinegateAdminMade(w: World, env: Env)
    requires Makes(w, env, NinegateSecret) && AdminFilled(Mine(Reconcile(w, env)), w.me)
    ensures var m := Mine(Reconcile(w, env));
            && Read(m, w.me, NinegateSecret, AppAdminPassword) == AdminSeen(w, env, m, NinegateRead, ForNinegateAdmin)
            && (AdminFound(w, env, NinegateRead) ==> Has(m, w.me, AdminCredentials))
  {
    hide Reconcile, RunAll, Actions, Build, NewPassword, Mine, ReadOr, Rank, Avoids, AdminSeen, AdminFound, AdminFilled;
    var r := MakerRun(w, env, NinegateSecret);
    var wb, cn, loc := FoundBy(r, env, w.cr.value.spec, NinegateSecret);
    AdminRead(w, env, NinegateSecret, wb, NinegateRead, ForNinegateAdmin);
    BuiltNinegate(wb, cn, loc, env, Pipeline);
  }

  /** What Dex's configuration says was settled by the run that made it. */
  lemma DexMade(w: World, env: Env)
    requires Makes(w, env, DexConfig) && AdminFilled(Mine(Reconcile(w, env)), w.me)
    ensures var m := Mine(Reconcile(w, env));
            && Has(m, w.me, NinegateSecret) && PayloadOf(m, w.me, DexConfig).DexSettings?
            && PayloadOf(m, w.me, DexConfig).ninegateSecret == SecretSeen(env, Read(m, w.me, NinegateSecret, AppSecret))
            && PayloadOf(m, w.me, DexConfig).bindPW == AdminSeen(w, env, m, DexRead, ForDexAdmin)
            && (AdminFound(w, env, DexRead) ==> Has(m, w.me, AdminCredentials))
  {
    hide Reconcile, RunAll, Actions, Build, NewPassword, Mine, ReadOr, Rank, Avoids, AdminSeen, AdminFound, AdminFilled;
    var r := MakerRun(w, env, DexConfig);
    var wb, cn, loc := FoundBy(r, env, w.cr.value.spec, DexConfig);
    SecretActionsIn(w.cr.value.spec);
    AdminRead(w, env, DexConfig, wb, DexRead, ForDexAdmin);
    var w1 := BuiltDex(wb, cn, loc, env, Pipeline);
    assert Has(Mine(wb), w.me, NinegateSecret);
    ReadExactly(w1, env, NinegateSecret, DexRead, AppSecret, ForDexClient);
  }

  // ---- Over every history ---------------------------------------------------------------------------------

  lemma FilledThen(w0: World, steps: seq<Step>, m: Objs)
    requires Fresh(w0) && Extends(m, Mine(Play(w0, steps)))
    ensures AdminFilled(m, w0.me)
  {
    hide Play, Mine, NewPassword, Maker;
    if Has(m, w0.me, AdminCredentials) {
      AdminBorn(w0, steps);
    }
  }

  /** Login, exactly, over every history: no proviso. Dex is given what its run read of `app-secret`, Ninegate sends
      `oidc-client-secret`; the two fit exactly when passwords that were generated independently happen to be equal. */
  lemma LoginFitsByChance(w0: World, steps: seq<Step>)
    requires Fresh(w0) && Has(Mine(Play(w0, steps)), w0.me, DexConfig)
    ensures var envN, envD := Maker(w0, steps, NinegateSecret), Maker(w0, steps, DexConfig);
            LoginFits(Play(w0, steps)) <==>
              SecretSeen(envD, OrEmpty(NewPassword(envN, ForAppSecret))) == OrEmpty(NewPassword(envN, ForOidc))
  {
    hide Play, Reconcile, NewPassword, Mine, Makes, BirthStep, AdminSeen, AdminFound, AdminFilled, SecretSeen;
    Born(w0, steps, DexConfig);
    PlayKeepsManaged(w0, steps);
    var w, env := Before(w0, steps, DexConfig), Maker(w0, steps, DexConfig);
    MakesMeans(w, env, DexConfig);
    FilledThen(w0, steps, Mine(Reconcile(w, env)));
    DexMade(w, env);
    SecretsBorn(w0, steps);
  }

  /** The admin password Ninegate starts with, exactly, over every history. */
  lemma NinegateAdminExactly(w0: World, steps: seq<Step>)
    requires Fresh(w0) && Has(Mine(Play(w0, steps)), w0.me, NinegateSecret)
    ensures var now, w, env := Play(w0, steps), Before(w0, steps, NinegateSecret), Maker(w0, steps, NinegateSecret);
            && now.me == w0.me && w.cr.Some?
               && (AdminFound(w, env, NinegateRead) ==> Has(Mine(now), w0.me, AdminCredentials))
            && NinegateAdminOf(now) == AdminSeen(w, env, Mine(now), NinegateRead, ForNinegateAdmin)
  {
    hide Play, Reconcile, NewPassword, Mine, Makes, BirthStep, AdminFilled;
    Born(w0, steps, NinegateSecret);
    PlayKeepsManaged(w0, steps);
    var w, env := Before(w0, steps, NinegateSecret), Maker(w0, steps, NinegateSecret);
    MakesMeans(w, env, NinegateSecret);
    FilledThen(w0, steps, Mine(Reconcile(w, env)));
    NinegateAdminMade(w, env);
  }

  /** The admin password Dex binds with, exactly, over every history. */
  lemma DexAdminExactly(w0: World, steps: seq<Step>)
    requires Fresh(w0) && Has(Mine(Play(w0, steps)), w0.me, DexConfig)
    ensures var now, w, env := Play(w0, steps), Before(w0, steps, DexConfig), Maker(w0, steps, DexConfig);
            && now.me == w0.me && w.cr.Some?
               && (AdminFound(w, env, DexRead) ==> Has(Mine(now), w0.me, AdminCredentials))
            && Has(Mine(now), w0.me, NinegateSecret)
            && DexBinds(now, AdminSeen(w, env, Mine(now), DexRead, ForDexAdmin))
            && DexCarries(now, SecretSeen(env, Read(Mine(now), w0.me, NinegateSecret, AppSecret)))
  {
    hide Play, Reconcile, NewPassword, Mine, Makes, BirthStep, AdminFilled;
    Born(w0, steps, DexConfig);
    PlayKeepsManaged(w0, steps);
    var w, env := Before(w0, steps, DexConfig), Maker(w0, steps, DexConfig);
    MakesMeans(w, env, DexConfig);
    FilledThen(w0, steps, Mine(Reconcile(w, env)));
    DexMade(w, env);
  }

  predicate DexCarries(w: World, secret: string) {
    && Has(Mine(w), w.me, DexConfig) && PayloadOf(Mine(w), w.me, DexConfig).DexSettings?
    && PayloadOf(Mine(w), w.me, DexConfig).ninegateSecret == secret
  }

  /** Admin agreement, exactly, over every history: no proviso. Ninegate and Dex use the same admin password if and only
      if what their makers took for it is the same, each the stored password or a new one. */
  lemma AdminsAgreeExactly(w0: World, steps: seq<Step>)
    requires Fresh(w0) && Has(Mine(Play(w0, steps)), w0.me, DexConfig)
    ensures var now, wN, wD := Play(w0, steps), Before(w0, steps, NinegateSecret), Before(w0, steps, DexConfig);
            var envN, envD := Maker(w0, steps, NinegateSecret), Maker(w0, steps, DexConfig);
            && now.me == w0.me && Has(Mine(now), now.me, NinegateSecret) && wN.cr.Some? && wD.cr.Some?
            && (DexBinds(now, NinegateAdminOf(now)) <==>
                  AdminSeen(wD, envD, Mine(now), DexRead, ForDexAdmin) ==
                  AdminSeen(wN, envN, Mine(now), NinegateRead, ForNinegateAdmin))
  {
    hide Play, NewPassword, Mine, BirthStep, Before, Maker, AdminSeen, AdminFound;
    DexAdminExactly(w0, steps);
    NinegateAdminExactly(w0, steps);
  }

  // ---- Certificates and ingress rules ---------------------------------------------------------------------

  /** The rule's host is covered by the certificate it names. */
  predicate RuleCovered(w: World, app: App) {
    && Has(Mine(w), w.me, IngressFor(app)) && PayloadOf(Mine(w), w.me, IngressFor(app)).HostRule?
    && var tls := PayloadOf(Mine(w), w.me, IngressFor(app)).tls;
    && Has(Mine(w), w.me, tls) && PayloadOf(Mine(w), w.me, tls).Certificate?
    && PayloadOf(Mine(w), w.me, IngressFor(app)).host in PayloadOf(Mine(w), w.me, tls).dns
  }

  lemma PrefixedDiffer(prefix: string, a: string, b: string)
    ensures prefix + "." + a == prefix + "." + b <==> a == b
  {
    assert (prefix + "." + a)[|prefix| + 1..] == a;
    assert (prefix + "." + b)[|prefix| + 1..] == b;
  }

  /** A certificate for one domain covers a rule for another exactly if the domains are the same. */
  lemma DomainsDecide(app: App, a: string, b: string)
    ensures IngressHost(app, a) in CertDns(IngressTls(app).app, b) <==> a == b
  {
    PrefixedDiffer(AppName(app), a, b);
    assert S3Host(a) == "s3" + "." + a && S3Host(b) == "s3" + "." + b;
    PrefixedDiffer("s3", a, b);
    assert S3Host(a)[0] == 's' && S3Host(b)[0] == 's';
    assert HostOf(Rustfs, a)[0] == 'r' && HostOf(Rustfs, b)[0] == 'r';
  }

  lemma BuiltRule(w: World, cn: CR, loc: Locals, env: Env, app: App)
    requires Build(w, cn, loc, env, IngressFor(app), Pipeline).1.Ok?
    ensures Build(w, cn, loc, env, IngressFor(app), Pipeline).1.value.payload ==
            HostRule(IngressHost(app, cn.spec.domain), IngressTls(app), Service(app))
  {
    hide LabelsFor, IngressHost;
  }

  lemma BuiltCert(w: World, cn: CR, loc: Locals, env: Env, app: App, place: Place)
    requires Build(w, cn, loc, env, Tls(app), place).1.Ok?
    ensures var payload := Build(w, cn, loc, env, Tls(app), place).1.value.payload;
            payload.Certificate? && (payload.issuer != SelfSigned ==> payload.dns == CertDns(app, cn.spec.domain))
  {
    hide LabelsFor, CertDns, HostOf;
  }

  /** A spec with a rule has the rule's certificate. */
  lemma RuleHasCert(spec: Spec, app: App)
    requires On(IngressFor(app)) in Actions(spec)
    ensures On(IngressTls(app)) in Actions(spec) && Rank(IngressTls(app)) < Rank(IngressFor(app))
  {
    hide SecretActions, CertActions, ServiceStages, IngressRules, PolicyActions;
    var f := FlagsOf(spec);
    OnlyRulesMakeRules(spec, app);
    RulesSuffice(f, NO_PROMISE);
    assert Suffices(LateKnown(NO_PROMISE, f), NO_PROMISE, On(IngressFor(app)));
    assert IngressTls(app) in CertObjects(f);
    CertsEnsured(f);
  }

  lemma OnlyRulesMakeRules(spec: Spec, app: App)
    requires On(IngressFor(app)) in Actions(spec)
    ensures On(IngressFor(app)) in IngressRules(FlagsOf(spec))
  {
    hide SecretActions, CertStage, ServiceStages, IngressRules, Ordered, Rank;
    var f := FlagsOf(spec);
    SecretsOrdered(spec);
    CertsOrdered(spec);
    ServiceStagesOrdered(SERVICE_COUNT, f);
    RuleRank(app);
    RankedApart(SecretActions(spec), 0, 10, IngressFor(app));
    RankedApart(CertStage(spec), 10, 20, IngressFor(app));
    RankedApart(ServiceStages(SERVICE_COUNT, f), 20, 70, IngressFor(app));
  }

  lemma RuleRank(app: App)
    ensures Rank(IngressFor(app)) >= 70
  {
  }

  lemma RankedApart(acts: seq<Action>, lo: nat, hi: nat, id: Id)
    requires Ordered(acts, lo, hi) && Rank(id) >= hi
    ensures On(id) !in acts
  {
    hide Rank;
    forall i | 0 <= i < |acts| ensures acts[i] != On(id) {
      assert NewTarget(On(id)) == Some(id);
    }
  }

  lemma RuleMade(w: World, env: Env, app: App)
    requires Makes(w, env, IngressFor(app))
    ensures var m := Mine(Reconcile(w, env));
            && Has(m, w.me, IngressTls(app))
            && PayloadOf(m, w.me, IngressFor(app)) ==
               HostRule(IngressHost(app, w.cr.value.spec.domain), IngressTls(app), Service(app))
  {
    hide Reconcile, RunAll, Actions, Build, Mine, Rank, IngressHost, Avoids;
    var r := MakerRun(w, env, IngressFor(app));
    var wb, cn, loc := FoundBy(r, env, w.cr.value.spec, IngressFor(app));
    RuleHasCert(w.cr.value.spec, app);
    BuiltRule(wb, cn, loc, env, app);
    assert Has(Mine(wb), w.me, IngressTls(app));
  }

  lemma CertMade(w: World, env: Env, app: App)
    requires Makes(w, env, Tls(app))
    ensures var payload := PayloadOf(Mine(Reconcile(w, env)), w.me, Tls(app));
            payload.Certificate? && (payload.issuer != SelfSigned ==>
                payload.dns == CertDns(app, w.cr.value.spec.domain))
  {
    hide Reconcile, RunAll, Actions, Build, Mine, CertDns;
    var r := MakerRun(w, env, Tls(app));
    var wb, cn, loc, place := BuiltInRun(r, env, Actions(w.cr.value.spec), Tls(app));
    BuiltCert(wb, cn, loc, env, app, place);
  }

  /** Certificate coverage, exactly, over every history: no proviso. A stored rule's certificate is stored, and covers
      the rule's host if and only if the run that made the rule and the run that made the certificate read the same
      domain. */
  lemma CoverageExactly(w0: World, steps: seq<Step>, app: App)
    requires Fresh(w0) && Has(Mine(Play(w0, steps)), w0.me, IngressFor(app))
    ensures var now, wr, wc := Play(w0, steps), Before(w0, steps, IngressFor(app)), Before(w0, steps, IngressTls(app));
            && wr.cr.Some? && wc.cr.Some? && Has(Mine(now), w0.me, IngressTls(app))
            && (RuleCovered(now, app) <==> wr.cr.value.spec.domain == wc.cr.value.spec.domain)
  {
    hide Play, Reconcile, Mine, Makes, BirthStep, IngressHost, CertDns;
    Born(w0, steps, IngressFor(app));
    PlayKeepsManaged(w0, steps);
    var wr, env := Before(w0, steps, IngressFor(app)), Maker(w0, steps, IngressFor(app));
    MakesMeans(wr, env, IngressFor(app));
    RuleMade(wr, env, app);
    var tls := IngressTls(app);
    Born(w0, steps, tls);
    var wc, envC := Before(w0, steps, tls), Maker(w0, steps, tls);
    MakesMeans(wc, envC, tls);
    CertMade(wc, envC, tls.app);
    SingleTrustRoot(w0, steps, tls.app);
    DomainsDecide(app, wr.cr.value.spec.domain, wc.cr.value.spec.domain);
  }
}
