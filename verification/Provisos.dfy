/** Why the agreement of database, S3 and Ninegate needs each of its provisos: two-run histories that break it. */
module Provisos {
  import opened Objects
  import opened Api
  import opened Passwords
  import opened Contents
  import opened Pipeline
  import opened Runs
  import opened Histories
  import opened Prefix
  import opened Phases
  import opened Invariants
  import opened Agreement
  import opened CleanRuns
  import opened Recovery
  import opened Births
  import opened Origins

  // ---- The secrets stage of an undisturbed run -----------------------------------------------------

  const LATER: set<Id> := {PostgresSecret, RustfsSecret, NinegateSecret, LdapsRoute}

  lemma OpeningFacts(spec: Spec)
    ensures On(TheNamespace) in NamespaceStage()
    ensures forall a | a in NamespaceStage() :: Feasible(a, {}, false)
    ensures forall a | a in AdminStage(spec) + [Enter(Blame("RootSecretsFailed", None))] ::
            Feasible(a, {TheNamespace}, false)
    ensures forall id | id in LATER :: Avoids(Opening(spec), id)
    ensures ReadPasswords !in Roots() + FromNinegate()
  {
    SecretsFeasible(spec);
    assert Feasible(Enter(Blame("RootSecretsFailed", None)), {TheNamespace}, false);
    assert forall a | a in Opening(spec) :: Target(a) in {None, Some(TheNamespace), Some(AdminCredentials)};
  }

  /** The opening creates none of the later objects, and leaves the process up. */
  lemma OpeningRun(r: Run, env: Env, spec: Spec)
    requires Up(r, {}, false) && AllUndisturbed(env, Opening(spec))
    ensures Up(RunAll(r, env, Opening(spec)), {TheNamespace}, false)
    ensures forall id | id in LATER ::
            Has(Mine(RunAll(r, env, Opening(spec)).w), r.w.me, id) == Has(Mine(r.w), r.w.me, id)
  {
    hide RunAll, NamespaceStage, AdminStage, Undisturbed, Up;
    var rest := AdminStage(spec) + [Enter(Blame("RootSecretsFailed", None))];
    OpeningFacts(spec);
    var r1 := RunAll(r, env, NamespaceStage());
    UpRun(r, env, NamespaceStage(), {}, false, {TheNamespace});
    var ids: set<Id> := {};
    assert ids + {TheNamespace} == {TheNamespace};
    UpRun(r1, env, rest, {TheNamespace}, false, {});
    assert {TheNamespace} + ids == {TheNamespace};
    assert Opening(spec) == NamespaceStage() + rest;
    Split(r, env, NamespaceStage(), rest);
    forall id | id in LATER
      ensures Has(Mine(RunAll(r, env, Opening(spec)).w), r.w.me, id) == Has(Mine(r.w), r.w.me, id)
    {
      Untouched(r, env, Opening(spec), id);
    }
  }

  lemma UpToPasswords(r: Run, env: Env, spec: Spec)
    requires Up(r, {}, false) && r.cn.spec == spec && AllUndisturbed(env, Opening(spec))
             && Undisturbed(env, ReadPasswords)
    ensures var r2 := WithPasswords(r, env, spec);
            && Up(r2, {TheNamespace}, false) && r2.w.me == r.w.me && Extends(Mine(r.w), Mine(r2.w))
            && (forall id | id in LATER :: Has(Mine(r2.w), r.w.me, id) == Has(Mine(r.w), r.w.me, id))
            && r2.loc.pg == Held(PostgresSecret, spec, env, Stored(Mine(r.w), r.w.me, PostgresSecret))
            && r2.loc.s3 == Held(RustfsSecret, spec, env, Stored(Mine(r.w), r.w.me, RustfsSecret))
    ensures RunAll(r, env, SecretActions(spec)) == RunAll(WithPasswords(r, env, spec), env, Roots() + FromNinegate())
  {
    hide Exec, RunAll, Opening, Up, Feasible, Undisturbed, Held, Roots, FromNinegate, SecretActions, Mine;
    OpeningRun(r, env, spec);
    Frame(r, env, Opening(spec));
    var r1 := RunAll(r, env, Opening(spec));
    assert Feasible(ReadPasswords, {TheNamespace}, false) by { ReadingIsFeasible(); }
    UpExec(r1, env, ReadPasswords, {TheNamespace}, false);
    UpIsGoing(r1, {TheNamespace});
    UpIsGoing(Exec(r1, env, ReadPasswords), {TheNamespace});
    ReadStep(r1, env);
    SecretsSplit(spec);
    Split(r, env, Opening(spec), [ReadPasswords] + (Roots() + FromNinegate()));
    Cons(r1, env, ReadPasswords, Roots() + FromNinegate());
  }

  lemma ReadingIsFeasible()
    ensures Feasible(ReadPasswords, {TheNamespace}, false)
  {
  }

  // ---- The first run: cut off before the Ninegate secret ------------------------------------------

  ghost predicate CutOff(env: Env) {
    OnlyAt(env, NinegateSecret) && FaultAt(env, Creating(NinegateSecret, Pipeline)) == CrashBefore
  }

  lemma BeforeTheCut(env: Env, spec: Spec)
    requires CutOff(env)
    ensures AllUndisturbed(env, Opening(spec)) && AllUndisturbed(env, Roots()) && Undisturbed(env, ReadPasswords)
    ensures Begins(env)
  {
    OpeningFacts(spec);
    AvoidedIsUndisturbed(env, Opening(spec), NinegateSecret);
    AvoidedIsUndisturbed(env, Roots(), NinegateSecret);
  }

  lemma RootsFeasible()
    ensures forall a | a in Roots() :: Feasible(a, {TheNamespace}, false)
    ensures On(PostgresSecret) in Roots() && On(RustfsSecret) in Roots()
    ensures Avoids(Roots(), NinegateSecret) && Avoids(Roots(), LdapsRoute)
    ensures ReadPasswords !in Roots()
  {
    assert Roots()[0] == On(PostgresSecret) && Roots()[1] == On(RustfsSecret);
  }

  /** Creating the absent root secrets stores the passwords the run holds. */
  lemma RootsRun(r: Run, env: Env)
    requires Up(r, {TheNamespace}, false) && AllUndisturbed(env, Roots())
    requires forall id | id in LATER :: !Has(Mine(r.w), r.w.me, id)
    ensures var r' := RunAll(r, env, Roots());
            && Up(r', {TheNamespace}, false) && r'.w.me == r.w.me
            && Has(Mine(r'.w), r.w.me, PostgresSecret) && Stored(Mine(r'.w), r.w.me, PostgresSecret) == r.loc.pg
            && Has(Mine(r'.w), r.w.me, RustfsSecret) && Stored(Mine(r'.w), r.w.me, RustfsSecret) == r.loc.s3
            && !Has(Mine(r'.w), r.w.me, NinegateSecret) && !Has(Mine(r'.w), r.w.me, LdapsRoute)
  {
    hide Exec, RunAll, Up, Feasible, Undisturbed, Build, Roots, Mine;
    RootsFeasible();
    UpStays(r, env, Roots(), {TheNamespace}, false);
    UpIsGoing(RunAll(r, env, Roots()), {TheNamespace});
    Frame(r, env, Roots());
    Done(r, env, Roots(), On(PostgresSecret));
    Done(r, env, Roots(), On(RustfsSecret));
    Untouched(r, env, Roots(), NinegateSecret);
    Untouched(r, env, Roots(), LdapsRoute);
    var wb, cn, loc, place := BuiltInRun(r, env, Roots(), PostgresSecret);
    BuiltPassword(wb, cn, loc, env, PostgresSecret, place);
    wb, cn, loc, place := BuiltInRun(r, env, Roots(), RustfsSecret);
    BuiltPassword(wb, cn, loc, env, RustfsSecret, place);
  }

  lemma UpIsGoing(r: Run, have: set<Id>)
    requires Up(r, have, false)
    ensures r.out == Going && r.w.alive
  {
  }

  /** The process dies before the secret is created. */
  lemma CrashStep(r: Run, env: Env)
    requires Up(r, {TheNamespace}, false) && CutOff(env) && !Has(Mine(r.w), r.w.me, NinegateSecret)
    ensures var r' := Exec(r, env, On(NinegateSecret)); !r'.w.alive && Mine(r'.w) == Mine(r.w) && r'.w.me == r.w.me
  {
    hide Build, Mine;
    ExecFacts(r, env, On(NinegateSecret));
    var w1 := Get(r.w, env, Reading(NinegateSecret, Pipeline), K(r.w, NinegateSecret)).0;
    AbsentInStore(r.w, env);
    var (w2, o) := Build(w1, r.cn, r.loc, env, NinegateSecret, Pipeline);
    NinegateBuilds(w1, r.cn, r.loc, env);
    CrashLeaves(w2, env, o.value);
  }

  lemma AbsentInStore(w: World, env: Env)
    requires w.alive && CutOff(env) && !Has(Mine(w), w.me, NinegateSecret)
    ensures var (w1, g) := Get(w, env, Reading(NinegateSecret, Pipeline), K(w, NinegateSecret));
            w1.alive && g == Missed(NotFound)
  {
    var wi := Interfere(w, env, Reading(NinegateSecret, Pipeline));
    assert K(w, NinegateSecret) in wi.store <==> K(w, NinegateSecret) in Mine(wi);
  }

  lemma NinegateBuilds(w: World, cn: CR, loc: Locals, env: Env)
    requires w.alive && CutOff(env)
    ensures Build(w, cn, loc, env, NinegateSecret, Pipeline).0.alive
            && Build(w, cn, loc, env, NinegateSecret, Pipeline).1.Ok?
  {
    hide ReadOr, LabelsFor, NinegateFields, Mine;
    ReadOrLives(w, env, AdminCredentials, NinegateRead, AdminPassword, ForNinegateAdmin);
  }

  lemma CrashLeaves(w: World, env: Env, o: Obj)
    requires CutOff(env)
    ensures var w' := Create(w, env, Creating(NinegateSecret, Pipeline), K(w, NinegateSecret), o).0;
            !w'.alive && Mine(w') == Mine(w) && w'.me == w.me
  {
  }

  /** What the cut-off run leaves behind: the two root secrets with the passwords it held, and no Ninegate secret. */
  lemma FirstRun(r: Run, env: Env, spec: Spec)
    requires Up(r, {}, false) && CutOff(env) && r.cn.spec == spec && Mine(r.w) == map[]
    ensures var w := RunAll(r, env, SecretActions(spec)).w;
            && !w.alive && w.me == r.w.me
            && (forall root | IsRoot(root) ::
               Has(Mine(w), w.me, root) && Stored(Mine(w), w.me, root) == Held(root, spec, env, ""))
            && !Has(Mine(w), w.me, NinegateSecret) && !Has(Mine(w), w.me, LdapsRoute)
  {
    hide Exec, RunAll, Opening, Up, CaStage, Held, Roots, CutOff, AllUndisturbed, Undisturbed, WithPasswords;
    BeforeTheCut(env, spec);
    UpToPasswords(r, env, spec);
    var r2 := WithPasswords(r, env, spec);
    RootsRun(r2, env);
    var r3 := RunAll(r2, env, Roots());
    CrashStep(r3, env);
    DeadRunIsInert(Exec(r3, env, On(NinegateSecret)), env, CaStage());
    Cons(r3, env, On(NinegateSecret), CaStage());
    Split(r2, env, Roots(), FromNinegate());
  }

  // ---- The second run -----------------------------------------------------------------------------

  lemma CalmSecrets(env: Env, spec: Spec)
    requires Calm(env)
    ensures AllUndisturbed(env, Opening(spec)) && Undisturbed(env, ReadPasswords)
            && AllUndisturbed(env, SecretActions(spec))
    ensures Begins(env)
  {
    hide Opening, SecretActions;
    assert Tolerated(env, CrRead) && Tolerated(env, FinalizerAdd) && Tolerated(env, ProvisioningWrite);
  }

  /** A calm run makes the Ninegate secret. */
  lemma SecondRun(r: Run, env: Env, spec: Spec)
    requires Up(r, {}, false) && Calm(env)
    ensures Has(Mine(RunAll(r, env, SecretActions(spec)).w), r.w.me, NinegateSecret)
  {
    hide Exec, RunAll, Up, SecretActions, Calm, Mine;
    CalmSecrets(env, spec);
    hide AllUndisturbed, Undisturbed;
    UpSecrets(r, env, spec);
    UpIsGoing(RunAll(r, env, SecretActions(spec)), {TheNamespace, PostgresSecret, CaSecret});
    NinegateEnsured(spec);
    Done(r, env, SecretActions(spec), On(NinegateSecret));
  }

  lemma NinegateEnsured(spec: Spec)
    ensures On(NinegateSecret) in SecretActions(spec)
  {
    hide Opening, CaStage, SecretActions;
    SecretsSplit(spec);
    assert FromNinegate()[0] == On(NinegateSecret);
    assert On(NinegateSecret) in [ReadPasswords] + (Roots() + FromNinegate());
  }

  // ---- Whole histories ------------------------------------------------------------------------------

  /** A run that is cut off, an edit of the spec, and a second run. */
  function Interrupted(env1: Env, spec: Spec, env2: Env): seq<Step> {
    [RunOnce(env1), EditSpec(spec), RunOnce(env2)]
  }

  /** A run whose calls on the resource go through gets to provision. */
  lemma BeginsOnce(w: World, env: Env) returns (r0: Run)
    requires Managed(w) && w.cr.value.status.phase != Phase.Ready && Coherent(w.cr.value.status) && Begins(env)
    ensures Reconcile(w, env) == Finish(RunAll(r0, env, Actions(w.cr.value.spec)), env)
    ensures Up(r0, {}, false) && r0.cn.spec == w.cr.value.spec && r0.w.me == w.me && Mine(r0.w) == Mine(w)
    ensures r0.w.cr.Some? && r0.w.cr.value.status == Started(w.cr.value.status)
  {
    hide RunAll, Finish, Actions, Reconcile, Begins, Begin;
    var began;
    began, r0 := ReconcileShape(w, env);
  }

  /** What the first run leaves behind. */
  lemma FirstReconcile(w: World, env: Env)
    requires Fresh(w) && CutOff(env)
    ensures var w' := Reconcile(w, env);
            && Managed(w') && w'.me == w.me && w'.cr.value.status.phase == Provisioning && Coherent(w'.cr.value.status)
            && (forall root | IsRoot(root) ::
                  Has(Mine(w'), w.me, root) && Stored(Mine(w'), w.me, root) == Held(root, w.cr.value.spec, env, ""))
            && !Has(Mine(w'), w.me, NinegateSecret) && !Has(Mine(w'), w.me, LdapsRoute)
            && Sane(Mine(w'), w.me, NO_PROMISE)
  {
    hide RunAll, SecretActions, CertStage, LateActions, Reconcile, Held, CutOff, Up, Sane, Begins, Mine;
    var spec := w.cr.value.spec;
    RunKeepsManaged(w, env);
    RunMoves(w, env);
    FreshIsSane(w);
    assert EnvKeeps(NO_PROMISE, env);
    SaneReconcile(w, env, NO_PROMISE);
    BeforeTheCut(env, spec);
    var r0 := BeginsOnce(w, env);
    var rest := CertStage(spec) + LateActions(FlagsOf(spec));
    FirstRun(r0, env, spec);
    var r := RunAll(r0, env, SecretActions(spec));
    Split(r0, env, SecretActions(spec), rest);
    DeadRunIsInert(r, env, rest);
    Frame(r0, env, SecretActions(spec));
  }

  lemma SecondReconcile(w: World, env: Env)
    requires Managed(w) && w.cr.value.status.phase != Phase.Ready && Coherent(w.cr.value.status) && Calm(env)
    ensures Has(Mine(Reconcile(w, env)), w.me, NinegateSecret)
  {
    hide RunAll, SecretActions, CertStage, LateActions, Finish, Reconcile, Calm, Up, Begins, Mine;
    var spec := w.cr.value.spec;
    CalmSecrets(env, spec);
    hide AllUndisturbed, Undisturbed;
    var r0 := BeginsOnce(w, env);
    SecondRun(r0, env, spec);
    var rest := CertStage(spec) + LateActions(FlagsOf(spec));
    var r := RunAll(r0, env, SecretActions(spec));
    Split(r0, env, SecretActions(spec), rest);
    Frame(r0, env, SecretActions(spec));
    Frame(r, env, rest);
    FinishFacts(RunAll(r, env, rest), env);
  }

  /** The parts of such a history. */
  lemma InterruptedParts(w: World, env1: Env, spec: Spec, env2: Env)
    ensures var steps := Interrupted(env1, spec, env2); var w1 := Reconcile(w, env1);
            && Play(w, steps[..0]) == w && Play(w, steps[..1]) == w1
            && Play(w, steps[..2]) == Apply(w1, EditSpec(spec))
            && Play(w, steps[..3]) == Play(w, steps) == Reconcile(Apply(w1, EditSpec(spec)), env2)
  {
    hide Reconcile;
    var steps := Interrupted(env1, spec, env2);
    assert steps[..2][..1] == steps[..1] && steps[..1][..0] == [] && steps[..3] == steps;
    assert Play(w, steps[..1]) == Apply(Play(w, []), RunOnce(env1));
    assert Play(w, steps[..2]) == Apply(Play(w, steps[..1]), EditSpec(spec));
  }

  /** What such a history ends with: the second run made the Ninegate secret. */
  lemma InterruptedEnds(w: World, env1: Env, spec: Spec, env2: Env)
    requires Fresh(w) && CutOff(env1) && Calm(env2)
    ensures var steps := Interrupted(env1, spec, env2); var w2 := Before(w, steps, NinegateSecret);
            && Has(Mine(Play(w, steps)), w.me, NinegateSecret) && Maker(w, steps, NinegateSecret) == env2
            && w2.cr.Some? && w2.cr.value.spec == spec
            && (forall root | IsRoot(root) ::
                  Has(Mine(w2), w.me, root) && Stored(Mine(w2), w.me, root) == Held(root, w.cr.value.spec, env1, ""))
            && (spec.services.Some? ==> IsReady(Play(w, steps)))
  {
    hide Reconcile, Held, CutOff, Calm, Sane, Play, Mine;
    var steps := Interrupted(env1, spec, env2);
    InterruptedParts(w, env1, spec, env2);
    FirstReconcile(w, env1);
    var w1 := Apply(w, RunOnce(env1));
    var w2 := Apply(w1, EditSpec(spec));
    IdleStep(w1, EditSpec(spec));
    SecondReconcile(w2, env2);
    BirthAt(w, steps, 2, NinegateSecret);
    if spec.services.Some? {
      CalmReconcile(w2, env2);
    }
  }

  /** After a first run that is cut off before the Ninegate secret, an edit of the spec and a second run in which at
      most errors occur that the code ignores, Ninegate disagrees with a root secret exactly when the second run works
      with another password than the first. The second run ends Ready all the same. */
  lemma InterruptedDisagrees(w: World, env1: Env, spec: Spec, env2: Env, root: Id)
    requires Fresh(w) && CutOff(env1) && Calm(env2) && IsRoot(root)
    ensures var now := Play(w, Interrupted(env1, spec, env2)); var first := Held(root, w.cr.value.spec, env1, "");
            && (Disagrees(root, now) <==> Held(root, spec, env2, first) != first)
            && (spec.services.Some? ==> IsReady(now))
  {
    hide Held, CutOff, Calm, Play, Mine, Before, Maker, Disagrees;
    InterruptedEnds(w, env1, spec, env2);
    AgreementExactly(w, Interrupted(env1, spec, env2), root);
  }

  /** The first run's environment: cut off just before the Ninegate secret is created. */
  function CutOffWith(draws: map<Purpose, seq<Draw>>): Env {
    PEACE.(faults := map[Creating(NinegateSecret, Pipeline) := CrashBefore], draws := draws)
  }

  lemma FirstChar(draws: seq<Draw>, n: nat, length: nat)
    requires length > 0 && Head(draws) == Value(n) && Generate(draws, length).Some?
    ensures Generate(draws, length).value[0] == Letter(n)
  {
  }

  lemma FirstLetters()
    ensures Letter(0) == 'a' && Letter(1) == 'b'
  {
  }

  /** What a working generator yields starts with the letter its first number picks. */
  lemma WorkingGenerator(env: Env, p: Purpose, n: nat)
    requires (DrawsFor(env, p) == [] && n == 0) || DrawsFor(env, p) == [Value(n)]
    ensures NewPassword(env, p).Some? && NewPassword(env, p).value != ""
    ensures NewPassword(env, p).value[0] == Letter(n)
  {
    hide Letter, Generate;
    GenerateSucceeds(DrawsFor(env, p), Length(p));
    PasswordNotEmpty(env, p);
    FirstChar(DrawsFor(env, p), n, Length(p));
  }

  /** With these draws every password can be generated. */
  lemma Generates(env: Env, root: Id)
    requires IsRoot(root) && env.draws in {map[], map[PurposeFor(root) := [Value(1)]]}
    ensures NewPassword(env, ForPostgres).Some? && NewPassword(env, ForRustfs).Some?
    ensures NewPassword(env, PurposeFor(root)).value != ""
    ensures NewPassword(env, PurposeFor(root)).value[0] == if env.draws == map[] then 'a' else 'b'
  {
    hide NewPassword, Letter;
    FirstLetters();
    var n := if env.draws == map[] then 0 else 1;
    WorkingGenerator(env, ForPostgres, if root == PostgresSecret then n else 0);
    WorkingGenerator(env, ForRustfs, if root == PostgresSecret then 0 else n);
  }

  lemma TestEnvs(root: Id, fault: Fault, draws: map<Purpose, seq<Draw>>)
    requires IsRoot(root) && fault in {Drop, Ambiguous, Stale} && forall p | NeedsRandom(p) :: p !in draws
    ensures CutOff(CutOffWith(draws)) && Calm(LyingRead(root, fault)) && Calm(PEACE)
  {
  }

  /** One password read is disturbed, and the numbers drawn differ from the first run's. */
  function LyingRead(root: Id, fault: Fault): Env {
    PEACE.(faults := map[Reading(root, PasswordRead) := fault], draws := map[PurposeFor(root) := [Value(1)]])
  }

  /** Proviso one, truthful reads: with no override, one failing or stale read suffices, for either root secret, while
      the overrides are kept and every password can be generated. The client is Ready all the same. */
  lemma AgreementNeedsTruthfulReads(w: World, root: Id, fault: Fault)
    requires Fresh(w) && IsRoot(root) && OverrideFor(root, w.cr.value.spec) == "" && fault in {Drop, Ambiguous, Stale}
    ensures var spec := w.cr.value.spec;
            var steps := Interrupted(CutOffWith(map[]), spec, LyingRead(root, fault));
            && OverridesKept(spec, steps) && PasswordsGenerated(spec, steps)
            && Disagrees(root, Play(w, steps)) && (spec.services.Some? ==> IsReady(Play(w, steps)))
  {
    hide NewPassword, Disagrees, Play, CutOff, Calm, IsReady;
    var env1, env2 := CutOffWith(map[]), LyingRead(root, fault);
    TestEnvs(root, fault, map[]);
    Generates(env1, root);
    Generates(env2, root);
    assert FaultAt(env2, Reading(root, PasswordRead)) == fault && PurposeFor(root) in env2.draws;
    var a, b := Held(root, w.cr.value.spec, env1, ""), NewPassword(env2, PurposeFor(root)).value;
    assert a == NewPassword(env1, PurposeFor(root)).value && Held(root, w.cr.value.spec, env2, a) == b;
    assert a[0] != b[0];
    InterruptedDisagrees(w, env1, w.cr.value.spec, env2, root);
  }

  /** Proviso two, constant overrides: editing one override between the runs suffices, with every call truthful and
      every password generated. */
  lemma AgreementNeedsConstantOverrides(w: World, spec: Spec, root: Id)
    requires Fresh(w) && IsRoot(root)
    requires OverrideFor(root, w.cr.value.spec) != "" && OverrideFor(root, spec) != ""
    requires OverrideFor(root, spec) != OverrideFor(root, w.cr.value.spec)
    ensures var steps := Interrupted(CutOffWith(map[]), spec, PEACE);
            && (forall s | s in [w.cr.value.spec, spec] ::
               PasswordReadsTruthful(s, steps) && PasswordsGenerated(s, steps))
            && Disagrees(root, Play(w, steps)) && (spec.services.Some? ==> IsReady(Play(w, steps)))
  {
    hide NewPassword, Disagrees, Play, CutOff, Calm, IsReady;
    var env := CutOffWith(map[]);
    TestEnvs(root, Drop, map[]);
    Generates(env, root);
    Generates(PEACE, root);
    InterruptedDisagrees(w, env, spec, PEACE, root);
  }

  /** Proviso three, a working generator: one failed generation in the first run, whose error is ignored, suffices,
      with every read truthful and the overrides kept. */
  lemma AgreementNeedsRandomness(w: World, root: Id)
    requires Fresh(w) && IsRoot(root) && OverrideFor(root, w.cr.value.spec) == ""
    ensures var spec := w.cr.value.spec;
            var steps := Interrupted(CutOffWith(map[PurposeFor(root) := [NoRandom]]), spec, PEACE);
            && OverridesKept(spec, steps) && PasswordReadsTruthful(spec, steps)
            && Disagrees(root, Play(w, steps)) && (spec.services.Some? ==> IsReady(Play(w, steps)))
  {
    hide NewPassword, Disagrees, Play, CutOff, Calm, IsReady;
    var env := CutOffWith(map[PurposeFor(root) := [NoRandom]]);
    TestEnvs(root, Drop, map[PurposeFor(root) := [NoRandom]]);
    NoPassword(env, PurposeFor(root));
    Generates(PEACE, root);
    InterruptedDisagrees(w, env, w.cr.value.spec, PEACE, root);
  }

  lemma NoPassword(env: Env, p: Purpose)
    requires DrawsFor(env, p) == [NoRandom]
    ensures NewPassword(env, p).None?
  {
    GenerateSucceeds(DrawsFor(env, p), Length(p));
    assert DrawsFor(env, p)[0] == NoRandom;
  }
}
