/** Why the agreement of the admin passwords and of Dex's client secret needs each of its provisos. */
module AdminProvisos {
  import opened Objects
  import opened Api
  import opened Passwords
  import opened Contents
  import opened Pipeline
  import opened Runs
  import opened Histories
  import opened Prefix
  import opened PlanOrder
  import opened Invariants
  import opened CleanRuns
  import opened Recovery
  import opened Completeness
  import opened Agreement
  import opened Closure
  import opened Provisos
  import opened Births
  import opened Origins
  import opened Discrepancies

  predicate WithDex(w: World) { w.cr.Some? && w.cr.value.spec.services.Some? && w.cr.value.spec.services.value.dex }

  /** The objects of a first run that goes through without an error the code minds. */
  lemma CalmFirstObjects(w: World, env: Env)
    requires Fresh(w) && Calm(env) && WithDex(w)
    ensures var w' := Reconcile(w, env);
            && IsReady(w') && Has(Mine(w'), w.me, NinegateSecret) && Has(Mine(w'), w.me, DexConfig)
            && (Has(Mine(w'), w.me, AdminCredentials) <==> !w.cr.value.spec.passwordSecretRef)
  {
    hide Reconcile, Plan, Build, Calm, Mine;
    var spec := w.cr.value.spec;
    SecretPlanned(spec);
    DexIsPlanned(spec);
    CalmFirstRun(w, env);
    PlayOnce(w, env);
    ReadyOwnsThePlan(w, [RunOnce(env)]);
    var w' := Reconcile(w, env);
    RunKeepsManaged(w, env);
    assert forall id :: K(w, id) in Mine(w') <==> id in Plan(spec);
  }

  lemma DexIsPlanned(spec: Spec)
    requires FlagsOf(spec).dex
    ensures DexConfig in Plan(spec)
  {
    hide Plan;
    PlanHasMember(spec, 5, DexConfig);
  }

  /** In a first run, each reader of the admin credentials was the run that made the objects. */
  lemma FirstReaders(w: World, env: Env)
    requires Fresh(w) && Calm(env) && WithDex(w)
    ensures var w' := Play(w, [RunOnce(env)]);
            && IsReady(w') && w'.me == w.me && Has(Mine(w'), w.me, NinegateSecret) && Has(Mine(w'), w.me, DexConfig)
            && (Has(Mine(w'), w.me, AdminCredentials) <==> !w.cr.value.spec.passwordSecretRef)
            && !Has(Mine(w), w.me, AdminCredentials)
            && NinegateAdminOf(w') == AdminSeen(w, env, Mine(w'), NinegateRead, ForNinegateAdmin)
            && DexBinds(w', AdminSeen(w, env, Mine(w'), DexRead, ForDexAdmin))
            && DexCarries(w', SecretSeen(env, Read(Mine(w'), w.me, NinegateSecret, AppSecret)))
            && Read(Mine(w'), w.me, NinegateSecret, AppSecret) == OrEmpty(NewPassword(env, ForAppSecret))
  {
    hide Reconcile, Calm, Mine, NewPassword, Play, AdminSeen, SecretSeen, BirthStep, Before, Maker, Plan;
    PlayOnce(w, env);
    RunKeepsManaged(w, env);
    CalmFirstObjects(w, env);
    NothingAtFirst(w);
    BornAtOnce(w, env, NinegateSecret);
    BornAtOnce(w, env, DexConfig);
    NinegateAdminExactly(w, [RunOnce(env)]);
    DexAdminExactly(w, [RunOnce(env)]);
    SecretsBorn(w, [RunOnce(env)]);
  }

  // ---- The admin password -----------------------------------------------------------------------------

  /** Proviso one, no reference: with an admin password reference nothing is stored under the name of the admin
      credentials and the reference is not followed. Ninegate and Dex agree on the admin password exactly when two
      independently generated passwords are equal; the client is Ready all the same. */
  lemma ReferenceSeparatesAdmins(w: World, env: Env)
    requires Fresh(w) && Calm(env) && WithDex(w) && w.cr.value.spec.passwordSecretRef
    ensures var w' := Play(w, [RunOnce(env)]);
            && IsReady(w') && !Has(Mine(w'), w'.me, AdminCredentials) && Has(Mine(w'), w'.me, NinegateSecret)
            && (DexBinds(w', NinegateAdminOf(w')) <==>
                  OrEmpty(NewPassword(env, ForDexAdmin)) == OrEmpty(NewPassword(env, ForNinegateAdmin)))
  {
    hide Calm, Mine, NewPassword, Play;
    FirstReaders(w, env);
  }

  /** Proviso two, truthful reads: if one of the two cross-reads of the admin credentials fails, its reader agrees with
      the stored credentials exactly when two independently generated passwords are equal. */
  lemma LyingReadSeparatesAdmins(w: World, env: Env)
    requires Fresh(w) && Calm(env) && WithDex(w) && !w.cr.value.spec.passwordSecretRef
    ensures var w' := Play(w, [RunOnce(env)]);
            && IsReady(w') && Has(Mine(w'), w'.me, AdminCredentials) && Has(Mine(w'), w'.me, NinegateSecret)
            && NewPassword(env, ForAdmin).Some?
            && var admin := Read(Mine(w'), w'.me, AdminCredentials, AdminPassword);
            && (FaultAt(env, Reading(AdminCredentials, NinegateRead)) != Clean ==>
                  (NinegateAdminOf(w') == admin <==>
                     OrEmpty(NewPassword(env, ForNinegateAdmin)) == NewPassword(env, ForAdmin).value))
            && (FaultAt(env, Reading(AdminCredentials, DexRead)) != Clean ==>
                  (DexBinds(w', admin) <==> OrEmpty(NewPassword(env, ForDexAdmin)) == NewPassword(env, ForAdmin).value))
  {
    hide Calm, Mine, NewPassword, Play;
    FirstReaders(w, env);
    AdminBorn(w, [RunOnce(env)]);
    BornAtOnce(w, env, AdminCredentials);
  }

  // ---- Dex's secret for Ninegate ------------------------------------------------------------------------

  /** Proviso one, a truthful read: if Dex's read of the app secret fails, Dex carries the stored app secret exactly
      when two independently generated passwords are equal. */
  lemma LyingReadSeparatesLogin(w: World, env: Env)
    requires Fresh(w) && Calm(env) && WithDex(w) && FaultAt(env, Reading(NinegateSecret, DexRead)) != Clean
    ensures var w' := Play(w, [RunOnce(env)]);
            && IsReady(w') && Has(Mine(w'), w'.me, NinegateSecret)
            && (DexCarries(w', Read(Mine(w'), w'.me, NinegateSecret, AppSecret)) <==>
                  OrEmpty(NewPassword(env, ForDexClient)) == OrEmpty(NewPassword(env, ForAppSecret)))
  {
    hide Calm, Mine, NewPassword, Play;
    FirstReaders(w, env);
  }

  /** Proviso two, a working generator: if the app secret cannot be generated, the error is ignored, an empty secret is
      stored, and Dex carries another one. */
  lemma FailedSecretSeparatesLogin(w: World, env: Env)
    requires Fresh(w) && Calm(env) && WithDex(w) && NewPassword(env, ForAppSecret).None?
             && NewPassword(env, ForDexClient).Some?
    ensures var w' := Play(w, [RunOnce(env)]);
            && IsReady(w') && Has(Mine(w'), w'.me, NinegateSecret)
               && Read(Mine(w'), w'.me, NinegateSecret, AppSecret) == ""
            && !DexCarries(w', "")
  {
    hide Calm, Mine, NewPassword, Play;
    PasswordNotEmpty(env, ForDexClient);
    FirstReaders(w, env);
  }

  // ---- Such environments exist ----------------------------------------------------------------------------

  /** One cross-read fails, and the passwords that replace it differ from the one it should have read. */
  function OneLie(id: Id, place: Place, fault: Fault): Env {
    PEACE.(faults := map[Reading(id, place) := fault],
           draws := map[ForNinegateAdmin := [Value(1)], ForDexAdmin := [Value(1)], ForDexClient := [Value(1)]])
  }

  function OtherDexAdmin(): Env { PEACE.(draws := map[ForDexAdmin := [Value(1)]]) }

  function NoAppSecret(): Env { PEACE.(draws := map[ForAppSecret := [NoRandom]]) }

  lemma WitnessesAreCalm(id: Id, place: Place, fault: Fault)
    requires place in {NinegateRead, DexRead} && fault in {Drop, Ambiguous, Stale}
    ensures Calm(OneLie(id, place, fault)) && Calm(OtherDexAdmin()) && Calm(NoAppSecret())
  {
  }

  /** Every proviso of the admin agreement is needed: with a reference, or after one failing or stale cross-read, a
      history that keeps the others ends Ready with admin passwords that differ. */
  lemma AdminAgreementNeedsProvisos(w: World, place: Place, fault: Fault)
    requires Fresh(w) && WithDex(w) && place in {NinegateRead, DexRead} && fault in {Drop, Ambiguous, Stale}
    ensures w.cr.value.spec.passwordSecretRef ==>
              var steps := [RunOnce(OtherDexAdmin())]; var w' := Play(w, steps);
              && AdminReadsTruthful(steps)
              && IsReady(w') && Has(Mine(w'), w'.me, NinegateSecret) && !DexBinds(w', NinegateAdminOf(w'))
    ensures !w.cr.value.spec.passwordSecretRef ==>
              var steps := [RunOnce(OneLie(AdminCredentials, place, fault))]; var w' := Play(w, steps);
              && NoPasswordRef(steps)
              && IsReady(w') && Has(Mine(w'), w'.me, AdminCredentials) && Has(Mine(w'), w'.me, NinegateSecret)
              && var admin := Read(Mine(w'), w'.me, AdminCredentials, AdminPassword);
                 if place == NinegateRead then NinegateAdminOf(w') != admin else !DexBinds(w', admin)
  {
    hide Calm, Mine, NewPassword, Play, Letter, DexBinds;
    WitnessesAreCalm(AdminCredentials, place, fault);
    FirstLetters();
    if w.cr.value.spec.passwordSecretRef {
      var env := OtherDexAdmin();
      WorkingGenerator(env, ForDexAdmin, 1);
      WorkingGenerator(env, ForNinegateAdmin, 0);
      ReferenceSeparatesAdmins(w, env);
    } else {
      var env := OneLie(AdminCredentials, place, fault);
      WorkingGenerator(env, ForAdmin, 0);
      WorkingGenerator(env, ForNinegateAdmin, 1);
      WorkingGenerator(env, ForDexAdmin, 1);
      LyingReadSeparatesAdmins(w, env);
    }
  }

  /** Both provisos of Dex's client secret are needed: one failing or stale read, or one failed generation, suffices
      while the other holds. */
  lemma LoginNeedsProvisos(w: World, fault: Fault)
    requires Fresh(w) && WithDex(w) && fault in {Drop, Ambiguous, Stale}
    ensures var env := OneLie(NinegateSecret, DexRead, fault); var w' := Play(w, [RunOnce(env)]);
            && NewPassword(env, ForAppSecret).Some?
            && IsReady(w') && Has(Mine(w'), w'.me, NinegateSecret)
            && !DexCarries(w', Read(Mine(w'), w'.me, NinegateSecret, AppSecret))
    ensures var env := NoAppSecret(); var w' := Play(w, [RunOnce(env)]);
            && Truthful(env, Reading(NinegateSecret, DexRead))
            && IsReady(w') && Has(Mine(w'), w'.me, NinegateSecret)
            && !DexCarries(w', Read(Mine(w'), w'.me, NinegateSecret, AppSecret))
  {
    hide Calm, Mine, NewPassword, Play, Letter, DexCarries;
    WitnessesAreCalm(NinegateSecret, DexRead, fault);
    FirstLetters();
    var lie := OneLie(NinegateSecret, DexRead, fault);
    WorkingGenerator(lie, ForAppSecret, 0);
    WorkingGenerator(lie, ForDexClient, 1);
    LyingReadSeparatesLogin(w, lie);
    NoPassword(NoAppSecret(), ForAppSecret);
    WorkingGenerator(NoAppSecret(), ForDexClient, 0);
    FailedSecretSeparatesLogin(w, NoAppSecret());
  }
}
