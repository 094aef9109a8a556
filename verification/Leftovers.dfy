/** Agreement over whole lifecycles: what still holds after a deletion request, and what can be torn apart. */
module Leftovers {
  import opened Objects
  import opened Api
  import opened Passwords
  import opened Contents
  import opened Pipeline
  import opened Runs
  import opened Histories
  import opened Phases
  import opened Prefix
  import opened PlanOrder
  import opened Invariants
  import opened CleanRuns
  import opened Recovery
  import opened Completeness
  import opened Closure
  import opened Agreement
  import opened Births
  import opened Origins
  import opened Discrepancies
  import opened Deletion
  import opened Lifecycle

  // ---- A lifecycle is a history, and losses after it -------------------------------------------------------

  /** The steps before the first deletion request. */
  function Lived(turns: seq<Turn>): seq<Step> {
    if turns == [] || turns[0].RequestDeletion? then [] else [turns[0].step] + Lived(turns[1..])
  }

  predicate Acted(turns: seq<Turn>, steps: seq<Step>) {
    |turns| == |steps| && forall i | 0 <= i < |turns| :: turns[i] == Act(steps[i])
  }

  lemma {:induction false} LivedFirst(turns: seq<Turn>)
    ensures var n := |Lived(turns)|;
            && n <= |turns| && Acted(turns[..n], Lived(turns)) && (n < |turns| ==> turns[n] == RequestDeletion)
  {
    if turns != [] && turns[0].Act? {
      LivedFirst(turns[1..]);
      var rest := Lived(turns[1..]);
      forall i | 0 <= i < |rest| + 1 ensures turns[..|rest| + 1][i] == Act(Lived(turns)[i]) {
        assert i > 0 ==> turns[1..][..|rest|][i - 1] == Act(rest[i - 1]);
      }
    }
  }

  /** Without a deletion request a lifecycle is a history. */
  lemma {:induction false} ActsArePlay(w0: World, turns: seq<Turn>, steps: seq<Step>)
    requires Fresh(w0) && Acted(turns, steps)
    ensures LiveAll(w0, turns) == Play(w0, steps)
    decreases |turns|
  {
    if turns != [] {
      hide Live, Apply;
      var before, last := turns[..|turns| - 1], steps[|steps| - 1];
      assert Acted(before, steps[..|steps| - 1]);
      ActsArePlay(w0, before, steps[..|steps| - 1]);
      PlayKeepsManaged(w0, steps[..|steps| - 1]);
      ActIsApply(Play(w0, steps[..|steps| - 1]), last);
    }
  }

  lemma ActIsApply(w: World, s: Step)
    requires Managed(w)
    ensures Live(w, Act(s)) == Apply(w, s)
  {
    hide Reconcile, ReconcileAny;
    if s.RunOnce? {
      SameAny(w, s.env);
    }
  }

  lemma RequestMarks(w: World)
    ensures GoingAway(Live(w, RequestDeletion)) && Fewer(w, Live(w, RequestDeletion))
  {
  }

  /** The boundary, sharply: up to the first deletion request a lifecycle is a history, of which everything holds that
      holds of histories; after it the objects of that history only become fewer. */
  lemma LifeAndAfter(w0: World, turns: seq<Turn>)
    requires Fresh(w0)
    ensures var last := Play(w0, Lived(turns)); var w := LiveAll(w0, turns);
            && w.me == last.me == w0.me && Fewer(last, w)
            && (GoingAway(w) <==> RequestDeletion in turns)
            && (RequestDeletion !in turns ==> w == last)
  {
    hide Live, Fewer, Play;
    var n := |Lived(turns)|;
    LivedFirst(turns);
    ActsArePlay(w0, turns[..n], Lived(turns));
    PlayKeepsManaged(w0, Lived(turns));
    var last := Play(w0, Lived(turns));
    if n == |turns| {
      assert turns[..n] == turns;
      SameIsFewer(last);
      assert RequestDeletion !in turns;
    } else {
      assert turns[n] in turns;
      var marked := turns[..n + 1];
      assert marked[..n] == turns[..n] && LiveAll(w0, marked) == Live(last, RequestDeletion);
      RequestMarks(last);
      NothingIsCreatedAfterDeletion(w0, turns, n + 1);
      FewerTransitive(last, LiveAll(w0, marked), LiveAll(w0, turns));
      FewerKeepsClient(last, LiveAll(w0, turns));
    }
  }

  lemma SameIsFewer(w: World)
    ensures Fewer(w, w)
  {
  }

  lemma FewerKeepsClient(w: World, w': World)
    requires Fewer(w, w')
    ensures w'.me == w.me
  {
  }

  // ---- What holds for life ------------------------------------------------------------------------------------

  /** One trust root, for life: there is one CA such that every certificate that is ever left is signed by it, and a CA
      that is left is that one. */
  lemma TrustRootForLife(w0: World, turns: seq<Turn>) returns (ca: nat)
    requires Fresh(w0)
    ensures var m := Mine(LiveAll(w0, turns));
            && (forall app | Has(m, w0.me, Tls(app)) ::
                  PayloadOf(m, w0.me, Tls(app)).Certificate? && PayloadOf(m, w0.me, Tls(app)).issuer == SignedBy(ca))
            && (Has(m, w0.me, CaSecret) ==> PayloadOf(m, w0.me, CaSecret) == CaPair(ca))
  {
    hide LiveAll, Play;
    LifeAndAfter(w0, turns);
    var steps := Lived(turns);
    var m := Mine(Play(w0, steps));
    if Has(m, w0.me, CaSecret) {
      CaIsPair(w0, steps);
    }
    ca := if Has(m, w0.me, CaSecret) then PayloadOf(m, w0.me, CaSecret).ca else 0;
    forall app | Has(m, w0.me, Tls(app))
      ensures PayloadOf(m, w0.me, Tls(app)).Certificate? && PayloadOf(m, w0.me, Tls(app)).issuer == SignedBy(ca)
    {
      SingleTrustRoot(w0, steps, app);
    }
  }

  lemma CaIsPair(w0: World, steps: seq<Step>)
    requires Fresh(w0) && Has(Mine(Play(w0, steps)), w0.me, CaSecret)
    ensures PayloadOf(Mine(Play(w0, steps)), w0.me, CaSecret).CaPair?
  {
    hide Play;
    SaneFor(w0, steps, NO_PROMISE);
  }

  /** Glauth and the database, for life: while both objects are left, the configuration carries the stored password. */
  lemma GlauthForLife(w0: World, turns: seq<Turn>)
    requires Fresh(w0)
    ensures var m := Mine(LiveAll(w0, turns));
            Has(m, w0.me, GlauthConfig) && Has(m, w0.me, PostgresSecret) ==>
              && PayloadOf(m, w0.me, GlauthConfig).GlauthSettings?
              && PayloadOf(m, w0.me, GlauthConfig).connection ==
                 GlauthConnection(Read(m, w0.me, PostgresSecret, PostgresPassword))
  {
    hide LiveAll, Play, GlauthConnection;
    LifeAndAfter(w0, turns);
    if Has(Mine(LiveAll(w0, turns)), w0.me, GlauthConfig) {
      GlauthCarriesStoredPassword(w0, Lived(turns));
    }
  }

  /** Coverage, for life: while a rule and its certificate are left, the certificate covers the rule's host exactly if
      their makers read the same domain. */
  lemma CoverageForLife(w0: World, turns: seq<Turn>, app: App)
    requires Fresh(w0)
    ensures var now := LiveAll(w0, turns); var steps := Lived(turns);
            var wr, wc := Before(w0, steps, IngressFor(app)), Before(w0, steps, IngressTls(app));
            Has(Mine(now), w0.me, IngressFor(app)) && Has(Mine(now), w0.me, IngressTls(app)) ==>
              && wr.cr.Some? && wc.cr.Some?
              && (RuleCovered(now, app) <==> wr.cr.value.spec.domain == wc.cr.value.spec.domain)
  {
    hide LiveAll, Play, Before;
    LifeAndAfter(w0, turns);
    if Has(Mine(LiveAll(w0, turns)), w0.me, IngressFor(app)) {
      CoverageExactly(w0, Lived(turns), app);
      RuleNamesCert(w0, Lived(turns), app);
    }
  }

  lemma RuleNamesCert(w0: World, steps: seq<Step>, app: App)
    requires Fresh(w0) && Has(Mine(Play(w0, steps)), w0.me, IngressFor(app))
    ensures var payload := PayloadOf(Mine(Play(w0, steps)), w0.me, IngressFor(app));
            payload.HostRule? && payload.tls == IngressTls(app)
  {
    hide Play, Reconcile, Mine, Makes, BirthStep, IngressHost;
    Born(w0, steps, IngressFor(app));
    MakesMeans(Before(w0, steps, IngressFor(app)), Maker(w0, steps, IngressFor(app)), IngressFor(app));
    RuleMade(Before(w0, steps, IngressFor(app)), Maker(w0, steps, IngressFor(app)), app);
  }

  /** Database and S3, for life: while both secrets are left, they disagree exactly if the maker of the Ninegate secret
      found the other one and worked with another password. */
  lemma AgreementForLife(w0: World, turns: seq<Turn>, root: Id)
    requires Fresh(w0) && IsRoot(root)
    ensures var now := LiveAll(w0, turns); var steps := Lived(turns);
            var w, env := Before(w0, steps, NinegateSecret), Maker(w0, steps, NinegateSecret);
            Has(Mine(now), w0.me, NinegateSecret) && Has(Mine(now), w0.me, root) ==>
              && w.cr.Some?
              && var stored := Stored(Mine(w), w0.me, root);
                 Disagrees(root, now) <==>
                   Has(Mine(w), w0.me, root) && Held(root, w.cr.value.spec, env, stored) != stored
  {
    hide LiveAll, Play, Before, Maker, Held, DatabaseUrlFor;
    LifeAndAfter(w0, turns);
    if Has(Mine(LiveAll(w0, turns)), w0.me, NinegateSecret) {
      AgreementExactly(w0, Lived(turns), root);
    }
  }

  // ---- What can be torn apart -----------------------------------------------------------------------------------

  /** A deletion run that lists one object only, and whose read of the namespace is dropped. */
  function Parting(gone: Key): Env { PEACE.(faults := map[NamespaceRead := Drop], listed := [gone]) }

  function PartingLife(gone: Key): seq<Turn> { [Act(RunOnce(PEACE)), RequestDeletion, Act(RunOnce(Parting(gone)))] }

  lemma PartingFaults(gone: Key)
    ensures var env := Parting(gone);
            && ReadFails(env) && CalmSweep(env) && FaultAt(env, CrRead) == Clean
               && FaultAt(env, FinalizerRemove) == Clean
            && (forall k :: k in env.listed <==> k == gone)
  {
  }

  /** After a deletion request any two objects can be separated: for any two of the plan, the first of a kind that is
      swept, there is a lifecycle at whose end the resource has been let go, the first is gone and the second is
      left. */
  lemma AnyTwoCanPart(w: World, gone: Id, left: Id)
    requires Fresh(w) && w.cr.value.spec.services.Some?
    requires gone in Plan(w.cr.value.spec) && left in Plan(w.cr.value.spec) && gone != left && KindOf(gone) in SWEPT
    ensures var w' := LiveAll(w, PartingLife(K(w, gone)));
            LetGo(w') && !Has(Mine(w'), w.me, gone) && Has(Mine(w'), w.me, left)
  {
    hide Reconcile, ReconcileAny, Plan, Sane, Labelled, Parting;
    var env := Parting(K(w, gone));
    PartingFaults(K(w, gone));
    LiveThree(w, Act(RunOnce(PEACE)), RequestDeletion, Act(RunOnce(env)));
    FirstRunGuards(w);
    CalmIsPeace();
    CalmFirstRun(w, PEACE);
    SameAny(w, PEACE);
    var w1 := Live(w, Act(RunOnce(PEACE)));
    FirstIsLabelled(w);
    var w2 := Live(w1, RequestDeletion);
    assert Mine(w2) == Mine(w1);
    SwallowedErrorOrphans(w2, env, K(w, gone));
    SwallowedErrorOrphans(w2, env, K(w, left));
  }

  lemma FirstIsLabelled(w: World)
    requires Fresh(w)
    ensures Labelled(Mine(Reconcile(w, PEACE)), w.me)
  {
    hide Reconcile, Sane, Labelled;
    FreshIsSane(w);
    SaneReconcile(w, PEACE, NO_PROMISE);
    SaneIsLabelled(Mine(Reconcile(w, PEACE)), w.me);
  }

  lemma SecretsInPlan(spec: Spec)
    ensures CaSecret in Plan(spec) && Tls(Ninegate) in Plan(spec)
  {
    hide Plan, ServiceOrder, NetworkOrder;
    PlanIs(spec);
    assert CertOrder(FlagsOf(spec))[0] == Tls(Ninegate);
    assert CaSecret in SecretOrder(spec);
    hide SecretOrder, CertOrder;
  }

  /** So a certificate can outlive the CA, Glauth's configuration the password it carries, and an ingress rule its
      certificate: the agreements of histories do not hold after a deletion request. */
  lemma AgreementEndsWithDeletion(w: World)
    requires Fresh(w) && w.cr.value.spec.services.Some?
    ensures var m := Mine(LiveAll(w, PartingLife(K(w, CaSecret))));
            !Has(m, w.me, CaSecret) && Has(m, w.me, Tls(Ninegate))
    ensures w.cr.value.spec.services.value.glauth ==>
              var m := Mine(LiveAll(w, PartingLife(K(w, PostgresSecret))));
              !Has(m, w.me, PostgresSecret) && Has(m, w.me, GlauthConfig)
    ensures var m := Mine(LiveAll(w, PartingLife(K(w, Tls(Ninegate)))));
            !Has(m, w.me, Tls(Ninegate)) && Has(m, w.me, IngressFor(Ninegate))
  {
    hide LiveAll, PartingLife, Plan, Mine;
    var spec := w.cr.value.spec;
    PlanAlwaysHas(spec);
    FirstRulePlanned(spec);
    SecretsInPlan(spec);
    AnyTwoCanPart(w, CaSecret, Tls(Ninegate));
    AnyTwoCanPart(w, Tls(Ninegate), IngressFor(Ninegate));
    if spec.services.value.glauth {
      PlanHasMember(spec, 4, GlauthConfig);
      AnyTwoCanPart(w, PostgresSecret, GlauthConfig);
    }
  }
}
