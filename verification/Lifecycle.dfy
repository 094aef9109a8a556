/** From creation to deletion: whole lifecycles of a client's resource. */
module Lifecycle {
  import opened Objects
  import opened Api
  import opened Contents
  import opened Pipeline
  import opened Runs
  import opened Histories
  import opened Phases
  import opened Invariants
  import opened CleanRuns
  import opened Recovery
  import opened Completeness
  import opened Prefix
  import opened Strandings
  import opened Deletion

  datatype Turn = Act(step: Step) | RequestDeletion

  /** The API server marks a resource that has finalizers, and removes one that has none. */
  function Live(w: World, t: Turn): World {
    match t
    case Act(RunOnce(env)) => ReconcileAny(w, env)
    case Act(step) => Apply(w, step)
    case RequestDeletion =>
      if w.cr.None? then w
      else if w.cr.value.finalizers == {} then w.(cr := None)
      else w.(cr := Some(w.cr.value.(deleting := true, version := w.cr.value.version + 1)))
  }

  function LiveAll(w: World, turns: seq<Turn>): World
    decreases |turns|
  {
    if turns == [] then w else Live(LiveAll(w, turns[..|turns| - 1]), turns[|turns| - 1])
  }

  predicate GoingAway(w: World) { w.cr.None? || w.cr.value.deleting }

  // ---- After the deletion mark --------------------------------------------------------------------------

  /** Once the resource is marked or gone it stays so, and nothing is created. */
  lemma GoingAwayStep(w: World, t: Turn)
    requires GoingAway(w)
    ensures GoingAway(Live(w, t)) && Fewer(w, Live(w, t))
  {
    hide DeletePhase, Reconcile;
    match t {
      case Act(RunOnce(env)) =>
        if w.cr.Some? {
          DeletionTakesOwnOnly(w, env);
          DeletionKeepsMark(w, env);
        }
      case Act(step) => IdleStep(w, step);
      case RequestDeletion =>
    }
  }

  lemma DeletionKeepsMark(w: World, env: Env)
    requires w.cr.Some? && w.cr.value.deleting
    ensures var w' := ReconcileAny(w, env);
            && w'.me == w.me
            && (w'.cr.Some? ==> w'.cr.value.deleting && w'.cr.value.name == w.cr.value.name)
            && (w'.cr.Some? && FINALIZER in w.cr.value.finalizers && w'.cr != w.cr ==>
               FINALIZER !in w'.cr.value.finalizers)
  {
    hide Sweep, DropNamespace, Reconcile;
    var (w0, got) := ReadCr(w, env);
    if got.Ok? {
      SweepFacts(w0, env, SWEPT);
      DropFacts(Sweep(w0, env, SWEPT), env);
    }
  }

  /** Deletion safety over whole lifecycles, whatever the faults: from the deletion mark on no run creates anything,
      and the client's objects only become fewer. */
  lemma {:induction false} NothingIsCreatedAfterDeletion(w0: World, turns: seq<Turn>, n: nat)
    requires n <= |turns| && GoingAway(LiveAll(w0, turns[..n]))
    ensures GoingAway(LiveAll(w0, turns)) && Fewer(LiveAll(w0, turns[..n]), LiveAll(w0, turns))
    decreases |turns|
  {
    if n == |turns| {
      assert turns[..n] == turns;
    } else {
      hide Live, Fewer;
      var before, last := turns[..|turns| - 1], turns[|turns| - 1];
      assert before[..n] == turns[..n];
      NothingIsCreatedAfterDeletion(w0, before, n);
      GoingAwayStep(LiveAll(w0, before), last);
      FewerTransitive(LiveAll(w0, turns[..n]), LiveAll(w0, before), LiveAll(w0, turns));
    }
  }

  lemma FewerTransitive(a: World, b: World, c: World)
    requires Fewer(a, b) && Fewer(b, c)
    ensures Fewer(a, c)
  {
  }

  // ---- No object outlives its client -----------------------------------------------------------------------

  predicate Guarded(w: World) {
    w.cr.Some? && Mine(w) != map[] ==> FINALIZER in w.cr.value.finalizers
  }

  /** The finalizer is in place before the first object is created; a resource is let go only with nothing left. */
  predicate Safe(w: World) {
    match w.cr
    case None => Mine(w) == map[]
    case Some(cr) =>
      && cr.name == w.me && Guarded(w) && Labelled(Mine(w), w.me)
      && (!cr.deleting ==> Coherent(cr.status) && Sane(Mine(w), w.me, NO_PROMISE))
  }

  /** A provisioning run keeps the finalizer in front of the objects. */
  lemma RunKeepsGuard(w: World, env: Env)
    requires Managed(w) && Guarded(w)
    ensures Guarded(Reconcile(w, env))
  {
    hide RunAll, Actions, Reconcile, Finish;
    var began, r0 := ReconcileShape(w, env);
    if began {
      var r := RunAll(r0, env, Actions(w.cr.value.spec));
      Frame(r0, env, Actions(w.cr.value.spec));
      FinishKeepsResource(r, env);
    }
  }

  lemma NotSweepable(w: World)
    ensures !Sweepable(w, K(w, TheNamespace))
  {
  }

  lemma FewerLabelled(m: Objs, m': Objs, me: string)
    requires Labelled(m, me) && forall k | k in m' :: k in m && m'[k] == m[k]
    requires Has(m, me, TheNamespace) ==> Has(m', me, TheNamespace) || m' == map[]
    ensures Labelled(m', me)
  {
    hide Matches;
  }

  lemma SaneIsLabelled(m: Objs, me: string)
    requires Sane(m, me, NO_PROMISE)
    ensures Labelled(m, me)
  {
  }

  lemma SafeRun(w: World, env: Env)
    requires Safe(w) && !ReadFails(env)
    ensures Safe(ReconcileAny(w, env)) && ReconcileAny(w, env).me == w.me
  {
    hide DeletePhase, Reconcile, Sane, Labelled, Sweepable;
    if w.cr.Some? && w.cr.value.deleting {
      DeletionKeepsMark(w, env);
      DeletionTakesOwnOnly(w, env);
      var w' := ReconcileAny(w, env);
      NotSweepable(w);
      FewerLabelled(Mine(w), Mine(w'), w.me);
      if FINALIZER !in w.cr.value.finalizers {
        assert Mine(w) == map[];
        assert Mine(w') == map[];
      } else if LetGo(w') {
        FinalizerGoesLast(w, env);
      }
    } else if w.cr.Some? {
      RunMoves(w, env);
      RunKeepsManaged(w, env);
      RunKeepsGuard(w, env);
      SaneReconcile(w, env, NO_PROMISE);
      SaneIsLabelled(Mine(Reconcile(w, env)), w.me);
      assert !ReadCr(w, env).1.Ok? ==> ReconcileAny(w, env) == ReadCr(w, env).0;
    }
  }

  lemma SafeStep(w: World, t: Turn)
    requires Safe(w) && (t.Act? && t.step.RunOnce? ==> !ReadFails(t.step.env))
    ensures Safe(Live(w, t)) && Live(w, t).me == w.me
  {
    hide ReconcileAny, Sane, Labelled;
    match t {
      case Act(RunOnce(env)) => SafeRun(w, env);
      case Act(step) => IdleStep(w, step);
      case RequestDeletion =>
    }
  }

  lemma FreshIsSafe(w: World)
    requires Fresh(w)
    ensures Safe(w)
  {
  }

  /** No object outlives its client. Over any lifecycle of runs with any faults, edits, interference and deletion
      requests, as long as no deletion run's namespace read fails: when the resource is gone, or has been let go,
      not a single object of the client is left. */
  lemma {:induction false} NothingOutlivesTheClient(w0: World, turns: seq<Turn>)
    requires Fresh(w0) && forall t | t in turns && t.Act? && t.step.RunOnce? :: !ReadFails(t.step.env)
    ensures var w := LiveAll(w0, turns);
            && Safe(w) && w.me == w0.me
            && (w.cr.None? || (w.cr.value.deleting && FINALIZER !in w.cr.value.finalizers) ==> Mine(w) == map[])
    decreases |turns|
  {
    hide Live, ReadFails, Safe;
    if turns == [] {
      FreshIsSafe(w0);
    } else {
      var before, last := turns[..|turns| - 1], turns[|turns| - 1];
      assert forall t | t in before :: t in turns;
      assert last in turns;
      NothingOutlivesTheClient(w0, before);
      SafeStep(LiveAll(w0, before), last);
    }
    SafeMeans(LiveAll(w0, turns));
  }

  lemma SafeMeans(w: World)
    requires Safe(w)
    ensures w.cr.None? || FINALIZER !in w.cr.value.finalizers ==> Mine(w) == map[]
  {
  }

  // ---- The proviso is needed -----------------------------------------------------------------------------------

  /** A run, a deletion request, and a deletion run whose read of the namespace is dropped. */
  function DroppedAtTheEnd(): seq<Turn> {
    [Act(RunOnce(PEACE)), RequestDeletion, Act(RunOnce(PEACE.(faults := map[NamespaceRead := Drop])))]
  }

  lemma LiveThree(w: World, a: Turn, b: Turn, c: Turn)
    ensures LiveAll(w, [a, b, c]) == Live(Live(Live(w, a), b), c)
  {
    hide Live;
    var one, two, three := [a], [a, b], [a, b, c];
    assert one[..0] == [] && two[..1] == one && three[..2] == two;
    assert LiveAll(w, one) == Live(w, a);
    assert LiveAll(w, two) == Live(LiveAll(w, one), b);
  }

  /** A first run without faults creates the namespace, behind the finalizer. */
  lemma FirstRunGuards(w: World)
    requires Fresh(w) && w.cr.value.spec.services.Some?
    ensures var w' := Live(w, Act(RunOnce(PEACE)));
            && Managed(w') && w'.me == w.me && K(w, TheNamespace) in Mine(w') && FINALIZER in w'.cr.value.finalizers
  {
    hide Reconcile, Sane, Plan;
    CalmIsPeace();
    FreshIsSane(w);
    CalmReconcile(w, PEACE);
    CompleteRun(w, PEACE);
    NamespacePlanned(w.cr.value.spec);
    RunKeepsManaged(w, PEACE);
    RunKeepsGuard(w, PEACE);
    assert w.cr.Some? && !w.cr.value.deleting;
    SameAny(w, PEACE);
  }

  lemma CalmIsPeace()
    ensures Calm(PEACE) && forall s :: FaultAt(PEACE, s) == Clean
  {
  }

  lemma SameAny(w: World, env: Env)
    requires w.cr.Some? && !w.cr.value.deleting
    ensures ReconcileAny(w, env) == Reconcile(w, env)
  {
    hide ProvisionPhase, MetaUpdate;
  }

  /** Why `NothingOutlivesTheClient` needs truthful namespace reads: three steps after which the resource is let go
      and its namespace is still there. */
  lemma NamespaceOutlivesTheClient(w: World)
    requires Fresh(w) && w.cr.value.spec.services.Some?
    ensures var w' := LiveAll(w, DroppedAtTheEnd()); LetGo(w') && K(w, TheNamespace) in Mine(w')
  {
    hide ReconcileAny;
    var last := Act(RunOnce(PEACE.(faults := map[NamespaceRead := Drop])));
    LiveThree(w, Act(RunOnce(PEACE)), RequestDeletion, last);
    FirstRunGuards(w);
    var w2 := Live(Live(w, Act(RunOnce(PEACE))), RequestDeletion);
    DroppedReadOrphans(w2);
  }
}
