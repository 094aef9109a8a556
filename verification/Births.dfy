/** Where the objects of a history come from: each was made by one run, from what that run had found and made before. */
module Births {
  import opened Objects
  import opened Api
  import opened Contents
  import opened Pipeline
  import opened Runs
  import opened Histories
  import opened Prefix
  import opened Invariants
  import opened CleanRuns

  // ---- The run that made an object ------------------------------------------------------------------------

  /** The step of the history in which the object appeared, for an object that is there at the end. */
  function BirthStep(w0: World, steps: seq<Step>, id: Id): nat
    decreases |steps|
  {
    if steps == [] then 0
    else if Has(Mine(Play(w0, steps[..|steps| - 1])), w0.me, id) then BirthStep(w0, steps[..|steps| - 1], id)
    else |steps| - 1
  }

  /** The world just before that step, and the environment of the run. */
  function Before(w0: World, steps: seq<Step>, id: Id): World {
    if BirthStep(w0, steps, id) <= |steps| then Play(w0, steps[..BirthStep(w0, steps, id)]) else w0
  }

  function Maker(w0: World, steps: seq<Step>, id: Id): Env {
    if BirthStep(w0, steps, id) < |steps| && steps[BirthStep(w0, steps, id)].RunOnce?
    then steps[BirthStep(w0, steps, id)].env else PEACE
  }

  /** A run that makes the object. */
  predicate Makes(w: World, env: Env, id: Id) {
    Managed(w) && !Has(Mine(w), w.me, id) && Has(Mine(Reconcile(w, env)), w.me, id)
  }

  /** Every object of a history was made by the run of one step, and has stayed as that run left it. */
  lemma {:induction false} Born(w0: World, steps: seq<Step>, id: Id)
    requires Fresh(w0) && Has(Mine(Play(w0, steps)), w0.me, id)
    ensures var n, w, env := BirthStep(w0, steps, id), Before(w0, steps, id), Maker(w0, steps, id);
            && n < |steps| && steps[n] == RunOnce(env) && w == Play(w0, steps[..n]) && w.me == w0.me
            && Makes(w, env, id) && Extends(Mine(Reconcile(w, env)), Mine(Play(w0, steps)))
    decreases |steps|
  {
    hide Apply, Reconcile, Mine;
    assert steps != [] by { NothingAtFirst(w0); }
    var before, last := steps[..|steps| - 1], steps[|steps| - 1];
    PlayKeepsManaged(w0, before);
    StepIsWriteOnce(Play(w0, before), last);
    if Has(Mine(Play(w0, before)), w0.me, id) {
      Born(w0, before, id);
      var n := BirthStep(w0, before, id);
      assert before[..n] == steps[..n] && before[n] == steps[n];
    } else {
      MadeInRun(Play(w0, before), last, id);
    }
  }

  lemma NothingAtFirst(w: World)
    requires Fresh(w)
    ensures forall id :: !Has(Mine(w), w.me, id)
  {
  }

  lemma MadeInRun(w: World, s: Step, id: Id)
    requires Managed(w) && !Has(Mine(w), w.me, id) && Has(Mine(Apply(w, s)), w.me, id)
    ensures s.RunOnce? && Makes(w, s.env, id) && Apply(w, s) == Reconcile(w, s.env)
  {
    hide Reconcile;
    if !s.RunOnce? {
      IdleStep(w, s);
    }
  }

  /** The step at which an object appears is the one that made it. */
  lemma {:induction false} BirthAt(w0: World, steps: seq<Step>, n: nat, id: Id)
    requires Managed(w0) && n < |steps|
    requires !Has(Mine(Play(w0, steps[..n])), w0.me, id) && Has(Mine(Play(w0, steps[..n + 1])), w0.me, id)
    ensures BirthStep(w0, steps, id) == n && Before(w0, steps, id) == Play(w0, steps[..n])
    decreases |steps|
  {
    hide Play, Mine;
    var before := steps[..|steps| - 1];
    if n < |before| {
      assert before[..n] == steps[..n] && before[..n + 1] == steps[..n + 1];
      BirthAt(w0, before, n, id);
      HistoryIsWriteOnce(w0, before, n + 1);
    }
  }

  /** In a history of one run, that run made everything. */
  lemma BornAtOnce(w: World, env: Env, id: Id)
    requires Fresh(w)
    ensures Before(w, [RunOnce(env)], id) == w && Maker(w, [RunOnce(env)], id) == env
  {
    hide Apply;
    NothingAtFirst(w);
    assert [RunOnce(env)][..0] == [];
  }

  // ---- The pipeline of that run --------------------------------------------------------------------------

  /** The run that made an object got to provisioning. */
  lemma MakerRun(w: World, env: Env, id: Id) returns (r: Run)
    requires Makes(w, env, id)
    ensures r.w.me == w.me && Mine(r.w) == Mine(w) && r.cn.spec == w.cr.value.spec && r.cn.name == w.me
            && r.out == Going
    ensures r.w.alive && Mine(RunAll(r, env, Actions(w.cr.value.spec)).w) == Mine(Reconcile(w, env))
  {
    hide RunAll, Actions, Reconcile, Finish, Begin;
    var began;
    began, r := ReconcileShape(w, env);
    FinishFacts(RunAll(r, env, Actions(w.cr.value.spec)), env);
  }

  /** An object that only one action of a run ensures was built by that action, from the objects there were before
      it. */
  lemma BuiltAt(r: Run, env: Env, before: seq<Action>, id: Id, rest: seq<Action>) returns (wb: World)
    requires id != LdapsRoute && !Has(Mine(r.w), r.w.me, id) && Avoids(before, id) && Avoids(rest, id)
    requires Has(Mine(RunAll(r, env, before + ([On(id)] + rest)).w), r.w.me, id)
    ensures var r1 := RunAll(r, env, before);
            && r1.out == Going && r1.w.me == r.w.me && wb.me == r.w.me && Mine(wb) == Mine(r1.w) && wb.alive
               && r1.w.alive
            && Build(wb, r1.cn, r1.loc, env, id, Pipeline).0.alive
            && Build(wb, r1.cn, r1.loc, env, id, Pipeline).1 ==
               Ok(Mine(RunAll(r, env, before + ([On(id)] + rest)).w)[K(r.w, id)])
  {
    hide Exec, RunAll, Build, Mine, Avoids;
    var r1 := RunAll(r, env, before);
    var r2 := Exec(r1, env, On(id));
    Split(r, env, before, [On(id)] + rest);
    Cons(r1, env, On(id), rest);
    Frame(r, env, before);
    ExecFacts(r1, env, On(id));
    Frame(r2, env, rest);
    Untouched(r, env, before, id);
    Untouched(r2, env, rest, id);
    wb := BuiltNow(r1, env, On(id), id);
    MakersLive(r1, wb, env, id);
  }

  lemma MakersLive(r: Run, wb: World, env: Env, id: Id)
    requires K(r.w, id) !in Mine(r.w) && K(r.w, id) in Mine(Exec(r, env, On(id)).w)
    ensures r.w.alive
  {
    hide Build;
    var _ := EnsureFacts(r.w, r.cn, r.loc, env, id, Pipeline);
  }

  // ---- What was there by then ------------------------------------------------------------------------------

  /** No object but some certificates is ensured twice. */
  lemma OnlyOnce(spec: Spec, i: nat, id: Id)
    requires i < |Actions(spec)| && Actions(spec)[i] == On(id) && !id.Tls?
    ensures Avoids(Actions(spec)[..i], id) && Avoids(Actions(spec)[i + 1..], id)
    ensures Actions(spec) == Actions(spec)[..i] + ([On(id)] + Actions(spec)[i + 1..])
  {
    hide SecretActions, CertStage, LateActions, Rank;
    ActionsOrdered(spec);
    TargetsArePlanned(spec);
  }

  /** What an action may create is planned, except that some certificates have a fallback. */
  lemma TargetsArePlanned(spec: Spec)
    ensures forall a | a in Actions(spec) && Target(a).Some? && !Target(a).value.Tls? :: NewTarget(a) == Target(a)
  {
    hide SecretActions, CertStage, LateActions;
    Fallbacks(spec);
  }

  /** Planned objects of a lower rank come first. */
  lemma EarlierAction(spec: Spec, i: nat, id: Id, j: Id)
    requires i < |Actions(spec)| && Actions(spec)[i] == On(id) && On(j) in Actions(spec) && Rank(j) < Rank(id)
    ensures On(j) in Actions(spec)[..i]
  {
    hide Actions, Rank;
    ActionsOrdered(spec);
    var acts := Actions(spec);
    var m :| 0 <= m < |acts| && acts[m] == On(j);
    assert NewTarget(acts[m]) == Some(j) && NewTarget(acts[i]) == Some(id);
    assert m < i;
    assert acts[..i][m] == On(j);
  }

  /** The world in which an object was built in a run, told by what else a run of this spec ensures before it. */
  lemma FoundBy(r: Run, env: Env, spec: Spec, id: Id) returns (wb: World, cn: CR, loc: Locals)
    requires id != LdapsRoute && !id.Tls? && !Has(Mine(r.w), r.w.me, id)
    requires Has(Mine(RunAll(r, env, Actions(spec)).w), r.w.me, id)
    ensures wb.me == r.w.me && Extends(Mine(r.w), Mine(wb)) && Extends(Mine(wb), Mine(RunAll(r, env, Actions(spec)).w))
    ensures wb.alive && cn.spec == r.cn.spec && cn.name == r.cn.name && On(id) in Actions(spec)
    ensures Build(wb, cn, loc, env, id, Pipeline).0.alive
    ensures Build(wb, cn, loc, env, id, Pipeline).1 == Ok(Mine(RunAll(r, env, Actions(spec)).w)[K(r.w, id)])
    ensures forall j | On(j) in Actions(spec) && Rank(j) < Rank(id) :: Has(Mine(wb), r.w.me, j)
    ensures forall j | Avoids(Actions(spec), j) && !Has(Mine(r.w), r.w.me, j) :: !Has(Mine(wb), r.w.me, j)
  {
    hide Exec, RunAll, Build, Mine, Actions, Rank;
    var acts := Actions(spec);
    EnsuredHere(r, env, spec, id);
    var i :| 0 <= i < |acts| && acts[i] == On(id);
    OnlyOnce(spec, i, id);
    var r1 := RunAll(r, env, acts[..i]);
    wb := BuiltAt(r, env, acts[..i], id, acts[i + 1..]);
    cn, loc := r1.cn, r1.loc;
    Frame(r, env, acts[..i]);
    Split(r, env, acts[..i], [On(id)] + acts[i + 1..]);
    Frame(r1, env, [On(id)] + acts[i + 1..]);
    forall j | On(j) in acts && Rank(j) < Rank(id) ensures Has(Mine(wb), r.w.me, j) {
      EarlierAction(spec, i, id, j);
      Done(r, env, acts[..i], On(j));
    }
    forall j | Avoids(acts, j) && !Has(Mine(r.w), r.w.me, j) ensures !Has(Mine(wb), r.w.me, j) {
      Untouched(r, env, acts[..i], j);
    }
  }

  lemma EnsuredHere(r: Run, env: Env, spec: Spec, id: Id)
    requires id != LdapsRoute && !id.Tls? && !Has(Mine(r.w), r.w.me, id)
    requires Has(Mine(RunAll(r, env, Actions(spec)).w), r.w.me, id)
    ensures On(id) in Actions(spec)
  {
    hide RunAll, Build, Mine, SecretActions, CertStage, LateActions;
    var _, _, _, place := BuiltInRun(r, env, Actions(spec), id);
    Fallbacks(spec);
    PlacesOf(spec);
  }

  /** Every action of the pipeline ensures its object at one of two places. */
  lemma PlacesOf(spec: Spec)
    ensures forall a | a in Actions(spec) && a.Ensure? :: a.place == Pipeline || (a.place == Fallback && a.id.Tls?)
  {
    hide SecretActions, CertStage, ServiceStages, IngressRules, PolicyActions;
    var f := FlagsOf(spec);
    var have := {TheNamespace, PostgresSecret};
    Fallbacks(spec);
    LateSplits(f);
    StagesFeasible(SERVICE_COUNT, f, have);
    RulesFeasible(f, have);
  }
}
