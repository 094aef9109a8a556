/** Whole histories of a client: runs under any faults, edits of the spec, and other clients' activity. The states they
    lead to are called reachable; `Lifecycle` adds deletion. */
module Histories {
  import opened Objects
  import opened Api
  import opened Contents
  import opened Pipeline
  import opened Runs

  datatype Step = RunOnce(env: Env) | EditSpec(spec: Spec) | OthersAct(elsewhere: map<Key, Obj>)

  function Apply(w: World, s: Step): World {
    match s
    case RunOnce(env) => Reconcile(w, env)
    case EditSpec(spec) =>
      if w.cr.None? then w
      else w.(cr := Some(w.cr.value.(spec := spec, version := w.cr.value.version + 1)))
    case OthersAct(elsewhere) => w.(store := Mine(w) + map k | k in elsewhere && !Own(w.me, k) :: elsewhere[k])
  }

  function Play(w: World, steps: seq<Step>): World
    decreases |steps|
  {
    if steps == [] then w else Apply(Play(w, steps[..|steps| - 1]), steps[|steps| - 1])
  }

  lemma PlayOneMore(w: World, steps: seq<Step>, s: Step)
    ensures Play(w, steps + [s]) == Apply(Play(w, steps), s)
  {
    hide Apply;
    assert (steps + [s])[..|steps|] == steps;
  }

  lemma PlayOnce(w: World, env: Env)
    ensures Play(w, [RunOnce(env)]) == Reconcile(w, env)
  {
    hide Reconcile;
    PlayOneMore(w, [], RunOnce(env));
    assert [] + [RunOnce(env)] == [RunOnce(env)];
  }

  const EMPTY_STATUS := Status(NoPhase, "", "", "", [], [])

  /** A newly created resource whose namespace does not exist yet. */
  predicate Fresh(w: World) {
    && w.cr.Some? && w.cr.value.name == w.me && !w.cr.value.deleting && w.cr.value.status == EMPTY_STATUS
    && Mine(w) == map[] && w.log == []
  }

  /** The resource is there, belongs to the client, and carries no deletion mark. */
  predicate Managed(w: World) {
    w.cr.Some? && w.cr.value.name == w.me && !w.cr.value.deleting
  }

  lemma RunKeepsManaged(w: World, env: Env)
    requires Managed(w)
    ensures var w' := Reconcile(w, env); Managed(w') && w'.me == w.me && w'.cr.value.spec == w.cr.value.spec
  {
    hide Actions;
    var began, r0 := ReconcileShape(w, env);
    if began {
      var r := RunAll(r0, env, Actions(w.cr.value.spec));
      Frame(r0, env, Actions(w.cr.value.spec));
      FinishKeepsResource(r, env);
    }
  }

  lemma SetFailedKeepsResource(w: World, cn: CR, env: Env, reason: string, error: Err)
    requires w.cr.Some?
    ensures var w' := SetFailed(w, cn, env, reason, error);
            w'.me == w.me && w'.cr.Some? && SameBut(w.cr.value, w'.cr.value)
  {
    hide StatusUpdate, FailedStatus;
    StatusUpdateFacts(w, env, FailedWrite, cn.(status := FailedStatus(cn.status, reason, error)));
  }

  /** Finishing writes only the status, and bumps the version. */
  lemma FinishKeepsResource(r: Run, env: Env)
    requires r.w.cr.Some?
    ensures var w := Finish(r, env); w.me == r.w.me && w.cr.Some? && SameBut(r.w.cr.value, w.cr.value)
  {
    hide StatusUpdate, FailedStatus, ReadyStatus, SetFailed, ReportService;
    match r.out
    case Going => StatusUpdateFacts(r.w, env, ReadyWrite, r.cn.(status := ReadyStatus(r.cn.status, r.cn.spec)));
    case Stopped(error) =>
      if r.blame.svc.None? {
        SetFailedKeepsResource(r.w, r.cn, env, r.blame.reason, error);
      } else {
        ReportFacts(r.w, r.cn, env, r.blame.svc.value, error);
        var (w1, cn1) := ReportService(r.w, r.cn, env, r.blame.svc.value, error);
        SetFailedKeepsResource(w1, cn1, env, r.blame.reason, error);
      }
    case Panicked =>
  }

  lemma ApplyKeepsManaged(w: World, s: Step)
    requires Managed(w)
    ensures Managed(Apply(w, s)) && Apply(w, s).me == w.me
  {
    if s.RunOnce? {
      RunKeepsManaged(w, s.env);
    }
  }

  /** Between runs only the resource's spec and other namespaces change. */
  lemma IdleStep(w: World, s: Step)
    requires !s.RunOnce?
    ensures var w' := Apply(w, s); Mine(w') == Mine(w) && w'.log == w.log && w'.me == w.me
    ensures Managed(w) ==> Apply(w, s).cr.value.status == w.cr.value.status
  {
  }

  lemma {:induction false} PlayKeepsManaged(w: World, steps: seq<Step>)
    requires Managed(w)
    ensures Managed(Play(w, steps)) && Play(w, steps).me == w.me
    decreases |steps|
  {
    if steps != [] {
      hide Apply;
      PlayKeepsManaged(w, steps[..|steps| - 1]);
      ApplyKeepsManaged(Play(w, steps[..|steps| - 1]), steps[|steps| - 1]);
    }
  }

  /** Write-once over whole histories, spec edits included: no later step changes or removes a client's object. */
  lemma {:induction false} HistoryIsWriteOnce(w: World, steps: seq<Step>, n: nat)
    requires Managed(w) && n <= |steps|
    ensures Extends(Mine(Play(w, steps[..n])), Mine(Play(w, steps)))
    decreases |steps|
  {
    if n == |steps| {
      assert steps[..n] == steps;
    } else {
      hide Apply;
      var before, last := steps[..|steps| - 1], steps[|steps| - 1];
      assert before[..n] == steps[..n];
      HistoryIsWriteOnce(w, before, n);
      PlayKeepsManaged(w, before);
      StepIsWriteOnce(Play(w, before), last);
    }
  }

  lemma StepIsWriteOnce(w: World, s: Step)
    requires Managed(w)
    ensures Extends(Mine(w), Mine(Apply(w, s)))
  {
    if s.RunOnce? {
      WriteOnce(w, s.env);
    } else {
      IdleStep(w, s);
    }
  }
}
