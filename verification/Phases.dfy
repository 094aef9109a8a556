/** The phase machine over whole histories. */
module Phases {
  import opened Objects
  import opened Api
  import opened Contents
  import opened ServiceStatuses
  import opened Pipeline
  import opened Runs
  import opened Histories

  /** How phase and conditions go together in every stored status. */
  predicate Coherent(s: Status) {
    match s.phase
    case Failed => |s.conditions| == 1 && s.conditions[0].ctype == "Ready" && !s.conditions[0].status
    case Ready => s.conditions == [Condition("Ready", true, "Provisioned", None)]
    case _ => s.conditions == []
  }

  lemma SameCoherence(s: Status, s': Status)
    requires Coherent(s) && s'.phase == s.phase && s'.conditions == s.conditions
    ensures Coherent(s')
  {
  }

  /** The phase changes one run can make. */
  predicate Moves(p: Phase, q: Phase) {
    || p == q
    || ((p == NoPhase || p == Pending) && (q == Provisioning || q == Phase.Failed || q == Phase.Ready))
    || (p == Provisioning && (q == Phase.Failed || q == Phase.Ready))
  }

  /** The failure path keeps a single Ready condition, with status False. */
  lemma FailedIsCoherent(s: Status, reason: string, error: Err)
    requires Coherent(s) && s.phase != Phase.Ready
    ensures Coherent(FailedStatus(s, reason, error))
            && DistinctConditionTypes(FailedStatus(s, reason, error).conditions)
  {
  }

  lemma SetFailedMoves(w: World, cn: CR, env: Env, reason: string, error: Err)
    requires w.cr.Some? && Coherent(w.cr.value.status) && Coherent(cn.status)
    requires cn.status.phase == w.cr.value.status.phase && cn.status.phase in {Provisioning, Phase.Failed}
    ensures var w' := SetFailed(w, cn, env, reason, error);
            && w'.cr.Some? && Coherent(w'.cr.value.status)
            && w'.cr.value.status.phase in {w.cr.value.status.phase, Phase.Failed}
  {
    hide StatusUpdate, FailedStatus;
    FailedIsCoherent(cn.status, reason, error);
    StatusUpdateFacts(w, env, FailedWrite, cn.(status := FailedStatus(cn.status, reason, error)));
    assert FailedStatus(cn.status, reason, error).phase == Phase.Failed by { FailedPhase(cn.status, reason, error); }
  }

  lemma FailedPhase(s: Status, reason: string, error: Err)
    ensures FailedStatus(s, reason, error).phase == Phase.Failed
  {
  }

  /** The success path cannot store its condition next to an existing one. */
  lemma ReadyAfterFailedIsInvalid(s: Status, spec: Spec)
    requires Coherent(s) && s.phase in {Provisioning, Phase.Failed}
    ensures DistinctConditionTypes(ReadyStatus(s, spec).conditions) <==> s.phase == Provisioning
    ensures s.phase == Provisioning ==> Coherent(ReadyStatus(s, spec))
  {
    var cs := ReadyStatus(s, spec).conditions;
    if s.phase == Phase.Failed {
      assert cs[0].ctype == cs[1].ctype;
    } else {
      assert cs == [Condition("Ready", true, "Provisioned", None)];
    }
  }

  /** What the end of a run can store, given what it started from. */
  lemma FinishMoves(r: Run, env: Env)
    requires r.w.cr.Some? && Coherent(r.w.cr.value.status) && Coherent(r.cn.status)
    requires r.cn.status.phase == r.w.cr.value.status.phase && r.cn.status.phase in {Provisioning, Phase.Failed}
    ensures var w := Finish(r, env);
            && w.cr.Some? && Coherent(w.cr.value.status)
            && Moves(r.w.cr.value.status.phase, w.cr.value.status.phase)
            && (w.cr.value.status.phase == Phase.Ready ==>
                  r.out == Going && w.cr.value.status == ReadyStatus(r.cn.status, r.cn.spec))
  {
    hide StatusUpdate, FailedStatus, SetFailed, ReportService;
    match r.out
    case Going =>
      ReadyAfterFailedIsInvalid(r.cn.status, r.cn.spec);
      StatusUpdateFacts(r.w, env, ReadyWrite, r.cn.(status := ReadyStatus(r.cn.status, r.cn.spec)));
    case Stopped(error) =>
      if r.blame.svc.None? {
        SetFailedMoves(r.w, r.cn, env, r.blame.reason, error);
      } else {
        ReportFacts(r.w, r.cn, env, r.blame.svc.value, error);
        var (w1, cn1) := ReportService(r.w, r.cn, env, r.blame.svc.value, error);
        SetFailedMoves(w1, cn1, env, r.blame.reason, error);
      }
    case Panicked =>
  }

  /** One run under any faults: the stored status stays coherent and the phase only moves forward;
      from Ready a run changes neither the status nor the store. */
  lemma RunMoves(w: World, env: Env)
    requires Managed(w) && Coherent(w.cr.value.status)
    ensures var w' := Reconcile(w, env);
            && w'.cr.Some? && Coherent(w'.cr.value.status)
            && Moves(w.cr.value.status.phase, w'.cr.value.status.phase)
            && (w.cr.value.status.phase == Phase.Ready ==>
               w'.cr.value.status == w.cr.value.status && w'.store == w.store)
  {
    hide RunAll, Finish, Actions;
    var began, r0 := ReconcileShape(w, env);
    if began {
      var acts := Actions(w.cr.value.spec);
      Frame(r0, env, acts);
      FinishMoves(RunAll(r0, env, acts), env);
    }
  }

  lemma {:induction false} HistoryIsCoherent(w: World, steps: seq<Step>)
    requires Fresh(w)
    ensures Managed(Play(w, steps)) && Coherent(Play(w, steps).cr.value.status)
    decreases |steps|
  {
    PlayKeepsManaged(w, steps);
    if steps != [] {
      hide Apply;
      var before, last := steps[..|steps| - 1], steps[|steps| - 1];
      HistoryIsCoherent(w, before);
      StepMoves(Play(w, before), last);
    }
  }

  lemma StepMoves(w: World, s: Step)
    requires Managed(w) && Coherent(w.cr.value.status)
    ensures var w' := Apply(w, s);
            && Managed(w') && Coherent(w'.cr.value.status)
            && Moves(w.cr.value.status.phase, w'.cr.value.status.phase)
            && (w.cr.value.status.phase == Phase.Ready ==>
               w'.cr.value.status == w.cr.value.status && Mine(w') == Mine(w))
  {
    ApplyKeepsManaged(w, s);
    if s.RunOnce? {
      RunMoves(w, s.env);
    } else {
      IdleStep(w, s);
    }
  }

  /** The phase machine over histories: between any two points the phase has only moved along `Moves`;
      Failed and Ready are never left, and from Ready on neither the status nor any object changes. */
  lemma {:induction false} PhaseMachine(w: World, steps: seq<Step>, n: nat)
    requires Fresh(w) && n <= |steps|
    ensures var a := Play(w, steps[..n]); var b := Play(w, steps);
            && a.cr.Some? && b.cr.Some?
            && Moves(a.cr.value.status.phase, b.cr.value.status.phase)
            && (a.cr.value.status.phase == Phase.Failed ==> b.cr.value.status.phase == Phase.Failed)
            && (a.cr.value.status.phase == Phase.Ready ==> b.cr.value.status == a.cr.value.status && Mine(b) == Mine(a))
    decreases |steps|
  {
    HistoryIsCoherent(w, steps[..n]);
    if n == |steps| {
      assert steps[..n] == steps;
    } else {
      hide Apply;
      var before, last := steps[..|steps| - 1], steps[|steps| - 1];
      assert before[..n] == steps[..n];
      PhaseMachine(w, before, n);
      HistoryIsCoherent(w, before);
      StepMoves(Play(w, before), last);
    }
  }

  /** A stored Failed always comes with exactly one condition: Ready, False. */
  lemma FailedHasOneCondition(w: World, steps: seq<Step>)
    requires Fresh(w) && Play(w, steps).cr.Some? && Play(w, steps).cr.value.status.phase == Phase.Failed
    ensures var cs := Play(w, steps).cr.value.status.conditions; |cs| == 1 && cs[0].ctype == "Ready" && !cs[0].status
  {
    HistoryIsCoherent(w, steps);
  }
}
