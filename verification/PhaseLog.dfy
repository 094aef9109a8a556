/** The phase machine write by write: every stored phase follows from the one stored before it. */
module PhaseLog {
  import opened Objects
  import opened Api
  import opened Contents
  import opened ServiceStatuses
  import opened Pipeline
  import opened Runs
  import opened Histories
  import opened Phases

  /** The table of single writes. A failing service writes its list first, under the phase it finds. */
  predicate OneStep(p: Phase, q: Phase) {
    match p
    case NoPhase | Pending => q == Provisioning
    case Provisioning => q in {Provisioning, Phase.Failed, Phase.Ready}
    case Failed => q == Phase.Failed
    case Ready => false
  }

  /** The phase stored last. */
  function LastPhase(log: seq<Event>): Phase {
    if log == [] then NoPhase
    else if log[|log| - 1].PhaseStored? then log[|log| - 1].phase
    else LastPhase(log[..|log| - 1])
  }

  /** Every write of a phase is one step from the phase stored before it. */
  predicate Stepwise(log: seq<Event>) {
    forall i | 0 <= i < |log| && log[i].PhaseStored? :: OneStep(LastPhase(log[..i]), log[i].phase)
  }

  /** The log is stepwise and ends with the stored phase. */
  predicate Recorded(w: World) {
    Stepwise(w.log) && w.cr.Some? && LastPhase(w.log) == w.cr.value.status.phase
  }

  lemma LogOneMore(log: seq<Event>, e: Event)
    ensures LastPhase(log + [e]) == if e.PhaseStored? then e.phase else LastPhase(log)
    ensures Stepwise(log) && (e.PhaseStored? ==> OneStep(LastPhase(log), e.phase)) ==> Stepwise(log + [e])
  {
    var more := log + [e];
    assert more[..|log|] == log;
    forall i | 0 <= i < |more| ensures i < |log| ==> more[..i] == log[..i] && more[i] == log[i] {
    }
  }

  /** A status write of a permitted phase keeps the record, whatever its fault. */
  lemma StatusRecorded(w: World, env: Env, s: Site, cn: CR)
    requires Recorded(w)
    requires DistinctConditionTypes(cn.status.conditions) ==> OneStep(w.cr.value.status.phase, cn.status.phase)
    ensures Recorded(StatusUpdate(w, env, s, cn).0)
  {
    hide StatusUpdate, OneStep, DistinctConditionTypes, LastPhase, Stepwise;
    StatusUpdateFacts(w, env, s, cn);
    LogOneMore(w.log, PhaseStored(cn.status.phase));
  }

  lemma ExecRecorded(r: Run, env: Env, a: Action)
    requires Recorded(r.w)
    ensures Recorded(Exec(r, env, a).w)
  {
    hide Exec, Mine, LastPhase, Stepwise;
    ExecFacts(r, env, a);
    forall e: Event | e.Created? ensures Stepwise(r.w.log + [e]) && LastPhase(r.w.log + [e]) == LastPhase(r.w.log) {
      LogOneMore(r.w.log, e);
    }
  }

  lemma {:induction false} RunRecorded(r: Run, env: Env, acts: seq<Action>)
    requires Recorded(r.w)
    ensures Recorded(RunAll(r, env, acts).w)
    decreases |acts|
  {
    hide Exec, Recorded;
    if acts != [] {
      ExecRecorded(r, env, acts[0]);
      RunRecorded(Exec(r, env, acts[0]), env, acts[1..]);
    }
  }

  lemma FinishRecorded(r: Run, env: Env)
    requires Recorded(r.w) && Coherent(r.cn.status)
    requires r.cn.status.phase == r.w.cr.value.status.phase && r.cn.status.phase in {Provisioning, Phase.Failed}
    ensures Recorded(Finish(r, env))
  {
    hide StatusUpdate, FailedStatus, ReadyStatus, Upsert, ServiceName, Stepwise, LastPhase, Coherent;
    match r.out
    case Panicked =>
    case Going =>
      ReadyAfterFailedIsInvalid(r.cn.status, r.cn.spec);
      ReadyPhase(r.cn.status, r.cn.spec);
      StatusRecorded(r.w, env, ReadyWrite, r.cn.(status := ReadyStatus(r.cn.status, r.cn.spec)));
    case Stopped(error) =>
      var w1, cn1 := r.w, r.cn;
      if r.blame.svc.Some? {
        var i := r.blame.svc.value;
        ReportFacts(r.w, r.cn, env, i, error);
        var services := Upsert(r.cn.status.services, ServiceName(i), false, Some(error));
        StatusRecorded(r.w, env, ServiceWrite, r.cn.(status := r.cn.status.(services := services)));
        var reported := ReportService(r.w, r.cn, env, i, error);
        w1, cn1 := reported.0, reported.1;
      }
      FailedPhase(cn1.status, r.blame.reason, error);
      StatusRecorded(w1, env, FailedWrite, cn1.(status := FailedStatus(cn1.status, r.blame.reason, error)));
  }

  lemma ReadyPhase(s: Status, spec: Spec)
    ensures ReadyStatus(s, spec).phase == Phase.Ready
  {
  }

  lemma PipelineRecorded(w: World, env: Env, cn: CR)
    requires Recorded(w) && w.cr == Some(cn) && Coherent(cn.status) && cn.status.phase in {Provisioning, Phase.Failed}
    ensures Recorded(Finish(RunAll(Start(w, cn), env, Actions(cn.spec)), env))
  {
    hide RunAll, Finish, Actions, Coherent, Stepwise, LastPhase;
    var r := RunAll(Start(w, cn), env, Actions(cn.spec));
    RunRecorded(Start(w, cn), env, Actions(cn.spec));
    Frame(Start(w, cn), env, Actions(cn.spec));
    SameCoherence(cn.status, r.cn.status);
    FinishRecorded(r, env);
  }

  lemma ProvisionRecorded(w: World, env: Env, cn: CR)
    requires Recorded(w) && w.cr == Some(cn) && w.alive && Coherent(cn.status)
    ensures Recorded(ProvisionPhase(w, env, cn))
  {
    hide RunAll, Finish, Actions, StatusUpdate, Recorded, DistinctConditionTypes;
    if cn.status.phase == NoPhase || cn.status.phase == Pending {
      var cn1 := cn.(status := cn.status.(phase := Provisioning));
      assert OneStep(w.cr.value.status.phase, cn1.status.phase);
      StatusRecorded(w, env, ProvisioningWrite, cn1);
      StatusUpdateFacts(w, env, ProvisioningWrite, cn1);
      var (w1, e) := StatusUpdate(w, env, ProvisioningWrite, cn1);
      if e.None? {
        StoredIsRefreshed(w, env, cn1);
        PipelineRecorded(w1, env, Refreshed(cn1, e));
      }
    } else if cn.status.phase != Phase.Ready {
      PipelineRecorded(w, env, cn);
    }
  }

  lemma StoredIsRefreshed(w: World, env: Env, cn: CR)
    requires w.cr.Some? && w.cr.value == cn.(status := w.cr.value.status)
    requires StatusUpdate(w, env, ProvisioningWrite, cn).1.None?
    ensures StatusUpdate(w, env, ProvisioningWrite, cn).0.cr == Some(Refreshed(cn, None))
  {
    hide DistinctConditionTypes;
  }

  lemma RunIsRecorded(w: World, env: Env)
    requires Managed(w) && Recorded(w) && Coherent(w.cr.value.status)
    ensures Recorded(Reconcile(w, env))
  {
    hide ProvisionPhase, Stepwise, LastPhase, Coherent;
    var (w0, got) := ReadCr(w, env);
    if got.Ok? {
      var cn := got.value;
      if FINALIZER in cn.finalizers {
        ProvisionRecorded(w0, env, cn);
      } else {
        var cn1 := cn.(finalizers := cn.finalizers + {FINALIZER});
        var (w1, e) := MetaUpdate(w0, env, FinalizerAdd, cn1);
        if e.None? {
          ProvisionRecorded(w1, env, Refreshed(cn1, e));
        }
      }
    }
  }

  /** The phase machine, write by write. Over every history of a new client, under any faults, crashes and edits, each
      write of a phase that took effect is one step of the table from the phase stored before it, and the phase stored
      last is the one in the resource. In particular no run goes past Provisioning unrecorded. */
  lemma {:induction false} EveryWriteIsOneStep(w: World, steps: seq<Step>)
    requires Fresh(w)
    ensures var w' := Play(w, steps); Stepwise(w'.log) && w'.cr.Some? && LastPhase(w'.log) == w'.cr.value.status.phase
    decreases |steps|
  {
    hide Apply, Stepwise, LastPhase;
    if steps == [] {
      NothingLogged(w);
    } else {
      var before, last := steps[..|steps| - 1], steps[|steps| - 1];
      EveryWriteIsOneStep(w, before);
      HistoryIsCoherent(w, before);
      StepRecorded(Play(w, before), last);
    }
  }

  lemma NothingLogged(w: World)
    requires Fresh(w)
    ensures Stepwise(w.log) && LastPhase(w.log) == w.cr.value.status.phase
  {
  }

  lemma StepRecorded(w: World, s: Step)
    requires Managed(w) && Recorded(w) && Coherent(w.cr.value.status)
    ensures Recorded(Apply(w, s))
  {
    hide Reconcile, Stepwise, LastPhase;
    if s.RunOnce? {
      RunIsRecorded(w, s.env);
    } else {
      IdleStep(w, s);
    }
  }
}
