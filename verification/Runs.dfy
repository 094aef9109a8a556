/** What every run does, whatever the faults: the shape of a run, write-once objects, and completed actions. */
module Runs {
  import opened Objects
  import opened Api
  import opened Contents
  import opened Pipeline
  import opened ServiceStatuses

  /** Nothing that exists in the client's namespace changes or disappears. */
  predicate Extends(m: map<Key, Obj>, m': map<Key, Obj>) {
    forall k | k in m :: k in m' && m'[k] == m[k]
  }

  lemma {:induction false} Frame(r: Run, env: Env, acts: seq<Action>)
    ensures var r' := RunAll(r, env, acts);
            && r'.w.me == r.w.me && r'.w.cr == r.w.cr && Extends(Mine(r.w), Mine(r'.w))
            && r'.cn == r.cn.(status := r'.cn.status)
            && r'.cn.status.phase == r.cn.status.phase && r'.cn.status.conditions == r.cn.status.conditions
            && r'.cn.status.endpoint == r.cn.status.endpoint
            && (r.out != Going ==> r' == r)
            && (r'.w.alive ==> r.w.alive)
    decreases |acts|
  {
    if acts != [] {
      hide Exec;
      ExecFacts(r, env, acts[0]);
      Frame(Exec(r, env, acts[0]), env, acts[1..]);
    }
  }

  /** A run that got through its actions has every object they ensure. */
  lemma {:induction false} Done(r: Run, env: Env, acts: seq<Action>, a: Action)
    requires RunAll(r, env, acts).out == Going && a in acts && a.Ensure?
    ensures K(r.w, a.id) in Mine(RunAll(r, env, acts).w)
    decreases |acts|
  {
    hide Exec;
    var r1 := Exec(r, env, acts[0]);
    ExecFacts(r, env, acts[0]);
    Frame(r1, env, acts[1..]);
    if a == acts[0] {
      Frame(r, env, []);
    } else {
      Done(r1, env, acts[1..], a);
    }
  }

  /** A later part of the run sees what an earlier part ensured. */
  lemma Split(r: Run, env: Env, a: seq<Action>, b: seq<Action>)
    ensures RunAll(r, env, a + b) == RunAll(RunAll(r, env, a), env, b)
    ensures RunAll(r, env, a + b).out == Going ==> RunAll(r, env, a).out == Going
  {
    RunAllAppend(r, env, a, b);
    Frame(RunAll(r, env, a), env, b);
  }

  lemma Cons(r: Run, env: Env, a: Action, rest: seq<Action>)
    ensures RunAll(r, env, [a] + rest) == RunAll(Exec(r, env, a), env, rest)
  {
    assert ([a] + rest)[1..] == rest;
  }

  /** The ways a run ends touch the resource only. */
  lemma FinishFacts(r: Run, env: Env)
    ensures var w := Finish(r, env);
            && w == r.w.(cr := w.cr, alive := w.alive, log := w.log) && Mine(w) == Mine(r.w)
            && Creates(w.log) == Creates(r.w.log)
  {
    hide StatusUpdate, Upsert, FailedStatus, ReadyStatus;
    assert Finish(r, env) == r.w.(cr := Finish(r, env).cr, alive := Finish(r, env).alive, log := Finish(r, env).log);
    forall log: seq<Event>, p: Phase ensures Creates(log + [PhaseStored(p)]) == Creates(log) {
      CreatesAppend(log, PhaseStored(p));
    }
  }

  /** Reporting a service stores the status it reports, or nothing; only the service list differs. */
  lemma ReportFacts(w: World, cn: CR, env: Env, i: nat, error: Err)
    requires w.cr.Some?
    ensures var (w1, cn1) := ReportService(w, cn, env, i, error);
            && w1 == w.(cr := w1.cr, alive := w1.alive, log := w1.log) && w1.cr.Some?
            && (w1.cr == w.cr || w1.cr.value == w.cr.value.(status := cn1.status, version := w1.cr.value.version))
            && cn1 == cn.(status := cn.status.(services := cn1.status.services), version := cn1.version)
  {
    hide StatusUpdate, Upsert;
    var cn1 := cn.(status := cn.status.(services := Upsert(cn.status.services, ServiceName(i), false, Some(error))));
    StatusUpdateFacts(w, env, ServiceWrite, cn1);
  }

  /** Runs write the status and may add the finalizer; the rest of the resource is the user's. */
  predicate SameBut(cr: CR, cr': CR) {
    && cr' == cr.(status := cr'.status, finalizers := cr'.finalizers, version := cr'.version)
    && cr.finalizers <= cr'.finalizers
  }

  /** The status a run starts provisioning with. */
  function Started(s: Status): Status {
    if s.phase == NoPhase || s.phase == Pending then s.(phase := Provisioning) else s
  }

  /** At most the Provisioning phase was stored. */
  predicate Grew(log: seq<Event>, log': seq<Event>) {
    log' == log || log' == log + [PhaseStored(Provisioning)]
  }

  /** The run as it starts provisioning, if it gets there: from the phase check, and from the first call. */
  function BeginPhase(w: World, env: Env, cn: CR): Option<Run> {
    if cn.status.phase == Phase.Ready then None
    else if cn.status.phase == NoPhase || cn.status.phase == Pending then
      var cn1 := cn.(status := cn.status.(phase := Provisioning));
      var (w1, e) := StatusUpdate(w, env, ProvisioningWrite, cn1);
      if e.Some? then None else Some(Start(w1, Refreshed(cn1, e)))
    else Some(Start(w, cn))
  }

  function Begin(w0: World, env: Env): Option<Run> {
    var (w, got) := ReadCr(w0, env);
    if got.Fail? || got.value.deleting then None
    else
      var cn := got.value;
      if FINALIZER in cn.finalizers then BeginPhase(w, env, cn)
      else
        var cn1 := cn.(finalizers := cn.finalizers + {FINALIZER});
        var (w1, e) := MetaUpdate(w, env, FinalizerAdd, cn1);
        if e.Some? then None else BeginPhase(w1, env, Refreshed(cn1, e))
  }

  /** The calls on the resource before provisioning are undisturbed. */
  predicate Begins(env: Env) { forall s | s in {CrRead, FinalizerAdd, ProvisioningWrite} :: FaultAt(env, s) == Clean }

  lemma RunShape(w: World, env: Env) returns (began: bool, r0: Run)
    requires w.cr.Some? && !w.cr.value.deleting
    ensures var w' := Reconcile(w, env); var cr := w.cr.value;
            if began then
              && w' == Finish(RunAll(r0, env, Actions(cr.spec)), env)
              && r0 == Start(r0.w, r0.cn) && r0.w.cr == Some(r0.cn) && r0.w.alive
              && SameBut(cr, r0.cn) && r0.cn.status == Started(cr.status) && cr.status.phase != Phase.Ready
              && FINALIZER in r0.cn.finalizers
              && r0.w.me == w.me && r0.w.store == w.store
              && Grew(w.log, r0.w.log)
            else
              && w' == w.(cr := w'.cr, alive := w'.alive, log := w'.log)
              && Grew(w.log, w'.log)
              && w'.cr.Some? && SameBut(cr, w'.cr.value)
              && (w'.cr.value.status == cr.status || w'.cr.value.status == Started(cr.status))
    ensures Begin(w, env) == if began then Some(r0) else None
    ensures w.cr.value.status.phase == Phase.Ready ==> !began
    ensures (Begins(env) && w.cr.value.status.phase != Phase.Ready
             && DistinctConditionTypes(w.cr.value.status.conditions)) ==> began
  {
    hide RunAll, Finish, Actions, Mine, ProvisionPhase, BeginPhase, DistinctConditionTypes;
    began := false;
    var (w0, got) := ReadCr(w, env);
    r0 := Start(w0, w.cr.value);
    if got.Ok? {
      var cn := got.value;
      if FINALIZER in cn.finalizers {
        began, r0 := PhaseShape(w0, env, cn);
      } else {
        var cn' := cn.(finalizers := cn.finalizers + {FINALIZER});
        var (w1, e) := MetaUpdate(w0, env, FinalizerAdd, cn');
        if e.None? {
          began, r0 := PhaseShape(w1, env, Refreshed(cn', e));
        }
      }
    }
  }

  /** From the phase check on. */
  lemma PhaseShape(w: World, env: Env, cn: CR) returns (began: bool, r0: Run)
    requires w.cr == Some(cn) && w.alive
    ensures var w' := ProvisionPhase(w, env, cn);
            if began then
              && w' == Finish(RunAll(r0, env, Actions(cn.spec)), env)
              && r0 == Start(r0.w, r0.cn) && r0.w.cr == Some(r0.cn) && r0.w.alive
              && r0.cn == cn.(status := Started(cn.status), version := r0.cn.version) && cn.status.phase != Phase.Ready
              && r0.w.me == w.me && r0.w.store == w.store
              && Grew(w.log, r0.w.log)
            else
              && w' == w.(cr := w'.cr, alive := w'.alive, log := w'.log)
              && Grew(w.log, w'.log) && w'.cr.Some?
              && w'.cr.value == cn.(status := w'.cr.value.status, version := w'.cr.value.version)
              && (w'.cr.value.status == cn.status || w'.cr.value.status == Started(cn.status))
    ensures BeginPhase(w, env, cn) == if began then Some(r0) else None
    ensures cn.status.phase == Phase.Ready ==> !began
    ensures (FaultAt(env, ProvisioningWrite) == Clean && cn.status.phase != Phase.Ready
             && DistinctConditionTypes(cn.status.conditions)) ==> began
  {
    hide RunAll, Finish, Actions, Mine, DistinctConditionTypes;
    began := false;
    r0 := Start(w, cn);
    if cn.status.phase == NoPhase || cn.status.phase == Pending {
      var cn' := cn.(status := cn.status.(phase := Provisioning));
      var (w1, e) := StatusUpdate(w, env, ProvisioningWrite, cn');
      if e.None? {
        began := true;
        r0 := Start(w1, Refreshed(cn', e));
      }
    } else if cn.status.phase != Phase.Ready {
      began := true;
    }
  }

  /** A run either stops before provisioning, having at most stored the finalizer or the Provisioning phase,
      or performs the actions of the stored spec from a consistent state and finishes. */
  lemma ReconcileShape(w: World, env: Env) returns (began: bool, r0: Run)
    requires w.cr.Some? && !w.cr.value.deleting
    ensures var w' := Reconcile(w, env); var cr := w.cr.value;
            if began then
              && w' == Finish(RunAll(r0, env, Actions(cr.spec)), env)
              && r0 == Start(r0.w, r0.cn) && r0.w.cr == Some(r0.cn) && r0.w.alive
              && SameBut(cr, r0.cn) && r0.cn.status == Started(cr.status) && cr.status.phase != Phase.Ready
              && FINALIZER in r0.cn.finalizers
              && r0.w.me == w.me && r0.w.store == w.store && Mine(r0.w) == Mine(w)
              && Creates(r0.w.log) == Creates(w.log)
            else
              && w' == w.(cr := w'.cr, alive := w'.alive, log := w'.log) && Mine(w') == Mine(w)
              && Creates(w'.log) == Creates(w.log)
              && w'.cr.Some? && SameBut(cr, w'.cr.value)
              && (w'.cr.value.status == cr.status || w'.cr.value.status == Started(cr.status))
    ensures Begin(w, env) == if began then Some(r0) else None
    ensures w.cr.value.status.phase == Phase.Ready ==> !began
    ensures (Begins(env) && w.cr.value.status.phase != Phase.Ready
             && DistinctConditionTypes(w.cr.value.status.conditions)) ==> began
  {
    hide RunAll, Finish, Actions, Reconcile, Begin;
    began, r0 := RunShape(w, env);
    CreatesAppend(w.log, PhaseStored(Provisioning));
    if began {
      assert Mine(r0.w) == Mine(w);
    } else {
      assert Mine(Reconcile(w, env)) == Mine(w);
    }
  }

  /** No run of any kind changes or removes an object of the client. */
  lemma WriteOnce(w: World, env: Env)
    requires w.cr.Some? && !w.cr.value.deleting
    ensures Extends(Mine(w), Mine(Reconcile(w, env)))
  {
    var began, r0 := ReconcileShape(w, env);
    if began {
      Frame(r0, env, Actions(w.cr.value.spec));
      FinishFacts(RunAll(r0, env, Actions(w.cr.value.spec)), env);
    }
  }

  lemma DeadExec(r: Run, env: Env, a: Action)
    requires !r.w.alive
    ensures Exec(r, env, a).w == r.w
  {
    hide Upsert, Mine;
  }

  lemma DeadFinish(r: Run, env: Env)
    requires !r.w.alive
    ensures Finish(r, env) == r.w
  {
    hide Upsert, FailedStatus, ReadyStatus;
  }

  /** After a crash the process has no further effect. */
  lemma {:induction false} DeadRunIsInert(r: Run, env: Env, acts: seq<Action>)
    requires !r.w.alive
    ensures RunAll(r, env, acts).w == r.w
    ensures Finish(RunAll(r, env, acts), env) == r.w
    decreases |acts|
  {
    hide Finish;
    if acts == [] {
      DeadFinish(r, env);
    } else {
      hide Exec;
      DeadExec(r, env, acts[0]);
      DeadRunIsInert(Exec(r, env, acts[0]), env, acts[1..]);
    }
  }

  // ---- Where an object comes from ---------------------------------------------------------------

  /** Only ReadPasswords changes the passwords a run holds. */
  lemma PasswordsStay(r: Run, env: Env, a: Action)
    requires a != ReadPasswords
    ensures Exec(r, env, a).loc == r.loc.(ca := Exec(r, env, a).loc.ca)
  {
    hide EnsureObject, EnsureLdapsRoute, GetCa, Upsert, ServiceName;
  }

  /** What a run adds was built in that run, for the resource it read, with the passwords it held, at a moment when
      the client's objects were between those at the start and those at the end. */
  lemma {:induction false} BuiltInRun(r: Run, env: Env, acts: seq<Action>, id: Id)
      returns (wb: World, cn: CR, loc: Locals, place: Place)
    requires id != LdapsRoute && K(r.w, id) !in Mine(r.w) && K(r.w, id) in Mine(RunAll(r, env, acts).w)
    ensures cn.spec == r.cn.spec && cn.name == r.cn.name
    ensures ReadPasswords !in acts ==> loc.pg == r.loc.pg && loc.s3 == r.loc.s3
    ensures wb.me == r.w.me && Extends(Mine(wb), Mine(RunAll(r, env, acts).w))
    ensures Ensure(id, place) in acts
    ensures Build(wb, cn, loc, env, id, place).1 == Ok(Mine(RunAll(r, env, acts).w)[K(r.w, id)])
    ensures Build(wb, cn, loc, env, id, place).0.alive && wb.alive && r.w.alive && r.out == Going
    decreases |acts|
  {
    hide Exec, Build, Mine;
    NotYet(r, env, acts, id);
    var a := acts[0];
    var r1 := Exec(r, env, a);
    assert RunAll(r, env, acts) == RunAll(r1, env, acts[1..]);
    ExecFacts(r, env, a);
    Frame(r1, env, acts[1..]);
    hide RunAll;
    if K(r.w, id) in Mine(r1.w) {
      cn, loc, place := r.cn, r.loc, a.place;
      wb := BuiltNow(r, env, a, id);
    } else {
      if ReadPasswords !in acts {
        assert a in acts;
        PasswordsStay(r, env, a);
      }
      wb, cn, loc, place := BuiltInRun(r1, env, acts[1..], id);
    }
  }

  lemma NotYet(r: Run, env: Env, acts: seq<Action>, id: Id)
    requires K(r.w, id) !in Mine(r.w) && K(r.w, id) in Mine(RunAll(r, env, acts).w)
    ensures acts != []
  {
  }

  lemma BuiltNow(r: Run, env: Env, a: Action, id: Id) returns (wb: World)
    requires id != LdapsRoute && K(r.w, id) !in Mine(r.w) && K(r.w, id) in Mine(Exec(r, env, a).w)
    ensures a.Ensure? && a.id == id && wb.me == r.w.me && Mine(wb) == Mine(r.w)
            && Extends(Mine(wb), Mine(Exec(r, env, a).w))
    ensures Build(wb, r.cn, r.loc, env, id, a.place).1 == Ok(Mine(Exec(r, env, a).w)[K(r.w, id)])
    ensures Build(wb, r.cn, r.loc, env, id, a.place).0.alive && wb.alive && r.w.alive && r.out == Going
  {
    ExecFacts(r, env, a);
    hide Build, Mine;
    if a.Ensure? {
      wb := EnsureFacts(r.w, r.cn, r.loc, env, a.id, a.place);
    } else {
      wb := r.w;
    }
  }
}
