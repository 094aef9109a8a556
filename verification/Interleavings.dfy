/** Merged executions of two clients: every interleaving of their writes leaves the store of a serial execution. */
module Interleavings {
  import opened Objects
  import opened Api
  import opened Contents
  import opened ServiceStatuses
  import opened Pipeline
  import opened Runs
  import opened Deletion
  import opened NonInterference

  // ---- The audit log tells the whole story -------------------------------------------------------------

  /** What one logged write does to a store. */
  function After(m: map<Key, Obj>, e: Event): map<Key, Obj> {
    match e
    case Created(k, o) => m[k := o]
    case Deleted(k) => m - {k}
    case NamespaceDeleted(ns) => map k | k in m && k.ns != ns :: m[k]
    case PhaseStored(_) => m
  }

  function Replay(m: map<Key, Obj>, log: seq<Event>): map<Key, Obj>
    decreases |log|
  {
    if log == [] then m else After(Replay(m, log[..|log| - 1]), log[|log| - 1])
  }

  /** The write concerns the client's namespace only. */
  predicate WrittenBy(client: string, e: Event) {
    match e
    case Created(k, _) => Own(client, k)
    case Deleted(k) => Own(client, k)
    case NamespaceDeleted(ns) => ns == NsName(client)
    case PhaseStored(_) => true
  }

  predicate AllWrittenBy(client: string, log: seq<Event>) { forall e | e in log :: WrittenBy(client, e) }

  /** Between the two worlds, `d` was logged: own writes only, and replaying them gives the client's objects. */
  predicate Told(w: World, w': World, d: seq<Event>) {
    w'.me == w.me && w'.log == w.log + d && AllWrittenBy(w.me, d) && Mine(w') == Replay(Mine(w), d)
  }

  lemma {:induction false} ReplayAppend(m: map<Key, Obj>, a: seq<Event>, b: seq<Event>)
    ensures Replay(m, a + b) == Replay(Replay(m, a), b)
    decreases |b|
  {
    if b == [] {
      assert a + b == a;
    } else {
      assert (a + b)[..|a + b| - 1] == a + b[..|b| - 1];
      ReplayAppend(m, a, b[..|b| - 1]);
    }
  }

  lemma Chain(a: World, b: World, c: World, d: seq<Event>, e: seq<Event>)
    requires Told(a, b, d) && Told(b, c, e)
    ensures Told(a, c, d + e)
  {
    hide Mine;
    ReplayAppend(Mine(a), d, e);
    assert a.log + d + e == a.log + (d + e);
  }

  lemma ToldNothing(w: World, w': World)
    requires w'.me == w.me && w'.log == w.log && Mine(w') == Mine(w)
    ensures Told(w, w', [])
  {
    hide Mine;
  }

  lemma ToldOne(w: World, w': World, e: Event)
    requires w'.me == w.me && w'.log == w.log + [e] && Mine(w') == After(Mine(w), e) && WrittenBy(w.me, e)
    ensures Told(w, w', [e])
  {
    hide Mine, After;
    assert [e][..0] == [];
    assert Replay(Mine(w), [e]) == After(Replay(Mine(w), [e][..0]), e);
  }

  lemma ToldGain(w: World, w': World, id: Id) returns (d: seq<Event>)
    requires GainsAtMost(w, w', id)
    ensures Told(w, w', d)
  {
    if Mine(w') == Mine(w) && w'.log == w.log {
      d := [];
      ToldNothing(w, w');
    } else {
      d := [Created(K(w, id), Mine(w')[K(w, id)])];
      ToldOne(w, w', d[0]);
    }
  }

  lemma {:induction false} ToldRun(r: Run, env: Env, acts: seq<Action>) returns (d: seq<Event>)
    ensures Told(r.w, RunAll(r, env, acts).w, d)
    decreases |acts|
  {
    if acts == [] {
      d := [];
      ToldNothing(r.w, r.w);
    } else {
      var r1 := Exec(r, env, acts[0]);
      assert RunAll(r, env, acts) == RunAll(r1, env, acts[1..]);
      hide Exec, Mine, RunAll;
      ExecFacts(r, env, acts[0]);
      var first: seq<Event>;
      if Target(acts[0]).Some? {
        first := ToldGain(r.w, r1.w, Target(acts[0]).value);
      } else {
        first := [];
        ToldNothing(r.w, r1.w);
      }
      d := ToldRun(r1, env, acts[1..]);
      Chain(r.w, r1.w, RunAll(r1, env, acts[1..]).w, first, d);
      d := first + d;
    }
  }

  /** A status write logs at most the phase. */
  lemma ToldStatus(w: World, w': World, p: Phase) returns (d: seq<Event>)
    requires w' == w.(cr := w'.cr, alive := w'.alive, log := w'.log)
             && (w'.log == w.log || w'.log == w.log + [PhaseStored(p)])
    ensures Told(w, w', d)
  {
    SameStore(w, w');
    hide Mine;
    if w'.log == w.log {
      d := [];
      ToldNothing(w, w');
    } else {
      d := [PhaseStored(p)];
      ToldOne(w, w', d[0]);
    }
  }

  lemma ToldFinish(r: Run, env: Env) returns (d: seq<Event>)
    ensures Told(r.w, Finish(r, env), d)
  {
    hide Mine, StatusUpdate, Upsert, FailedStatus, ReadyStatus, Told;
    match r.out {
      case Panicked =>
        d := [];
        ToldNothing(r.w, r.w);
      case Going =>
        var status := ReadyStatus(r.cn.status, r.cn.spec);
        d := ToldStatus(r.w, Finish(r, env), status.phase);
      case Stopped(error) =>
        if r.blame.svc.None? {
          d := ToldStatus(r.w, Finish(r, env), FailedStatus(r.cn.status, r.blame.reason, error).phase);
        } else {
          var (w1, cn1) := ReportService(r.w, r.cn, env, r.blame.svc.value, error);
          var first := ToldStatus(r.w, w1, r.cn.status.phase);
          d := ToldStatus(w1, Finish(r, env), FailedStatus(cn1.status, r.blame.reason, error).phase);
          Chain(r.w, w1, Finish(r, env), first, d);
          d := first + d;
        }
    }
  }

  lemma ToldProvision(w: World, env: Env, cn: CR) returns (d: seq<Event>)
    ensures Told(w, ProvisionPhase(w, env, cn), d)
  {
    hide Mine, StatusUpdate, RunAll, Finish, Actions, Told;
    if cn.status.phase == Phase.Ready {
      d := [];
      ToldNothing(w, w);
    } else if cn.status.phase == NoPhase || cn.status.phase == Pending {
      var cn1 := cn.(status := cn.status.(phase := Provisioning));
      var (w1, e) := StatusUpdate(w, env, ProvisioningWrite, cn1);
      d := ToldStatus(w, w1, Provisioning);
      if e.None? {
        var rest := ToldPipeline(w1, env, Refreshed(cn1, e), cn.spec);
        Chain(w, w1, ProvisionPhase(w, env, cn), d, rest);
        d := d + rest;
      }
    } else {
      d := ToldPipeline(w, env, cn, cn.spec);
    }
  }

  lemma ToldPipeline(w: World, env: Env, cn: CR, spec: Spec) returns (d: seq<Event>)
    ensures Told(w, Finish(RunAll(Start(w, cn), env, Actions(spec)), env), d)
  {
    hide Mine, RunAll, Finish, Actions, Told;
    var r := RunAll(Start(w, cn), env, Actions(spec));
    d := ToldRun(Start(w, cn), env, Actions(spec));
    var rest := ToldFinish(r, env);
    Chain(w, r.w, Finish(r, env), d, rest);
    d := d + rest;
  }

  lemma ToldReconcile(w: World, env: Env) returns (d: seq<Event>)
    ensures Told(w, Reconcile(w, env), d)
  {
    var (w0, got) := ReadCr(w, env);
    assert w0.me == w.me && w0.log == w.log && w0.store == w.store;
    SameStore(w, w0);
    hide Mine, ReadCr, MetaUpdate, ProvisionPhase, Told;
    ToldNothing(w, w0);
    d := [];
    if got.Ok? && !got.value.deleting {
      var cn := got.value;
      if FINALIZER in cn.finalizers {
        d := ToldProvision(w0, env, cn);
        Chain(w, w0, ProvisionPhase(w0, env, cn), [], d);
        d := [] + d;
      } else {
        var cn1 := cn.(finalizers := cn.finalizers + {FINALIZER});
        var (w1, e) := MetaUpdate(w0, env, FinalizerAdd, cn1);
        SameStore(w, w1);
        ToldNothing(w, w1);
        if e.None? {
          d := ToldProvision(w1, env, Refreshed(cn1, e));
          Chain(w, w1, ProvisionPhase(w1, env, Refreshed(cn1, e)), [], d);
          d := [] + d;
        }
      }
    }
  }

  lemma ToldDelete(w: World, env: Env, s: Site, k: Key) returns (d: seq<Event>)
    requires Own(w.me, k)
    ensures Told(w, Delete(w, env, s, k).0, d)
  {
    var w' := Delete(w, env, s, k).0;
    d := [];
    if !w.alive {
      ToldNothing(w, w);
    } else {
      var wi := Interfere(w, env, s);
      RemoveEffect(wi, k);
      var done := Remove(wi, k);
      ShapeFacts(wi, FaultAt(env, s), done);
      SameStore(wi, wi.(alive := false));
      SameStore(done.0, done.0.(alive := false));
      hide Remove, Shape, Told;
      if w'.log == w.log && Mine(w') == Mine(w) {
        ToldNothing(w, w');
      } else {
        d := [if k.id == TheNamespace then NamespaceDeleted(k.ns) else Deleted(k)];
        assert Mine(w') == After(Mine(w), d[0]);
        ToldOne(w, w', d[0]);
      }
    }
  }

  lemma {:induction false} ToldEach(w: World, env: Env, keys: seq<Key>) returns (d: seq<Event>)
    requires forall k | k in keys :: Own(w.me, k)
    ensures Told(w, DeleteEach(w, env, keys), d)
    decreases |keys|
  {
    if keys == [] {
      d := [];
      ToldNothing(w, w);
    } else {
      var w1 := Delete(w, env, Deleting(keys[0]), keys[0]).0;
      assert DeleteEach(w, env, keys) == DeleteEach(w1, env, keys[1..]);
      hide Delete, DeleteEach, Mine;
      var first := ToldDelete(w, env, Deleting(keys[0]), keys[0]);
      d := ToldEach(w1, env, keys[1..]);
      Chain(w, w1, DeleteEach(w1, env, keys[1..]), first, d);
      d := first + d;
    }
  }

  lemma ToldKind(w: World, env: Env, kind: Kind) returns (d: seq<Event>)
    ensures Told(w, SweepKind(w, env, kind), d)
  {
    ListAlike(w, w, env, kind);
    ListFacts(w, env, kind);
    ListLogs(w, env, kind);
    hide List, DeleteEach, Mine, Matches, Told, Foreign;
    var (w1, keys) := List(w, env, kind);
    ToldNothing(w, w1);
    d := [];
    if keys.Some? {
      d := ToldEach(w1, env, keys.value);
      Chain(w, w1, DeleteEach(w1, env, keys.value), [], d);
      d := [] + d;
    }
  }

  lemma ListLogs(w: World, env: Env, kind: Kind)
    ensures List(w, env, kind).0.log == w.log && List(w, env, kind).0.me == w.me
  {
  }

  lemma {:induction false} ToldSweep(w: World, env: Env, kinds: seq<Kind>) returns (d: seq<Event>)
    ensures Told(w, Sweep(w, env, kinds), d)
    decreases |kinds|
  {
    if kinds == [] {
      d := [];
      ToldNothing(w, w);
    } else {
      var w1 := SweepKind(w, env, kinds[0]);
      assert Sweep(w, env, kinds) == Sweep(w1, env, kinds[1..]);
      hide SweepKind, Sweep, Mine, Told;
      var first := ToldKind(w, env, kinds[0]);
      d := ToldSweep(w1, env, kinds[1..]);
      Chain(w, w1, Sweep(w1, env, kinds[1..]), first, d);
      d := first + d;
    }
  }

  lemma ToldDrop(w: World, env: Env) returns (d: seq<Event>)
    ensures Told(w, DropNamespace(w, env).0, d)
  {
    hide Get, Delete, Mine, LabelValue, Told;
    var (w1, g) := Get(w, env, NamespaceRead, K(w, TheNamespace));
    ToldNothing(w, w1);
    d := [];
    if DropNamespace(w, env).0 != w1 {
      d := ToldDelete(w1, env, NamespaceDelete, K(w, TheNamespace));
      Chain(w, w1, DropNamespace(w, env).0, [], d);
      d := [] + d;
    }
  }

  lemma ToldDeletePhase(w: World, env: Env, cn: CR) returns (d: seq<Event>)
    ensures Told(w, DeletePhase(w, env, cn), d)
  {
    hide Sweep, DropNamespace, MetaUpdate, Mine, Told;
    var w1 := Sweep(w, env, SWEPT);
    d := ToldSweep(w, env, SWEPT);
    var (w2, e) := DropNamespace(w1, env);
    var rest := ToldDrop(w1, env);
    Chain(w, w1, w2, d, rest);
    d := d + rest;
    if e.None? {
      var w3 := DeletePhase(w, env, cn);
      SameStore(w2, w3);
      ToldNothing(w2, w3);
      Chain(w, w2, w3, d, []);
      d := d + [];
    }
  }

  /** Every run's log suffix tells what it did: own writes only, and replaying them gives the client's objects. */
  lemma RunIsTold(w: World, env: Env) returns (d: seq<Event>)
    ensures Told(w, ReconcileAny(w, env), d)
  {
    var (w0, got) := ReadCr(w, env);
    assert w0.me == w.me && w0.log == w.log && w0.store == w.store;
    SameStore(w, w0);
    hide Mine, ReadCr, Reconcile, DeletePhase, Told;
    ToldNothing(w, w0);
    d := [];
    if got.Ok? {
      if got.value.deleting {
        d := ToldDeletePhase(w0, env, got.value);
        Chain(w, w0, DeletePhase(w0, env, got.value), [], d);
        d := [] + d;
      } else {
        d := ToldReconcile(w, env);
      }
    }
  }

  // ---- Merging two logs ---------------------------------------------------------------------------------

  /** `l` is an interleaving of `a` and `b`. */
  predicate Shuffle(a: seq<Event>, b: seq<Event>, l: seq<Event>)
    decreases |l|
  {
    if l == [] then a == [] && b == []
    else
      var last, front := l[|l| - 1], l[..|l| - 1];
      || (a != [] && a[|a| - 1] == last && Shuffle(a[..|a| - 1], b, front))
      || (b != [] && b[|b| - 1] == last && Shuffle(a, b[..|b| - 1], front))
  }

  function Part(client: string, m: map<Key, Obj>): map<Key, Obj> { map k | k in m && Own(client, k) :: m[k] }

  function Rest(a: string, b: string, m: map<Key, Obj>): map<Key, Obj> {
    map k | k in m && !Own(a, k) && !Own(b, k) :: m[k]
  }

  /** A write of one client, seen from its own part, from another client's part, and from the rest. */
  lemma AfterParts(m: map<Key, Obj>, e: Event, a: string, b: string)
    requires a != b && WrittenBy(a, e)
    ensures Part(a, After(m, e)) == After(Part(a, m), e)
    ensures Part(b, After(m, e)) == Part(b, m)
    ensures Rest(a, b, After(m, e)) == Rest(a, b, m)
    ensures Rest(b, a, After(m, e)) == Rest(b, a, m)
  {
    forall k | Own(a, k) ensures !Own(b, k) {
      OwnersDiffer(a, b, k);
    }
  }

  lemma {:induction false} ShuffleParts(m: map<Key, Obj>, a: seq<Event>, b: seq<Event>, l: seq<Event>, ca: string,
      cb: string)
    requires ca != cb && AllWrittenBy(ca, a) && AllWrittenBy(cb, b) && Shuffle(a, b, l)
    ensures Part(ca, Replay(m, l)) == Replay(Part(ca, m), a)
    ensures Part(cb, Replay(m, l)) == Replay(Part(cb, m), b)
    ensures Rest(ca, cb, Replay(m, l)) == Rest(ca, cb, m)
    decreases |l|
  {
    if l != [] {
      hide After, Part, Rest, WrittenBy;
      var last, front := l[|l| - 1], l[..|l| - 1];
      if a != [] && a[|a| - 1] == last && Shuffle(a[..|a| - 1], b, front) {
        ShuffleParts(m, a[..|a| - 1], b, front, ca, cb);
        AfterParts(Replay(m, front), last, ca, cb);
      } else {
        ShuffleParts(m, a, b[..|b| - 1], front, ca, cb);
        AfterParts(Replay(m, front), last, cb, ca);
        RestSymmetric(ca, cb, Replay(m, front));
        RestSymmetric(ca, cb, Replay(m, l));
      }
    }
  }

  lemma RestSymmetric(a: string, b: string, m: map<Key, Obj>)
    ensures Rest(a, b, m) == Rest(b, a, m)
  {
  }

  lemma JoinParts(m: map<Key, Obj>, m': map<Key, Obj>, wa: World, wb: World)
    requires wa.me != wb.me
    requires Part(wa.me, m') == Mine(wa) && Part(wb.me, m') == Mine(wb)
             && Rest(wa.me, wb.me, m') == Rest(wa.me, wb.me, m)
    ensures m' == Joint(m, wa, wb)
  {
    forall k
      ensures k in m' <==> k in Joint(m, wa, wb)
      ensures k in m' ==> m'[k] == Joint(m, wa, wb)[k]
    {
      if Own(wa.me, k) { OwnersDiffer(wa.me, wb.me, k); }
      assert k in m' <==> k in Part(wa.me, m') || k in Part(wb.me, m') || k in Rest(wa.me, wb.me, m');
      assert k in m && !Own(wa.me, k) && !Own(wb.me, k) <==> k in Rest(wa.me, wb.me, m);
    }
  }

  /** The writes of a run that took effect, in order. */
  function Writes(w: World, env: Env): (d: seq<Event>)
    ensures ReconcileAny(w, env).log == w.log + d
  {
    assert w.log <= ReconcileAny(w, env).log by { LogsGrow(w, env); }
    ReconcileAny(w, env).log[|w.log|..]
  }

  lemma LogsGrow(w: World, env: Env)
    ensures w.log <= ReconcileAny(w, env).log
  {
    hide ReconcileAny;
    var _ := RunIsTold(w, env);
  }

  /** Interleaved executions. Let two different clients' runs, provisioning or deletion, go on at the same time, each
      seeing whatever foreign contents before each of its calls. However their writes are merged into one sequence,
      the store ends up the same, and it is the store of the first run followed by the second. */
  lemma EveryInterleavingIsSerial(wa: World, wb: World, envA: Env, envB: Env, l: seq<Event>)
    requires wa.me != wb.me && wa.store == wb.store && Shuffle(Writes(wa, envA), Writes(wb, envB), l)
    ensures var a1 := ReconcileAny(wa, Alone(envA));
            Replay(wa.store, l) == ReconcileAny(wb.(store := a1.store), Alone(envB)).store
  {
    hide ReconcileAny, Alone;
    var a', b' := ReconcileAny(wa, envA), ReconcileAny(wb, envB);
    var da := RunIsTold(wa, envA);
    var db := RunIsTold(wb, envB);
    assert Writes(wa, envA) == da && Writes(wb, envB) == db;
    ShuffleParts(wa.store, da, db, l, wa.me, wb.me);
    assert Part(wa.me, wa.store) == Mine(wa) && Part(wb.me, wb.store) == Mine(wb);
    JoinParts(wa.store, Replay(wa.store, l), a', b');
    SerialIsJoint(wa, wb, envA, envB);
  }
}
