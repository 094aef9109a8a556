/** Clients do not interfere: what a run does depends on, and changes, its own client's part of the cluster only. */
module NonInterference {
  import opened Objects
  import opened Api
  import opened Passwords
  import opened Contents
  import opened ServiceStatuses
  import opened Pipeline
  import opened Runs
  import opened Deletion

  /** The two worlds look the same to the client. */
  predicate Alike(w1: World, w2: World) {
    w1.me == w2.me && Mine(w1) == Mine(w2) && w1.cr == w2.cr && w1.alive == w2.alive && w1.log == w2.log
  }

  /** The environment without other clients' activity. */
  function Alone(env: Env): Env { env.(elsewhere := map[]) }

  /** Started from worlds that look the same, a disturbed and an undisturbed step led to `w1` and `w2`;
      the undisturbed one, which came from `w`, left everything foreign as it was. */
  predicate InStep(w1: World, w2: World, w: World) { Alike(w1, w2) && Foreign(w2) == Foreign(w) }

  lemma SameEnv(env: Env)
    ensures forall s :: FaultAt(Alone(env), s) == FaultAt(env, s)
    ensures forall p :: DrawsFor(Alone(env), p) == DrawsFor(env, p) && NewPassword(Alone(env), p) == NewPassword(env, p)
    ensures SqlOrder(Alone(env)) == SqlOrder(env)
  {
  }

  lemma CrashAlike(w1: World, w2: World, alive: bool)
    requires Alike(w1, w2)
    ensures InStep(w1.(alive := alive), w2.(alive := alive), w2)
  {
    assert forall w: World :: Mine(w.(alive := alive)) == Mine(w) && Foreign(w.(alive := alive)) == Foreign(w);
  }

  // ---- Single calls ---------------------------------------------------------------------------------

  lemma GetAlike(w1: World, w2: World, env: Env, s: Site, id: Id)
    requires Alike(w1, w2)
    ensures var (v1, g1) := Get(w1, env, s, K(w1, id)); var (v2, g2) := Get(w2, Alone(env), s, K(w2, id));
            InStep(v1, v2, w2) && g1 == g2
  {
    var i1, i2 := Interfere(w1, env, s), Interfere(w2, Alone(env), s);
    assert Mine(i1) == Mine(i2);
    assert K(w1, id) in i1.store <==> K(w1, id) in Mine(i1);
    assert K(w1, id) in i2.store <==> K(w1, id) in Mine(i2);
  }

  /** A create, told in terms of the client's part of the store. */
  lemma InsertEffect(w: World, id: Id, o: Obj)
    ensures var k := K(w, id); var (w', e) := Insert(w, k, o);
            && Foreign(w') == Foreign(w)
            && if k in Mine(w) then (w', e) == (w, Some(AlreadyExists))
               else if id != TheNamespace && K(w, TheNamespace) !in Mine(w) then (w', e) == (w, Some(NotFound))
               else && Mine(w') == Mine(w)[k := o] && e.None?
                    && w' == w.(store := w'.store, log := w.log + [Created(k, o)])
  {
    var k := K(w, id);
    assert k in w.store <==> k in Mine(w);
    assert K(w, TheNamespace) in w.store <==> K(w, TheNamespace) in Mine(w);
    assert k !in w.store ==> Mine(w.(store := w.store[k := o])) == Mine(w)[k := o];
    assert Foreign(w.(store := w.store[k := o])) == Foreign(w);
  }

  lemma InsertAlike(w1: World, w2: World, id: Id, o: Obj)
    requires Alike(w1, w2)
    ensures var (v1, e1) := Insert(w1, K(w1, id), o); var (v2, e2) := Insert(w2, K(w2, id), o);
            InStep(v1, v2, w2) && e1 == e2
  {
    hide Insert, Mine, Foreign;
    InsertEffect(w1, id, o);
    InsertEffect(w2, id, o);
  }

  /** A write shaped by the same fault. */
  lemma ShapeAlike(w1: World, w2: World, f: Fault, d1: (World, Option<Err>), d2: (World, Option<Err>))
    requires Alike(w1, w2) && InStep(d1.0, d2.0, w2) && d1.1 == d2.1
    ensures InStep(Shape(w1, f, d1).0, Shape(w2, f, d2).0, w2) && Shape(w1, f, d1).1 == Shape(w2, f, d2).1
  {
    assert forall w: World :: Mine(w.(alive := false)) == Mine(w) && Foreign(w.(alive := false)) == Foreign(w);
  }

  lemma CreateAlike(w1: World, w2: World, env: Env, s: Site, id: Id, o: Obj)
    requires Alike(w1, w2)
    ensures var (v1, e1) := Create(w1, env, s, K(w1, id), o); var (v2, e2) := Create(w2, Alone(env), s, K(w2, id), o);
            InStep(v1, v2, w2) && e1 == e2
  {
    hide Insert, Shape;
    var i1, i2 := Interfere(w1, env, s), Interfere(w2, Alone(env), s);
    InsertAlike(i1, i2, id, o);
    ShapeAlike(i1, i2, FaultAt(env, s), Insert(i1, K(w1, id), o), Insert(i2, K(w2, id), o));
  }

  lemma SameStore(w: World, w': World)
    requires w'.me == w.me && w'.store == w.store
    ensures Mine(w') == Mine(w) && Foreign(w') == Foreign(w)
  {
  }

  lemma StatusAlike(w1: World, w2: World, env: Env, s: Site, cn: CR)
    requires Alike(w1, w2)
    ensures var (v1, e1) := StatusUpdate(w1, env, s, cn); var (v2, e2) := StatusUpdate(w2, Alone(env), s, cn);
            InStep(v1, v2, w2) && e1 == e2
  {
    hide Shape, Mine, Foreign, DistinctConditionTypes;
    SameStore(w1, StoreStatus(w1, cn).0);
    SameStore(w2, StoreStatus(w2, cn).0);
    ShapeAlike(w1, w2, FaultAt(env, s), StoreStatus(w1, cn), StoreStatus(w2, cn));
  }

  lemma MetaAlike(w1: World, w2: World, env: Env, s: Site, cn: CR)
    requires Alike(w1, w2)
    ensures var (v1, e1) := MetaUpdate(w1, env, s, cn); var (v2, e2) := MetaUpdate(w2, Alone(env), s, cn);
            InStep(v1, v2, w2) && e1 == e2
  {
    hide Shape, Mine, Foreign;
    SameStore(w1, StoreFinalizers(w1, cn).0);
    SameStore(w2, StoreFinalizers(w2, cn).0);
    ShapeAlike(w1, w2, FaultAt(env, s), StoreFinalizers(w1, cn), StoreFinalizers(w2, cn));
  }

  lemma ShapeLeaves(w: World, f: Fault, done: (World, Option<Err>))
    requires Foreign(done.0) == Foreign(w)
    ensures Foreign(Shape(w, f, done).0) == Foreign(w)
  {
    assert forall x: World :: Foreign(x.(alive := false)) == Foreign(x);
  }

  /** Each call leaves the rest of the cluster as the others had it just before: a run never writes outside its
      client's namespace. */
  lemma CallsStayHome(w: World, env: Env, s: Site, k: Key, o: Obj)
    requires Own(w.me, k) && w.alive
    ensures var others := Foreign(Interfere(w, env, s));
            && Foreign(Get(w, env, s, k).0) == others
            && Foreign(Create(w, env, s, k, o).0) == others
            && Foreign(Delete(w, env, s, k).0) == others
  {
    var i := Interfere(w, env, s);
    assert Foreign(i.(alive := false)) == Foreign(i);
    hide Remove, Insert, Shape, Mine, Foreign;
    assert k == K(i, k.id);
    InsertEffect(i, k.id, o);
    RemoveEffect(i, k);
    ShapeLeaves(i, FaultAt(env, s), Insert(i, k, o));
    ShapeLeaves(i, FaultAt(env, s), Remove(i, k));
  }

  // ---- Building an object -------------------------------------------------------------------------------

  lemma ReadOrAlike(w1: World, w2: World, env: Env, id: Id, place: Place, field: Field, p: Purpose)
    requires Alike(w1, w2)
    ensures var (v1, x1) := ReadOr(w1, env, id, place, field, p);
            var (v2, x2) := ReadOr(w2, Alone(env), id, place, field, p);
            InStep(v1, v2, w2) && x1 == x2
  {
    hide Get, Mine, Foreign, NewPassword, Alone;
    GetAlike(w1, w2, env, Reading(id, place), id);
    SameEnv(env);
  }

  lemma PayloadAlike(w1: World, w2: World, cn: CR, loc: Locals, env: Env, id: Id, place: Place)
    requires Alike(w1, w2)
    ensures var (v1, x1) := BuildPayload(w1, cn, loc, env, id, place);
            var (v2, x2) := BuildPayload(w2, cn, loc, Alone(env), id, place);
            InStep(v1, v2, w2) && x1 == x2
  {
    SameEnv(env);
    FieldsAlike(cn, loc, env);
    hide Get, ReadOr, Mine, Foreign, NewPassword, Alone, DrawsFor, NinegateFields, SqlOrder, PlainPayload;
    match id {
      case NinegateSecret => ReadOrAlike(w1, w2, env, AdminCredentials, NinegateRead, AdminPassword, ForNinegateAdmin);
      case GlauthConfig => GetAlike(w1, w2, env, Reading(PostgresSecret, GlauthRead), PostgresSecret);
      case DexConfig => DexAlike(w1, w2, cn, env);
      case _ =>
    }
  }

  lemma FieldsAlike(cn: CR, loc: Locals, env: Env)
    ensures forall adminPass ::
            NinegateFields(cn, loc, Alone(env), adminPass) == NinegateFields(cn, loc, env, adminPass)
    ensures forall id :: PlainPayload(cn, loc, Alone(env), id) == PlainPayload(cn, loc, env, id)
  {
    SameEnv(env);
    hide NewPassword, SqlOrder;
  }

  lemma DexAlike(w1: World, w2: World, cn: CR, env: Env)
    requires Alike(w1, w2)
    ensures var (v1, x1) := DexPayload(w1, cn, env); var (v2, x2) := DexPayload(w2, cn, Alone(env));
            InStep(v1, v2, w2) && x1 == x2
  {
    hide ReadOr, Mine, Foreign, NewPassword, Alone;
    SameEnv(env);
    ReadOrAlike(w1, w2, env, AdminCredentials, DexRead, AdminPassword, ForDexAdmin);
    var v1 := ReadOr(w1, env, AdminCredentials, DexRead, AdminPassword, ForDexAdmin).0;
    var v2 := ReadOr(w2, Alone(env), AdminCredentials, DexRead, AdminPassword, ForDexAdmin).0;
    ReadOrAlike(v1, v2, env, NinegateSecret, DexRead, AppSecret, ForDexClient);
  }

  lemma EnsureAlike(w1: World, w2: World, cn: CR, loc: Locals, env: Env, id: Id, place: Place)
    requires Alike(w1, w2)
    ensures var (v1, e1) := EnsureObject(w1, cn, loc, env, id, place);
            var (v2, e2) := EnsureObject(w2, cn, loc, Alone(env), id, place);
            InStep(v1, v2, w2) && e1 == e2
  {
    hide Get, Create, BuildPayload, LabelsFor, Mine, Foreign, Alone;
    GetAlike(w1, w2, env, Reading(id, place), id);
    var v1 := Get(w1, env, Reading(id, place), K(w1, id)).0;
    var v2 := Get(w2, Alone(env), Reading(id, place), K(w2, id)).0;
    PayloadAlike(v1, v2, cn, loc, env, id, place);
    var (u1, o1) := Build(v1, cn, loc, env, id, place);
    var (u2, o2) := Build(v2, cn, loc, Alone(env), id, place);
    if o1.Ok? {
      CreateAlike(u1, u2, env, Creating(id, place), id, o1.value);
    }
  }

  lemma RouteAlike(w1: World, w2: World, cn: CR, loc: Locals, env: Env)
    requires Alike(w1, w2)
    ensures var (v1, e1) := EnsureLdapsRoute(w1, cn, loc, env);
            var (v2, e2) := EnsureLdapsRoute(w2, cn, loc, Alone(env));
            InStep(v1, v2, w2) && e1 == e2
  {
    FieldsAlike(cn, loc, env);
    hide Get, Create, LabelsFor, PlainPayload, Mine, Foreign, Alone;
    GetAlike(w1, w2, env, Reading(LdapsSecret, Pipeline), LdapsSecret);
    var v1 := Get(w1, env, Reading(LdapsSecret, Pipeline), K(w1, LdapsSecret)).0;
    var v2 := Get(w2, Alone(env), Reading(LdapsSecret, Pipeline), K(w2, LdapsSecret)).0;
    CreateAlike(v1, v2, env, Creating(LdapsRoute, Pipeline), LdapsRoute, RouteObject(cn, loc, env));
  }

  // ---- Actions and runs ---------------------------------------------------------------------------------

  lemma PasswordAlike(w1: World, w2: World, env: Env, override: string, id: Id, field: Field, p: Purpose)
    requires Alike(w1, w2)
    ensures var (v1, x1) := GetOrCreatePassword(w1, env, override, id, field, p);
            var (v2, x2) := GetOrCreatePassword(w2, Alone(env), override, id, field, p);
            InStep(v1, v2, w2) && x1 == x2
  {
    hide Get, Mine, Foreign, NewPassword, Alone;
    GetAlike(w1, w2, env, Reading(id, PasswordRead), id);
    SameEnv(env);
  }

  lemma PasswordsAlike(w1: World, w2: World, cn: CR, env: Env)
    requires Alike(w1, w2)
    ensures var (v1, p1, s1) := ReadBothPasswords(w1, cn, env);
            var (v2, p2, s2) := ReadBothPasswords(w2, cn, Alone(env));
            InStep(v1, v2, w2) && p1 == p2 && s1 == s2
  {
    hide GetOrCreatePassword, Mine, Foreign, Alone;
    PasswordAlike(w1, w2, env, PgOverride(cn.spec), PostgresSecret, PostgresPassword, ForPostgres);
    var v1 := GetOrCreatePassword(w1, env, PgOverride(cn.spec), PostgresSecret, PostgresPassword, ForPostgres).0;
    var v2 := GetOrCreatePassword(w2, Alone(env), PgOverride(cn.spec), PostgresSecret, PostgresPassword, ForPostgres).0;
    PasswordAlike(v1, v2, env, S3Override(cn.spec), RustfsSecret, RustfsPassword, ForRustfs);
  }

  /** Two runs that differ in nothing the client can see. */
  predicate RunsAlike(r1: Run, r2: Run) { Alike(r1.w, r2.w) && r1.(w := r2.w) == r2 }

  lemma ExecAlike(r1: Run, r2: Run, env: Env, a: Action)
    requires RunsAlike(r1, r2)
    ensures RunsAlike(Exec(r1, env, a), Exec(r2, Alone(env), a))
    ensures Foreign(Exec(r2, Alone(env), a).w) == Foreign(r2.w)
  {
    hide EnsureObject, EnsureLdapsRoute, ReadBothPasswords, Get, Mine, Foreign, Alone, Upsert;
    match a {
      case Ensure(id, place) => EnsureAlike(r1.w, r2.w, r1.cn, r1.loc, env, id, place);
      case EnsureRoute => RouteAlike(r1.w, r2.w, r1.cn, r1.loc, env);
      case ReadPasswords => PasswordsAlike(r1.w, r2.w, r1.cn, env);
      case LoadCa => GetAlike(r1.w, r2.w, env, Reading(CaSecret, CaRead), CaSecret);
      case _ =>
    }
  }

  lemma {:induction false} RunAllAlike(r1: Run, r2: Run, env: Env, acts: seq<Action>)
    requires RunsAlike(r1, r2)
    ensures RunsAlike(RunAll(r1, env, acts), RunAll(r2, Alone(env), acts))
    ensures Foreign(RunAll(r2, Alone(env), acts).w) == Foreign(r2.w)
    decreases |acts|
  {
    if acts != [] {
      hide Exec, Mine, Foreign, Alone;
      ExecAlike(r1, r2, env, acts[0]);
      RunAllAlike(Exec(r1, env, acts[0]), Exec(r2, Alone(env), acts[0]), env, acts[1..]);
    }
  }

  lemma SetFailedAlike(w1: World, w2: World, cn: CR, env: Env, reason: string, error: Err)
    requires Alike(w1, w2)
    ensures InStep(SetFailed(w1, cn, env, reason, error), SetFailed(w2, cn, Alone(env), reason, error), w2)
  {
    hide StatusUpdate, FailedStatus, Mine, Foreign, Alone;
    StatusAlike(w1, w2, env, FailedWrite, cn.(status := FailedStatus(cn.status, reason, error)));
  }

  lemma FinishAlike(r1: Run, r2: Run, env: Env)
    requires RunsAlike(r1, r2)
    ensures InStep(Finish(r1, env), Finish(r2, Alone(env)), r2.w)
  {
    hide StatusUpdate, SetFailed, ReadyStatus, Mine, Foreign, Alone, Upsert;
    match r1.out {
      case Panicked =>
      case Going => StatusAlike(r1.w, r2.w, env, ReadyWrite, r1.cn.(status := ReadyStatus(r1.cn.status, r1.cn.spec)));
      case Stopped(error) =>
        if r1.blame.svc.None? {
          SetFailedAlike(r1.w, r2.w, r1.cn, env, r1.blame.reason, error);
        } else {
          var i, cn := r1.blame.svc.value, r1.cn;
          var cn1 := cn.(status :=
              cn.status.(services := Upsert(cn.status.services, ServiceName(i), false, Some(error))));
          StatusAlike(r1.w, r2.w, env, ServiceWrite, cn1);
          var (v1, c1) := ReportService(r1.w, cn, env, i, error);
          var (v2, c2) := ReportService(r2.w, cn, Alone(env), i, error);
          SetFailedAlike(v1, v2, c1, env, r1.blame.reason, error);
        }
    }
  }

  lemma ProvisionAlike(w1: World, w2: World, env: Env, cn: CR)
    requires Alike(w1, w2)
    ensures InStep(ProvisionPhase(w1, env, cn), ProvisionPhase(w2, Alone(env), cn), w2)
  {
    hide StatusUpdate, RunAll, Finish, Actions, Mine, Foreign, Alone;
    var cn1 := cn.(status := cn.status.(phase := Provisioning));
    StatusAlike(w1, w2, env, ProvisioningWrite, cn1);
    var (v1, e) := StatusUpdate(w1, env, ProvisioningWrite, cn1);
    var (v2, _) := StatusUpdate(w2, Alone(env), ProvisioningWrite, cn1);
    PipelineAlike(v1, v2, env, Refreshed(cn1, e), cn.spec);
    PipelineAlike(w1, w2, env, cn, cn.spec);
  }

  lemma PipelineAlike(w1: World, w2: World, env: Env, cn: CR, spec: Spec)
    requires Alike(w1, w2)
    ensures InStep(Finish(RunAll(Start(w1, cn), env, Actions(spec)), env),
                   Finish(RunAll(Start(w2, cn), Alone(env), Actions(spec)), Alone(env)), w2)
  {
    hide RunAll, Finish, Actions, Mine, Foreign, Alone;
    RunAllAlike(Start(w1, cn), Start(w2, cn), env, Actions(spec));
    FinishAlike(RunAll(Start(w1, cn), env, Actions(spec)), RunAll(Start(w2, cn), Alone(env), Actions(spec)), env);
  }

  lemma ReadCrAlike(w1: World, w2: World, env: Env)
    requires Alike(w1, w2)
    ensures var (v1, g1) := ReadCr(w1, env); var (v2, g2) := ReadCr(w2, Alone(env)); InStep(v1, v2, w2) && g1 == g2
  {
    hide Mine, Foreign;
    CrashAlike(w1, w2, true);
    CrashAlike(w1.(alive := true), w2.(alive := true), false);
  }

  lemma ReconcileAlike(w1: World, w2: World, env: Env)
    requires Alike(w1, w2)
    ensures InStep(Reconcile(w1, env), Reconcile(w2, Alone(env)), w2)
  {
    hide ReadCr, MetaUpdate, ProvisionPhase, Mine, Foreign, Alone;
    ReadCrAlike(w1, w2, env);
    var (v1, got) := ReadCr(w1, env);
    var v2 := ReadCr(w2, Alone(env)).0;
    if got.Ok? {
      var cn := got.value;
      ProvisionAlike(v1, v2, env, cn);
      var cn1 := cn.(finalizers := cn.finalizers + {FINALIZER});
      MetaAlike(v1, v2, env, FinalizerAdd, cn1);
      var (u1, e) := MetaUpdate(v1, env, FinalizerAdd, cn1);
      var u2 := MetaUpdate(v2, Alone(env), FinalizerAdd, cn1).0;
      ProvisionAlike(u1, u2, env, Refreshed(cn1, e));
    }
  }

  // ---- Deletion -----------------------------------------------------------------------------------------------

  /** A removal, told in terms of the client's part of the store. */
  lemma RemoveEffect(w: World, k: Key)
    requires Own(w.me, k)
    ensures var (w', e) := Remove(w, k);
            && Foreign(w') == Foreign(w)
            && if k !in Mine(w) then (w', e) == (w, Some(NotFound))
               else && e.None? && Mine(w') == (if k.id == TheNamespace then map[] else Mine(w) - {k})
                    && w' == w.(store := w'.store,
                                log := w.log + [if k.id == TheNamespace then NamespaceDeleted(k.ns) else Deleted(k)])
  {
    assert k in w.store <==> k in Mine(w);
  }

  lemma DeleteAlike(w1: World, w2: World, env: Env, s: Site, k: Key)
    requires Alike(w1, w2) && Own(w1.me, k)
    ensures var (v1, e1) := Delete(w1, env, s, k); var (v2, e2) := Delete(w2, Alone(env), s, k);
            InStep(v1, v2, w2) && e1 == e2
  {
    var i1, i2 := Interfere(w1, env, s), Interfere(w2, Alone(env), s);
    hide Remove, Shape, Mine, Foreign;
    RemoveEffect(i1, k);
    RemoveEffect(i2, k);
    ShapeAlike(i1, i2, FaultAt(env, s), Remove(i1, k), Remove(i2, k));
  }

  lemma {:induction false} SelectAlike(w1: World, w2: World, kind: Kind, order: seq<Key>)
    requires Alike(w1, w2)
    ensures Select(w1, kind, order) == Select(w2, kind, order)
    ensures forall k | k in Select(w1, kind, order) :: Own(w1.me, k)
  {
    if order != [] {
      hide Matches;
      SelectAlike(w1, w2, kind, order[1..]);
      var k := order[0];
      assert Own(w1.me, k) ==> (k in w1.store <==> k in Mine(w1)) && (k in w2.store <==> k in Mine(w2));
      assert Listed(w1, kind, k) <==> Listed(w2, kind, k);
    }
  }

  lemma ListAlike(w1: World, w2: World, env: Env, kind: Kind)
    requires Alike(w1, w2)
    ensures var (v1, l1) := List(w1, env, kind); var (v2, l2) := List(w2, Alone(env), kind);
            && InStep(v1, v2, w2) && l1 == l2
            && (l1.Some? ==> forall k | k in l1.value :: Own(w1.me, k))
  {
    var i1, i2 := Interfere(w1, env, Listing(kind)), Interfere(w2, Alone(env), Listing(kind));
    SelectAlike(i1, i2, kind, env.listed);
    CrashAlike(i1, i2, false);
    hide Select, Mine, Foreign;
  }

  lemma {:induction false} EachAlike(w1: World, w2: World, env: Env, keys: seq<Key>)
    requires Alike(w1, w2) && forall k | k in keys :: Own(w1.me, k)
    ensures InStep(DeleteEach(w1, env, keys), DeleteEach(w2, Alone(env), keys), w2)
    decreases |keys|
  {
    if keys != [] {
      hide Delete, Mine, Foreign, Alone;
      var k := keys[0];
      DeleteAlike(w1, w2, env, Deleting(k), k);
      assert Delete(w1, env, Deleting(k), k).0.me == w1.me by { DeleteKeepsClient(w1, env, Deleting(k), k); }
      EachAlike(Delete(w1, env, Deleting(k), k).0, Delete(w2, Alone(env), Deleting(k), k).0, env, keys[1..]);
    }
  }

  lemma DeleteKeepsClient(w: World, env: Env, s: Site, k: Key)
    ensures Delete(w, env, s, k).0.me == w.me
  {
  }

  lemma {:induction false} SweepAlike(w1: World, w2: World, env: Env, kinds: seq<Kind>)
    requires Alike(w1, w2)
    ensures InStep(Sweep(w1, env, kinds), Sweep(w2, Alone(env), kinds), w2)
    decreases |kinds|
  {
    if kinds != [] {
      hide List, DeleteEach, Mine, Foreign, Alone;
      ListAlike(w1, w2, env, kinds[0]);
      var (v1, l) := List(w1, env, kinds[0]);
      var v2 := List(w2, Alone(env), kinds[0]).0;
      if l.Some? {
        assert v1.me == w1.me by { ListKeepsClient(w1, env, kinds[0]); }
        EachAlike(v1, v2, env, l.value);
      }
      SweepAlike(SweepKind(w1, env, kinds[0]), SweepKind(w2, Alone(env), kinds[0]), env, kinds[1..]);
    }
  }

  lemma ListKeepsClient(w: World, env: Env, kind: Kind)
    ensures List(w, env, kind).0.me == w.me
  {
  }

  lemma DropAlike(w1: World, w2: World, env: Env)
    requires Alike(w1, w2)
    ensures var (v1, e1) := DropNamespace(w1, env); var (v2, e2) := DropNamespace(w2, Alone(env));
            InStep(v1, v2, w2) && e1 == e2
  {
    hide Get, Delete, Mine, Foreign, Alone, LabelValue;
    var ns := K(w1, TheNamespace);
    GetAlike(w1, w2, env, NamespaceRead, TheNamespace);
    DeleteAlike(Get(w1, env, NamespaceRead, ns).0, Get(w2, Alone(env), NamespaceRead, ns).0, env, NamespaceDelete, ns);
  }

  lemma DeletePhaseAlike(w1: World, w2: World, env: Env, cn: CR)
    requires Alike(w1, w2)
    ensures InStep(DeletePhase(w1, env, cn), DeletePhase(w2, Alone(env), cn), w2)
  {
    hide MetaUpdate, Sweep, DropNamespace, Mine, Foreign, Alone;
    SweepAlike(w1, w2, env, SWEPT);
    var s1, s2 := Sweep(w1, env, SWEPT), Sweep(w2, Alone(env), SWEPT);
    DropAlike(s1, s2, env);
    MetaAlike(DropNamespace(s1, env).0, DropNamespace(s2, Alone(env)).0, env, FinalizerRemove,
              cn.(finalizers := cn.finalizers - {FINALIZER}));
  }

  /** What any run does to its client's objects and resource does not depend on the rest of the cluster, whatever other
      clients do before each of its calls; and left alone, it changes nothing outside its client's namespace. */
  lemma RunIsIsolated(w1: World, w2: World, env: Env)
    requires Alike(w1, w2)
    ensures InStep(ReconcileAny(w1, env), ReconcileAny(w2, Alone(env)), w2)
  {
    hide ReadCr, DeletePhase, Reconcile, Mine, Foreign, Alone;
    ReadCrAlike(w1, w2, env);
    ReconcileAlike(w1, w2, env);
    var (v1, got) := ReadCr(w1, env);
    if got.Ok? {
      DeletePhaseAlike(v1, ReadCr(w2, Alone(env)).0, env, got.value);
    }
  }

  // ---- Two clients ----------------------------------------------------------------------------------------------

  /** The store after interleaved runs of two clients: each client's part as its own run left it, the rest untouched. */
  function Joint(store: map<Key, Obj>, a: World, b: World): map<Key, Obj> {
    (map k | k in store && !Own(a.me, k) && !Own(b.me, k) :: store[k]) + Mine(a) + Mine(b)
  }

  /** Different clients own different keys. */
  lemma OwnersDiffer(a: string, b: string, k: Key)
    requires a != b && Own(a, k)
    ensures !Own(b, k)
  {
    if Own(b, k) {
      NsNameInjective(a, b);
    }
  }

  /** Another client's undisturbed run leaves this client's view alone. */
  lemma OtherRunUnseen(wb: World, a: World, a1: World)
    requires a.me == a1.me && a.me != wb.me && a.store == wb.store && Foreign(a1) == Foreign(a)
    ensures Alike(wb, wb.(store := a1.store))
  {
    var w := wb.(store := a1.store);
    forall k | Own(wb.me, k)
      ensures k in wb.store <==> k in w.store
      ensures k in wb.store ==> wb.store[k] == w.store[k]
    {
      OwnersDiffer(wb.me, a.me, k);
      assert k in wb.store <==> k in Foreign(a);
      assert k in w.store <==> k in Foreign(a1);
    }
  }

  /** Two clients' runs, one after the other, leave the joint store. */
  lemma SerialIsJoint(wa: World, wb: World, envA: Env, envB: Env)
    requires wa.me != wb.me && wa.store == wb.store
    ensures var a', b' := ReconcileAny(wa, envA), ReconcileAny(wb, envB);
            var a1 := ReconcileAny(wa, Alone(envA));
            var b1 := ReconcileAny(wb.(store := a1.store), Alone(envB));
            && (a1.cr, a1.alive, a1.log) == (a'.cr, a'.alive, a'.log)
            && (b1.cr, b1.alive, b1.log) == (b'.cr, b'.alive, b'.log)
            && b1.store == Joint(wa.store, a', b')
  {
    hide ReconcileAny, Alone;
    var a', b' := ReconcileAny(wa, envA), ReconcileAny(wb, envB);
    RunIsIsolated(wa, wa, envA);
    var a1 := ReconcileAny(wa, Alone(envA));
    RunKeepsClient(wa, envA);
    RunKeepsClient(wb, envB);
    OtherRunUnseen(wb, wa, a1);
    var w := wb.(store := a1.store);
    RunIsIsolated(wb, w, envB);
    var b1 := ReconcileAny(w, Alone(envB));
    JointStore(wa, a', a1, b', b1, w);
  }

  lemma RunKeepsClient(w: World, env: Env)
    ensures ReconcileAny(w, env).me == w.me
  {
    hide Reconcile, Sweep, DropNamespace, MetaUpdate, Mine, Foreign;
    ReconcileKeepsClient(w, env);
    var (w0, got) := ReadCr(w, env);
    if got.Ok? && got.value.deleting {
      SweepFacts(w0, env, SWEPT);
      assert Swept(w0, Sweep(w0, env, SWEPT));
      DropFacts(Sweep(w0, env, SWEPT), env);
    }
  }

  lemma ReconcileKeepsClient(w: World, env: Env)
    ensures Reconcile(w, env).me == w.me
  {
    hide Mine, Foreign;
    var (w0, got) := ReadCr(w, env);
    if got.Ok? {
      var cn1 := got.value.(finalizers := got.value.finalizers + {FINALIZER});
      var (w1, e) := MetaUpdate(w0, env, FinalizerAdd, cn1);
      ProvisionKeepsClient(w0, env, got.value);
      ProvisionKeepsClient(w1, env, Refreshed(cn1, e));
    }
  }

  lemma ProvisionKeepsClient(w: World, env: Env, cn: CR)
    ensures ProvisionPhase(w, env, cn).me == w.me
  {
    hide RunAll, Finish, Actions, StatusUpdate;
    var cn1 := cn.(status := cn.status.(phase := Provisioning));
    var (w1, e) := StatusUpdate(w, env, ProvisioningWrite, cn1);
    var r, r1 := Start(w, cn), Start(w1, Refreshed(cn1, e));
    Frame(r, env, Actions(cn.spec));
    Frame(r1, env, Actions(cn.spec));
    FinishFacts(RunAll(r, env, Actions(cn.spec)), env);
    FinishFacts(RunAll(r1, env, Actions(cn.spec)), env);
  }

  lemma JointStore(wa: World, a': World, a1: World, b': World, b1: World, w: World)
    requires a'.me == a1.me == wa.me && b'.me == b1.me == w.me && a1.me != b1.me && w.store == a1.store
    requires Mine(a1) == Mine(a') && Foreign(a1) == Foreign(wa) && Mine(b1) == Mine(b') && Foreign(b1) == Foreign(w)
    ensures b1.store == Joint(wa.store, a', b')
  {
    forall k
      ensures k in b1.store <==> k in Joint(wa.store, a', b')
      ensures k in b1.store ==> b1.store[k] == Joint(wa.store, a', b')[k]
    {
      if Own(wa.me, k) { OwnersDiffer(wa.me, w.me, k); }
      assert k in b1.store <==> k in Mine(b1) || k in Foreign(b1);
      assert k in a1.store <==> k in Mine(a1) || k in Foreign(a1);
      assert k in w.store && !Own(w.me, k) <==> k in Foreign(w);
      assert k in wa.store && !Own(wa.me, k) <==> k in Foreign(wa);
    }
  }
}
