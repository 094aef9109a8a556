/** The mutable cluster and the in-memory resource, proved against the call semantics of module Api. */
module Cluster {
  import opened Objects
  import Api

  /** A ClientNamespace held in memory by a run; its fields are edited in place. */
  class ClientNamespace {
    const name: string
    const spec: Spec
    const deleting: bool
    var finalizers: set<string>
    var version: nat
    var phase: Phase
    var namespace: string
    var endpoint: string
    var adminSecretName: string
    var services: seq<ServiceStatus>
    var conditions: seq<Condition>

    constructor (cr: CR)
      ensures Snapshot() == cr
    {
      name, spec, deleting := cr.name, cr.spec, cr.deleting;
      finalizers, version := cr.finalizers, cr.version;
      phase, namespace, endpoint := cr.status.phase, cr.status.namespace, cr.status.endpoint;
      adminSecretName := cr.status.adminSecretName;
      services, conditions := cr.status.services, cr.status.conditions;
    }

    function Snapshot(): CR
      reads this
    {
      CR(name, spec, finalizers, deleting,
         Status(phase, namespace, endpoint, adminSecretName, services, conditions), version)
    }
  }

  /** The API server, with one client's resource in it. */
  class ApiServer {
    const me: string
    var store: map<Key, Obj>
    var cr: Option<CR>
    var alive: bool
    var log: seq<Api.Event>

    function World(): Api.World
      reads this
    {
      Api.World(me, store, cr, alive, log)
    }

    constructor (me: string, store: map<Key, Obj>, cr: Option<CR>)
      ensures World() == Api.World(me, store, cr, true, [])
    {
      this.me, this.store, this.cr, this.alive, this.log := me, store, cr, true, [];
    }

    /** Other clients act just before a call. */
    method Others(env: Api.Env, s: Api.Site)
      modifies this`store
      ensures World() == Api.Interfere(old(World()), env, s)
    {
      if s in env.elsewhere {
        var mine := map k | k in store && Api.Own(me, k) :: store[k];
        var others := map k | k in env.elsewhere[s] && !Api.Own(me, k) :: env.elsewhere[s][k];
        store := mine + others;
      }
    }

    method Get(env: Api.Env, s: Api.Site, k: Key) returns (g: Api.Reply)
      modifies this
      ensures (World(), g) == Api.Get(old(World()), env, s, k)
    {
      if !alive {
        return Api.Missed(Transient);
      }
      Others(env, s);
      match Api.FaultAt(env, s) {
        case Clean =>
          g := if k in store then Api.Found(store[k]) else Api.Missed(NotFound);
        case Drop | Ambiguous =>
          g := Api.Missed(Transient);
        case Stale =>
          g := Api.Missed(NotFound);
        case CrashBefore | CrashAfter =>
          alive := false;
          g := Api.Missed(Transient);
      }
    }

    /** A run begins with a live process and reads the resource. */
    method Fetch(env: Api.Env) returns (got: Result<CR>)
      modifies this`alive
      ensures (World(), got) == Api.ReadCr(old(World()), env)
    {
      alive := true;
      match Api.FaultAt(env, Api.CrRead) {
        case Clean =>
          got := if cr.None? then Fail(NotFound) else Ok(cr.value);
        case Stale =>
          got := Fail(NotFound);
        case Drop | Ambiguous =>
          got := Fail(Transient);
        case CrashBefore | CrashAfter =>
          alive := false;
          got := Fail(Transient);
      }
    }

    /** The server side of a create. */
    method Insert(k: Key, o: Obj) returns (e: Option<Err>)
      modifies this`store, this`log
      ensures (World(), e) == Api.Insert(old(World()), k, o)
    {
      if k in store {
        return Some(AlreadyExists);
      }
      if k.id != TheNamespace && Key(k.ns, TheNamespace) !in store {
        return Some(NotFound);
      }
      store := store[k := o];
      log := log + [Api.Created(k, o)];
      return None;
    }

    method Create(env: Api.Env, s: Api.Site, k: Key, o: Obj) returns (e: Option<Err>)
      modifies this
      ensures (World(), e) == Api.Create(old(World()), env, s, k, o)
    {
      if !alive {
        return Some(Transient);
      }
      Others(env, s);
      match Api.FaultAt(env, s) {
        case Clean =>
          e := Insert(k, o);
        case Drop | Stale =>
          e := Some(Transient);
        case Ambiguous =>
          var _ := Insert(k, o);
          e := Some(Transient);
        case CrashBefore =>
          alive := false;
          e := Some(Transient);
        case CrashAfter =>
          var _ := Insert(k, o);
          alive := false;
          e := Some(Transient);
      }
    }

    /** The server side of a delete; a namespace takes everything in it along. */
    method Remove(k: Key) returns (e: Option<Err>)
      modifies this`store, this`log
      ensures (World(), e) == Api.Remove(old(World()), k)
    {
      if k !in store {
        return Some(NotFound);
      }
      if k.id == TheNamespace {
        store := map j | j in store && j.ns != k.ns :: store[j];
        log := log + [Api.NamespaceDeleted(k.ns)];
      } else {
        store := store - {k};
        log := log + [Api.Deleted(k)];
      }
      return None;
    }

    method Delete(env: Api.Env, s: Api.Site, k: Key) returns (e: Option<Err>)
      modifies this
      ensures (World(), e) == Api.Delete(old(World()), env, s, k)
    {
      if !alive {
        return Some(Transient);
      }
      Others(env, s);
      match Api.FaultAt(env, s) {
        case Clean =>
          e := Remove(k);
        case Drop | Stale =>
          e := Some(Transient);
        case Ambiguous =>
          var _ := Remove(k);
          e := Some(Transient);
        case CrashBefore =>
          alive := false;
          e := Some(Transient);
        case CrashAfter =>
          var _ := Remove(k);
          alive := false;
          e := Some(Transient);
      }
    }

    /** The matching objects of one kind, in the order in which the cache happens to hold them. */
    method List(env: Api.Env, kind: Kind) returns (keys: Option<seq<Key>>)
      modifies this
      ensures (World(), keys) == Api.List(old(World()), env, kind)
    {
      if !alive {
        return None;
      }
      Others(env, Api.Listing(kind));
      match Api.FaultAt(env, Api.Listing(kind)) {
        case Clean =>
          var found := [];
          var i := |env.listed|;
          assert env.listed[i..] == [];
          while i > 0
            invariant 0 <= i <= |env.listed|
            invariant found == Api.Select(World(), kind, env.listed[i..])
          {
            i := i - 1;
            var k := env.listed[i];
            assert env.listed[i..][0] == k && env.listed[i..][1..] == env.listed[i + 1..];
            if Api.Listed(World(), kind, k) {
              found := [k] + found;
            }
          }
          assert env.listed[0..] == env.listed;
          keys := Some(found);
        case Stale =>
          keys := Some([]);
        case Drop | Ambiguous =>
          keys := None;
        case CrashBefore | CrashAfter =>
          alive := false;
          keys := None;
      }
    }

    /** The server side of a status write: optimistic concurrency, then schema validation. */
    method StoreStatus(cn: CR) returns (e: Option<Err>)
      modifies this`cr, this`log
      ensures (World(), e) == Api.StoreStatus(old(World()), cn)
    {
      if cr.None? {
        return Some(NotFound);
      }
      if cn.version != cr.value.version {
        return Some(Conflict);
      }
      if !DistinctConditionTypes(cn.status.conditions) {
        return Some(Invalid);
      }
      cr := Some(cr.value.(status := cn.status, version := cn.version + 1));
      log := log + [Api.PhaseStored(cn.status.phase)];
      return None;
    }

    method StoreFinalizers(cn: CR) returns (e: Option<Err>)
      modifies this`cr
      ensures (World(), e) == Api.StoreFinalizers(old(World()), cn)
    {
      if cr.None? {
        return Some(NotFound);
      }
      if cn.version != cr.value.version {
        return Some(Conflict);
      }
      if cr.value.deleting && cn.finalizers == {} {
        cr := None;
        return None;
      }
      cr := Some(cr.value.(finalizers := cn.finalizers, version := cn.version + 1));
      return None;
    }

    /** A status write; on success the caller's copy is refreshed with the new version. */
    method StatusUpdate(env: Api.Env, s: Api.Site, cn: ClientNamespace) returns (e: Option<Err>)
      modifies this, cn`version
      ensures (World(), e) == Api.StatusUpdate(old(World()), env, s, old(cn.Snapshot()))
      ensures cn.Snapshot() == Api.Refreshed(old(cn.Snapshot()), e)
    {
      if !alive {
        return Some(Transient);
      }
      match Api.FaultAt(env, s) {
        case Clean =>
          e := StoreStatus(cn.Snapshot());
          if e.None? {
            cn.version := cn.version + 1;
          }
        case Drop | Stale =>
          e := Some(Transient);
        case Ambiguous =>
          var _ := StoreStatus(cn.Snapshot());
          e := Some(Transient);
        case CrashBefore =>
          alive := false;
          e := Some(Transient);
        case CrashAfter =>
          var _ := StoreStatus(cn.Snapshot());
          alive := false;
          e := Some(Transient);
      }
    }

    /** A metadata write; on success the caller's copy is refreshed with the new version. */
    method Update(env: Api.Env, s: Api.Site, cn: ClientNamespace) returns (e: Option<Err>)
      modifies this, cn`version
      ensures (World(), e) == Api.MetaUpdate(old(World()), env, s, old(cn.Snapshot()))
      ensures cn.Snapshot() == Api.Refreshed(old(cn.Snapshot()), e)
    {
      if !alive {
        return Some(Transient);
      }
      match Api.FaultAt(env, s) {
        case Clean =>
          e := StoreFinalizers(cn.Snapshot());
          if e.None? {
            cn.version := cn.version + 1;
          }
        case Drop | Stale =>
          e := Some(Transient);
        case Ambiguous =>
          var _ := StoreFinalizers(cn.Snapshot());
          e := Some(Transient);
        case CrashBefore =>
          alive := false;
          e := Some(Transient);
        case CrashAfter =>
          var _ := StoreFinalizers(cn.Snapshot());
          alive := false;
          e := Some(Transient);
      }
    }
  }
}
