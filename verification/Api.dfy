/** The API server as the controller sees it: calls that may fail, lie, or be cut off. */
module Api {
  import opened Objects

  // ---- Adversary inputs ---------------------------------------------------

  /** What happens to one call.
      - `Drop`: no effect, a transient error is returned;
      - `Ambiguous`: a write takes effect but an error is returned;
      - `Stale`: a read misses an existing object (a write behaves as `Drop`);
      - `CrashBefore`, `CrashAfter`: the controller process stops around the call. */
  datatype Fault = Clean | Drop | Ambiguous | Stale | CrashBefore | CrashAfter

  /** Why an object is read or created; one run performs each call at most once. */
  datatype Place = Pipeline | Fallback | PasswordRead | NinegateRead | GlauthRead | DexRead | CaRead

  datatype Site =
    | Reading(id: Id, place: Place)
    | Creating(id: Id, place: Place)
    | CrRead | FinalizerAdd | ProvisioningWrite | ServiceWrite | FailedWrite | ReadyWrite
    | Listing(kind: Kind) | Deleting(key: Key) | NamespaceRead | NamespaceDelete | FinalizerRemove

  /** The places that consume randomness. */
  datatype Purpose =
    | ForAdmin | ForPostgres | ForRustfs | ForNinegateAdmin | ForAppSecret | ForOidc
    | ForCa | ForCert(app: App) | ForFallbackCert(app: App)
    | ForDexAdmin | ForDexClient | ForNextcloudClient | ForFilesClient

  datatype Draw = NoRandom | Value(n: nat)

  /** Everything a run does not control. A site or purpose that is not listed is clean.
      `elsewhere` is what other clients' namespaces look like just before a call;
      `sqlOrder` is the runtime's map iteration order; `listed` is the order in which lists return objects, and a list
      misses what is not in it, as a lagging cache does. */
  datatype Env = Env(
    faults: map<Site, Fault>,
    draws: map<Purpose, seq<Draw>>,
    elsewhere: map<Site, map<Key, Obj>>,
    sqlOrder: seq<App>,
    listed: seq<Key>)

  /** An environment in which nothing goes wrong. */
  const PEACE := Env(map[], map[], map[], [], [])

  function FaultAt(env: Env, s: Site): Fault {
    if s in env.faults then env.faults[s] else Clean
  }

  /** The process does not die around this call. */
  predicate Survives(env: Env, s: Site) { FaultAt(env, s) !in {CrashBefore, CrashAfter} }

  function DrawsFor(env: Env, p: Purpose): seq<Draw> {
    if p in env.draws then env.draws[p] else []
  }

  // ---- The cluster --------------------------------------------------------

  datatype Event = Created(key: Key, obj: Obj) | Deleted(key: Key) | NamespaceDeleted(ns: string)
      | PhaseStored(phase: Phase)

  /** The cluster and one client's resource. `alive` says whether the controller process still runs;
      `log` is the audit log of the writes that took effect. */
  datatype World = World(me: string, store: map<Key, Obj>, cr: Option<CR>, alive: bool, log: seq<Event>)

  /** The creates that took effect, in order. */
  function Creates(log: seq<Event>): seq<Key> {
    if log == [] then []
    else Creates(log[..|log| - 1]) + (if log[|log| - 1].Created? then [log[|log| - 1].key] else [])
  }

  lemma CreatesAppend(log: seq<Event>, e: Event)
    ensures Creates(log + [e]) == Creates(log) + (if e.Created? then [e.key] else [])
  {
    assert (log + [e])[..|log|] == log;
  }

  predicate Own(client: string, k: Key) { k.ns == NsName(client) }

  function K(w: World, id: Id): Key { Key(NsName(w.me), id) }

  /** The part of the store inside the client's namespace (with the namespace object). */
  function Mine(w: World): map<Key, Obj> {
    map k | k in w.store && Own(w.me, k) :: w.store[k]
  }

  function Foreign(w: World): map<Key, Obj> {
    map k | k in w.store && !Own(w.me, k) :: w.store[k]
  }

  /** Other clients act: anything outside the client's namespace may change. */
  function Interfere(w: World, env: Env, s: Site): (w': World)
    ensures Mine(w') == Mine(w)
    ensures w' == w.(store := w'.store)
  {
    if s !in env.elsewhere then w else
      w.(store := Mine(w) + map k | k in env.elsewhere[s] && !Own(w.me, k) :: env.elsewhere[s][k])
  }

  datatype Reply = Found(obj: Obj) | Missed(error: Err)

  function Get(w0: World, env: Env, s: Site, k: Key): (r: (World, Reply))
    ensures Mine(r.0) == Mine(w0)
    ensures r.0 == w0.(store := r.0.store, alive := r.0.alive)
    ensures r.1.Found? && Own(w0.me, k) ==> k in Mine(w0) && r.1.obj == Mine(w0)[k]
  {
    if !w0.alive then (w0, Missed(Transient)) else
      var w := Interfere(w0, env, s);
      assert Own(w0.me, k) && k in w.store ==> k in Mine(w);
      match FaultAt(env, s)
      case Clean => (w, if k in w.store then Found(w.store[k]) else Missed(NotFound))
      case Drop | Ambiguous => (w, Missed(Transient))
      case Stale => (w, Missed(NotFound))
      case CrashBefore | CrashAfter => (w.(alive := false), Missed(Transient))
  }

  /** What a create does when it reaches the server. */
  function Insert(w: World, k: Key, o: Obj): (World, Option<Err>) {
    if k in w.store then (w, Some(AlreadyExists))
    else if k.id != TheNamespace && Key(k.ns, TheNamespace) !in w.store then (w, Some(NotFound))
    else (w.(store := w.store[k := o], log := w.log + [Created(k, o)]), None)
  }

  /** How a fault shapes a write: the world after it, and the error the caller sees. */
  function Shape(w: World, f: Fault, done: (World, Option<Err>)): (World, Option<Err>) {
    match f
    case Clean => done
    case Drop | Stale => (w, Some(Transient))
    case Ambiguous => (done.0, Some(Transient))
    case CrashBefore => (w.(alive := false), Some(Transient))
    case CrashAfter => (done.0.(alive := false), Some(Transient))
  }

  lemma ShapeFacts(w: World, f: Fault, done: (World, Option<Err>))
    ensures var (w', e) := Shape(w, f, done);
            && w' in {w, w.(alive := false), done.0, done.0.(alive := false)}
            && (f == Clean ==> (w', e) == done)
            && (f != Clean ==> e == Some(Transient))
  {
  }

  function Create(w0: World, env: Env, s: Site, k: Key, o: Obj): (r: (World, Option<Err>))
  {
    if !w0.alive then (w0, Some(Transient)) else
      var w := Interfere(w0, env, s);
      Shape(w, FaultAt(env, s), Insert(w, k, o))
  }

  /** Deleting a namespace takes everything in it along. */
  function Remove(w: World, k: Key): (World, Option<Err>) {
    if k !in w.store then (w, Some(NotFound))
    else if k.id == TheNamespace then
      (w.(store := map j | j in w.store && j.ns != k.ns :: w.store[j], log := w.log + [NamespaceDeleted(k.ns)]), None)
    else (w.(store := w.store - {k}, log := w.log + [Deleted(k)]), None)
  }

  function Delete(w0: World, env: Env, s: Site, k: Key): (World, Option<Err>) {
    if !w0.alive then (w0, Some(Transient)) else
      var w := Interfere(w0, env, s);
      Shape(w, FaultAt(env, s), Remove(w, k))
  }

  /** The objects of a kind in the client's namespace that carry all three client labels. */
  predicate Listed(w: World, kind: Kind, k: Key) {
    Own(w.me, k) && k in w.store && KindOf(k.id) == kind && Matches(w.store[k].labels, ClientLabels(w.me))
  }

  function Select(w: World, kind: Kind, order: seq<Key>): seq<Key> {
    if order == [] then []
    else (if Listed(w, kind, order[0]) then [order[0]] else []) + Select(w, kind, order[1..])
  }

  function List(w0: World, env: Env, kind: Kind): (World, Option<seq<Key>>) {
    if !w0.alive then (w0, None) else
      var w := Interfere(w0, env, Listing(kind));
      match FaultAt(env, Listing(kind))
      case Clean => (w, Some(Select(w, kind, env.listed)))
      case Stale => (w, Some([]))
      case Drop | Ambiguous => (w, None)
      case CrashBefore | CrashAfter => (w.(alive := false), None)
  }

  /** Optimistic concurrency and schema validation of a status write. */
  function StoreStatus(w: World, cn: CR): (World, Option<Err>) {
    if w.cr.None? then (w, Some(NotFound))
    else if cn.version != w.cr.value.version then (w, Some(Conflict))
    else if !DistinctConditionTypes(cn.status.conditions) then (w, Some(Invalid))
    else (w.(cr := Some(w.cr.value.(status := cn.status, version := cn.version + 1)),
             log := w.log + [PhaseStored(cn.status.phase)]), None)
  }

  /** Optimistic concurrency of a metadata write; the resource goes away with its last finalizer. */
  function StoreFinalizers(w: World, cn: CR): (World, Option<Err>) {
    if w.cr.None? then (w, Some(NotFound))
    else if cn.version != w.cr.value.version then (w, Some(Conflict))
    else if w.cr.value.deleting && cn.finalizers == {} then (w.(cr := None), None)
    else (w.(cr := Some(w.cr.value.(finalizers := cn.finalizers, version := cn.version + 1))), None)
  }

  function StatusUpdate(w: World, env: Env, s: Site, cn: CR): (r: (World, Option<Err>))
    ensures r.0 == w.(cr := r.0.cr, alive := r.0.alive, log := r.0.log)
    ensures r.1.None? ==> r.0.alive
    ensures r.0.log == w.log || r.0.log == w.log + [PhaseStored(cn.status.phase)]
  {
    if !w.alive then (w, Some(Transient)) else Shape(w, FaultAt(env, s), StoreStatus(w, cn))
  }

  function MetaUpdate(w: World, env: Env, s: Site, cn: CR): (r: (World, Option<Err>))
    ensures r.0 == w.(cr := r.0.cr, alive := r.0.alive, log := r.0.log)
    ensures r.1.None? ==> r.0.alive
    ensures r.0.log == w.log
  {
    if !w.alive then (w, Some(Transient)) else Shape(w, FaultAt(env, s), StoreFinalizers(w, cn))
  }

  /** A run begins with a live process and reads the resource. */
  function ReadCr(w0: World, env: Env): (World, Result<CR>) {
    var w := w0.(alive := true);
    match FaultAt(env, CrRead)
    case Clean => (w, if w.cr.None? then Fail(NotFound) else Ok(w.cr.value))
    case Stale => (w, Fail(NotFound))
    case Drop | Ambiguous => (w, Fail(Transient))
    case CrashBefore | CrashAfter => (w.(alive := false), Fail(Transient))
  }

  /** After an accepted write the caller's copy carries the new version. */
  function Refreshed(cn: CR, e: Option<Err>): CR {
    if e.None? then cn.(version := cn.version + 1) else cn
  }

  /** A status write stores the caller's status or leaves the resource alone; it is stored only from the
      current version and with distinct condition types. */
  lemma StatusUpdateFacts(w: World, env: Env, s: Site, cn: CR)
    requires w.cr.Some?
    ensures var (w', e) := StatusUpdate(w, env, s, cn);
            && (|| w' == w.(alive := w'.alive)
                || (&& w' == w.(alive := w'.alive,
                                cr := Some(w.cr.value.(status := cn.status, version := cn.version + 1)),
                                log := w.log + [PhaseStored(cn.status.phase)])
                    && DistinctConditionTypes(cn.status.conditions)))
            && ((FaultAt(env, s) == Clean && w.alive && cn.version == w.cr.value.version
                 && DistinctConditionTypes(cn.status.conditions))
                ==> e.None? && w' == w.(cr := Some(w.cr.value.(status := cn.status, version := cn.version + 1)),
                                        log := w.log + [PhaseStored(cn.status.phase)]))
  {
  }

  /** A create changes the client's namespace by at most the one new object, and logs exactly that. */
  lemma CreateFacts(w: World, env: Env, s: Site, k: Key, o: Obj)
    requires Own(w.me, k)
    ensures var (w', e) := Create(w, env, s, k, o);
            && w' == w.(store := w'.store, alive := w'.alive, log := w'.log)
            && (|| (Mine(w') == Mine(w) && w'.log == w.log)
                || (&& w.alive && k !in Mine(w) && Mine(w') == Mine(w)[k := o] && w'.log == w.log + [Created(k, o)]
                    && (k.id != TheNamespace ==> K(w, TheNamespace) in Mine(w))))
            && (e.None? ==> k in Mine(w') && k !in Mine(w) && w'.alive)
  {
    hide Shape, Insert;
    if w.alive {
      var wi := Interfere(w, env, s);
      InsertFacts(wi, k, o);
      ShapeFacts(wi, FaultAt(env, s), Insert(wi, k, o));
      assert forall x: World :: Mine(x.(alive := false)) == Mine(x);
      hide Mine;
    }
  }

  lemma InsertFacts(w: World, k: Key, o: Obj)
    requires Own(w.me, k)
    ensures var (w', e) := Insert(w, k, o);
            && w' == w.(store := w'.store, log := w'.log)
            && (if e.None? then
                  && k !in Mine(w) && Mine(w') == Mine(w)[k := o] && w'.log == w.log + [Created(k, o)]
                  && (k.id != TheNamespace ==> K(w, TheNamespace) in Mine(w))
                else w' == w)
  {
    assert k in w.store <==> k in Mine(w);
    assert Key(k.ns, TheNamespace) in w.store <==> K(w, TheNamespace) in Mine(w);
    if k !in w.store {
      assert Mine(w.(store := w.store[k := o])) == Mine(w)[k := o];
    }
  }
}
