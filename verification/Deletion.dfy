/** The deletion protocol: sweep by label, drop the namespace, let go of the resource. */
module Deletion {
  import opened Objects
  import opened Api
  import opened Pipeline
  import opened Invariants

  /** Errors of the single deletes are ignored. */
  function DeleteEach(w: World, env: Env, keys: seq<Key>): World
    decreases |keys|
  {
    if keys == [] then w else DeleteEach(Delete(w, env, Deleting(keys[0]), keys[0]).0, env, keys[1..])
  }

  /** So is an error of the list: the kind is then skipped. */
  function SweepKind(w: World, env: Env, kind: Kind): World {
    var (w1, keys) := List(w, env, kind);
    if keys.None? then w1 else DeleteEach(w1, env, keys.value)
  }

  const SWEPT: seq<Kind> := [Secrets, ConfigMaps, Deployments, StatefulSets, Services, Volumes]

  function Sweep(w: World, env: Env, kinds: seq<Kind>): World
    decreases |kinds|
  {
    if kinds == [] then w else Sweep(SweepKind(w, env, kinds[0]), env, kinds[1..])
  }

  function LabelValue(o: Obj, l: Label): string { if l in o.labels then o.labels[l] else "" }

  /** An error of the read counts as "no namespace"; only a namespace labelled for the client is deleted. */
  function DropNamespace(w: World, env: Env): (World, Option<Err>) {
    var (w1, g) := Get(w, env, NamespaceRead, K(w, TheNamespace));
    if g.Found? && LabelValue(g.obj, ClientLabel) == w.me then
      var (w2, e) := Delete(w1, env, NamespaceDelete, K(w, TheNamespace));
      if e.Some? && e.value != NotFound then (w2, e) else (w2, None)
    else (w1, None)
  }

  /** A run of a resource with a deletion mark. */
  function DeletePhase(w: World, env: Env, cn: CR): World {
    var (w2, e) := DropNamespace(Sweep(w, env, SWEPT), env);
    if e.Some? then w2 else MetaUpdate(w2, env, FinalizerRemove, cn.(finalizers := cn.finalizers - {FINALIZER})).0
  }

  /** One reconcile run of any resource. */
  function ReconcileAny(w0: World, env: Env): World {
    var (w, got) := ReadCr(w0, env);
    if got.Fail? then w else if got.value.deleting then DeletePhase(w, env, got.value) else Reconcile(w0, env)
  }

  // ---- Frames ---------------------------------------------------------------------------------------

  /** The client's objects only become fewer: nothing is created or changed. */
  predicate Fewer(w: World, w': World) {
    && w'.me == w.me && Creates(w'.log) == Creates(w.log)
    && (forall k | k in Mine(w') :: k in Mine(w) && Mine(w')[k] == Mine(w)[k])
  }

  /** ... and the resource is not touched. */
  predicate Shrinks(w: World, w': World) {
    && w' == w.(store := w'.store, alive := w'.alive, log := w'.log)
    && Fewer(w, w') && (w'.alive ==> w.alive)
  }

  lemma ShrinksTransitive(a: World, b: World, c: World)
    requires Shrinks(a, b) && Shrinks(b, c)
    ensures Shrinks(a, c)
  {
  }

  /** Removing an own object. */
  lemma RemoveFacts(w: World, k: Key)
    requires Own(w.me, k)
    ensures var (w', e) := Remove(w, k);
            && Shrinks(w, w') && w'.alive == w.alive
            && (k.id != TheNamespace ==> forall j | j in Mine(w) && j != k :: j in Mine(w'))
            && (k.id == TheNamespace && k in Mine(w) ==> Mine(w') == map[])
            && k !in Mine(w')
            && (if k in Mine(w) then e.None? else e == Some(NotFound) && w' == w)
  {
    CreatesAppend(w.log, NamespaceDeleted(k.ns));
    CreatesAppend(w.log, Deleted(k));
    assert k in w.store <==> k in Mine(w);
  }

  /** A delete of an own object removes at most that object, or with the namespace everything; success means it is
      gone. */
  lemma DeleteFacts(w: World, env: Env, s: Site, k: Key)
    requires Own(w.me, k)
    ensures var (w', e) := Delete(w, env, s, k);
            && Shrinks(w, w')
            && (k.id != TheNamespace ==> forall j | j in Mine(w) && j != k :: j in Mine(w'))
            && (k.id == TheNamespace ==> Mine(w') == Mine(w) || Mine(w') == map[])
            && (e.None? || e.value == NotFound ==> k !in Mine(w'))
            && (e.None? && k.id == TheNamespace ==> Mine(w') == map[])
            && (w.alive && FaultAt(env, s) == Clean ==> w'.alive && k !in Mine(w') && (k in Mine(w) ==> e.None?))
  {
    hide Remove, Shape;
    if w.alive {
      var wi := Interfere(w, env, s);
      assert Shrinks(w, wi);
      RemoveFacts(wi, k);
      var (wr, er) := Remove(wi, k);
      ShapeFacts(wi, FaultAt(env, s), (wr, er));
      ShrinksTransitive(w, wi, wr);
      Crashed(w, wi);
      Crashed(w, wr);
    }
  }

  lemma Crashed(w: World, w': World)
    requires Shrinks(w, w')
    ensures Mine(w'.(alive := false)) == Mine(w') && Shrinks(w, w'.(alive := false))
  {
  }

  /** Objects the sweep may take: of the swept kinds, with all three labels. */
  predicate Sweepable(w: World, k: Key) {
    k in Mine(w) && KindOf(k.id) in SWEPT && Matches(Mine(w)[k].labels, ClientLabels(w.me))
  }

  /** What disappeared was sweepable. */
  predicate Swept(w: World, w': World) {
    Shrinks(w, w') && forall k | k in Mine(w) && k !in Mine(w') :: Sweepable(w, k)
  }

  predicate OnlyKind(w: World, w': World, kind: Kind) {
    forall k | k in Mine(w) && k !in Mine(w') :: KindOf(k.id) == kind
  }

  lemma SweptTransitive(a: World, b: World, c: World)
    requires Swept(a, b) && Swept(b, c)
    ensures Swept(a, c)
  {
    hide Matches;
    ShrinksTransitive(a, b, c);
  }

  lemma {:induction false} SelectFacts(w: World, kind: Kind, order: seq<Key>, k: Key)
    ensures k in Select(w, kind, order) <==> k in order && Listed(w, kind, k)
  {
    if order != [] {
      SelectFacts(w, kind, order[1..], k);
    }
  }

  lemma ListFacts(w: World, env: Env, kind: Kind)
    ensures var (w', keys) := List(w, env, kind);
            && Shrinks(w, w') && Mine(w') == Mine(w)
            && (keys.Some? ==> forall k | k in keys.value :: Listed(w', kind, k) && k in env.listed)
            && (w.alive && FaultAt(env, Listing(kind)) == Clean ==>
                  w'.alive && keys.Some? && forall k | Listed(w', kind, k) && k in env.listed :: k in keys.value)
  {
    hide Matches;
    var wi := Interfere(w, env, Listing(kind));
    forall k ensures k in Select(wi, kind, env.listed) <==> k in env.listed && Listed(wi, kind, k) {
      SelectFacts(wi, kind, env.listed, k);
    }
  }

  /** Deleting a list of sweepable objects; undisturbed, all of them are gone. */
  lemma {:induction false} EachFacts(w: World, env: Env, keys: seq<Key>, kind: Kind)
    requires kind in SWEPT && forall k | k in keys && k in Mine(w) :: Listed(w, kind, k)
    requires forall k | k in keys :: Own(w.me, k) && KindOf(k.id) == kind
    ensures var w' := DeleteEach(w, env, keys);
            && Swept(w, w') && OnlyKind(w, w', kind)
            && (forall k | k in Mine(w) && k !in Mine(w') :: k in keys)
            && (w.alive && (forall k | k in keys :: FaultAt(env, Deleting(k)) == Clean) ==>
                  w'.alive && forall k | k in keys :: k !in Mine(w'))
    decreases |keys|
  {
    if keys != [] {
      hide Delete, Matches;
      var k := keys[0];
      var w1 := Delete(w, env, Deleting(k), k).0;
      DeleteFacts(w, env, Deleting(k), k);
      assert Swept(w, w1);
      forall j | j in keys[1..] && j in Mine(w1) ensures Listed(w1, kind, j) {
        assert j in keys && j in Mine(w);
      }
      EachFacts(w1, env, keys[1..], kind);
      SweptTransitive(w, w1, DeleteEach(w1, env, keys[1..]));
    }
  }

  /** Nothing disturbs the sweep. */
  ghost predicate CalmSweep(env: Env) {
    (forall kind :: FaultAt(env, Listing(kind)) == Clean) && (forall k :: FaultAt(env, Deleting(k)) == Clean)
  }

  /** What disappeared had been listed. */
  predicate OnlyListed(w: World, w': World, env: Env) {
    forall k | k in Mine(w) && k !in Mine(w') :: k in env.listed
  }

  lemma KindFacts(w: World, env: Env, kind: Kind)
    requires kind in SWEPT
    ensures var w' := SweepKind(w, env, kind);
            && Swept(w, w') && OnlyKind(w, w', kind) && OnlyListed(w, w', env)
            && (w.alive && CalmSweep(env) ==>
                  w'.alive && forall k | Sweepable(w, k) && KindOf(k.id) == kind && k in env.listed :: k !in Mine(w'))
  {
    hide List, DeleteEach, Matches;
    ListFacts(w, env, kind);
    var (w1, keys) := List(w, env, kind);
    assert Swept(w, w1);
    if keys.Some? {
      EachFacts(w1, env, keys.value, kind);
      SweptTransitive(w, w1, DeleteEach(w1, env, keys.value));
      assert forall k | k in keys.value :: k in Mine(w);
    }
  }

  lemma {:induction false} SweepFacts(w: World, env: Env, kinds: seq<Kind>)
    requires forall kind | kind in kinds :: kind in SWEPT
    ensures var w' := Sweep(w, env, kinds);
            && Swept(w, w') && OnlyListed(w, w', env)
            && (w.alive && CalmSweep(env) ==>
                  w'.alive && forall k | Sweepable(w, k) && KindOf(k.id) in kinds && k in env.listed :: k !in Mine(w'))
    decreases |kinds|
  {
    if kinds != [] {
      hide SweepKind, Matches;
      var w1 := SweepKind(w, env, kinds[0]);
      KindFacts(w, env, kinds[0]);
      SweepFacts(w1, env, kinds[1..]);
      SweptTransitive(w, w1, Sweep(w1, env, kinds[1..]));
    }
  }

  // ---- The end of a deletion run ----------------------------------------------------------------------

  /** Faults that make the namespace read fail while the process lives on. */
  predicate ReadFails(env: Env) { FaultAt(env, NamespaceRead) in {Drop, Ambiguous, Stale} }

  lemma NamespaceReadFacts(w: World, env: Env)
    ensures var (w1, g) := Get(w, env, NamespaceRead, K(w, TheNamespace)); var ns := K(w, TheNamespace);
            && Shrinks(w, w1) && Mine(w1) == Mine(w)
            && (g.Found? ==> ns in Mine(w) && g.obj == Mine(w)[ns] && !ReadFails(env))
            && (w1.alive && !ReadFails(env) && ns in Mine(w) ==> g.Found?)
  {
    assert K(w, TheNamespace) in Mine(w) ==> K(w, TheNamespace) in Mine(Interfere(w, env, NamespaceRead));
  }

  lemma DropFacts(w: World, env: Env)
    ensures var (w', e) := DropNamespace(w, env); var ns := K(w, TheNamespace);
            && Shrinks(w, w')
            && (Mine(w') == Mine(w)
               || (Mine(w') == map[] && ns in Mine(w) && LabelValue(Mine(w)[ns], ClientLabel) == w.me))
            && (w'.alive && e.None? && ns in Mine(w) && LabelValue(Mine(w)[ns], ClientLabel) == w.me ==>
                  Mine(w') == if ReadFails(env) then Mine(w) else map[])
  {
    hide Delete, Get, LabelValue;
    var ns := K(w, TheNamespace);
    NamespaceReadFacts(w, env);
    var (w1, g) := Get(w, env, NamespaceRead, ns);
    DeleteFacts(w1, env, NamespaceDelete, ns);
    ShrinksTransitive(w, w1, Delete(w1, env, NamespaceDelete, ns).0);
  }

  predicate LetGo(w: World) { w.cr.None? || FINALIZER !in w.cr.value.finalizers }

  /** A deletion run under any faults: the client's objects only become fewer, nothing is created, and everything that
      disappears was labelled for the client, or went with a namespace labelled for the client. */
  lemma DeletionTakesOwnOnly(w: World, env: Env)
    requires w.cr.Some? && w.cr.value.deleting
    ensures var w' := ReconcileAny(w, env); var ns := K(w, TheNamespace);
            && Fewer(w, w')
            && forall k | k in Mine(w) && k !in Mine(w') ::
                 || (Sweepable(w, k) && Carries(Mine(w)[k].labels, w.me)
                     && KindOf(k.id) in {Secrets, ConfigMaps, Deployments, StatefulSets, Services, Volumes})
                 || (ns in Mine(w) && LabelValue(Mine(w)[ns], ClientLabel) == w.me && Mine(w') == map[])
  {
    hide Sweep, DropNamespace, Reconcile, Matches, Carries, MetaUpdate, LabelValue;
    var (w0, got) := ReadCr(w, env);
    assert Mine(w0) == Mine(w);
    if got.Ok? {
      var w1 := Sweep(w0, env, SWEPT);
      SweepFacts(w0, env, SWEPT);
      DropFacts(w1, env);
      var w2 := DropNamespace(w1, env).0;
      assert Mine(ReconcileAny(w, env)) == Mine(w2);
      forall k | Sweepable(w, k)
        ensures Carries(Mine(w)[k].labels, w.me)
        ensures KindOf(k.id) in {Secrets, ConfigMaps, Deployments, StatefulSets, Services, Volumes}
      {
        SweepableCarries(w, k);
      }
    }
  }

  lemma SweepableCarries(w: World, k: Key)
    requires Sweepable(w, k)
    ensures Carries(Mine(w)[k].labels, w.me)
    ensures KindOf(k.id) in {Secrets, ConfigMaps, Deployments, StatefulSets, Services, Volumes}
  {
    SelectorCarries(Mine(w)[k].labels, w.me);
  }

  /** A deletion run takes off the controller's own finalizer and no other: a resource that others hold stays, with
      their finalizers, its spec and its status. */
  lemma OthersFinalizersStay(w: World, env: Env)
    requires w.cr.Some? && w.cr.value.deleting
    ensures var cr, w' := w.cr.value, ReconcileAny(w, env);
            && (w'.cr.None? ==> cr.finalizers <= {FINALIZER})
            && (w'.cr.Some? ==>
                  && w'.cr.value.finalizers in {cr.finalizers, cr.finalizers - {FINALIZER}}
                  && w'.cr.value == cr.(finalizers := w'.cr.value.finalizers, version := w'.cr.value.version))
  {
    hide Sweep, DropNamespace, Reconcile, Mine;
    var (w0, got) := ReadCr(w, env);
    if got.Ok? {
      SweepFacts(w0, env, SWEPT);
      SweptShrinks(w0, Sweep(w0, env, SWEPT));
      DropFacts(Sweep(w0, env, SWEPT), env);
    }
  }

  lemma LabelledNamespace(m: Objs, me: string)
    requires Labelled(m, me) && Has(m, me, TheNamespace)
    ensures LabelValue(m[In(me, TheNamespace)], ClientLabel) == me
  {
    assert ClientLabel in ClientLabels(me);
  }

  lemma SweepKeepsNamespace(w: World, env: Env)
    ensures var w' := Sweep(w, env, SWEPT); var ns := K(w, TheNamespace);
            && Swept(w, w') && (ns in Mine(w) <==> ns in Mine(w')) && (ns in Mine(w) ==> Mine(w')[ns] == Mine(w)[ns])
  {
    hide Sweep, Matches;
    SweepFacts(w, env, SWEPT);
  }

  predicate OwnNamespace(w: World) {
    K(w, TheNamespace) in Mine(w) && LabelValue(Mine(w)[K(w, TheNamespace)], ClientLabel) == w.me
  }

  /** The finalizer and the namespace, sharply. When a deletion run lets go of the resource, however many lists and
      deletes failed, the namespace remains if and only if it existed and its read failed with an error the code
      swallows, or it is not labelled for the client. If all the client's objects are labelled for it, then unless
      the read failed no object remains at all. */
  lemma FinalizerGoesLast(w: World, env: Env)
    requires w.cr.Some? && w.cr.value.deleting && FINALIZER in w.cr.value.finalizers && LetGo(ReconcileAny(w, env))
    ensures var w' := ReconcileAny(w, env); var ns := K(w, TheNamespace);
            && (ns in Mine(w') <==> ns in Mine(w) && (ReadFails(env) || !OwnNamespace(w)))
            && (Labelled(Mine(w), w.me) ==> (Mine(w') == map[] <==> Mine(w) == map[] || !ReadFails(env)))
  {
    hide Sweep, DropNamespace, Reconcile, Labelled, LabelValue, Swept;
    var (w0, got) := ReadCr(w, env);
    assert Mine(w0) == Mine(w);
    var w1 := Sweep(w0, env, SWEPT);
    SweepKeepsNamespace(w0, env);
    assert Shrinks(w0, w1) by { SweptShrinks(w0, w1); }
    DropFacts(w1, env);
    var (w2, e) := DropNamespace(w1, env);
    assert w2.alive && e.None?;
    assert Mine(ReconcileAny(w, env)) == Mine(w2);
    if Labelled(Mine(w), w.me) {
      if K(w, TheNamespace) in Mine(w) {
        LabelledNamespace(Mine(w), w.me);
      } else {
        assert Mine(w) == map[] by { NoNamespaceNothing(Mine(w), w.me); }
      }
    }
  }

  lemma SweptShrinks(w: World, w': World)
    requires Swept(w, w')
    ensures Shrinks(w, w')
  {
  }

  lemma NoNamespaceNothing(m: Objs, me: string)
    requires Labelled(m, me) && !Has(m, me, TheNamespace)
    ensures m == map[]
  {
  }

  /** An undisturbed deletion run removes every object of the client, and with our finalizer as the last one the
      resource. */
  lemma CalmDeletionLeavesNothing(w: World, env: Env)
    requires w.cr.Some? && w.cr.value.deleting && w.cr.value.finalizers == {FINALIZER} && Labelled(Mine(w), w.me)
    requires forall s :: FaultAt(env, s) == Clean
    ensures var w' := ReconcileAny(w, env); w'.cr.None? && Mine(w') == map[]
  {
    hide Sweep, DropNamespace, Reconcile, Labelled, LabelValue, Swept;
    var (w0, got) := ReadCr(w, env);
    var w1 := Sweep(w0, env, SWEPT);
    SweepFacts(w0, env, SWEPT);
    SweptShrinks(w0, w1);
    CalmDrop(w1, env);
    assert ReconcileAny(w, env).cr.None?;
    FinalizerGoesLast(w, env);
  }

  lemma CalmDrop(w: World, env: Env)
    requires w.alive && forall s :: FaultAt(env, s) == Clean
    ensures var (w', e) := DropNamespace(w, env); w'.alive && e.None? && w'.cr == w.cr
  {
    hide Delete;
    var ns := K(w, TheNamespace);
    var (w1, g) := Get(w, env, NamespaceRead, ns);
    DeleteFacts(w1, env, NamespaceDelete, ns);
  }

  // ---- When a deletion run lets go ------------------------------------------------------------------------

  /** The process does not die while this kind is listed and what the list shows is deleted. */
  predicate KindSurvives(w: World, env: Env, kind: Kind) {
    && Survives(env, Listing(kind))
    && (FaultAt(env, Listing(kind)) == Clean ==>
          forall k | k in env.listed && Listed(w, kind, k) :: Survives(env, Deleting(k)))
  }

  /** The namespace step ends without an error: the process survives the read, and where a namespace labelled for the
      client is found, its delete goes through. */
  predicate NamespacePasses(w: World, env: Env) {
    && Survives(env, NamespaceRead)
    && (OwnNamespace(w) && !ReadFails(env) ==> FaultAt(env, NamespaceDelete) == Clean)
  }

  predicate Passes(w: World, env: Env) {
    && FaultAt(env, CrRead) == Clean && (forall kind | kind in SWEPT :: KindSurvives(w, env, kind))
    && NamespacePasses(w, env) && FaultAt(env, FinalizerRemove) in {Clean, Ambiguous, CrashAfter}
  }

  lemma DeleteLife(w: World, env: Env, s: Site, k: Key)
    ensures Delete(w, env, s, k).0.alive <==> w.alive && Survives(env, s)
  {
  }

  lemma {:induction false} EachLife(w: World, env: Env, keys: seq<Key>)
    ensures DeleteEach(w, env, keys).alive <==> w.alive && forall k | k in keys :: Survives(env, Deleting(k))
    decreases |keys|
  {
    hide Delete, Survives;
    if keys != [] {
      DeleteLife(w, env, Deleting(keys[0]), keys[0]);
      EachLife(Delete(w, env, Deleting(keys[0]), keys[0]).0, env, keys[1..]);
      assert forall k :: k in keys <==> k == keys[0] || k in keys[1..];
    }
  }

  /** What is listed depends on the client's own objects only. */
  lemma ListedSame(w: World, w': World, kind: Kind, k: Key)
    requires w'.me == w.me && (k in Mine(w) <==> k in Mine(w')) && (k in Mine(w) ==> Mine(w')[k] == Mine(w)[k])
    ensures Listed(w, kind, k) <==> Listed(w', kind, k)
  {
    hide Matches;
    assert Own(w.me, k) ==> (k in w.store <==> k in Mine(w)) && (k in w'.store <==> k in Mine(w'));
  }

  lemma KindLife(w: World, env: Env, kind: Kind)
    ensures SweepKind(w, env, kind).alive <==> w.alive && KindSurvives(w, env, kind)
  {
    hide Matches, DeleteEach, Listed;
    var wi := Interfere(w, env, Listing(kind));
    var (w1, keys) := List(w, env, kind);
    if keys.Some? {
      EachLife(w1, env, keys.value);
      forall k ensures k in Select(wi, kind, env.listed) <==> k in env.listed && Listed(w, kind, k) {
        SelectFacts(wi, kind, env.listed, k);
        ListedSame(w, wi, kind, k);
      }
    }
  }

  /** Sweeping one kind does not change what the others list. */
  lemma OtherKindSame(w: World, w': World, env: Env, kind: Kind, other: Kind)
    requires Swept(w, w') && OnlyKind(w, w', kind) && other != kind
    ensures KindSurvives(w, env, other) <==> KindSurvives(w', env, other)
  {
    hide Matches;
    forall k ensures Listed(w, other, k) <==> Listed(w', other, k) {
      if KindOf(k.id) == other {
        ListedSame(w, w', other, k);
      }
    }
  }

  lemma {:induction false} SweepLife(w: World, env: Env, kinds: seq<Kind>)
    requires (forall kind | kind in kinds :: kind in SWEPT) && forall i, j | 0 <= i < j < |kinds| ::
             kinds[i] != kinds[j]
    ensures Sweep(w, env, kinds).alive <==> w.alive && forall kind | kind in kinds :: KindSurvives(w, env, kind)
    decreases |kinds|
  {
    hide SweepKind, KindSurvives, Swept, OnlyKind;
    if kinds != [] {
      var w1 := SweepKind(w, env, kinds[0]);
      KindLife(w, env, kinds[0]);
      KindFacts(w, env, kinds[0]);
      SweepLife(w1, env, kinds[1..]);
      forall kind | kind in kinds[1..] ensures KindSurvives(w, env, kind) <==> KindSurvives(w1, env, kind) {
        OtherKindSame(w, w1, env, kinds[0], kind);
      }
      assert forall kind :: kind in kinds <==> kind == kinds[0] || kind in kinds[1..];
    }
  }

  lemma NamespaceLife(w: World, env: Env)
    ensures var (w', e) := DropNamespace(w, env); w'.alive && e.None? <==> w.alive && NamespacePasses(w, env)
  {
    hide Delete, LabelValue;
    var ns := K(w, TheNamespace);
    NamespaceReadFacts(w, env);
    var (w1, g) := Get(w, env, NamespaceRead, ns);
    DeleteFacts(w1, env, NamespaceDelete, ns);
    DeleteLife(w1, env, NamespaceDelete, ns);
    DeleteFails(w1, env, NamespaceDelete, ns);
  }

  lemma DeleteFails(w: World, env: Env, s: Site, k: Key)
    ensures FaultAt(env, s) != Clean ==> Delete(w, env, s, k).1 == Some(Transient)
  {
    hide Remove;
  }

  lemma FinalizerLife(w: World, env: Env, cn: CR)
    requires w.cr == Some(cn) && cn.deleting && FINALIZER in cn.finalizers
    ensures var cn1 := cn.(finalizers := cn.finalizers - {FINALIZER});
            LetGo(MetaUpdate(w, env, FinalizerRemove, cn1).0) <==>
              w.alive && FaultAt(env, FinalizerRemove) in {Clean, Ambiguous, CrashAfter}
  {
  }

  /** Exactly when a deletion run lets go of the resource, in terms of the faults: failing lists and deletes of child
      objects never prevent it, only a crash, an error of the namespace's delete, or of the resource's own calls. */
  lemma LetsGoExactly(w: World, env: Env)
    requires w.cr.Some? && w.cr.value.deleting && FINALIZER in w.cr.value.finalizers
    ensures LetGo(ReconcileAny(w, env)) <==> Passes(w, env)
  {
    hide Sweep, DropNamespace, Reconcile, MetaUpdate, KindSurvives, LabelValue, Swept;
    var (w0, got) := ReadCr(w, env);
    assert Mine(w0) == Mine(w);
    if got.Ok? {
      var cn := got.value;
      SweepLife(w0, env, SWEPT);
      forall kind ensures KindSurvives(w, env, kind) <==> KindSurvives(w0, env, kind) {
        AliveSame(w, w0, env, kind);
      }
      var w1 := Sweep(w0, env, SWEPT);
      SweepKeepsNamespace(w0, env);
      SweptShrinks(w0, w1);
      NamespaceLife(w1, env);
      var (w2, e) := DropNamespace(w1, env);
      DropFacts(w1, env);
      FinalizerLife(w2, env, cn);
      assert w2.cr == w.cr;
    }
  }

  lemma AliveSame(w: World, w': World, env: Env, kind: Kind)
    requires w'.me == w.me && w'.store == w.store
    ensures KindSurvives(w, env, kind) <==> KindSurvives(w', env, kind)
  {
    hide Matches;
  }

  /** What a swallowed read error leaves behind when nothing else goes wrong: exactly the objects that were not listed,
      among them every object of a kind that the sweep does not know, which are the namespace, ingress rules, TCP routes
      and network policies. */
  lemma SwallowedErrorOrphans(w: World, env: Env, k: Key)
    requires w.cr.Some? && w.cr.value.deleting && FINALIZER in w.cr.value.finalizers && Labelled(Mine(w), w.me)
    requires ReadFails(env) && CalmSweep(env)
    requires FaultAt(env, CrRead) == Clean && FaultAt(env, FinalizerRemove) in {Clean, Ambiguous, CrashAfter}
    ensures var w' := ReconcileAny(w, env);
            && LetGo(w')
            && (k in Mine(w') <==>
                  && k in Mine(w)
                  && !(KindOf(k.id) in {Secrets, ConfigMaps, Deployments, StatefulSets, Services, Volumes}
                     && k in env.listed))
  {
    hide Sweep, DropNamespace, Reconcile, Labelled, LabelValue, Matches, Listed;
    LetsGoExactly(w, env);
    var (w0, got) := ReadCr(w, env);
    assert Mine(w0) == Mine(w);
    var w1 := Sweep(w0, env, SWEPT);
    SweepFacts(w0, env, SWEPT);
    DropFacts(w1, env);
    var (w2, e) := DropNamespace(w1, env);
    assert Mine(ReconcileAny(w, env)) == Mine(w2);
    FinalizerGoesLast(w, env);
    AllMatch(Mine(w), w.me);
  }

  /** One dropped read of the namespace: the resource is let go, and the namespace, if there is one, stays. */
  lemma DroppedReadOrphans(w: World)
    requires w.cr.Some? && w.cr.value.deleting && FINALIZER in w.cr.value.finalizers
    ensures var env := PEACE.(faults := map[NamespaceRead := Drop]); var w' := ReconcileAny(w, env);
            && ReadFails(env) && LetGo(w')
            && (K(w, TheNamespace) in Mine(w) <==> K(w, TheNamespace) in Mine(w'))
  {
    hide ReconcileAny, LabelValue, Matches;
    var env := PEACE.(faults := map[NamespaceRead := Drop]);
    LetsGoExactly(w, env);
    FinalizerGoesLast(w, env);
  }

  lemma AllMatch(m: Objs, me: string)
    requires Labelled(m, me)
    ensures forall k | k in m :: Matches(m[k].labels, ClientLabels(me))
  {
  }
}
