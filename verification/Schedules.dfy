/** Many clients' controllers at work on one shared store, scheduled call by call. */
module Schedules {
  import opened Objects
  import opened Api
  import opened Contents
  import opened Pipeline
  import opened Deletion
  import opened NonInterference
  import opened Programs

  /** One client's run in progress: its resource, its process and its writes. The store is shared. */
  datatype Member = Member(me: string, cr: Option<CR>, alive: bool, log: seq<Event>, program: Program, env: Env)

  datatype Fleet = Fleet(store: map<Key, Obj>, members: seq<Member>)

  function View(c: Fleet, i: nat): World
    requires i < |c.members|
  {
    World(c.members[i].me, c.store, c.members[i].cr, c.members[i].alive, c.members[i].log)
  }

  function ProcessOf(c: Fleet, i: nat): Process
    requires i < |c.members|
  {
    Process(c.members[i].program, View(c, i))
  }

  /** The faults and random numbers of a member; other clients act through the shared store only. */
  function EnvOf(c: Fleet, i: nat): Env
    requires i < |c.members|
  {
    Alone(c.members[i].env)
  }

  /** The controller as it is started for a member. */
  function ControllerOf(c: Fleet, i: nat): Program
    requires i < |c.members|
  {
    Controller(c.members[i].me, c.members[i].env.draws, c.members[i].env.sqlOrder)
  }

  /** Member i makes its next call on the shared store. */
  function MakeCall(c: Fleet, i: nat): Fleet
    requires i < |c.members|
  {
    var p := Next(ProcessOf(c, i), EnvOf(c, i));
    Fleet(p.w.store,
            c.members[i := c.members[i].(cr := p.w.cr, alive := p.w.alive, log := p.w.log, program := p.program)])
  }

  /** Whose turn it is, call by call. */
  function Scheduled(c: Fleet, schedule: seq<nat>): (c': Fleet)
    requires forall i | i in schedule :: i < |c.members|
    ensures |c'.members| == |c.members|
    ensures forall i | 0 <= i < |c.members| ::
            c'.members[i].me == c.members[i].me && c'.members[i].env == c.members[i].env
    decreases |schedule|
  {
    if schedule == [] then c
    else
      var front, last := schedule[..|schedule| - 1], schedule[|schedule| - 1];
      assert (forall i | i in front :: i in schedule) && last in schedule;
      MakeCall(Scheduled(c, front), last)
  }

  function Turns(schedule: seq<nat>, i: nat): nat {
    if schedule == [] then 0
    else Turns(schedule[..|schedule| - 1], i) + (if schedule[|schedule| - 1] == i then 1 else 0)
  }

  /** Different members serve different clients. */
  predicate Apart(c: Fleet) {
    forall i, j | 0 <= i < j < |c.members| :: c.members[i].me != c.members[j].me
  }

  // ---- One call -----------------------------------------------------------------------------------------

  /** Seen from worlds that look the same to the client, a call gets the same answer and has the same effect; it leaves
      everything foreign alone. */
  lemma PerformAlike(w1: World, w2: World, env: Env, call: Call)
    requires Alike(w1, w2)
    ensures var (v1, a1) := Perform(w1, Alone(env), call); var (v2, a2) := Perform(w2, Alone(env), call);
            Alike(v1, v2) && a1 == a2 && v1.me == w1.me && Foreign(v1) == Foreign(w1)
  {
    var e := Alone(env);
    assert Alone(e) == e;
    hide Get, Create, Delete, List, StatusUpdate, MetaUpdate, ReadCr, Mine, Foreign, Alone;
    match call {
      case Fetch => ReadCrAlike(w1, w2, e); ReadCrAlike(w1, w1, e);
      case GetObject(s, id) => GetAlike(w1, w2, e, s, id); GetAlike(w1, w1, e, s, id);
      case CreateObject(s, id, o) => CreateAlike(w1, w2, e, s, id, o); CreateAlike(w1, w1, e, s, id, o);
      case DeleteObject(s, id) => DeleteAlike(w1, w2, e, s, K(w1, id)); DeleteAlike(w1, w1, e, s, K(w1, id));
      case ListObjects(kind) => ListAlike(w1, w2, e, kind); ListAlike(w1, w1, e, kind);
      case WriteStatus(s, cn) => StatusAlike(w1, w2, e, s, cn); StatusAlike(w1, w1, e, s, cn);
      case WriteMeta(s, cn) => MetaAlike(w1, w2, e, s, cn); MetaAlike(w1, w1, e, s, cn);
    }
    PerformKeepsClient(w1, e, call);
  }

  lemma PerformKeepsClient(w: World, env: Env, call: Call)
    ensures Perform(w, env, call).0.me == w.me
  {
  }

  lemma NextAlike(p: Process, q: Process, env: Env)
    requires p.program == q.program && Alike(p.w, q.w)
    ensures var p', q' := Next(p, Alone(env)), Next(q, Alone(env));
            p'.program == q'.program && Alike(p'.w, q'.w) && p'.w.me == p.w.me && Foreign(p'.w) == Foreign(p.w)
  {
    hide Perform, Mine, Foreign, Alone;
    if p.program.Ask? {
      PerformAlike(p.w, q.w, env, p.program.call);
    }
  }

  // ---- A member among others --------------------------------------------------------------------------------

  /** Another member's call is not seen. */
  lemma OtherTurn(c: Fleet, i: nat, j: nat)
    requires Apart(c) && i < |c.members| && j < |c.members| && i != j
    ensures ProcessOf(MakeCall(c, j), i).program == ProcessOf(c, i).program
            && Alike(View(MakeCall(c, j), i), View(c, i))
  {
    hide Next, Mine, Foreign, Alone;
    var p := ProcessOf(c, j);
    NextAlike(p, p, c.members[j].env);
    var w1 := Next(p, EnvOf(c, j)).w;
    OtherRunUnseen(View(c, i), View(c, j), w1);
    assert View(MakeCall(c, j), i) == View(c, i).(store := w1.store);
  }

  lemma OwnTurn(c: Fleet, i: nat)
    requires i < |c.members|
    ensures ProcessOf(MakeCall(c, i), i) == Next(ProcessOf(c, i), EnvOf(c, i))
  {
    hide Next, Mine, Foreign, Alone;
    var p := ProcessOf(c, i);
    NextAlike(p, p, c.members[i].env);
  }

  /** However the calls of the members are scheduled, each member is at every moment exactly where it would be had it
      made its calls alone, with nobody else around: same program, same resource, same writes, same objects. */
  lemma {:induction false} EveryScheduleIsSolo(c: Fleet, schedule: seq<nat>, i: nat)
    requires Apart(c) && i < |c.members| && Valid(c, schedule)
    ensures var p := AfterCalls(ProcessOf(c, i), EnvOf(c, i), Turns(schedule, i)); var c' := Scheduled(c, schedule);
            ProcessOf(c', i).program == p.program && Alike(View(c', i), p.w)
    decreases |schedule|
  {
    hide Next, Mine, MakeCall, Alone;
    if schedule == [] {
      NotMoved(ProcessOf(c, i), EnvOf(c, i));
    } else {
      var front, last := schedule[..|schedule| - 1], schedule[|schedule| - 1];
      assert (forall j | j in front :: j in schedule) && last in schedule;
      EveryScheduleIsSolo(c, front, i);
      var c1, n := Scheduled(c, front), Turns(front, i);
      var p := AfterCalls(ProcessOf(c, i), EnvOf(c, i), n);
      if last == i {
        OwnTurn(c1, i);
        NextAlike(ProcessOf(c1, i), p, c.members[i].env);
        OneMore(ProcessOf(c, i), EnvOf(c, i), n);
      } else {
        assert Apart(c1);
        OtherTurn(c1, i, last);
      }
    }
  }

  lemma NotMoved(p: Process, env: Env)
    ensures AfterCalls(p, env, 0) == p && Alike(p.w, p.w)
  {
  }

  lemma OneMore(p: Process, env: Env, n: nat)
    ensures AfterCalls(p, env, n + 1) == Next(AfterCalls(p, env, n), env)
  {
    hide Next;
    AfterMore(p, env, n, 1);
    AfterOne(AfterCalls(p, env, n), env);
  }

  // ---- Whole schedules ----------------------------------------------------------------------------------------

  predicate Valid(c: Fleet, schedule: seq<nat>) { forall j | j in schedule :: j < |c.members| }

  predicate Outside(c: Fleet, k: Key) { forall i | 0 <= i < |c.members| :: !Own(c.members[i].me, k) }

  /** The same objects at this key. */
  predicate SameAt(m: map<Key, Obj>, m': map<Key, Obj>, k: Key) { (k in m <==> k in m') && (k in m ==> m[k] == m'[k]) }

  lemma StepOutside(c: Fleet, j: nat, k: Key)
    requires j < |c.members| && Outside(c, k)
    ensures SameAt(c.store, MakeCall(c, j).store, k)
  {
    hide Next, Mine, Alone;
    var p := ProcessOf(c, j);
    NextAlike(p, p, c.members[j].env);
    var w1 := Next(p, EnvOf(c, j)).w;
    assert k in c.store <==> k in Foreign(p.w);
    assert k in w1.store <==> k in Foreign(w1);
  }

  /** What belongs to no member is never touched. */
  lemma {:induction false} OutsidersUntouched(c: Fleet, schedule: seq<nat>, k: Key)
    requires Valid(c, schedule) && Outside(c, k)
    ensures SameAt(c.store, Scheduled(c, schedule).store, k)
    decreases |schedule|
  {
    if schedule != [] {
      hide MakeCall;
      var front, last := schedule[..|schedule| - 1], schedule[|schedule| - 1];
      assert (forall j | j in front :: j in schedule) && last in schedule;
      OutsidersUntouched(c, front, k);
      StepOutside(Scheduled(c, front), last, k);
    }
  }

  /** Every member's run has ended. */
  predicate Complete(c: Fleet) { forall i | 0 <= i < |c.members| :: c.members[i].program.Done? }

  /** A finished member is where it would be alone. */
  lemma DoneAlone(p: Process, env: Env, m: nat, n: nat)
    requires AfterCalls(p, env, m).program.Done? && AfterCalls(p, env, n).program.Done?
    ensures AfterCalls(p, env, m) == AfterCalls(p, env, n)
  {
    var less, more := if m <= n then m else n, if m <= n then n else m;
    AfterMore(p, env, less, more - less);
    StaysDone(AfterCalls(p, env, less), env, more - less);
  }

  lemma FinishedAlike(c: Fleet, s: seq<nat>, t: seq<nat>, i: nat)
    requires Apart(c) && Valid(c, s) && Valid(c, t) && i < |c.members|
    requires Complete(Scheduled(c, s)) && Complete(Scheduled(c, t))
    ensures Alike(View(Scheduled(c, s), i), View(Scheduled(c, t), i))
    ensures Scheduled(c, s).members[i] == Scheduled(c, t).members[i]
  {
    hide Mine, Next, Alone, Scheduled;
    EveryScheduleIsSolo(c, s, i);
    EveryScheduleIsSolo(c, t, i);
    DoneAlone(ProcessOf(c, i), EnvOf(c, i), Turns(s, i), Turns(t, i));
  }

  /** All complete schedules of any number of clients agree, the serial ones among them: the same store, the same
      resources, the same writes of each client. */
  lemma CompleteSchedulesAgree(c: Fleet, s: seq<nat>, t: seq<nat>)
    requires Apart(c) && Valid(c, s) && Valid(c, t) && Complete(Scheduled(c, s)) && Complete(Scheduled(c, t))
    ensures Scheduled(c, s) == Scheduled(c, t)
  {
    hide Scheduled;
    var a, b := Scheduled(c, s), Scheduled(c, t);
    forall i | 0 <= i < |c.members| ensures a.members[i] == b.members[i] && Alike(View(a, i), View(b, i)) {
      FinishedAlike(c, s, t, i);
    }
    forall k ensures SameAt(a.store, b.store, k) {
      if Outside(c, k) {
        OutsidersUntouched(c, s, k);
        OutsidersUntouched(c, t, k);
      } else {
        var i :| 0 <= i < |c.members| && Own(c.members[i].me, k);
        InView(a, i, k);
        InView(b, i, k);
      }
    }
    SameEverywhere(a.store, b.store);
    assert a.members == b.members;
  }

  lemma SameEverywhere(m: map<Key, Obj>, m': map<Key, Obj>)
    requires forall k :: SameAt(m, m', k)
    ensures m == m'
  {
    forall k ensures (k in m <==> k in m') && (k in m ==> m[k] == m'[k]) {
      assert SameAt(m, m', k);
    }
  }

  lemma InView(c: Fleet, i: nat, k: Key)
    requires i < |c.members| && Own(c.members[i].me, k)
    ensures SameAt(c.store, Mine(View(c, i)), k)
  {
  }

  /** No client waits for another. There is a number of turns of its own after which a client's run has ended, whatever
      the others do in between; and it ends as the whole run does alone, provisioning or deletion, under the same
      faults. */
  lemma OwnTurnsSuffice(c: Fleet, i: nat) returns (n: nat)
    requires Apart(c) && i < |c.members| && c.members[i].program == ControllerOf(c, i)
    ensures forall schedule | Valid(c, schedule) && Turns(schedule, i) >= n ::
              var c' := Scheduled(c, schedule);
              c'.members[i].program.Done? && Alike(View(c', i), ReconcileAny(View(c, i), EnvOf(c, i)))
  {
    assert EnvOf(c, i).draws == c.members[i].env.draws && EnvOf(c, i).sqlOrder == c.members[i].env.sqlOrder;
    hide Mine, Next, Alone, Scheduled, ReconcileAny, Turns;
    n := ControllerIsReconcile(View(c, i), EnvOf(c, i));
    var p := ProcessOf(c, i);
    forall schedule | Valid(c, schedule) && Turns(schedule, i) >= n
      ensures var c' := Scheduled(c, schedule);
              c'.members[i].program.Done? && Alike(View(c', i), ReconcileAny(View(c, i), EnvOf(c, i)))
    {
      EveryScheduleIsSolo(c, schedule, i);
      AfterMore(p, EnvOf(c, i), n, Turns(schedule, i) - n);
      StaysDone(AfterCalls(p, EnvOf(c, i), n), EnvOf(c, i), Turns(schedule, i) - n);
    }
  }

  // ---- One client after the other -----------------------------------------------------------------------------

  /** The members are served one after the other. */
  predicate Serial(schedule: seq<nat>) { forall a, b | 0 <= a < b < |schedule| :: schedule[a] <= schedule[b] }

  /** Every member runs the controller. */
  ghost predicate AllControllers(c: Fleet) {
    forall i | 0 <= i < |c.members| :: c.members[i].program == ControllerOf(c, i)
  }

  lemma {:induction false} TurnsAppend(a: seq<nat>, b: seq<nat>, i: nat)
    ensures Turns(a + b, i) == Turns(a, i) + Turns(b, i)
    decreases |b|
  {
    if b == [] {
      assert a + b == a;
    } else {
      assert (a + b)[..|a + b| - 1] == a + b[..|b| - 1];
      TurnsAppend(a, b[..|b| - 1], i);
    }
  }

  /** So many turns for one member. */
  function Block(i: nat, n: nat): (s: seq<nat>)
    ensures forall j | j in s :: j == i
  {
    if n == 0 then [] else Block(i, n - 1) + [i]
  }

  lemma {:induction false} TurnsInBlock(i: nat, n: nat)
    ensures Turns(Block(i, n), i) == n
  {
    if n > 0 {
      assert Block(i, n)[..|Block(i, n)| - 1] == Block(i, n - 1);
      TurnsInBlock(i, n - 1);
    }
  }

  /** Member i is done in every schedule that gives it as many turns as this one. */
  ghost predicate DoneBy(c: Fleet, s: seq<nat>, i: nat)
    requires i < |c.members|
  {
    forall t | Valid(c, t) && Turns(t, i) >= Turns(s, i) :: Scheduled(c, t).members[i].program.Done?
  }

  /** A serial schedule in which each of the first m members gets its run done. */
  lemma {:induction false} SerialFor(c: Fleet, m: nat) returns (s: seq<nat>)
    requires Apart(c) && AllControllers(c) && m <= |c.members|
    ensures Serial(s) && Valid(c, s) && (forall j | j in s :: j < m)
    ensures forall i | 0 <= i < m :: DoneBy(c, s, i)
  {
    hide Scheduled, Turns, Apart, AllControllers, Alike;
    if m == 0 {
      s := [];
    } else {
      var front := SerialFor(c, m - 1);
      assert AllControllers(c) && c.members[m - 1].program == ControllerOf(c, m - 1) by {
        ControllerAt(c, m - 1);
      }
      var n := OwnTurnsSuffice(c, m - 1);
      var block := Block(m - 1, n);
      s := front + block;
      SerialAppend(front, block, m - 1);
      TurnsInBlock(m - 1, n);
      forall i | 0 <= i < m ensures DoneBy(c, s, i) {
        TurnsAppend(front, block, i);
        if i < m - 1 {
          assert DoneBy(c, front, i);
        }
      }
    }
  }

  lemma SerialAppend(a: seq<nat>, b: seq<nat>, m: nat)
    requires Serial(a) && (forall j | j in a :: j < m) && (forall j | j in b :: j == m)
    ensures Serial(a + b) && forall j | j in a + b :: j <= m
  {
    var s := a + b;
    forall i, j | 0 <= i < j < |s| ensures s[i] <= s[j] {
      assert s[i] in s && s[j] in s && (j >= |a| ==> s[j] in b) && (i < |a| ==> s[i] in a);
    }
  }

  lemma ControllerAt(c: Fleet, i: nat)
    requires AllControllers(c) && i < |c.members|
    ensures c.members[i].program == ControllerOf(c, i)
  {
  }

  /** Every interleaving is serial: whatever the order of the calls of any number of controllers at work on one store,
      once all runs have ended the cluster is that of a schedule that serves one client after the other. */
  lemma EveryScheduleIsSerial(c: Fleet, t: seq<nat>) returns (s: seq<nat>)
    requires Apart(c) && AllControllers(c) && Valid(c, t) && Complete(Scheduled(c, t))
    ensures Serial(s) && Valid(c, s) && Complete(Scheduled(c, s)) && Scheduled(c, s) == Scheduled(c, t)
  {
    hide Scheduled, Turns;
    s := SerialFor(c, |c.members|);
    forall i | 0 <= i < |c.members| ensures Scheduled(c, s).members[i].program.Done? {
      assert DoneBy(c, s, i);
    }
    CompleteSchedulesAgree(c, s, t);
  }
}
