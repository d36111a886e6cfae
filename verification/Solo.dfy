/**
  Runs of one task with nothing else in flight, and what they do to map, pool and host: the bridge
  between the interleaved system and the straight-line handlers.
 */
module Solo {
  import opened Prelude
  import opened Lifecycle
  import opened Ownership
  import opened Exactness

  // ── Paths ──

  /** Which actions a path may take: steps of task 0, or also requests, or anything. */
  datatype Kind = OwnSteps | CalmSteps | AnySteps

  predicate Takes(kind: Kind, a: Action) {
    match kind
    case OwnSteps => a.Run? && a.t == 0
    case CalmSteps => CalmAction(a)
    case AnySteps => true
  }

  ghost predicate Trail(ss: seq<State>, acts: seq<Action>, s: State, s': State, kind: Kind) {
    && IsRun(ss, acts)
    && ss[0] == s && ss[|acts|] == s'
    && forall k :: 0 <= k < |acts| ==> Takes(kind, acts[k])
  }

  ghost predicate Path(s: State, s': State, kind: Kind) {
    exists ss, acts :: Trail(ss, acts, s, s', kind)
  }

  lemma Stay(s: State, kind: Kind)
    ensures Path(s, s, kind)
  {
    assert Trail([s], [], s, s, kind);
  }

  lemma Further(s: State, m: State, a: Action, s': State, kind: Kind)
    requires Path(s, m, kind) && Next(m, a, s') && Takes(kind, a)
    ensures Path(s, s', kind)
  {
    var ss, acts :| Trail(ss, acts, s, m, kind);
    var ts, bs := ss + [s'], acts + [a];
    forall k | 0 <= k < |bs|
      ensures Next(ts[k], bs[k], ts[k + 1]) && Takes(kind, bs[k])
    {
      if k < |acts| { assert Next(ss[k], acts[k], ss[k + 1]); }
    }
    assert Trail(ts, bs, s, s', kind);
  }

  predicate Within(a: Kind, b: Kind) {
    a == b || b.AnySteps? || (a.OwnSteps? && b.CalmSteps?)
  }

  /** Paths join. */
  lemma Join(s: State, m: State, s': State, first: Kind, second: Kind, kind: Kind)
    requires Path(s, m, first) && Path(m, s', second) && Within(first, kind) && Within(second, kind)
    ensures Path(s, s', kind)
  {
    var ss, acts :| Trail(ss, acts, s, m, first);
    var ts, bs :| Trail(ts, bs, m, s', second);
    var us, cs := ss + ts[1..], acts + bs;
    forall k | 0 <= k < |cs|
      ensures Next(us[k], cs[k], us[k + 1]) && Takes(kind, cs[k])
    {
      if k < |acts| {
        assert us[k] == ss[k] && us[k + 1] == ss[k + 1] && cs[k] == acts[k];
      } else {
        var j := k - |acts|;
        assert us[k] == ts[j] && us[k + 1] == ts[j + 1] && cs[k] == bs[j];
      }
    }
    assert Trail(us, cs, s, s', kind);
  }

  /** Task 0 takes one more step. */
  lemma Move(s: State, m: State, o: Outcome, s': State)
    requires Path(s, m, OwnSteps) && 0 in m.tasks && RunStep(m, 0, o, m.tasks[0]) == Some(s')
    ensures Path(s, s', OwnSteps)
  {
    Further(s, m, Run(0, o), s', OwnSteps);
  }

  // ── Teardown ──

  function Slots(todo: seq<Resource>): set<nat> {
    set r | r in todo && r.Slot? :: r.index
  }

  /** The rules named by `todo` are the rules their handles stand for. */
  ghost predicate Agrees(world: set<Resource>, todo: seq<Resource>) {
    && (forall x :: x in world ==> !x.Slot?)
    && (forall r, x :: r in todo && x in world && SameRule(r, x) ==> x == r)
  }

  function Answer(ok: bool): Outcome {
    Outcome(ok, true, false, 0, 0)
  }

  /** After a teardown in which exactly the commands for `kept` failed. */
  function Torn(s: State, todo: seq<Resource>, kept: set<Resource>, frees: bool, x: Task): State {
    s.(tasks := map[0 := x],
       used := if frees then s.used - Slots(todo) else s.used,
       world := s.world - (ToSet(todo) - kept))
  }

  lemma HeadAndRest(todo: seq<Resource>)
    requires todo != []
    ensures ToSet(todo) == ToSet([todo[0]]) + ToSet(todo[1..])
    ensures Slots(todo) == Slots([todo[0]]) + Slots(todo[1..])
    ensures ToSet([todo[0]]) == {todo[0]}
    ensures Slots([todo[0]]) == if todo[0].Slot? then {todo[0].index} else {}
  {
    assert todo == [todo[0]] + todo[1..];
  }

  lemma TornTwice(s: State, todo: seq<Resource>, kept: set<Resource>, frees: bool, x: Task, y: Task)
    requires todo != []
    ensures Torn(Torn(s, [todo[0]], kept, frees, x), todo[1..], kept, frees, y) == Torn(s, todo, kept, frees, y)
  {
    HeadAndRest(todo);
    var w, a, b := s.world, ToSet([todo[0]]) - kept, ToSet(todo[1..]) - kept;
    assert w - a - b == w - (ToSet(todo) - kept);
    assert s.used - Slots([todo[0]]) - Slots(todo[1..]) == s.used - Slots(todo);
  }

  lemma AgreesAfter(s: State, todo: seq<Resource>, kept: set<Resource>, frees: bool, x: Task)
    requires todo != [] && Agrees(s.world, todo)
    ensures Agrees(Torn(s, [todo[0]], kept, frees, x).world, todo[1..])
  {
    assert forall r :: r in todo[1..] ==> r in todo;
  }

  /** Disposing of an agreed resource removes it alone. */
  lemma DisposeAgreed(s: State, todo: seq<Resource>, kept: set<Resource>)
    requires todo != [] && Agrees(s.world, todo)
    ensures Dispose(s, todo[0], todo[0] !in kept).world == s.world - (ToSet([todo[0]]) - kept)
  {
    HeadAndRest(todo);
    assert todo[0] in todo;
  }

  lemma MoveClean(s0: State, s: State, o: Outcome, s': State)
    requires Path(s0, s, OwnSteps) && 0 in s.tasks && s.tasks[0].Cleaning? && CleanStep(s, 0, o, s.tasks[0]) == Some(s')
    ensures Path(s0, s', OwnSteps)
  {
    Move(s0, s, o, s');
  }

  lemma MoveGuard(s0: State, s: State, o: Outcome, s': State)
    requires Path(s0, s, OwnSteps) && 0 in s.tasks && s.tasks[0].Guarding? && GuardStep(s, 0, o, s.tasks[0]) == Some(s')
    ensures Path(s0, s', OwnSteps)
  {
    Move(s0, s, o, s');
  }

  lemma SlotTorn(s: State, todo: seq<Resource>, kept: set<Resource>, frees: bool, x: Task)
    requires todo != [] && todo[0].Slot? && Agrees(s.world, todo)
    ensures Torn(s, [todo[0]], kept, frees, x) ==
            s.(tasks := map[0 := x], used := if frees then s.used - {todo[0].index} else s.used)
  {
    HeadAndRest(todo);
    assert s.world - (ToSet([todo[0]]) - kept) == s.world;
  }

  lemma HostTorn(s: State, todo: seq<Resource>, kept: set<Resource>, frees: bool, x: Task)
    requires todo != [] && !todo[0].Slot? && Agrees(s.world, todo)
    ensures Torn(s, [todo[0]], kept, frees, x) == Dispose(s, todo[0], todo[0] !in kept).(tasks := map[0 := x])
  {
    HeadAndRest(todo);
    DisposeAgreed(s, todo, kept);
    assert s.used - Slots([todo[0]]) == s.used;
  }

  lemma PutAlone(s: State, x: Task, y: Task)
    requires s.tasks == map[0 := x]
    ensures Put(s, 0, y) == s.(tasks := map[0 := y])
  {
  }

  lemma CleanHead(s0: State, s: State, todo: seq<Resource>, vms: bool, cont: Cont, kept: set<Resource>)
    requires Path(s0, s, OwnSteps) && s.tasks == map[0 := Cleaning(todo, false, vms, cont)] && todo != []
    requires s.poolLock == None && Agrees(s.world, todo)
    ensures Path(s0, Torn(s, [todo[0]], kept, true, Cleaning(todo[1..], false, vms, cont)), OwnSteps)
  {
    var x := s.tasks[0];
    var next := Cleaning(todo[1..], false, vms, cont);
    if todo[0].Slot? {
      SlotTorn(s, todo, kept, true, next);
      var locked := Put(s.(poolLock := Some(0)), 0, x.(pool := true));
      MoveClean(s0, s, Answer(true), locked);
      var freed := locked.(used := s.used - {todo[0].index}, poolLock := None);
      MoveClean(s0, locked, Answer(true), Put(freed, 0, next));
      PutAlone(s.(poolLock := Some(0)), x, x.(pool := true));
      PutAlone(freed, x.(pool := true), next);
    } else {
      HostTorn(s, todo, kept, true, next);
      var m := Dispose(s, todo[0], todo[0] !in kept);
      PutAlone(m, x, next);
      MoveClean(s0, s, Answer(todo[0] !in kept), Put(m, 0, next));
    }
  }

  /** A task that starts tearing down can end up with any part of the host resources kept. */
  lemma {:induction false} Teardown(s0: State, s: State, todo: seq<Resource>, vms: bool, cont: Cont,
                                    kept: set<Resource>)
    requires Path(s0, s, OwnSteps) && s.tasks == map[0 := Cleaning(todo, false, vms, cont)]
    requires s.poolLock == None && Agrees(s.world, todo)
    ensures Path(s0, Torn(s, todo, kept, true, Cleaning([], false, vms, cont)), OwnSteps)
    decreases |todo|
  {
    if todo == [] {
      assert Torn(s, todo, kept, true, s.tasks[0]) == s;
    } else {
      var next := Cleaning(todo[1..], false, vms, cont);
      CleanHead(s0, s, todo, vms, cont, kept);
      AgreesAfter(s, todo, kept, true, next);
      Teardown(s0, Torn(s, [todo[0]], kept, true, next), todo[1..], vms, cont, kept);
      TornTwice(s, todo, kept, true, next, Cleaning([], false, vms, cont));
    }
  }

  lemma GuardHead(s0: State, s: State, id: Id, todo: seq<Resource>, gotPool: bool, kept: set<Resource>)
    requires Path(s0, s, OwnSteps) && s.tasks == map[0 := Guarding(id, todo)] && todo != []
    requires s.poolLock == None && Agrees(s.world, todo)
    ensures Path(s0, Torn(s, [todo[0]], kept, gotPool, Guarding(id, todo[1..])), OwnSteps)
  {
    var next := Guarding(id, todo[1..]);
    if todo[0].Slot? {
      SlotTorn(s, todo, kept, gotPool, next);
      var m := if gotPool then s.(used := s.used - {todo[0].index}) else s;
      PutAlone(m, s.tasks[0], next);
      MoveGuard(s0, s, Answer(gotPool), Put(m, 0, next));
    } else {
      HostTorn(s, todo, kept, gotPool, next);
      var m := Dispose(s, todo[0], todo[0] !in kept);
      PutAlone(m, s.tasks[0], next);
      MoveGuard(s0, s, Answer(todo[0] !in kept), Put(m, 0, next));
    }
  }

  /** The same for the guard, whose `try_lock` on the pool succeeds or not. */
  lemma {:induction false} GuardTeardown(s0: State, s: State, id: Id, todo: seq<Resource>, gotPool: bool,
                                         kept: set<Resource>)
    requires Path(s0, s, OwnSteps) && s.tasks == map[0 := Guarding(id, todo)]
    requires s.poolLock == None && Agrees(s.world, todo)
    ensures Path(s0, Torn(s, todo, kept, gotPool, Guarding(id, [])), OwnSteps)
    decreases |todo|
  {
    if todo == [] {
      assert Torn(s, todo, kept, gotPool, Guarding(id, [])) == s;
    } else {
      var next := Guarding(id, todo[1..]);
      GuardHead(s0, s, id, todo, gotPool, kept);
      AgreesAfter(s, todo, kept, gotPool, next);
      GuardTeardown(s0, Torn(s, [todo[0]], kept, gotPool, next), id, todo[1..], gotPool, kept);
      TornTwice(s, todo, kept, gotPool, next, Guarding(id, []));
    }
  }
}
