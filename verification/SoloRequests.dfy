/** What each request, running alone, can do to map, pool and host, as paths of the interleaved system. */
module SoloRequests {
  import opened Prelude
  import opened VmConfig
  import opened Lifecycle
  import opened Ownership
  import opened Solo
  import Conservation

  /** Nothing in flight. */
  function Idle(cap: Capacity, vms: map<Id, Entry>, used: set<nat>, world: set<Resource>): State {
    State(cap, vms, None, used, None, map[], world, {}, false)
  }

  predicate Resting(s: State) {
    s.tasks == map[] && s.vmsLock == None && s.poolLock == None
  }

  /** The state with task 0 alone at `x`, holding the map lock or not. */
  function Doing(s: State, x: Task, locked: bool): State {
    s.(tasks := map[0 := x], vmsLock := if locked then Some(0) else None)
  }

  // ── Rules and their handles ──

  /** The handles of every entry name its own rules. */
  ghost predicate HandlesAgree(world: set<Resource>, vms: map<Id, Entry>) {
    && (forall x :: x in world ==> !x.Slot?)
    && (forall id, r, x :: id in vms && r in EntryHolds(id, vms[id]) && x in world && SameRule(r, x) ==> x == r)
  }

  /** They do whenever the map can be looked at. */
  lemma GoodAgrees(s: State)
    requires Conservation.Good(s) && s.vmsLock == None
    ensures HandlesAgree(s.world, s.vms)
  {
    forall id, r, x | id in s.vms && r in EntryHolds(id, s.vms[id]) && x in s.world && SameRule(r, x)
      ensures x == r
    {
      assert r in HoldsAt(s, OfEntry(id));
      assert Present(s, r);
    }
  }

  lemma EntryAgrees(world: set<Resource>, vms: map<Id, Entry>, id: Id)
    requires HandlesAgree(world, vms) && id in vms
    ensures Agrees(world, EntryTodo(id, vms[id]))
  {
    Conservation.TodoOfEntry(id, vms[id]);
    forall r | r in EntryTodo(id, vms[id])
      ensures r in EntryHolds(id, vms[id])
    {
      assert r in ToSet(EntryTodo(id, vms[id]));
    }
  }

  lemma FewerAgree(world: set<Resource>, vms: map<Id, Entry>, world': set<Resource>, vms': map<Id, Entry>)
    requires HandlesAgree(world, vms) && world' <= world
    requires forall id :: id in vms' ==> id in vms && vms'[id] == vms[id]
    ensures HandlesAgree(world', vms')
  {
  }

  // ── Taking an entry down ──

  function Without(s: State, id: Id, e: Entry, kept: set<Resource>): State {
    s.(vms := s.vms - {id}, used := s.used - {e.net.index}, world := s.world - (EntryHolds(id, e) - kept))
  }

  lemma EntrySlots(id: Id, e: Entry)
    ensures Slots(EntryTodo(id, e)) == {e.net.index}
  {
    assert Slot(e.net.index) in EntryTodo(id, e);
  }

  /** Teardown of an entry, whatever subset of it the failing commands leave behind. */
  lemma TearEntry(s0: State, s: State, id: Id, e: Entry, cont: Cont, kept: set<Resource>)
    requires Path(s0, Doing(s, Cleaning(EntryTodo(id, e), false, true, cont), true), OwnSteps)
    requires Resting(s) && id !in s.vms && Agrees(s.world, EntryTodo(id, e))
    ensures Path(s0,
                 if cont.Drain? then Doing(Without(s, id, e, kept), Draining, true) else Without(s, id, e, kept),
                 OwnSteps)
  {
    var m := Doing(s, Cleaning(EntryTodo(id, e), false, true, cont), true);
    Teardown(s0, m, EntryTodo(id, e), true, cont, kept);
    EntrySlots(id, e);
    Conservation.TodoOfEntry(id, e);
    assert s.vms - {id} == s.vms;
    var last := Doing(Without(s, id, e, kept), Cleaning([], false, true, cont), true);
    assert Torn(m, EntryTodo(id, e), kept, true, Cleaning([], false, true, cont)) == last;
    if cont.Drain? {
      PutAlone(last, last.tasks[0], Draining);
      MoveClean(s0, last, Answer(true), Put(last, 0, Draining));
    } else {
      MoveClean(s0, last, Answer(true), End(Unlock(last, 0), 0));
      assert End(Unlock(last, 0), 0) == Without(s, id, e, kept);
    }
  }

  lemma Lock(s: State, x: Task, next: Task)
    requires Resting(s) && Acquired(Doing(s, x, false), x) == Some(next) && !x.WantSubnet?
    ensures Path(Doing(s, x, false), Doing(s, next, true), OwnSteps)
  {
    var s0 := Doing(s, x, false);
    Stay(s0, OwnSteps);
    PutAlone(s0.(vmsLock := Some(0)), x, next);
    Move(s0, s0, Answer(true), Doing(s, next, true));
  }

  // ── Delete, the guard, the drain ──

  lemma DeleteTakes(s: State, id: Id)
    requires Resting(s) && id in s.vms && s.vms[id].Running?
    ensures Path(Doing(s, WantDelete(id), false),
                 Doing(s.(vms := s.vms - {id}), Cleaning(EntryTodo(id, s.vms[id]), false, true, Return), true),
                 OwnSteps)
  {
    var s0, m, x := Doing(s, WantDelete(id), false), Doing(s, Deleting(id), true), EntryTodo(id, s.vms[id]);
    Lock(s, WantDelete(id), Deleting(id));
    PutAlone(m.(vms := m.vms - {id}), Deleting(id), Cleaning(x, false, true, Return));
    Move(s0, m, Answer(true), Doing(s.(vms := s.vms - {id}), Cleaning(x, false, true, Return), true));
  }

  lemma DeleteRuns(s: State, id: Id, kept: set<Resource>)
    requires Resting(s) && id in s.vms && s.vms[id].Running? && HandlesAgree(s.world, s.vms)
    ensures Path(Doing(s, WantDelete(id), false), Without(s, id, s.vms[id], kept), OwnSteps)
  {
    var e, taken := s.vms[id], s.(vms := s.vms - {id});
    DeleteTakes(s, id);
    EntryAgrees(s.world, s.vms, id);
    TearEntry(Doing(s, WantDelete(id), false), taken, id, e, Return, kept);
    assert Without(taken, id, e, kept) == Without(s, id, e, kept) by { assert s.vms - {id} - {id} == s.vms - {id}; }
  }

  lemma DeleteRefused(s: State, id: Id)
    requires Resting(s) && (id !in s.vms || s.vms[id].Creating?)
    ensures Path(Doing(s, WantDelete(id), false), s, OwnSteps)
  {
    var s0, m := Doing(s, WantDelete(id), false), Doing(s, Deleting(id), true);
    Lock(s, WantDelete(id), Deleting(id));
    assert End(Unlock(m, 0), 0) == s;
    Move(s0, m, Answer(true), s);
  }

  /** The state the guard leaves, depending on the locks it got. */
  function Guarded(s: State, id: Id, gotVms: bool, gotPool: bool, kept: set<Resource>): State {
    if !gotVms then s
    else if id in s.vms && s.vms[id].Creating? then
      Without(s, id, s.vms[id], kept).(used := if gotPool then s.used - {s.vms[id].net.index} else s.used)
    else s.(vms := s.vms - {id})
  }

  lemma GuardRuns(s: State, id: Id, gotVms: bool, gotPool: bool, kept: set<Resource>)
    requires Resting(s) && HandlesAgree(s.world, s.vms)
    ensures Path(Doing(s, WantGuard(id), false), Guarded(s, id, gotVms, gotPool, kept), OwnSteps)
  {
    var s0 := Doing(s, WantGuard(id), false);
    if !gotVms {
      Stay(s0, OwnSteps);
      assert End(s0, 0) == s;
      Move(s0, s0, Answer(false), s);
    } else {
      var todo := if id in s.vms && s.vms[id].Creating? then EntryTodo(id, s.vms[id]) else [];
      Lock(s, WantGuard(id), Guarding(id, todo));
      if todo != [] { EntryAgrees(s.world, s.vms, id); }
      GuardTeardown(s0, Doing(s, Guarding(id, todo), true), id, todo, gotPool, kept);
      GuardEnds(s0, s, id, todo, gotPool, kept);
    }
  }

  lemma GuardEnds(s0: State, s: State, id: Id, todo: seq<Resource>, gotPool: bool, kept: set<Resource>)
    requires Resting(s) && todo == (if id in s.vms && s.vms[id].Creating? then EntryTodo(id, s.vms[id]) else [])
    requires Path(s0, Torn(Doing(s, Guarding(id, todo), true), todo, kept, gotPool, Guarding(id, [])), OwnSteps)
    ensures Path(s0, Guarded(s, id, true, gotPool, kept), OwnSteps)
  {
    var last := Torn(Doing(s, Guarding(id, todo), true), todo, kept, gotPool, Guarding(id, []));
    if todo != [] {
      EntrySlots(id, s.vms[id]);
      Conservation.TodoOfEntry(id, s.vms[id]);
    } else {
      assert s.world - (ToSet([]) - kept) == s.world && s.used - Slots([]) == s.used;
    }
    assert End(Unlock(last.(vms := last.vms - {id}), 0), 0) == Guarded(s, id, true, gotPool, kept);
    MoveGuard(s0, last, Answer(true), Guarded(s, id, true, gotPool, kept));
  }

  lemma DrainTurn(s0: State, s: State, id: Id, kept: set<Resource>)
    requires Resting(s) && id in s.vms && HandlesAgree(s.world, s.vms) && Path(s0, Doing(s, Draining, true), OwnSteps)
    ensures Path(s0, Doing(Without(s, id, s.vms[id], kept), Draining, true), OwnSteps)
  {
    var e, m := s.vms[id], Doing(s, Draining, true);
    var taken := s.(vms := s.vms - {id});
    PutAlone(m.(vms := m.vms - {id}), Draining, Cleaning(EntryTodo(id, e), false, true, Drain));
    Move(s0, m, Answer(true).(pick := id), Doing(taken, Cleaning(EntryTodo(id, e), false, true, Drain), true));
    EntryAgrees(s.world, s.vms, id);
    TearEntry(s0, taken, id, e, Drain, kept);
    assert Without(taken, id, e, kept) == Without(s, id, e, kept) by { assert s.vms - {id} - {id} == s.vms - {id}; }
  }

  lemma DrainEnds(s0: State, s: State)
    requires Resting(s) && s.vms == map[] && Path(s0, Doing(s, Draining, true), OwnSteps)
    ensures Path(s0, s, OwnSteps)
  {
    var m := Doing(s, Draining, true);
    assert End(Unlock(m, 0), 0) == s;
    Move(s0, m, Answer(true), s);
  }
}
