/**
  Linear ownership: every resource that exists is held by exactly one place (a task or a map entry)
  or by none, and what each action leaks is known exactly.
 */
module Ownership {
  import opened Prelude
  import opened Lifecycle

  datatype Place = OfTask(t: Tid) | OfEntry(id: Id)

  function NetHolds(net: Net): set<Resource> {
    {Slot(net.index), Tap(net.index), Post(net.post, net.index), Filter(net.filter, net.index)}
  }

  function EntryHolds(id: Id, e: Entry): set<Resource> {
    NetHolds(e.net) + {Rootfs(id)} + (if e.Running? then {Vmm(id)} else {})
  }

  function ToSet(todo: seq<Resource>): set<Resource> {
    set r | r in todo
  }

  function StageHolds(id: Id, stage: Stage): set<Resource> {
    match stage
    case CopyRootfs => {}
    case TapAdd(i) => {Rootfs(id), Slot(i)}
    case TapAddr(i) => {Rootfs(id), Slot(i), Tap(i)}
    case TapUp(i) => {Rootfs(id), Slot(i), Tap(i)}
    case PostAdd(i) => {Rootfs(id), Slot(i), Tap(i)}
    case FilterAdd(i, p) => {Rootfs(id), Slot(i), Tap(i), Post(p, i)}
    case Undo(i, todo) => {Rootfs(id), Slot(i)} + ToSet(todo)
  }

  /** What a task has acquired and not yet disposed of or handed over. */
  function TaskHolds(x: Task): set<Resource> {
    match x
    case Job(id, _, stage, _) => StageHolds(id, stage)
    case WantSubnet(id, _) => {Rootfs(id)}
    case Allocating(id, _) => {Rootfs(id)}
    case WantReserve(id, _, net) => {Rootfs(id)} + NetHolds(net)
    case Reserving(id, _, net) => {Rootfs(id)} + NetHolds(net)
    case Booting(id, _, _, started) => if started then {Vmm(id)} else {}
    case WantUpgrade(id, _, _) => {Vmm(id)}
    case Upgrading(id, _, _) => {Vmm(id)}
    case Guarding(_, todo) => ToSet(todo)
    case Cleaning(todo, _, _, _) => ToSet(todo)
    case _ => {}
  }

  /** The entry a running CreateGuard is taking apart: its resources are the guard's. */
  function GuardedId(s: State): Option<Id> {
    if s.vmsLock.Some? && s.vmsLock.value in s.tasks && s.tasks[s.vmsLock.value].Guarding?
    then Some(s.tasks[s.vmsLock.value].id) else None
  }

  function HoldsAt(s: State, p: Place): set<Resource> {
    match p
    case OfTask(t) => if t in s.tasks then TaskHolds(s.tasks[t]) else {}
    case OfEntry(id) => if id in s.vms && GuardedId(s) != Some(id) then EntryHolds(id, s.vms[id]) else {}
  }

  predicate Present(s: State, r: Resource) {
    if r.Slot? then r.index in s.used else r in s.world
  }

  ghost predicate Leaked(s: State, r: Resource) {
    Present(s, r) && forall p :: r !in HoldsAt(s, p)
  }

  /** No two places hold the same resource. */
  ghost predicate Disjoint(s: State) {
    forall p, q, r :: p != q && r in HoldsAt(s, p) ==> r !in HoldsAt(s, q)
  }

  /** What is held exists: an owned index is marked used, an owned tap is on the host. */
  ghost predicate Backed(s: State) {
    forall p, r :: r in HoldsAt(s, p) ==> Present(s, r)
  }

  function EntryAt(s: State, e: Option<Id>): set<Resource> {
    if e.Some? then HoldsAt(s, OfEntry(e.value)) else {}
  }

  /** Only task `t`, and entry `e` if there is one, change what they hold. */
  ghost predicate Framed(s: State, s': State, t: Tid, e: Option<Id>) {
    forall p :: p != OfTask(t) && (e.Some? ==> p != OfEntry(e.value)) ==> HoldsAt(s', p) == HoldsAt(s, p)
  }

  /** A local exchange: what `t` and `e` hold afterwards they held before or created; `lost` is the rest. */
  ghost predicate Exchange(s: State, s': State, t: Tid, e: Option<Id>, lost: set<Resource>) {
    var before := HoldsAt(s, OfTask(t)) + EntryAt(s, e);
    var task, entry := HoldsAt(s', OfTask(t)), EntryAt(s', e);
    && task !! entry
    && lost !! task + entry
    && (forall r :: r in task + entry + lost ==> Present(s', r) && (r in before || !Present(s, r)))
    && (forall r :: Present(s, r) && r !in before ==> Present(s', r))
    && (forall r :: Present(s', r) ==> (Present(s, r) && r !in before) || r in task + entry + lost)
  }

  /** Exchanges preserve linear ownership, and leak exactly `lost`. */
  lemma Transfer(s: State, s': State, t: Tid, e: Option<Id>, lost: set<Resource>)
    requires Disjoint(s) && Backed(s)
    requires Framed(s, s', t, e) && Exchange(s, s', t, e, lost)
    ensures Disjoint(s') && Backed(s')
    ensures forall r :: Leaked(s', r) <==> Leaked(s, r) || r in lost
  {
    var before := HoldsAt(s, OfTask(t)) + EntryAt(s, e);
    forall p, q, r | p != q && r in HoldsAt(s', p)
      ensures r !in HoldsAt(s', q)
    {
      TransferPair(s, s', t, e, lost, p, q, r);
    }
    forall p, r | r in HoldsAt(s', p)
      ensures Present(s', r)
    {
      TransferHeld(s, s', t, e, lost, p, r);
    }
    forall r
      ensures Leaked(s', r) <==> Leaked(s, r) || r in lost
    {
      TransferLeak(s, s', t, e, lost, r);
    }
  }

  ghost predicate Moves(p: Place, t: Tid, e: Option<Id>) {
    p == OfTask(t) || (e.Some? && p == OfEntry(e.value))
  }

  lemma TransferHeld(s: State, s': State, t: Tid, e: Option<Id>, lost: set<Resource>, p: Place, r: Resource)
    requires Disjoint(s) && Backed(s)
    requires Framed(s, s', t, e) && Exchange(s, s', t, e, lost)
    requires r in HoldsAt(s', p)
    ensures Present(s', r)
    ensures Moves(p, t, e) || r !in HoldsAt(s, OfTask(t)) + EntryAt(s, e)
  {
    if !Moves(p, t, e) {
      assert HoldsAt(s', p) == HoldsAt(s, p);
      assert r !in HoldsAt(s, OfTask(t));
    }
  }

  lemma TransferPair(s: State, s': State, t: Tid, e: Option<Id>, lost: set<Resource>, p: Place, q: Place, r: Resource)
    requires Disjoint(s) && Backed(s)
    requires Framed(s, s', t, e) && Exchange(s, s', t, e, lost)
    requires p != q && r in HoldsAt(s', p)
    ensures r !in HoldsAt(s', q)
  {
    if r in HoldsAt(s', q) {
      TransferHeld(s, s', t, e, lost, p, r);
      TransferHeld(s, s', t, e, lost, q, r);
    }
  }

  lemma TransferLeak(s: State, s': State, t: Tid, e: Option<Id>, lost: set<Resource>, r: Resource)
    requires Disjoint(s) && Backed(s)
    requires Framed(s, s', t, e) && Exchange(s, s', t, e, lost)
    ensures Leaked(s', r) <==> Leaked(s, r) || r in lost
  {
    var before := HoldsAt(s, OfTask(t)) + EntryAt(s, e);
    if Leaked(s', r) && r !in lost {
      forall p
        ensures r !in HoldsAt(s, p)
      {
        assert r !in HoldsAt(s', p);
        assert r !in HoldsAt(s', OfTask(t));
        if e.Some? { assert r !in HoldsAt(s', OfEntry(e.value)); }
      }
    }
    if Leaked(s, r) {
      assert r !in HoldsAt(s, OfTask(t));
      if e.Some? { assert r !in HoldsAt(s, OfEntry(e.value)); }
      forall p
        ensures r !in HoldsAt(s', p)
      {
        assert r !in HoldsAt(s, p);
      }
    }
    if r in lost {
      forall p
        ensures r !in HoldsAt(s', p)
      {
        if r in HoldsAt(s', p) { TransferHeld(s, s', t, e, lost, p, r); }
      }
    }
  }
}
