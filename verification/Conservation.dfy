/** Conservation: what each action leaks, and the proof that nothing else is ever leaked or shared. */
module Conservation {
  import opened Prelude
  import opened VmConfig
  import opened Lifecycle
  import opened Ownership
  import opened Invariant
  import Pool = SubnetPools

  // ── The leaks of the source, action by action ──

  function JobLost(o: Outcome, x: Task): set<Resource>
    requires x.Job?
  {
    // a job whose handler is gone has nobody to hand its resources to
    var orphaned := if x.attached then {} else {Rootfs(x.id)};
    match x.stage
    case CopyRootfs => if o.ok then orphaned else if o.left then {Rootfs(x.id)} else {}
    case TapAdd(i) => if o.ok then {} else {Rootfs(x.id)} + (if x.attached then {} else {Slot(i)})
    case TapAddr(_) => {}
    case TapUp(_) => {}
    case PostAdd(i) => if o.ok && !o.parsed then {Post(o.handle, i)} else {}
    case FilterAdd(i, p) =>
      if !o.ok then {}
      else if !o.parsed then {Post(p, i), Filter(o.handle, i)}
      else if x.attached then {}
      else {Rootfs(x.id)} + NetHolds(Net(i, p, o.handle))
    case Undo(i, todo) =>
      if todo != [] then (if o.ok then {} else {todo[0]})
      else {Rootfs(x.id)} + (if x.attached then {} else {Slot(i)})
  }

  ghost function RunLost(s: State, o: Outcome, x: Task): set<Resource> {
    match x
    case Job(_, _, _, _) => JobLost(o, x)
    case Allocating(id, _) => if Pool.FirstFree(s.used).None? then {Rootfs(id)} else {}
    case Reserving(id, cfg, _) =>
      if Admits(s, cfg) then {} else {Rootfs(id)}
    case Booting(id, _, _, started) => if started && !o.ok && o.left then {Vmm(id)} else {}
    case Upgrading(id, _, _) => if id !in s.vms && o.left then {Vmm(id)} else {}
    case Guarding(_, todo) => if todo != [] && !o.ok then {todo[0]} else {}
    case Cleaning(todo, _, _, _) => if todo != [] && !todo[0].Slot? && !o.ok then {todo[0]} else {}
    case _ => {}
  }

  function AbortLost(left: bool, x: Task): set<Resource> {
    if x.Job? then {}
    else TaskHolds(x) - (if InstanceOf(x).Some? && !left then {Vmm(InstanceOf(x).value)} else {})
  }

  function PanicLost(left: bool, x: Task): set<Resource>
    requires x.Job?
  {
    TaskHolds(x) + (if x.stage.CopyRootfs? && left then {Rootfs(x.id)} else {})
  }

  ghost function Lost(s: State, a: Action): set<Resource> {
    match a
    case Run(t, o) => if t in s.tasks then RunLost(s, o, s.tasks[t]) else {}
    case Abort(t, left) => if t in s.tasks then AbortLost(left, s.tasks[t]) else {}
    case JobPanic(t, left) =>
      if t in s.tasks && s.tasks[t].Job? then PanicLost(left, s.tasks[t]) else {}
    case _ => {}
  }

  // ── Frames ──

  lemma GuardFrame(s: State, s': State, t: Tid, e: Option<Id>)
    requires Locks(s) && Locks(s') && Local(s, s', t, e)
    ensures s.tasks[t].Guarding? ==> GuardedId(s) == Some(s.tasks[t].id)
    ensures GuardedId(s') ==
            if t in s'.tasks && s'.tasks[t].Guarding? then Some(s'.tasks[t].id)
            else if s.tasks[t].Guarding? then None else GuardedId(s)
    ensures t in s'.tasks && s'.tasks[t].Guarding? && !s.tasks[t].Guarding? ==> GuardedId(s) == None
  {
    if s.vmsLock.Some? && s.vmsLock.value != t { OtherTask(s, s', t, e, s.vmsLock.value); }
    if s'.vmsLock.Some? && s'.vmsLock.value != t { OtherTask(s, s', t, e, s'.vmsLock.value); }
  }

  lemma FrameLemma(s: State, s': State, t: Tid, e0: Option<Id>, e: Option<Id>)
    requires Local(s, s', t, e0) && (e0.Some? ==> e == e0)
    requires GuardedId(s') == GuardedId(s) || (e.Some? && GuardedId(s) in {None, e} && GuardedId(s') in {None, e})
    ensures Framed(s, s', t, e)
  {
    forall p | p != OfTask(t) && (e.Some? ==> p != OfEntry(e.value))
      ensures HoldsAt(s', p) == HoldsAt(s, p)
    {
      match p
      case OfTask(u) => OtherTask(s, s', t, e0, u);
      case OfEntry(id) =>
    }
  }

  // ── Exchanges, step by step ──

  /** What ownership says about the stepping task and its entry. */
  ghost predicate Mine(s: State, t: Tid, x: Task, e: Option<Id>) {
    && Focus(s, t, x)
    && Host(s)
    && (forall r :: r in TaskHolds(x) ==> Present(s, r))
    && (forall r :: r in EntryAt(s, e) ==> Present(s, r))
    && TaskHolds(x) !! EntryAt(s, e)
  }

  lemma MineIs(s: State, t: Tid, e: Option<Id>)
    requires Structure(s) && Disjoint(s) && Backed(s) && t in s.tasks
    ensures Mine(s, t, s.tasks[t], e)
  {
    Focused(s, t);
    forall r | r in TaskHolds(s.tasks[t]) + EntryAt(s, e)
      ensures Present(s, r)
      ensures r in TaskHolds(s.tasks[t]) ==> r !in EntryAt(s, e)
    {
      assert r in HoldsAt(s, OfTask(t)) || r in HoldsAt(s, OfEntry(e.value));
    }
  }

  /** Deleting a rule by its handle removes that rule alone. */
  lemma EraseHeld(s: State, r: Resource)
    requires Host(s) && r in s.world
    ensures Erase(s, r).world == s.world - {r}
  {
  }

  lemma TodoStep(todo: seq<Resource>)
    requires todo != [] && NoDup(todo)
    ensures ToSet(todo[1..]) == ToSet(todo) - {todo[0]}
  {
    forall r | r in ToSet(todo) - {todo[0]}
      ensures r in todo[1..]
    {
      var k :| 0 <= k < |todo| && todo[k] == r;
      assert todo[1..][k - 1] == r;
    }
  }

  /** Disposing of a held host resource, or failing to. */
  lemma DisposeExchange(s: State, s': State, t: Tid, e: Option<Id>, r: Resource, ok: bool)
    requires s'.used == s.used && s'.world == (if ok then s.world - {r} else s.world) && !r.Slot?
    requires EntryAt(s, e) == {} && EntryAt(s', e) == {}
    requires r in HoldsAt(s, OfTask(t)) && HoldsAt(s', OfTask(t)) == HoldsAt(s, OfTask(t)) - {r}
    requires forall q :: q in HoldsAt(s, OfTask(t)) ==> Present(s, q)
    ensures Exchange(s, s', t, e, if ok then {} else {r})
  {
    assert forall q :: Present(s', q) <==> Present(s, q) && !(ok && q == r);
  }

  lemma CopyExchange(s: State, t: Tid, o: Outcome, x: Task, s': State)
    requires Mine(s, t, x, None) && x.Job? && x.stage.CopyRootfs?
    requires JobStep(s, t, o, x) == Some(s')
    ensures Exchange(s, s', t, None, JobLost(o, x))
  {
    assert HoldsAt(s, OfTask(t)) == TaskHolds(x);
  }

  lemma TapExchange(s: State, t: Tid, o: Outcome, x: Task, s': State)
    requires Mine(s, t, x, None) && x.Job? && (x.stage.TapAdd? || x.stage.TapAddr? || x.stage.TapUp?)
    requires JobStep(s, t, o, x) == Some(s')
    ensures Exchange(s, s', t, None, JobLost(o, x))
  {
    assert HoldsAt(s, OfTask(t)) == TaskHolds(x);
  }

  lemma PostAddExchange(s: State, t: Tid, o: Outcome, x: Task, s': State)
    requires Mine(s, t, x, None) && x.Job? && x.stage.PostAdd?
    requires JobStep(s, t, o, x) == Some(s')
    ensures Exchange(s, s', t, None, JobLost(o, x))
  {
    assert HoldsAt(s, OfTask(t)) == TaskHolds(x);
  }

  lemma FilterFailsExchange(s: State, t: Tid, o: Outcome, x: Task, s': State)
    requires Mine(s, t, x, None) && x.Job? && x.stage.FilterAdd? && !(o.ok && o.parsed)
    requires JobStep(s, t, o, x) == Some(s')
    ensures Exchange(s, s', t, None, JobLost(o, x))
  {
    assert HoldsAt(s, OfTask(t)) == TaskHolds(x);
  }

  lemma FilterAddedExchange(s: State, t: Tid, o: Outcome, x: Task, s': State)
    requires Mine(s, t, x, None) && x.Job? && x.stage.FilterAdd? && o.ok && o.parsed
    requires JobStep(s, t, o, x) == Some(s')
    ensures Exchange(s, s', t, None, JobLost(o, x))
  {
    assert HoldsAt(s, OfTask(t)) == TaskHolds(x);
  }

  lemma FilterAddExchange(s: State, t: Tid, o: Outcome, x: Task, s': State)
    requires Mine(s, t, x, None) && x.Job? && x.stage.FilterAdd?
    requires JobStep(s, t, o, x) == Some(s')
    ensures Exchange(s, s', t, None, JobLost(o, x))
  {
    if o.ok && o.parsed { FilterAddedExchange(s, t, o, x, s'); } else { FilterFailsExchange(s, t, o, x, s'); }
  }

  lemma UndoExchange(s: State, t: Tid, o: Outcome, x: Task, s': State)
    requires Mine(s, t, x, None) && x.Job? && x.stage.Undo?
    requires JobStep(s, t, o, x) == Some(s')
    ensures Exchange(s, s', t, None, JobLost(o, x))
  {
    assert HoldsAt(s, OfTask(t)) == TaskHolds(x);
    if x.stage.todo != [] {
      var r := x.stage.todo[0];
      assert r in TaskHolds(x) && !r.Slot? && !r.Rootfs?;
      EraseHeld(s, r);
      TodoStep(x.stage.todo);
      assert HoldsAt(s', OfTask(t)) == TaskHolds(x) - {r};
      DisposeExchange(s, s', t, None, r, o.ok);
    }
  }

  lemma AllocatingExchange(s: State, t: Tid, o: Outcome, x: Task, s': State)
    requires Mine(s, t, x, None) && x.Allocating?
    requires RunStep(s, t, o, x) == Some(s')
    ensures Exchange(s, s', t, None, RunLost(s, o, x))
  {
    assert HoldsAt(s, OfTask(t)) == TaskHolds(x);
  }

  lemma AdmittedExchange(s: State, t: Tid, x: Task, s': State)
    requires x.Reserving? && Admits(s, x.cfg) && Mine(s, t, x, Some(x.id))
    requires s' == ReserveStep(s, t, x)
    ensures Exchange(s, s', t, Some(x.id), {})
  {
    assert HoldsAt(s, OfTask(t)) == TaskHolds(x);
  }

  lemma RefusedExchange(s: State, t: Tid, x: Task, s': State)
    requires x.Reserving? && !Admits(s, x.cfg) && Mine(s, t, x, None)
    requires s' == ReserveStep(s, t, x)
    ensures Exchange(s, s', t, None, {Rootfs(x.id)})
  {
    assert HoldsAt(s, OfTask(t)) == TaskHolds(x);
    assert ToSet(RefusalTodo(x.net)) == NetHolds(x.net);
  }

  lemma BootingExchange(s: State, t: Tid, o: Outcome, x: Task, s': State)
    requires Mine(s, t, x, None) && x.Booting?
    requires s' == BootStep(s, t, o, x)
    ensures Exchange(s, s', t, None, RunLost(s, o, x))
  {
    assert HoldsAt(s, OfTask(t)) == TaskHolds(x);
    if x.started { EraseHeld(s, Vmm(x.id)); }
  }

  lemma TodoOfEntry(id: Id, e: Entry)
    ensures ToSet(EntryTodo(id, e)) == EntryHolds(id, e)
  {
  }

  /** Taking an entry out of the map moves everything it holds to the task that tears it down. */
  lemma TakeExchange(s: State, t: Tid, id: Id, cont: Cont, x: Task, s': State)
    requires id in s.vms && Mine(s, t, x, Some(id)) && TaskHolds(x) == {} && HasVms(x) && !x.Guarding?
    requires s' == Put(s.(vms := s.vms - {id}), t, Cleaning(EntryTodo(id, s.vms[id]), false, true, cont))
    ensures Exchange(s, s', t, Some(id), {})
  {
    TakenHoldings(s, t, id, cont, x, s');
    HandOver(s, s', t, id);
  }

  /** Who holds the entry's resources before and after it is taken out. */
  lemma TakenHoldings(s: State, t: Tid, id: Id, cont: Cont, x: Task, s': State)
    requires id in s.vms && Focus(s, t, x) && TaskHolds(x) == {} && HasVms(x) && !x.Guarding?
    requires s' == Put(s.(vms := s.vms - {id}), t, Cleaning(EntryTodo(id, s.vms[id]), false, true, cont))
    ensures HoldsAt(s, OfTask(t)) == {} && EntryAt(s', Some(id)) == {}
    ensures HoldsAt(s', OfTask(t)) == EntryAt(s, Some(id))
  {
    TodoOfEntry(id, s.vms[id]);
    assert EntryAt(s, Some(id)) == EntryHolds(id, s.vms[id]);
    assert HoldsAt(s', OfTask(t)) == EntryHolds(id, s.vms[id]);
  }

  /** What the entry held, the task holds now; nothing else moves. */
  lemma HandOver(s: State, s': State, t: Tid, id: Id)
    requires s'.world == s.world && s'.used == s.used
    requires HoldsAt(s, OfTask(t)) == {} && EntryAt(s', Some(id)) == {}
    requires HoldsAt(s', OfTask(t)) == EntryAt(s, Some(id))
    requires forall r :: r in EntryAt(s, Some(id)) ==> Present(s, r)
    ensures Exchange(s, s', t, Some(id), {})
  {
    assert forall r :: Present(s', r) <==> Present(s, r);
  }

  /** Steps that touch neither host nor pool by tasks that hold nothing. */
  lemma IdleExchange(s: State, t: Tid, x: Task, s': State)
    requires Mine(s, t, x, None) && TaskHolds(x) == {} && HoldsAt(s', OfTask(t)) == {}
    requires s'.world == s.world && s'.used == s.used
    ensures Exchange(s, s', t, None, {})
  {
  }

  lemma UpgradingExchange(s: State, t: Tid, o: Outcome, x: Task, s': State)
    requires x.Upgrading? && Mine(s, t, x, Some(x.id))
    requires s' == UpgradeStep(s, t, o, x)
    ensures Exchange(s, s', t, Some(x.id), RunLost(s, o, x))
  {
    assert HoldsAt(s, OfTask(t)) == TaskHolds(x);
    EraseHeld(s, Vmm(x.id));
  }

  lemma GuardDoneExchange(s: State, t: Tid, o: Outcome, x: Task, s': State)
    requires x.Guarding? && x.todo == [] && Mine(s, t, x, Some(x.id))
    requires GuardStep(s, t, o, x) == Some(s')
    ensures Exchange(s, s', t, Some(x.id), {})
  {
    assert HoldsAt(s, OfTask(t)) == TaskHolds(x);
  }

  /** Giving a slot back, or giving up on it, on an unchanged host. */
  lemma SlotExchange(s: State, s': State, t: Tid, e: Option<Id>, i: nat, freed: bool)
    requires s'.world == s.world && s'.used == (if freed then s.used - {i} else s.used)
    requires EntryAt(s, e) == {} && EntryAt(s', e) == {}
    requires Slot(i) in HoldsAt(s, OfTask(t)) && HoldsAt(s', OfTask(t)) == HoldsAt(s, OfTask(t)) - {Slot(i)}
    requires forall r :: r in HoldsAt(s, OfTask(t)) ==> Present(s, r)
    ensures Exchange(s, s', t, e, if freed then {} else {Slot(i)})
  {
    assert forall r :: Present(s', r) <==> Present(s, r) && !(freed && r == Slot(i));
  }

  lemma GuardSlotExchange(s: State, t: Tid, o: Outcome, x: Task, s': State)
    requires x.Guarding? && x.todo != [] && x.todo[0].Slot? && Mine(s, t, x, Some(x.id))
    requires GuardStep(s, t, o, x) == Some(s')
    ensures Exchange(s, s', t, Some(x.id), if o.ok then {} else {x.todo[0]})
  {
    assert HoldsAt(s, OfTask(t)) == TaskHolds(x);
    assert x.todo[0] in TaskHolds(x);
    TodoStep(x.todo);
    SlotExchange(s, s', t, Some(x.id), x.todo[0].index, o.ok);
  }

  lemma GuardHostExchange(s: State, t: Tid, o: Outcome, x: Task, s': State)
    requires x.Guarding? && x.todo != [] && !x.todo[0].Slot? && Mine(s, t, x, Some(x.id))
    requires GuardStep(s, t, o, x) == Some(s')
    ensures Exchange(s, s', t, Some(x.id), if o.ok then {} else {x.todo[0]})
  {
    assert HoldsAt(s, OfTask(t)) == TaskHolds(x);
    assert x.todo[0] in TaskHolds(x);
    EraseHeld(s, x.todo[0]);
    TodoStep(x.todo);
    DisposeExchange(s, s', t, Some(x.id), x.todo[0], o.ok);
  }

  lemma CleanDoneExchange(s: State, t: Tid, o: Outcome, x: Task, s': State)
    requires x.Cleaning? && x.todo == [] && Mine(s, t, x, None)
    requires CleanStep(s, t, o, x) == Some(s')
    ensures Exchange(s, s', t, None, {})
  {
    assert HoldsAt(s, OfTask(t)) == TaskHolds(x);
  }

  lemma CleanSlotExchange(s: State, t: Tid, o: Outcome, x: Task, s': State)
    requires x.Cleaning? && x.todo != [] && x.todo[0].Slot? && Mine(s, t, x, None)
    requires CleanStep(s, t, o, x) == Some(s')
    ensures Exchange(s, s', t, None, {})
  {
    assert HoldsAt(s, OfTask(t)) == TaskHolds(x);
    assert x.todo[0] in TaskHolds(x);
    TodoStep(x.todo);
    if x.pool { SlotExchange(s, s', t, None, x.todo[0].index, true); }
    else { assert HoldsAt(s', OfTask(t)) == TaskHolds(x); }
  }

  lemma CleanHostExchange(s: State, t: Tid, o: Outcome, x: Task, s': State)
    requires x.Cleaning? && x.todo != [] && !x.todo[0].Slot? && Mine(s, t, x, None)
    requires CleanStep(s, t, o, x) == Some(s')
    ensures Exchange(s, s', t, None, if o.ok then {} else {x.todo[0]})
  {
    assert HoldsAt(s, OfTask(t)) == TaskHolds(x);
    assert x.todo[0] in TaskHolds(x);
    EraseHeld(s, x.todo[0]);
    TodoStep(x.todo);
    DisposeExchange(s, s', t, None, x.todo[0], o.ok);
  }

  /** A task that ends with its instance: the VMM goes unless dropping it fails, and the rest is lost. */
  lemma DropExchange(s: State, t: Tid, left: bool, x: Task, s': State)
    requires Mine(s, t, x, None) && !x.Job? && HoldsAt(s', OfTask(t)) == {} && s'.used == s.used
    requires InstanceOf(x).Some? ==> Vmm(InstanceOf(x).value) in TaskHolds(x)
    requires s'.world == s.world - if InstanceOf(x).Some? && !left then {Vmm(InstanceOf(x).value)} else {}
    ensures Exchange(s, s', t, None, AbortLost(left, x))
  {
    assert HoldsAt(s, OfTask(t)) == TaskHolds(x);
  }

  lemma InstanceHeld(x: Task)
    requires InstanceOf(x).Some?
    ensures Vmm(InstanceOf(x).value) in TaskHolds(x)
  {
  }

  lemma DroppedWorld(s: State, t: Tid, left: bool, x: Task)
    requires Mine(s, t, x, None) && !x.Job?
    ensures AbortStep(s, t, left, x).world ==
            s.world - if InstanceOf(x).Some? && !left then {Vmm(InstanceOf(x).value)} else {}
  {
    if InstanceOf(x).Some? {
      InstanceHeld(x);
      EraseHeld(s, Vmm(InstanceOf(x).value));
    }
  }

  lemma AbortArmedExchange(s: State, t: Tid, left: bool, x: Task, s': State)
    requires ArmedId(x).Some? && Abortable(x) && Mine(s, t, x, None)
    requires s' == AbortStep(s, t, left, x)
    ensures Exchange(s, s', t, None, AbortLost(left, x))
  {
    if InstanceOf(x).Some? { InstanceHeld(x); }
    DroppedWorld(s, t, left, x);
    DropExchange(s, t, left, x, s');
  }

  lemma AbortPlainExchange(s: State, t: Tid, left: bool, x: Task, s': State)
    requires ArmedId(x).None? && Abortable(x) && Mine(s, t, x, None)
    requires s' == AbortStep(s, t, left, x)
    ensures Exchange(s, s', t, None, AbortLost(left, x))
  {
    assert HoldsAt(s, OfTask(t)) == TaskHolds(x);
    if !x.Job? {
      if InstanceOf(x).Some? { InstanceHeld(x); }
      DroppedWorld(s, t, left, x);
      DropExchange(s, t, left, x, s');
    }
  }

  lemma AcquireExchange(s: State, t: Tid, o: Outcome, x: Task, s': State)
    requires Mine(s, t, x, None) && Acquired(s, x).Some? && AcquireStep(s, t, o, x) == Some(s') && !x.WantGuard?
    ensures Exchange(s, s', t, None, {})
  {
    assert HoldsAt(s, OfTask(t)) == TaskHolds(x) == HoldsAt(s', OfTask(t));
  }

  /** The guard that gets the lock takes over what its placeholder holds. */
  lemma GuardExchange(s: State, t: Tid, o: Outcome, x: Task, s': State)
    requires x.WantGuard? && Mine(s, t, x, Some(x.id)) && s'.vmsLock == Some(t)
    requires AcquireStep(s, t, o, x) == Some(s')
    ensures Exchange(s, s', t, Some(x.id), {})
  {
    if x.id in s.vms {
      TodoOfEntry(x.id, s.vms[x.id]);
      assert EntryAt(s, Some(x.id)) == EntryHolds(x.id, s.vms[x.id]);
      assert HoldsAt(s', OfTask(t)) == EntryHolds(x.id, s.vms[x.id]);
    }
    assert EntryAt(s', Some(x.id)) == {};
    assert HoldsAt(s, OfTask(t)) == {};
    HandOver(s, s', t, x.id);
  }

  // ── Conservation ──

  /** Ownership stays linear and backed, and exactly `lost` joins what is leaked. */
  ghost predicate Conserves(s: State, s': State, lost: set<Resource>) {
    && Disjoint(s') && Backed(s')
    && (forall r :: Leaked(s', r) <==> Leaked(s, r) || r in lost)
  }

  ghost predicate Good(s: State) {
    Structure(s) && Disjoint(s) && Backed(s)
  }

  /** The entry of the map the step touches. */
  ghost function Touched(s: State, o: Outcome, x: Task): Option<Id> {
    match x
    case Reserving(id, cfg, _) =>
      if Admits(s, cfg) then Some(id) else None
    case Abandoning(id, _, _) => if id in s.vms then Some(id) else None
    case Upgrading(id, _, _) => Some(id)
    case WantGuard(id) => if o.ok then Some(id) else None
    case Guarding(id, _) => Some(id)
    case Deleting(id) => if id in s.vms && s.vms[id].Running? then Some(id) else None
    case Draining => if s.vms == map[] then None else Some(o.pick)
    case _ => None
  }

  /** The step keeps the invariant and is an exchange between `t` and entry `e` that leaks `lost`. */
  ghost predicate Moved(s: State, s': State, t: Tid, e: Option<Id>, lost: set<Resource>) {
    Structure(s') && Framed(s, s', t, e) && Exchange(s, s', t, e, lost)
  }

  lemma Conclude(s: State, s': State, t: Tid, e0: Option<Id>, e: Option<Id>, lost: set<Resource>)
    requires Good(s) && Structure(s') && Local(s, s', t, e0) && (e0.Some? ==> e == e0)
    requires s.tasks[t].Guarding? ==> e == Some(s.tasks[t].id)
    requires t in s'.tasks && s'.tasks[t].Guarding? ==> e == Some(s'.tasks[t].id)
    requires Exchange(s, s', t, e, lost)
    ensures Moved(s, s', t, e, lost)
  {
    GuardFrame(s, s', t, e0);
    FrameLemma(s, s', t, e0, e);
  }

  /** The same for a step that touches no entry and starts or continues no guard. */
  lemma ConcludeOwn(s: State, s': State, t: Tid, n: Option<Resource>, lost: set<Resource>)
    requires Good(s) && LocalOk(s, s', t, None, n) && Exchange(s, s', t, None, lost)
    requires !s.tasks[t].Guarding? && (t in s'.tasks ==> !s'.tasks[t].Guarding?)
    ensures Moved(s, s', t, None, lost)
  {
    LocalKeeps(s, s', t, None, n);
    Conclude(s, s', t, None, None, lost);
  }

  lemma NatMoves(s: State, t: Tid, o: Outcome, x: Task, s': State)
    requires Good(s) && t in s.tasks && s.tasks[t] == x && x.Job? && (x.stage.PostAdd? || x.stage.FilterAdd?)
    requires JobStep(s, t, o, x) == Some(s')
    ensures Moved(s, s', t, None, JobLost(o, x))
  {
    MineIs(s, t, None);
    if x.stage.PostAdd? {
      PostAddLocal(s, t, o, x, s');
      PostAddExchange(s, t, o, x, s');
      ConcludeOwn(s, s', t, if o.ok then Some(Post(o.handle, x.stage.index)) else None, JobLost(o, x));
    } else {
      FilterAddLocal(s, t, o, x, s');
      FilterAddExchange(s, t, o, x, s');
      ConcludeOwn(s, s', t, if o.ok then Some(Filter(o.handle, x.stage.index)) else None, JobLost(o, x));
    }
  }

  lemma JobMoves(s: State, t: Tid, o: Outcome, x: Task, s': State)
    requires Good(s) && t in s.tasks && s.tasks[t] == x && x.Job?
    requires JobStep(s, t, o, x) == Some(s')
    ensures Moved(s, s', t, None, JobLost(o, x))
  {
    MineIs(s, t, None);
    match x.stage
    case CopyRootfs =>
      CopyLocal(s, t, o, x, s');
      CopyExchange(s, t, o, x, s');
      ConcludeOwn(s, s', t, Some(Rootfs(x.id)), JobLost(o, x));
    case PostAdd(_) => NatMoves(s, t, o, x, s');
    case FilterAdd(_, _) => NatMoves(s, t, o, x, s');
    case Undo(_, _) =>
      UndoLocal(s, t, o, x, s');
      UndoExchange(s, t, o, x, s');
      ConcludeOwn(s, s', t, None, JobLost(o, x));
    case _ => TapMoves(s, t, o, x, s');
  }

  lemma TapMoves(s: State, t: Tid, o: Outcome, x: Task, s': State)
    requires Good(s) && t in s.tasks && s.tasks[t] == x && x.Job?
    requires x.stage.TapAdd? || x.stage.TapAddr? || x.stage.TapUp?
    requires JobStep(s, t, o, x) == Some(s')
    ensures Moved(s, s', t, None, JobLost(o, x))
  {
    MineIs(s, t, None);
    TapLocal(s, t, o, x, s');
    TapExchange(s, t, o, x, s');
    ConcludeOwn(s, s', t, Some(Tap(x.stage.index)), JobLost(o, x));
  }

  lemma AdmittedMoves(s: State, t: Tid, x: Task, s': State)
    requires Good(s) && Structure(s') && t in s.tasks && s.tasks[t] == x && x.Reserving?
    requires Admits(s, x.cfg) && s' == ReserveStep(s, t, x)
    ensures Moved(s, s', t, Some(x.id), {})
  {
    MineIs(s, t, Some(x.id));
    ReservingLocal(s, t, x, s');
    AdmittedExchange(s, t, x, s');
    Conclude(s, s', t, Some(x.id), Some(x.id), {});
  }

  lemma RefusedMoves(s: State, t: Tid, x: Task, s': State)
    requires Good(s) && Structure(s') && t in s.tasks && s.tasks[t] == x && x.Reserving?
    requires !Admits(s, x.cfg) && s' == ReserveStep(s, t, x)
    ensures Moved(s, s', t, None, {Rootfs(x.id)})
  {
    MineIs(s, t, None);
    RefusedExchange(s, t, x, s');
    Conclude(s, s', t, None, None, {Rootfs(x.id)});
  }

  lemma ReservingMoves(s: State, t: Tid, o: Outcome, x: Task, s': State)
    requires Good(s) && t in s.tasks && s.tasks[t] == x && x.Reserving?
    requires s' == ReserveStep(s, t, x)
    ensures Moved(s, s', t, Touched(s, o, x), RunLost(s, o, x))
  {
    ReservingKept(s, t, x, s');
    if Admits(s, x.cfg) { AdmittedMoves(s, t, x, s'); }
    else { RefusedMoves(s, t, x, s'); }
  }

  lemma BootingMoves(s: State, t: Tid, o: Outcome, x: Task, s': State)
    requires Good(s) && t in s.tasks && s.tasks[t] == x && x.Booting?
    requires s' == BootStep(s, t, o, x)
    ensures Moved(s, s', t, Touched(s, o, x), RunLost(s, o, x))
  {
    OwnerKept(s, t, o, x, s');
    MineIs(s, t, None);
    BootingLocal(s, t, o, x, s');
    BootingExchange(s, t, o, x, s');
    Conclude(s, s', t, None, None, RunLost(s, o, x));
  }

  lemma TakeMoves(s: State, t: Tid, id: Id, cont: Cont, x: Task, s': State)
    requires Good(s) && Structure(s') && Local(s, s', t, Some(id)) && s.tasks[t] == x
    requires id in s.vms && TaskHolds(x) == {} && HasVms(x) && !x.Guarding?
    requires s' == Put(s.(vms := s.vms - {id}), t, Cleaning(EntryTodo(id, s.vms[id]), false, true, cont))
    ensures Moved(s, s', t, Some(id), {})
  {
    MineIs(s, t, Some(id));
    TakeExchange(s, t, id, cont, x, s');
    Conclude(s, s', t, Some(id), Some(id), {});
  }

  lemma IdleMoves(s: State, t: Tid, x: Task, s': State)
    requires Good(s) && Structure(s') && Local(s, s', t, None) && s.tasks[t] == x
    requires TaskHolds(x) == {} && !x.Guarding? && t !in s'.tasks
    requires s'.world == s.world && s'.used == s.used
    ensures Moved(s, s', t, None, {})
  {
    MineIs(s, t, None);
    IdleExchange(s, t, x, s');
    Conclude(s, s', t, None, None, {});
  }

  lemma AbandonedMoves(s: State, t: Tid, x: Task, s': State)
    requires Good(s) && Structure(s') && t in s.tasks && s.tasks[t] == x && x.Abandoning?
    requires s' == AbandonStep(s, t, x) && x.id in s.vms
    ensures Moved(s, s', t, Some(x.id), {})
  {
    Focused(s, t);
    AbandoningLocal(s, t, x, s');
    TakeMoves(s, t, x.id, Armed(x.id), x, s');
  }

  lemma AbandoningMoves(s: State, t: Tid, o: Outcome, x: Task, s': State)
    requires Good(s) && t in s.tasks && s.tasks[t] == x && x.Abandoning?
    requires s' == AbandonStep(s, t, x)
    ensures Moved(s, s', t, Touched(s, o, x), {})
  {
    OwnerKept(s, t, o, x, s');
    if x.id in s.vms { AbandonedMoves(s, t, x, s'); }
    else { IdleMoves(s, t, x, s'); }
  }

  lemma UpgradingMoves(s: State, t: Tid, o: Outcome, x: Task, s': State)
    requires Good(s) && t in s.tasks && s.tasks[t] == x && x.Upgrading?
    requires s' == UpgradeStep(s, t, o, x)
    ensures Moved(s, s', t, Touched(s, o, x), RunLost(s, o, x))
  {
    OwnerKept(s, t, o, x, s');
    MineIs(s, t, Some(x.id));
    UpgradingLocal(s, t, o, x, s');
    UpgradingExchange(s, t, o, x, s');
    Conclude(s, s', t, Some(x.id), Some(x.id), RunLost(s, o, x));
  }

  lemma GuardingMoves(s: State, t: Tid, o: Outcome, x: Task, s': State)
    requires Good(s) && t in s.tasks && s.tasks[t] == x && x.Guarding?
    requires GuardStep(s, t, o, x) == Some(s')
    ensures Moved(s, s', t, Touched(s, o, x), RunLost(s, o, x))
  {
    OwnerKept(s, t, o, x, s');
    MineIs(s, t, Some(x.id));
    GuardingLocal(s, t, o, x, s');
    if x.todo == [] { GuardDoneExchange(s, t, o, x, s'); }
    else if x.todo[0].Slot? { GuardSlotExchange(s, t, o, x, s'); }
    else { GuardHostExchange(s, t, o, x, s'); }
    Conclude(s, s', t, Some(x.id), Some(x.id), RunLost(s, o, x));
  }

  lemma CleaningMoves(s: State, t: Tid, o: Outcome, x: Task, s': State)
    requires Good(s) && t in s.tasks && s.tasks[t] == x && x.Cleaning?
    requires CleanStep(s, t, o, x) == Some(s')
    ensures Moved(s, s', t, Touched(s, o, x), RunLost(s, o, x))
  {
    MineIs(s, t, None);
    if x.todo == [] {
      CleanDoneLocal(s, t, o, x, s');
      CleanDoneExchange(s, t, o, x, s');
    } else if x.todo[0].Slot? {
      CleanSlotLocal(s, t, o, x, s');
      CleanSlotExchange(s, t, o, x, s');
    } else {
      CleanHostLocal(s, t, o, x, s');
      CleanHostExchange(s, t, o, x, s');
    }
    ConcludeOwn(s, s', t, None, RunLost(s, o, x));
  }

  lemma DeletedMoves(s: State, t: Tid, x: Task, s': State)
    requires Good(s) && t in s.tasks && s.tasks[t] == x && x.Deleting?
    requires s' == DeleteStep(s, t, x) && x.id in s.vms && s.vms[x.id].Running?
    ensures Moved(s, s', t, Some(x.id), {})
  {
    DeletingKept(s, t, x, s');
    Focused(s, t);
    DeletingLocal(s, t, x, s');
    TakeMoves(s, t, x.id, Return, x, s');
  }

  lemma RejectedMoves(s: State, t: Tid, x: Task, s': State)
    requires Good(s) && t in s.tasks && s.tasks[t] == x && x.Deleting?
    requires s' == DeleteStep(s, t, x) && (x.id !in s.vms || s.vms[x.id].Creating?)
    ensures Moved(s, s', t, None, {})
  {
    DeletingKept(s, t, x, s');
    IdleMoves(s, t, x, s');
  }

  lemma DeletingMoves(s: State, t: Tid, o: Outcome, x: Task, s': State)
    requires Good(s) && t in s.tasks && s.tasks[t] == x && x.Deleting?
    requires s' == DeleteStep(s, t, x)
    ensures Moved(s, s', t, Touched(s, o, x), {})
  {
    if x.id in s.vms && s.vms[x.id].Running? {
      assert Touched(s, o, x) == Some(x.id);
      DeletedMoves(s, t, x, s');
    } else {
      assert Touched(s, o, x) == None;
      RejectedMoves(s, t, x, s');
    }
  }

  lemma DrainedMoves(s: State, t: Tid, o: Outcome, x: Task, s': State)
    requires Good(s) && t in s.tasks && s.tasks[t] == x && x.Draining?
    requires DrainStep(s, t, o) == Some(s') && s.vms != map[]
    ensures Moved(s, s', t, Some(o.pick), {})
  {
    DrainingKept(s, t, o, x, s');
    Focused(s, t);
    DrainingLocal(s, t, o, x, s');
    TakeMoves(s, t, o.pick, Drain, x, s');
  }

  lemma DrainDoneMoves(s: State, t: Tid, o: Outcome, x: Task, s': State)
    requires Good(s) && t in s.tasks && s.tasks[t] == x && x.Draining?
    requires DrainStep(s, t, o) == Some(s') && s.vms == map[]
    ensures Moved(s, s', t, None, {})
  {
    DrainingKept(s, t, o, x, s');
    IdleMoves(s, t, x, s');
  }

  lemma DrainingMoves(s: State, t: Tid, o: Outcome, x: Task, s': State)
    requires Good(s) && t in s.tasks && s.tasks[t] == x && x.Draining?
    requires DrainStep(s, t, o) == Some(s')
    ensures Moved(s, s', t, if s.vms == map[] then None else Some(o.pick), {})
  {
    if s.vms == map[] {
      DrainDoneMoves(s, t, o, x, s');
    } else {
      DrainedMoves(s, t, o, x, s');
    }
  }

  lemma AcquireMoves(s: State, t: Tid, o: Outcome, x: Task, s': State)
    requires Good(s) && t in s.tasks && s.tasks[t] == x && Acquired(s, x).Some?
    requires AcquireStep(s, t, o, x) == Some(s')
    ensures Moved(s, s', t, Touched(s, o, x), {})
  {
    RunKept(s, t, o, x, s');
    Focused(s, t);
    AcquireLocal(s, t, o, x, s');
    if x.WantGuard? {
      if o.ok {
        MineIs(s, t, Some(x.id));
        GuardExchange(s, t, o, x, s');
        Conclude(s, s', t, None, Some(x.id), {});
      } else {
        MineIs(s, t, None);
        IdleExchange(s, t, x, s');
        Conclude(s, s', t, None, None, {});
      }
    } else {
      MineIs(s, t, None);
      AcquireExchange(s, t, o, x, s');
      Conclude(s, s', t, None, None, {});
    }
  }

  lemma AllocatingMoves(s: State, t: Tid, o: Outcome, x: Task, s': State)
    requires Good(s) && t in s.tasks && s.tasks[t] == x && x.Allocating?
    requires RunStep(s, t, o, x) == Some(s')
    ensures Moved(s, s', t, Touched(s, o, x), RunLost(s, o, x))
  {
    MineIs(s, t, None);
    AllocatingLocal(s, t, o, x, s');
    AllocatingExchange(s, t, o, x, s');
    ConcludeOwn(s, s', t, None, RunLost(s, o, x));
  }

  lemma ReadingMoves(s: State, t: Tid, o: Outcome, x: Task, s': State)
    requires Good(s) && t in s.tasks && s.tasks[t] == x && x.Reading?
    requires s' == End(Unlock(s, t), t)
    ensures Moved(s, s', t, Touched(s, o, x), {})
  {
    Focused(s, t);
    ReadingLocal(s, t, x, s');
    LocalKeeps(s, s', t, None, None);
    MineIs(s, t, None);
    IdleExchange(s, t, x, s');
    Conclude(s, s', t, None, None, {});
  }

  lemma RunMoves(s: State, t: Tid, o: Outcome, x: Task, s': State)
    requires Good(s) && t in s.tasks && s.tasks[t] == x
    requires RunStep(s, t, o, x) == Some(s')
    ensures Moved(s, s', t, Touched(s, o, x), RunLost(s, o, x))
  {
    if Acquired(s, x).Some? {
      AcquireMoves(s, t, o, x, s');
    } else {
      match x
      case Job(_, _, _, _) => JobMoves(s, t, o, x, s');
      case Allocating(_, _) => AllocatingMoves(s, t, o, x, s');
      case Reserving(_, _, _) => ReservingMoves(s, t, o, x, s');
      case Booting(_, _, _, _) => BootingMoves(s, t, o, x, s');
      case Abandoning(_, _, _) => AbandoningMoves(s, t, o, x, s');
      case Upgrading(_, _, _) => UpgradingMoves(s, t, o, x, s');
      case Guarding(_, _) => GuardingMoves(s, t, o, x, s');
      case Cleaning(_, _, _, _) => CleaningMoves(s, t, o, x, s');
      case Deleting(_) => DeletingMoves(s, t, o, x, s');
      case Draining => DrainingMoves(s, t, o, x, s');
      case _ => ReadingMoves(s, t, o, x, s');
    }
  }

  lemma AbortMoves(s: State, t: Tid, left: bool, x: Task, s': State)
    requires Good(s) && t in s.tasks && s.tasks[t] == x && Abortable(x)
    requires s' == AbortStep(s, t, left, x)
    ensures Moved(s, s', t, None, AbortLost(left, x))
  {
    AbortKept(s, t, left, x, s');
    MineIs(s, t, None);
    if ArmedId(x).Some? {
      AbortArmedLocal(s, t, left, x, s');
      AbortArmedExchange(s, t, left, x, s');
    } else {
      AbortPlainLocal(s, t, left, x, s');
      AbortPlainExchange(s, t, left, x, s');
    }
    Conclude(s, s', t, None, None, AbortLost(left, x));
  }

  lemma PanicExchange(s: State, t: Tid, left: bool, x: Task, s': State)
    requires Mine(s, t, x, None) && x.Job?
    requires s' == PanicStep(s, t, left, x)
    ensures Exchange(s, s', t, None, PanicLost(left, x))
  {
    assert HoldsAt(s, OfTask(t)) == TaskHolds(x);
  }

  lemma PanicMoves(s: State, t: Tid, left: bool, x: Task, s': State)
    requires Good(s) && t in s.tasks && s.tasks[t] == x && x.Job?
    requires s' == PanicStep(s, t, left, x)
    ensures Moved(s, s', t, None, PanicLost(left, x))
  {
    PanicKept(s, t, left, x, s');
    MineIs(s, t, None);
    PanicLocal(s, t, left, x, s');
    PanicExchange(s, t, left, x, s');
    Conclude(s, s', t, None, None, PanicLost(left, x));
  }

  lemma SameHoldings(s: State, s': State)
    requires Disjoint(s) && Backed(s) && s'.world == s.world && s'.used == s.used
    requires forall p :: HoldsAt(s', p) == HoldsAt(s, p)
    ensures Conserves(s, s', {})
  {
    assert forall r :: Present(s', r) <==> Present(s, r);
  }

  /** A new task holds nothing. */
  lemma SpawnHoldings(s: State, t: Tid, y: Task)
    requires Locks(s) && t !in s.tasks && TaskHolds(y) == {} && !HasVms(y)
    ensures forall p :: HoldsAt(Spawned(s, t, y), p) == HoldsAt(s, p)
  {
    assert GuardedId(Spawned(s, t, y)) == GuardedId(s) by {
      if s.vmsLock.Some? { assert s.vmsLock.value in s.tasks; }
    }
  }

  /** Requests leave host, pool and all holdings alone. */
  lemma RequestHoldings(s: State, a: Action, s': State)
    requires Locks(s) && Next(s, a, s')
    requires a.SpawnCreate? || a.SpawnDelete? || a.SpawnRead? || a.SpawnShutdown?
    ensures s'.world == s.world && s'.used == s.used
    ensures forall p :: HoldsAt(s', p) == HoldsAt(s, p)
  {
    match a
    case SpawnCreate(t, id, vcpus, memoryMb, keys) =>
      var r := ValidateVmConfig(vcpus, memoryMb);
      if r.Ok? { SpawnHoldings(s, t, Job(id, Config(r.value.0, r.value.1, keys), CopyRootfs, true)); }
    case SpawnDelete(t, id) => SpawnHoldings(s, t, WantDelete(id));
    case SpawnRead(t) => SpawnHoldings(s, t, WantRead);
    case SpawnShutdown(t) => SpawnHoldings(s.(stopping := true), t, WantDrain);
  }

  /**
    Conservation: in every reachable state each resource is held by at most one place and exists;
    an action other than a crash adds to the leaks precisely what `Lost` lists, and what has leaked
    is never held again.
   */
  lemma ActionConserves(s: State, a: Action, s': State)
    requires Good(s) && Next(s, a, s') && !a.Crash?
    ensures Good(s')
    ensures forall r :: Leaked(s', r) <==> Leaked(s, r) || r in Lost(s, a)
  {
    StructureKept(s, a, s');
    match a
    case Run(t, o) =>
      RunMoves(s, t, o, s.tasks[t], s');
      Transfer(s, s', t, Touched(s, o, s.tasks[t]), RunLost(s, o, s.tasks[t]));
    case Abort(t, left) =>
      AbortMoves(s, t, left, s.tasks[t], s');
      Transfer(s, s', t, None, AbortLost(left, s.tasks[t]));
    case JobPanic(t, left) =>
      PanicMoves(s, t, left, s.tasks[t], s');
      Transfer(s, s', t, None, PanicLost(left, s.tasks[t]));
    case _ =>
      RequestHoldings(s, a, s');
      SameHoldings(s, s');
  }

  /** After a crash nothing is held, and what cleanup left behind is all there is. */
  lemma CrashConserves(s: State, kept: set<Resource>, s': State)
    requires Good(s) && Next(s, Crash(kept), s')
    ensures Good(s')
    ensures forall r :: Leaked(s', r) <==> r in kept
    ensures kept == {} ==> s' == Init(s.cap).(ids := s.ids)
  {
    CrashKept(s, kept, s');
    forall p
      ensures HoldsAt(s', p) == {}
    {
    }
  }

  lemma InitGood(cap: Capacity)
    ensures Good(Init(cap))
  {
    InitStructure(cap);
    forall p
      ensures HoldsAt(Init(cap), p) == {}
    {
    }
  }
}
