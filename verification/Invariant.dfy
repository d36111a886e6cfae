/** The inductive invariant of the lifecycle, apart from ownership. */
module Invariant {
  import opened Prelude
  import opened Sums
  import opened VmConfig
  import opened Lifecycle
  import Pool = SubnetPools

  // ── Shapes of tasks ──

  predicate NoDup(todo: seq<Resource>) {
    forall i, j :: 0 <= i < j < |todo| ==> todo[i] != todo[j]
  }

  predicate OnNetwork(r: Resource) {
    r.Tap? || r.Post? || r.Filter?
  }

  /** Every network resource is disposed of before the slot is released. */
  predicate ReleaseLast(todo: seq<Resource>) {
    forall i, j :: 0 <= i < j < |todo| && todo[i].Slot? ==> !OnNetwork(todo[j])
  }

  /** Whatever network resource is disposed of, its slot is too. */
  predicate Tied(todo: seq<Resource>) {
    forall r :: r in todo && OnNetwork(r) ==> Slot(r.index) in todo
  }

  /** An instance is dropped before anything else. */
  predicate InstanceFirst(todo: seq<Resource>) {
    forall k :: 0 < k < |todo| ==> !todo[k].Vmm?
  }

  predicate TeardownOk(todo: seq<Resource>) {
    NoDup(todo) && ReleaseLast(todo) && Tied(todo) && InstanceFirst(todo)
  }

  /** The next thing a task disposes of. */
  function Head(x: Task): Option<Resource> {
    match x
    case Job(_, _, Undo(_, todo), _) => if todo != [] then Some(todo[0]) else None
    case Cleaning(todo, _, _, _) => if todo != [] then Some(todo[0]) else None
    case Guarding(_, todo) => if todo != [] then Some(todo[0]) else None
    case _ => None
  }

  predicate ShapeOk(x: Task) {
    match x
    case Job(_, _, Undo(i, todo), _) =>
      NoDup(todo) && forall r :: r in todo ==> r == Tap(i) || (r.Post? && r.index == i)
    case Guarding(_, todo) => TeardownOk(todo)
    case Cleaning(todo, pool, vms, cont) =>
      TeardownOk(todo) && (pool ==> todo != [] && todo[0].Slot?) && (!cont.Return? ==> vms)
    case _ => true
  }

  ghost predicate Shapes(s: State) {
    forall t :: t in s.tasks ==> ShapeOk(s.tasks[t])
  }

  // ── Locks ──

  predicate HasVms(x: Task) {
    x.Reserving? || x.Abandoning? || x.Upgrading? || x.Guarding? || x.Deleting? || x.Reading? || x.Draining?
    || (x.Cleaning? && x.vms)
  }

  predicate HasPool(x: Task) {
    x.Allocating? || (x.Cleaning? && x.pool)
  }

  /** Each lock is held by exactly the task whose program counter lies inside a region of that lock. */
  ghost predicate Locks(s: State) {
    && (forall t :: s.vmsLock == Some(t) <==> t in s.tasks && HasVms(s.tasks[t]))
    && (forall t :: s.poolLock == Some(t) <==> t in s.tasks && HasPool(s.tasks[t]))
  }

  // ── The host ──

  ghost predicate Host(s: State) {
    && (forall r :: r in s.world ==> !r.Slot?)
    && (forall r, x :: r in s.world && x in s.world && SameRule(r, x) ==> r == x)
    && (forall i :: i in s.used ==> i < Pool.MAX_SUBNETS)
  }

  // ── Identifiers ──

  function CreateId(x: Task): Option<Id> {
    match x
    case Job(id, _, _, _) => Some(id)
    case WantSubnet(id, _) => Some(id)
    case Allocating(id, _) => Some(id)
    case WantReserve(id, _, _) => Some(id)
    case Reserving(id, _, _) => Some(id)
    case WantGuard(id) => Some(id)
    case Guarding(id, _) => Some(id)
    case _ => ArmedId(x)
  }

  predicate BeforeInsert(x: Task) {
    x.Job? || x.WantSubnet? || x.Allocating? || x.WantReserve? || x.Reserving?
  }

  /** Id-keyed resources the task is still going to create. */
  function Future(x: Task): set<Resource> {
    if x.Job? && x.stage.CopyRootfs? then {Rootfs(x.id), Vmm(x.id)}
    else if BeforeInsert(x) || (x.Booting? && !x.started) then {Vmm(CreateId(x).value)}
    else {}
  }

  ghost predicate Ids(s: State) {
    && s.vms.Keys <= s.ids
    && (forall r :: r in s.world && r.Rootfs? ==> r.id in s.ids)
    && (forall r :: r in s.world && r.Vmm? ==> r.id in s.ids)
    && (forall t :: t in s.tasks && CreateId(s.tasks[t]).Some? ==> CreateId(s.tasks[t]).value in s.ids)
    && (forall t, u :: t in s.tasks && u in s.tasks && t != u && CreateId(s.tasks[t]).Some?
                       ==> CreateId(s.tasks[t]) != CreateId(s.tasks[u]))
  }

  ghost predicate Fresh(s: State) {
    && (forall t :: t in s.tasks ==> Future(s.tasks[t]) !! s.world)
    && (forall t :: t in s.tasks && BeforeInsert(s.tasks[t]) ==> s.tasks[t].id !in s.vms)
  }

  // ── Placeholders ──

  predicate Owner(x: Task) {
    x.Booting? || x.WantAbandon? || x.Abandoning? || x.WantUpgrade? || x.Upgrading?
  }

  /** From insert to upgrade the entry is the placeholder its create task put there, or a shutdown took it. */
  predicate PlaceholderOk(s: State, x: Task) {
    match x
    case Booting(id, cfg, net, _) => Placeholder(s, id, cfg, net)
    case WantAbandon(id, cfg, net) => Placeholder(s, id, cfg, net)
    case Abandoning(id, cfg, net) => Placeholder(s, id, cfg, net)
    case WantUpgrade(id, cfg, net) => Placeholder(s, id, cfg, net)
    case Upgrading(id, cfg, net) => Placeholder(s, id, cfg, net)
    case WantGuard(id) => id in s.vms ==> s.vms[id].Creating?
    case Guarding(id, _) => id in s.vms ==> s.vms[id].Creating?
    case Cleaning(_, _, _, Armed(id)) => id !in s.vms
    case WantDrain => s.stopping
    case Draining => s.stopping
    case Cleaning(_, _, _, Drain) => s.stopping
    case _ => true
  }

  predicate Placeholder(s: State, id: Id, cfg: Config, net: Net) {
    && (id in s.vms ==> s.vms[id] == Creating(cfg, net))
    && (!s.stopping ==> id in s.vms)
  }

  ghost predicate Placeholders(s: State) {
    forall t :: t in s.tasks ==> PlaceholderOk(s, s.tasks[t])
  }

  // ── Capacity ──

  predicate ConfigOk(cfg: Config) {
    ValidVcpus(cfg.vcpus) && ValidMemory(cfg.memoryMb)
  }

  function TaskConfig(x: Task): Option<Config> {
    match x
    case Job(_, cfg, _, _) => Some(cfg)
    case WantSubnet(_, cfg) => Some(cfg)
    case Allocating(_, cfg) => Some(cfg)
    case WantReserve(_, cfg, _) => Some(cfg)
    case Reserving(_, cfg, _) => Some(cfg)
    case _ => None
  }

  ghost predicate Configs(s: State) {
    && (forall t :: t in s.tasks && TaskConfig(s.tasks[t]).Some? ==> ConfigOk(TaskConfig(s.tasks[t]).value))
    && (forall id :: id in s.vms ==> ConfigOk(s.vms[id].cfg))
  }

  /** Reserved vCPUs and memory, counting placeholders, never exceed the host. */
  ghost predicate WithinCapacity(s: State) {
    && Total(Vcpus(s.vms)) <= s.cap.vcpus
    && Total(Memory(s.vms)) <= s.cap.AllocatableMemoryMb()
  }

  ghost predicate Structure(s: State) {
    Shapes(s) && Locks(s) && Host(s) && Ids(s) && Fresh(s) && Placeholders(s) && Configs(s) && WithinCapacity(s)
  }

  // ── A step of one task, seen from outside ──

  /** Task `t` steps from `x` (and ends when it leaves the task map); entry `e` is all it changes of `vms`. */
  ghost predicate Local(s: State, s': State, t: Tid, e: Option<Id>) {
    && t in s.tasks
    && s'.tasks == (if t in s'.tasks then s.tasks[t := s'.tasks[t]] else s.tasks - {t})
    && (e.None? ==> s'.vms == s.vms)
    && (forall id :: e != Some(id) ==> (id in s'.vms <==> id in s.vms))
    && (forall id :: e != Some(id) && id in s.vms ==> s'.vms[id] == s.vms[id])
    && s'.cap == s.cap && s'.ids == s.ids && s'.stopping == s.stopping
  }

  predicate LockMoves(before: Option<Tid>, after: Option<Tid>, t: Tid, holds: bool) {
    if holds then after == Some(t) && (before == None || before == Some(t))
    else if before == Some(t) then after == None
    else after == before
  }

  /** A resource the step puts on the host: a tap, a rule under a fresh handle, or one announced in `Future`. */
  ghost predicate NewOk(s: State, x: Task, r: Resource) {
    match r
    case Slot(_) => false
    case Tap(_) => true
    case Post(_, _) => forall q :: q in s.world ==> !SameRule(r, q)
    case Filter(_, _) => forall q :: q in s.world ==> !SameRule(r, q)
    case _ => r in Future(x)
  }

  /** At most one resource, `n`, appears on the host, and at most one index in the pool. */
  ghost predicate LocalHost(s: State, s': State, x: Task, n: Option<Resource>) {
    && s'.world <= s.world + (if n.Some? then {n.value} else {})
    && (n.Some? ==> NewOk(s, x, n.value))
    && (forall i :: i in s'.used ==> i in s.used || i < Pool.MAX_SUBNETS)
  }

  /** What the step leaves task `t` as. */
  ghost predicate LocalTask(s: State, s': State, x: Task, y: Task) {
    && ShapeOk(y)
    && (CreateId(y).Some? ==> CreateId(y) == CreateId(x))
    && Future(y) !! s'.world
    && (BeforeInsert(y) ==> y.id !in s'.vms)
    && PlaceholderOk(s', y)
    && (TaskConfig(y).Some? ==> ConfigOk(TaskConfig(y).value))
  }

  /** The changed entry belongs to the stepping create, or is a Running one, or shutdown has begun. */
  ghost predicate LocalEntry(s: State, s': State, x: Task, e: Id) {
    && (e in s'.vms ==> CreateId(x) == Some(e) && ConfigOk(s'.vms[e].cfg))
    && (e !in s'.vms && e in s.vms && CreateId(x) != Some(e) ==> s.vms[e].Running? || s.stopping)
  }

  ghost predicate LocalOk(s: State, s': State, t: Tid, e: Option<Id>, n: Option<Resource>) {
    && Local(s, s', t, e)
    && LockMoves(s.vmsLock, s'.vmsLock, t, t in s'.tasks && HasVms(s'.tasks[t]))
    && LockMoves(s.poolLock, s'.poolLock, t, t in s'.tasks && HasPool(s'.tasks[t]))
    && LocalHost(s, s', s.tasks[t], n)
    && (t in s'.tasks ==> LocalTask(s, s', s.tasks[t], s'.tasks[t]))
    && (e.Some? ==> LocalEntry(s, s', s.tasks[t], e.value))
  }

  lemma OtherTask(s: State, s': State, t: Tid, e: Option<Id>, u: Tid)
    requires Local(s, s', t, e) && u != t
    ensures u in s'.tasks <==> u in s.tasks
    ensures u in s.tasks ==> s'.tasks[u] == s.tasks[u]
  {
  }

  lemma LocalKeepsTasks(s: State, s': State, t: Tid, e: Option<Id>, n: Option<Resource>)
    requires Structure(s) && LocalOk(s, s', t, e, n)
    ensures Shapes(s') && Configs(s')
  {
    forall u | u in s'.tasks
      ensures ShapeOk(s'.tasks[u]) && (TaskConfig(s'.tasks[u]).Some? ==> ConfigOk(TaskConfig(s'.tasks[u]).value))
    {
      if u != t { OtherTask(s, s', t, e, u); }
    }
  }

  lemma LocalKeepsLocks(s: State, s': State, t: Tid, e: Option<Id>, n: Option<Resource>)
    requires Structure(s) && LocalOk(s, s', t, e, n)
    ensures Locks(s')
  {
    forall u
      ensures s'.vmsLock == Some(u) <==> u in s'.tasks && HasVms(s'.tasks[u])
      ensures s'.poolLock == Some(u) <==> u in s'.tasks && HasPool(s'.tasks[u])
    {
      if u != t { OtherTask(s, s', t, e, u); }
    }
  }

  lemma LocalKeepsHost(s: State, s': State, t: Tid, e: Option<Id>, n: Option<Resource>)
    requires Structure(s) && LocalOk(s, s', t, e, n)
    ensures Host(s')
  {
    forall r, x | r in s'.world && x in s'.world && SameRule(r, x)
      ensures r == x
    {
    }
    forall r | r in s'.world
      ensures !r.Slot?
    {
    }
  }

  lemma FutureIds(x: Task, r: Resource)
    requires r in Future(x)
    ensures r.Rootfs? || r.Vmm?
    ensures CreateId(x) == Some(r.id)
  {
  }

  lemma LocalKeepsIds(s: State, s': State, t: Tid, e: Option<Id>, n: Option<Resource>)
    requires Structure(s) && LocalOk(s, s', t, e, n)
    ensures Ids(s')
  {
    forall u, v | u in s'.tasks && v in s'.tasks && u != v && CreateId(s'.tasks[u]).Some?
      ensures CreateId(s'.tasks[u]) != CreateId(s'.tasks[v])
    {
      if u != t { OtherTask(s, s', t, e, u); }
      if v != t { OtherTask(s, s', t, e, v); }
    }
    forall u | u in s'.tasks && CreateId(s'.tasks[u]).Some?
      ensures CreateId(s'.tasks[u]).value in s'.ids
    {
      if u != t { OtherTask(s, s', t, e, u); }
    }
    forall r | r in s'.world && (r.Rootfs? || r.Vmm?)
      ensures r.id in s'.ids
    {
      if r !in s.world {
        FutureIds(s.tasks[t], r);
      }
    }
    forall id | id in s'.vms
      ensures id in s'.ids
    {
      if e != Some(id) { assert id in s.vms; }
    }
  }

  lemma LocalKeepsFresh(s: State, s': State, t: Tid, e: Option<Id>, n: Option<Resource>)
    requires Structure(s) && LocalOk(s, s', t, e, n)
    ensures Fresh(s')
  {
    forall u | u in s'.tasks
      ensures Future(s'.tasks[u]) !! s'.world
    {
      if u != t {
        OtherTask(s, s', t, e, u);
        forall r | r in Future(s'.tasks[u])
          ensures r !in s'.world
        {
          FutureIds(s.tasks[u], r);
          if r in s'.world {
            FutureIds(s.tasks[t], r);
          }
        }
      }
    }
    forall u | u in s'.tasks && BeforeInsert(s'.tasks[u])
      ensures s'.tasks[u].id !in s'.vms
    {
      if u != t { OtherTask(s, s', t, e, u); }
    }
  }

  lemma LocalKeepsPlaceholders(s: State, s': State, t: Tid, e: Option<Id>, n: Option<Resource>)
    requires Structure(s) && LocalOk(s, s', t, e, n)
    ensures Placeholders(s')
  {
    forall u | u in s'.tasks
      ensures PlaceholderOk(s', s'.tasks[u])
    {
      if u != t {
        OtherTask(s, s', t, e, u);
        var x := s.tasks[u];
        assert PlaceholderOk(s, x);
        assert CreateId(x).Some? ==> CreateId(x) != CreateId(s.tasks[t]);
      }
    }
  }

  lemma LocalKeeps(s: State, s': State, t: Tid, e: Option<Id>, n: Option<Resource>)
    requires Structure(s) && LocalOk(s, s', t, e, n) && (e.Some? ==> WithinCapacity(s'))
    ensures Structure(s')
  {
    LocalKeepsTasks(s, s', t, e, n);
    LocalKeepsLocks(s, s', t, e, n);
    LocalKeepsHost(s, s', t, e, n);
    LocalKeepsIds(s, s', t, e, n);
    LocalKeepsFresh(s, s', t, e, n);
    LocalKeepsPlaceholders(s, s', t, e, n);
  }

  // ── Every step is such a local step ──

  /** What the invariant says about one task. */
  ghost predicate Focus(s: State, t: Tid, x: Task) {
    && t in s.tasks && s.tasks[t] == x
    && ShapeOk(x)
    && (s.vmsLock == Some(t) <==> HasVms(x))
    && (s.poolLock == Some(t) <==> HasPool(x))
    && Future(x) !! s.world
    && (BeforeInsert(x) ==> x.id !in s.vms)
    && PlaceholderOk(s, x)
    && (TaskConfig(x).Some? ==> ConfigOk(TaskConfig(x).value))
    && (CreateId(x).Some? && CreateId(x).value in s.vms ==> ConfigOk(s.vms[CreateId(x).value].cfg))
  }

  lemma Focused(s: State, t: Tid)
    requires Structure(s) && t in s.tasks
    ensures Focus(s, t, s.tasks[t])
  {
    if CreateId(s.tasks[t]).Some? && CreateId(s.tasks[t]).value in s.vms {
      assert ConfigOk(s.vms[CreateId(s.tasks[t]).value].cfg);
    }
  }

  lemma EntryTodoDistinct(id: Id, e: Entry)
    ensures TeardownOk(EntryTodo(id, e))
  {
  }

  lemma RestOk(todo: seq<Resource>)
    requires todo != [] && TeardownOk(todo)
    ensures TeardownOk(todo[1..])
  {
    forall i, j | 0 <= i < j < |todo| - 1
      ensures todo[1..][i] != todo[1..][j] && (todo[1..][i].Slot? ==> !OnNetwork(todo[1..][j]))
    {
      assert todo[i + 1] != todo[j + 1];
    }
    forall r | r in todo[1..] && OnNetwork(r)
      ensures Slot(r.index) in todo[1..]
    {
      RestTied(todo, r);
    }
  }

  lemma RestTied(todo: seq<Resource>, r: Resource)
    requires todo != [] && TeardownOk(todo) && r in todo[1..] && OnNetwork(r)
    ensures Slot(r.index) in todo[1..]
  {
    var j :| 0 <= j < |todo| - 1 && todo[1..][j] == r;
    assert todo[j + 1] == r && r in todo;
    var k :| 0 <= k < |todo| && todo[k] == Slot(r.index);
    assert k != 0;
    assert todo[1..][k - 1] == Slot(r.index);
  }

  lemma RefusalTodoOk(net: Net)
    ensures TeardownOk(RefusalTodo(net))
  {
  }

  lemma GuardTodoOk(s: State, x: Task)
    requires x.WantGuard?
    ensures ShapeOk(Acquired(s, x).value)
  {
    if x.id in s.vms { EntryTodoDistinct(x.id, s.vms[x.id]); }
  }

  lemma AcquireLocal(s: State, t: Tid, o: Outcome, x: Task, s': State)
    requires Focus(s, t, x) && Acquired(s, x).Some?
    requires AcquireStep(s, t, o, x) == Some(s')
    ensures LocalOk(s, s', t, None, None)
  {
    if x.WantGuard? {
      if o.ok { GuardTodoOk(s, x); }
    } else if BeforeInsert(x) || Owner(x) {
      AcquireCreateLocal(s, t, o, x, s');
    }
  }

  lemma AcquireCreateLocal(s: State, t: Tid, o: Outcome, x: Task, s': State)
    requires Focus(s, t, x) && Acquired(s, x).Some? && (BeforeInsert(x) || Owner(x))
    requires AcquireStep(s, t, o, x) == Some(s')
    ensures LocalOk(s, s', t, None, None)
  {
    if x.WantSubnet? {
    } else if Owner(x) {
    }
  }

  lemma CopyLocal(s: State, t: Tid, o: Outcome, x: Task, s': State)
    requires Focus(s, t, x) && x.Job? && x.stage.CopyRootfs?
    requires JobStep(s, t, o, x) == Some(s')
    ensures LocalOk(s, s', t, None, Some(Rootfs(x.id)))
  {
  }

  lemma TapLocal(s: State, t: Tid, o: Outcome, x: Task, s': State)
    requires Focus(s, t, x) && x.Job? && (x.stage.TapAdd? || x.stage.TapAddr? || x.stage.TapUp?)
    requires JobStep(s, t, o, x) == Some(s')
    ensures LocalOk(s, s', t, None, Some(Tap(x.stage.index)))
  {
    if x.stage.TapAdd? {
      if !o.ok && x.attached {
      }
    } else {
    }
  }

  lemma PostAddLocal(s: State, t: Tid, o: Outcome, x: Task, s': State)
    requires Focus(s, t, x) && x.Job? && x.stage.PostAdd?
    requires JobStep(s, t, o, x) == Some(s')
    ensures LocalOk(s, s', t, None, if o.ok then Some(Post(o.handle, x.stage.index)) else None)
  {
  }

  lemma FilterFailsLocal(s: State, t: Tid, o: Outcome, x: Task, s': State)
    requires Focus(s, t, x) && x.Job? && x.stage.FilterAdd? && !(o.ok && o.parsed)
    requires JobStep(s, t, o, x) == Some(s')
    ensures LocalOk(s, s', t, None, if o.ok then Some(Filter(o.handle, x.stage.index)) else None)
  {
    if !o.ok {
    } else {
    }
  }

  lemma FilterAddedLocal(s: State, t: Tid, o: Outcome, x: Task, s': State)
    requires Focus(s, t, x) && x.Job? && x.stage.FilterAdd? && o.ok && o.parsed
    requires JobStep(s, t, o, x) == Some(s')
    ensures LocalOk(s, s', t, None, Some(Filter(o.handle, x.stage.index)))
  {
    if x.attached {
    } else {
    }
  }

  lemma FilterAddLocal(s: State, t: Tid, o: Outcome, x: Task, s': State)
    requires Focus(s, t, x) && x.Job? && x.stage.FilterAdd?
    requires JobStep(s, t, o, x) == Some(s')
    ensures LocalOk(s, s', t, None, if o.ok then Some(Filter(o.handle, x.stage.index)) else None)
  {
    if o.ok && o.parsed { FilterAddedLocal(s, t, o, x, s'); } else { FilterFailsLocal(s, t, o, x, s'); }
  }

  lemma UndoLocal(s: State, t: Tid, o: Outcome, x: Task, s': State)
    requires Focus(s, t, x) && x.Job? && x.stage.Undo?
    requires JobStep(s, t, o, x) == Some(s')
    ensures LocalOk(s, s', t, None, None)
  {
    if x.stage.todo == [] {
    } else {
    }
  }

  lemma AllocatingLocal(s: State, t: Tid, o: Outcome, x: Task, s': State)
    requires Focus(s, t, x) && x.Allocating?
    requires RunStep(s, t, o, x) == Some(s')
    ensures LocalOk(s, s', t, None, None)
  {
  }

  lemma ReservingLocal(s: State, t: Tid, x: Task, s': State)
    requires Focus(s, t, x) && x.Reserving?
    requires s' == ReserveStep(s, t, x)
    ensures LocalOk(s, s', t, Some(x.id), None)
  {
    RefusalTodoOk(x.net);
  }

  lemma BootsLocal(s: State, t: Tid, o: Outcome, x: Task, s': State)
    requires Focus(s, t, x) && x.Booting? && !x.started
    requires s' == BootStep(s, t, o, x)
    ensures LocalOk(s, s', t, None, Some(Vmm(x.id)))
  {
  }

  lemma BootedLocal(s: State, t: Tid, o: Outcome, x: Task, s': State)
    requires Focus(s, t, x) && x.Booting? && x.started
    requires s' == BootStep(s, t, o, x)
    ensures LocalOk(s, s', t, None, None)
  {
  }

  lemma BootingLocal(s: State, t: Tid, o: Outcome, x: Task, s': State)
    requires Focus(s, t, x) && x.Booting?
    requires s' == BootStep(s, t, o, x)
    ensures LocalOk(s, s', t, None, if !x.started then Some(Vmm(x.id)) else None)
  {
    if x.started { BootedLocal(s, t, o, x, s'); } else { BootsLocal(s, t, o, x, s'); }
  }

  lemma AbandoningLocal(s: State, t: Tid, x: Task, s': State)
    requires Focus(s, t, x) && x.Abandoning?
    requires s' == AbandonStep(s, t, x)
    ensures LocalOk(s, s', t, Some(x.id), None)
  {
    if x.id in s.vms { EntryTodoDistinct(x.id, s.vms[x.id]); }
  }

  lemma UpgradingLocal(s: State, t: Tid, o: Outcome, x: Task, s': State)
    requires Focus(s, t, x) && x.Upgrading?
    requires s' == UpgradeStep(s, t, o, x)
    ensures LocalOk(s, s', t, Some(x.id), None)
  {
  }

  lemma GuardDoneLocal(s: State, t: Tid, o: Outcome, x: Task, s': State)
    requires Focus(s, t, x) && x.Guarding? && x.todo == []
    requires GuardStep(s, t, o, x) == Some(s')
    ensures LocalOk(s, s', t, Some(x.id), None)
  {
  }

  lemma GuardNextLocal(s: State, t: Tid, o: Outcome, x: Task, s': State)
    requires Focus(s, t, x) && x.Guarding? && x.todo != []
    requires GuardStep(s, t, o, x) == Some(s')
    ensures LocalOk(s, s', t, Some(x.id), None)
  {
    RestOk(x.todo);
    if x.todo[0].Slot? {
    } else {
    }
  }

  lemma GuardingLocal(s: State, t: Tid, o: Outcome, x: Task, s': State)
    requires Focus(s, t, x) && x.Guarding?
    requires GuardStep(s, t, o, x) == Some(s')
    ensures LocalOk(s, s', t, Some(x.id), None)
  {
    if x.todo == [] { GuardDoneLocal(s, t, o, x, s'); } else { GuardNextLocal(s, t, o, x, s'); }
  }

  lemma CleanDoneLocal(s: State, t: Tid, o: Outcome, x: Task, s': State)
    requires Focus(s, t, x) && x.Cleaning? && x.todo == []
    requires CleanStep(s, t, o, x) == Some(s')
    ensures LocalOk(s, s', t, None, None)
  {
  }

  lemma CleanLockLocal(s: State, t: Tid, o: Outcome, x: Task, s': State)
    requires Focus(s, t, x) && x.Cleaning? && x.todo != [] && x.todo[0].Slot? && !x.pool
    requires CleanStep(s, t, o, x) == Some(s')
    ensures LocalOk(s, s', t, None, None)
  {
  }

  lemma CleanFreeLocal(s: State, t: Tid, o: Outcome, x: Task, s': State)
    requires Focus(s, t, x) && x.Cleaning? && x.todo != [] && x.todo[0].Slot? && x.pool
    requires CleanStep(s, t, o, x) == Some(s')
    ensures LocalOk(s, s', t, None, None)
  {
    RestOk(x.todo);
  }

  lemma CleanSlotLocal(s: State, t: Tid, o: Outcome, x: Task, s': State)
    requires Focus(s, t, x) && x.Cleaning? && x.todo != [] && x.todo[0].Slot?
    requires CleanStep(s, t, o, x) == Some(s')
    ensures LocalOk(s, s', t, None, None)
  {
    if x.pool { CleanFreeLocal(s, t, o, x, s'); } else { CleanLockLocal(s, t, o, x, s'); }
  }

  lemma CleanHostLocal(s: State, t: Tid, o: Outcome, x: Task, s': State)
    requires Focus(s, t, x) && x.Cleaning? && x.todo != [] && !x.todo[0].Slot?
    requires CleanStep(s, t, o, x) == Some(s')
    ensures LocalOk(s, s', t, None, None)
  {
    RestOk(x.todo);
  }

  lemma DeletingLocal(s: State, t: Tid, x: Task, s': State)
    requires Focus(s, t, x) && x.Deleting?
    requires s' == DeleteStep(s, t, x)
    ensures LocalOk(s, s', t, if x.id in s'.vms then None else Some(x.id), None)
  {
    if x.id in s.vms { EntryTodoDistinct(x.id, s.vms[x.id]); }
  }

  lemma ReadingLocal(s: State, t: Tid, x: Task, s': State)
    requires Focus(s, t, x) && x.Reading?
    requires s' == End(Unlock(s, t), t)
    ensures LocalOk(s, s', t, None, None)
  {
  }

  lemma DrainingLocal(s: State, t: Tid, o: Outcome, x: Task, s': State)
    requires Focus(s, t, x) && x.Draining?
    requires DrainStep(s, t, o) == Some(s')
    ensures LocalOk(s, s', t, Some(o.pick), None)
  {
    if o.pick in s.vms { EntryTodoDistinct(o.pick, s.vms[o.pick]); }
  }

  lemma AbortArmedLocal(s: State, t: Tid, left: bool, x: Task, s': State)
    requires Focus(s, t, x) && Abortable(x) && ArmedId(x).Some?
    requires s' == AbortStep(s, t, left, x)
    ensures LocalOk(s, s', t, None, None)
  {
  }

  lemma AbortPlainLocal(s: State, t: Tid, left: bool, x: Task, s': State)
    requires Focus(s, t, x) && Abortable(x) && ArmedId(x).None?
    requires s' == AbortStep(s, t, left, x)
    ensures LocalOk(s, s', t, None, None)
  {
  }

  // ── Capacity ──

  /**
    On a state within capacity the saturating test is the plain one: a create is refused for vCPUs
    exactly when the reserved sum plus the request exceeds the host, else for memory likewise.
   */
  lemma AdmitIsPlainSum(cap: Capacity, vcpus: nat, memoryMb: nat, cfg: Config)
    requires vcpus <= cap.vcpus && memoryMb <= cap.AllocatableMemoryMb()
    ensures var verdict := Admit(cap, vcpus, memoryMb, cfg);
            && (verdict.RefusedVcpus? <==> vcpus + cfg.vcpus > cap.vcpus)
            && (verdict.RefusedMemory? <==>
                  vcpus + cfg.vcpus <= cap.vcpus && memoryMb + cfg.memoryMb > cap.AllocatableMemoryMb())
            && (verdict.Admitted? <==>
                  vcpus + cfg.vcpus <= cap.vcpus && memoryMb + cfg.memoryMb <= cap.AllocatableMemoryMb())
  {
  }

  lemma RemoveWithin(s: State, id: Id)
    requires WithinCapacity(s)
    ensures WithinCapacity(s.(vms := s.vms - {id}))
  {
    assert Vcpus(s.vms - {id}) == Vcpus(s.vms) - {id};
    assert Memory(s.vms - {id}) == Memory(s.vms) - {id};
    TotalMonotone(Vcpus(s.vms), {id});
    TotalMonotone(Memory(s.vms), {id});
  }

  lemma InsertWithin(s: State, id: Id, cfg: Config, net: Net)
    requires WithinCapacity(s) && id !in s.vms
    requires Admits(s, cfg)
    ensures WithinCapacity(s.(vms := s.vms[id := Creating(cfg, net)]))
  {
    var vms' := s.vms[id := Creating(cfg, net)];
    AdmitIsPlainSum(s.cap, Total(Vcpus(s.vms)), Total(Memory(s.vms)), cfg);
    assert Vcpus(vms') == Vcpus(s.vms)[id := cfg.vcpus] && Vcpus(s.vms) - {id} == Vcpus(s.vms);
    assert Memory(vms') == Memory(s.vms)[id := cfg.memoryMb] && Memory(s.vms) - {id} == Memory(s.vms);
    TotalPut(Vcpus(s.vms), id, cfg.vcpus);
    TotalPut(Memory(s.vms), id, cfg.memoryMb);
  }

  lemma PromoteWithin(s: State, id: Id)
    requires WithinCapacity(s) && id in s.vms
    ensures WithinCapacity(s.(vms := s.vms[id := Running(s.vms[id].cfg, s.vms[id].net)]))
  {
    var vms' := s.vms[id := Running(s.vms[id].cfg, s.vms[id].net)];
    assert Vcpus(vms') == Vcpus(s.vms) && Memory(vms') == Memory(s.vms);
  }

  // ── The invariant ──

  lemma JobKept(s: State, t: Tid, o: Outcome, x: Task, s': State)
    requires Structure(s) && t in s.tasks && s.tasks[t] == x && x.Job?
    requires JobStep(s, t, o, x) == Some(s')
    ensures Structure(s')
  {
    Focused(s, t);
    match x.stage
    case CopyRootfs =>
      CopyLocal(s, t, o, x, s');
      LocalKeeps(s, s', t, None, Some(Rootfs(x.id)));
    case PostAdd(i) =>
      PostAddLocal(s, t, o, x, s');
      LocalKeeps(s, s', t, None, if o.ok then Some(Post(o.handle, i)) else None);
    case FilterAdd(i, _) =>
      FilterAddLocal(s, t, o, x, s');
      LocalKeeps(s, s', t, None, if o.ok then Some(Filter(o.handle, i)) else None);
    case Undo(_, _) =>
      UndoLocal(s, t, o, x, s');
      LocalKeeps(s, s', t, None, None);
    case _ =>
      TapLocal(s, t, o, x, s');
      LocalKeeps(s, s', t, None, Some(Tap(x.stage.index)));
  }

  lemma ReserveWithin(s: State, t: Tid, x: Task, s': State)
    requires WithinCapacity(s) && x.Reserving? && x.id !in s.vms && s' == ReserveStep(s, t, x)
    ensures WithinCapacity(s')
  {
    if Admits(s, x.cfg) { InsertWithin(s, x.id, x.cfg, x.net); }
  }

  lemma ReservingKept(s: State, t: Tid, x: Task, s': State)
    requires Structure(s) && t in s.tasks && s.tasks[t] == x && x.Reserving?
    requires s' == ReserveStep(s, t, x)
    ensures Structure(s')
  {
    Focused(s, t);
    ReservingLocal(s, t, x, s');
    ReserveWithin(s, t, x, s');
    LocalKeeps(s, s', t, Some(x.id), None);
  }

  lemma OwnerKept(s: State, t: Tid, o: Outcome, x: Task, s': State)
    requires Structure(s) && t in s.tasks && s.tasks[t] == x
    requires (x.Booting? && s' == BootStep(s, t, o, x)) || (x.Abandoning? && s' == AbandonStep(s, t, x))
             || (x.Upgrading? && s' == UpgradeStep(s, t, o, x)) || (x.Guarding? && GuardStep(s, t, o, x) == Some(s'))
    ensures Structure(s')
  {
    Focused(s, t);
    RemoveWithin(s, x.id);
    if x.Booting? {
      BootingLocal(s, t, o, x, s');
      LocalKeeps(s, s', t, None, if !x.started then Some(Vmm(x.id)) else None);
    } else if x.Abandoning? {
      AbandoningLocal(s, t, x, s');
      LocalKeeps(s, s', t, Some(x.id), None);
    } else if x.Upgrading? {
      UpgradingLocal(s, t, o, x, s');
      if x.id in s.vms { PromoteWithin(s, x.id); }
      LocalKeeps(s, s', t, Some(x.id), None);
    } else {
      GuardingLocal(s, t, o, x, s');
      LocalKeeps(s, s', t, Some(x.id), None);
    }
  }

  lemma CleaningKept(s: State, t: Tid, o: Outcome, x: Task, s': State)
    requires Structure(s) && t in s.tasks && s.tasks[t] == x && x.Cleaning?
    requires CleanStep(s, t, o, x) == Some(s')
    ensures Structure(s')
  {
    Focused(s, t);
    if x.todo == [] { CleanDoneLocal(s, t, o, x, s'); }
    else if x.todo[0].Slot? { CleanSlotLocal(s, t, o, x, s'); }
    else { CleanHostLocal(s, t, o, x, s'); }
    LocalKeeps(s, s', t, None, None);
  }

  lemma DeletingKept(s: State, t: Tid, x: Task, s': State)
    requires Structure(s) && t in s.tasks && s.tasks[t] == x && x.Deleting?
    requires s' == DeleteStep(s, t, x)
    ensures Structure(s')
  {
    Focused(s, t);
    DeletingLocal(s, t, x, s');
    RemoveWithin(s, x.id);
    LocalKeeps(s, s', t, if x.id in s'.vms then None else Some(x.id), None);
  }

  lemma DrainingKept(s: State, t: Tid, o: Outcome, x: Task, s': State)
    requires Structure(s) && t in s.tasks && s.tasks[t] == x && x.Draining?
    requires DrainStep(s, t, o) == Some(s')
    ensures Structure(s')
  {
    Focused(s, t);
    DrainingLocal(s, t, o, x, s');
    RemoveWithin(s, o.pick);
    LocalKeeps(s, s', t, Some(o.pick), None);
  }

  lemma RunKept(s: State, t: Tid, o: Outcome, x: Task, s': State)
    requires Structure(s) && t in s.tasks && s.tasks[t] == x
    requires RunStep(s, t, o, x) == Some(s')
    ensures Structure(s')
  {
    if Acquired(s, x).Some? {
      Focused(s, t);
      AcquireLocal(s, t, o, x, s');
      LocalKeeps(s, s', t, None, None);
    } else {
      match x
      case Job(_, _, _, _) => JobKept(s, t, o, x, s');
      case Allocating(_, _) =>
        Focused(s, t);
        AllocatingLocal(s, t, o, x, s');
        LocalKeeps(s, s', t, None, None);
      case Reserving(_, _, _) => ReservingKept(s, t, x, s');
      case Cleaning(_, _, _, _) => CleaningKept(s, t, o, x, s');
      case Reading =>
        Focused(s, t);
        ReadingLocal(s, t, x, s');
        LocalKeeps(s, s', t, None, None);
      case Deleting(_) => DeletingKept(s, t, x, s');
      case Draining => DrainingKept(s, t, o, x, s');
      case _ => OwnerKept(s, t, o, x, s');
    }
  }

  lemma AbortKept(s: State, t: Tid, left: bool, x: Task, s': State)
    requires Structure(s) && t in s.tasks && s.tasks[t] == x && Abortable(x)
    requires s' == AbortStep(s, t, left, x)
    ensures Structure(s')
  {
    Focused(s, t);
    if ArmedId(x).Some? { AbortArmedLocal(s, t, left, x, s'); }
    else { AbortPlainLocal(s, t, left, x, s'); }
    LocalKeeps(s, s', t, None, None);
  }

  lemma PanicLocal(s: State, t: Tid, left: bool, x: Task, s': State)
    requires Focus(s, t, x) && x.Job?
    requires s' == PanicStep(s, t, left, x)
    ensures LocalOk(s, s', t, None, if x.stage.CopyRootfs? && left then Some(Rootfs(x.id)) else None)
  {
  }

  lemma PanicKept(s: State, t: Tid, left: bool, x: Task, s': State)
    requires Structure(s) && t in s.tasks && s.tasks[t] == x && x.Job?
    requires s' == PanicStep(s, t, left, x)
    ensures Structure(s')
  {
    Focused(s, t);
    PanicLocal(s, t, left, x, s');
    LocalKeeps(s, s', t, None, if x.stage.CopyRootfs? && left then Some(Rootfs(x.id)) else None);
  }

  /** A new task that holds no lock and no placeholder; it may carry an id never drawn before. */
  ghost predicate Admissible(s: State, y: Task) {
    || y.WantDelete? || y.WantRead? || (y.WantDrain? && s.stopping)
    || (y.Job? && y.stage.CopyRootfs? && y.id !in s.ids && ConfigOk(y.cfg))
  }

  function Spawned(s: State, t: Tid, y: Task): State {
    Put(if y.Job? then s.(ids := s.ids + {y.id}) else s, t, y)
  }

  lemma SpawnTasks(s: State, t: Tid, y: Task)
    requires Structure(s) && t !in s.tasks && Admissible(s, y)
    ensures Shapes(Spawned(s, t, y)) && Configs(Spawned(s, t, y)) && Placeholders(Spawned(s, t, y))
  {
    var s' := Spawned(s, t, y);
    forall u | u in s'.tasks
      ensures ShapeOk(s'.tasks[u]) && PlaceholderOk(s', s'.tasks[u])
    {
      if u != t { assert PlaceholderOk(s, s.tasks[u]); }
    }
  }

  lemma SpawnLocks(s: State, t: Tid, y: Task)
    requires Structure(s) && t !in s.tasks && Admissible(s, y)
    ensures Locks(Spawned(s, t, y)) && Host(Spawned(s, t, y)) && WithinCapacity(Spawned(s, t, y))
  {
  }

  lemma SpawnIds(s: State, t: Tid, y: Task)
    requires Ids(s) && t !in s.tasks && Admissible(s, y)
    ensures Ids(Spawned(s, t, y))
  {
    var s' := Spawned(s, t, y);
    forall u | u in s'.tasks && CreateId(s'.tasks[u]).Some?
      ensures CreateId(s'.tasks[u]).value in s'.ids
    {
      if u != t { assert s'.tasks[u] == s.tasks[u]; }
    }
    forall u, v | u in s'.tasks && v in s'.tasks && u != v && CreateId(s'.tasks[u]).Some?
      ensures CreateId(s'.tasks[u]) != CreateId(s'.tasks[v])
    {
      if u != t { assert CreateId(s.tasks[u]).value in s.ids; }
      if v != t { assert CreateId(s.tasks[v]).Some? ==> CreateId(s.tasks[v]).value in s.ids; }
    }
  }

  lemma SpawnFresh(s: State, t: Tid, y: Task)
    requires Ids(s) && Fresh(s) && t !in s.tasks && Admissible(s, y)
    ensures Fresh(Spawned(s, t, y))
  {
    var s' := Spawned(s, t, y);
    forall u | u in s'.tasks
      ensures Future(s'.tasks[u]) !! s'.world
      ensures BeforeInsert(s'.tasks[u]) ==> s'.tasks[u].id !in s'.vms
    {
      if u != t { assert Future(s.tasks[u]) !! s.world; }
    }
  }

  lemma SpawnKept(s: State, t: Tid, y: Task)
    requires Structure(s) && t !in s.tasks && Admissible(s, y)
    ensures Structure(Spawned(s, t, y))
  {
    SpawnTasks(s, t, y);
    SpawnLocks(s, t, y);
    SpawnIds(s, t, y);
    SpawnFresh(s, t, y);
  }

  /** A shutdown request only weakens what placeholders promise. */
  lemma StopKept(s: State)
    requires Structure(s)
    ensures Structure(s.(stopping := true))
  {
    var s' := s.(stopping := true);
    forall t | t in s'.tasks
      ensures PlaceholderOk(s', s'.tasks[t])
    {
      assert PlaceholderOk(s, s.tasks[t]);
    }
  }

  lemma CrashKept(s: State, kept: set<Resource>, s': State)
    requires Structure(s) && Next(s, Crash(kept), s')
    ensures Structure(s')
  {
    assert Vcpus(s'.vms) == map[] && Memory(s'.vms) == map[];
  }

  /** Every action of every interleaving keeps the invariant. */
  lemma StructureKept(s: State, a: Action, s': State)
    requires Structure(s) && Next(s, a, s')
    ensures Structure(s')
  {
    match a
    case Run(t, o) => RunKept(s, t, o, s.tasks[t], s');
    case Abort(t, left) => AbortKept(s, t, left, s.tasks[t], s');
    case JobPanic(t, left) => PanicKept(s, t, left, s.tasks[t], s');
    case Crash(kept) => CrashKept(s, kept, s');
    case SpawnCreate(t, id, vcpus, memoryMb, keys) =>
      var r := ValidateVmConfig(vcpus, memoryMb);
      if r.Ok? { SpawnKept(s, t, Job(id, Config(r.value.0, r.value.1, keys), CopyRootfs, true)); }
    case SpawnDelete(t, id) => SpawnKept(s, t, WantDelete(id));
    case SpawnRead(t) => SpawnKept(s, t, WantRead);
    case SpawnShutdown(t) =>
      StopKept(s);
      SpawnKept(s.(stopping := true), t, WantDrain);
  }

  lemma InitStructure(cap: Capacity)
    ensures Structure(Init(cap))
  {
    var s := Init(cap);
    assert Vcpus(s.vms) == map[] && Memory(s.vms) == map[];
  }
}
