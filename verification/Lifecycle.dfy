/**
  The VM lifecycle (src/handlers/vm.rs, src/firecracker/network.rs, src/main.rs, src/app.rs) as a
  transition system: any number of handler tasks, each with a program counter, interleaved over
  the two locks `vms` and `subnet_pool` and over the host.

  A step is one lock acquisition, one region between two awaits under a lock, or one host command.
  What a host command returns is part of the action, so every outcome is covered.
 */
module Lifecycle {
  import opened Prelude
  import opened Sums
  import opened VmConfig
  import Pool = SubnetPools

  type Id = nat
  type Tid = nat

  // ── Resources ──

  /** Everything that outlives a step: pool slots, host network state, files and processes. */
  datatype Resource =
    | Slot(index: nat)                   // subnet index marked used
    | Tap(index: nat)                    // tap device fc{index}
    | Post(handle: nat, index: nat)      // masquerade rule for the guest address of `index`
    | Filter(handle: nat, index: nat)    // forward rule for the tap of `index`
    | Rootfs(id: Id)                     // per-VM rootfs copy
    | Vmm(id: Id)                        // Firecracker process and jailer workspace

  datatype Net = Net(index: nat, post: nat, filter: nat)

  datatype Config = Config(vcpus: u8, memoryMb: u32, sshKeys: seq<string>)

  datatype Entry = Creating(cfg: Config, net: Net) | Running(cfg: Config, net: Net)

  // ── Tasks ──

  /** Where a `spawn_blocking` job of create stands. */
  datatype Stage =
    | CopyRootfs
    | TapAdd(index: nat)                 // ip tuntap add
    | TapAddr(index: nat)                // ip addr add
    | TapUp(index: nat)                  // ip link set up
    | PostAdd(index: nat)                // nft add rule ... postrouting
    | FilterAdd(index: nat, post: nat)   // nft add rule ... filter
    | Undo(index: nat, todo: seq<Resource>)

  /** What a teardown returns to. */
  datatype Cont = Return | Armed(id: Id) | Drain

  datatype Task =
    // create, up to the placeholder
    | Job(id: Id, cfg: Config, stage: Stage, attached: bool)
    | WantSubnet(id: Id, cfg: Config)
    | Allocating(id: Id, cfg: Config)
    | WantReserve(id: Id, cfg: Config, net: Net)
    | Reserving(id: Id, cfg: Config, net: Net)
    // create, with the placeholder inserted and the guard armed
    | Booting(id: Id, cfg: Config, net: Net, started: bool)
    | WantAbandon(id: Id, cfg: Config, net: Net)
    | Abandoning(id: Id, cfg: Config, net: Net)
    | WantUpgrade(id: Id, cfg: Config, net: Net)
    | Upgrading(id: Id, cfg: Config, net: Net)
    // CreateGuard::drop
    | WantGuard(id: Id)
    | Guarding(id: Id, todo: seq<Resource>)
    // a straight-line teardown: dispose of `todo` in order
    | Cleaning(todo: seq<Resource>, pool: bool, vms: bool, cont: Cont)
    // delete, list/get, shutdown
    | WantDelete(id: Id)
    | Deleting(id: Id)
    | WantRead
    | Reading
    | WantDrain
    | Draining

  datatype State = State(
    cap: Capacity,
    vms: map<Id, Entry>,
    vmsLock: Option<Tid>,
    used: set<nat>,              // the pool
    poolLock: Option<Tid>,
    tasks: map<Tid, Task>,
    world: set<Resource>,        // the host
    ids: set<Id>,                // every id ever drawn
    stopping: bool               // a shutdown has been requested
  )

  /** What the host, the allocator of nft handles and the map iterator answer. */
  datatype Outcome = Outcome(ok: bool, parsed: bool, left: bool, handle: nat, pick: Id)

  datatype Action =
    | SpawnCreate(t: Tid, id: Id, vcpus: Option<u8>, memoryMb: Option<u32>, sshKeys: seq<string>)
    | SpawnDelete(t: Tid, id: Id)
    | SpawnRead(t: Tid)
    | SpawnShutdown(t: Tid)
    | Run(t: Tid, o: Outcome)
    | Abort(t: Tid, left: bool)          // the handler future is dropped or unwinds
    | JobPanic(t: Tid, left: bool)       // a blocking job unwinds
    | Crash(kept: set<Resource>)         // the process dies, restarts, and cleanup leaves `kept`

  // ── Capacity ──

  ghost function Vcpus(vms: map<Id, Entry>): map<Id, nat> {
    map id | id in vms :: vms[id].cfg.vcpus
  }

  ghost function Memory(vms: map<Id, Entry>): map<Id, nat> {
    map id | id in vms :: vms[id].cfg.memoryMb
  }

  datatype Verdict = Admitted | RefusedVcpus(available: nat) | RefusedMemory(available: nat)

  /** The capacity test of create, on the sums over all entries. */
  function Admit(cap: Capacity, vcpus: nat, memoryMb: nat, cfg: Config): Verdict {
    var availableVcpus := SaturatingSub(cap.vcpus, vcpus);
    var availableMemory := SaturatingSub(cap.AllocatableMemoryMb(), memoryMb);
    if cfg.vcpus > availableVcpus then RefusedVcpus(availableVcpus)
    else if cfg.memoryMb > availableMemory then RefusedMemory(availableMemory)
    else Admitted
  }

  /** The request fits beside all entries of the map. */
  ghost predicate Admits(s: State, cfg: Config) {
    Admit(s.cap, Total(Vcpus(s.vms)), Total(Memory(s.vms)), cfg).Admitted?
  }

  // ── State updates ──

  function Put(s: State, t: Tid, x: Task): State { s.(tasks := s.tasks[t := x]) }

  function End(s: State, t: Tid): State { s.(tasks := s.tasks - {t}) }

  function Emit(s: State, r: Resource): State { s.(world := s.world + {r}) }

  predicate SameRule(r: Resource, x: Resource) {
    (r.Post? && x.Post? && r.handle == x.handle) || (r.Filter? && x.Filter? && r.handle == x.handle)
  }

  /** A disposal that succeeded; nft deletes a rule by its chain and handle. */
  function Erase(s: State, r: Resource): State {
    s.(world := set x | x in s.world && x != r && !SameRule(r, x))
  }

  function Dispose(s: State, r: Resource, ok: bool): State {
    if ok then Erase(s, r) else s
  }

  function Unlock(s: State, t: Tid): State {
    s.(vmsLock := if s.vmsLock == Some(t) then None else s.vmsLock,
       poolLock := if s.poolLock == Some(t) then None else s.poolLock)
  }

  predicate FreshHandle(world: set<Resource>, h: nat) {
    forall r :: r in world ==> !SameRule(Post(h, 0), r) && !SameRule(Filter(h, 0), r)
  }

  // ── Teardown lists, in the order of the source ──

  function EntryTodo(id: Id, e: Entry): seq<Resource> {
    var rest := [Tap(e.net.index), Post(e.net.post, e.net.index), Filter(e.net.filter, e.net.index),
                 Slot(e.net.index), Rootfs(id)];
    if e.Running? then [Vmm(id)] + rest else rest
  }

  function RefusalTodo(net: Net): seq<Resource> {
    [Post(net.post, net.index), Filter(net.filter, net.index), Tap(net.index), Slot(net.index)]
  }

  // ── Steps ──

  function JobFailed(s: State, t: Tid, index: nat, attached: bool): State {
    if attached then Put(s, t, Cleaning([Slot(index)], false, false, Return)) else End(s, t)
  }

  function JobStep(s: State, t: Tid, o: Outcome, j: Task): Option<State>
    requires j.Job?
  {
    match j.stage
    case CopyRootfs =>
      if o.ok then
        var s1 := Emit(s, Rootfs(j.id));
        Some(if j.attached then Put(s1, t, WantSubnet(j.id, j.cfg)) else End(s1, t))
      else
        Some(End(if o.left then Emit(s, Rootfs(j.id)) else s, t))
    case TapAdd(i) =>
      if !o.ok then Some(JobFailed(s, t, i, j.attached))
      else if Tap(i) in s.world then None
      else Some(Put(Emit(s, Tap(i)), t, j.(stage := TapAddr(i))))
    case TapAddr(i) =>
      Some(Put(s, t, j.(stage := if o.ok then TapUp(i) else Undo(i, [Tap(i)]))))
    case TapUp(i) =>
      Some(Put(s, t, j.(stage := if o.ok then PostAdd(i) else Undo(i, [Tap(i)]))))
    case PostAdd(i) =>
      if !o.ok then Some(Put(s, t, j.(stage := Undo(i, [Tap(i)]))))
      else if !FreshHandle(s.world, o.handle) then None
      else
        var s1 := Emit(s, Post(o.handle, i));
        Some(Put(s1, t, j.(stage := if o.parsed then FilterAdd(i, o.handle) else Undo(i, [Tap(i)]))))
    case FilterAdd(i, p) =>
      if !o.ok then Some(Put(s, t, j.(stage := Undo(i, [Post(p, i), Tap(i)]))))
      else if !FreshHandle(s.world, o.handle) then None
      else
        var s1 := Emit(s, Filter(o.handle, i));
        if !o.parsed then Some(Put(s1, t, j.(stage := Undo(i, [Tap(i)]))))
        else if j.attached then Some(Put(s1, t, WantReserve(j.id, j.cfg, Net(i, p, o.handle))))
        else Some(End(s1, t))
    case Undo(i, todo) =>
      if todo == [] then Some(JobFailed(s, t, i, j.attached))
      else Some(Put(Dispose(s, todo[0], o.ok), t, j.(stage := Undo(i, todo[1..]))))
  }

  ghost function ReserveStep(s: State, t: Tid, x: Task): State
    requires x.Reserving?
  {
    match Admit(s.cap, Total(Vcpus(s.vms)), Total(Memory(s.vms)), x.cfg)
    case Admitted =>
      Put(Unlock(s.(vms := s.vms[x.id := Creating(x.cfg, x.net)]), t), t, Booting(x.id, x.cfg, x.net, false))
    case _ =>
      Put(s, t, Cleaning(RefusalTodo(x.net), false, true, Return))
  }

  function BootStep(s: State, t: Tid, o: Outcome, x: Task): State
    requires x.Booting?
  {
    if !x.started then
      if o.ok then Put(Emit(s, Vmm(x.id)), t, x.(started := true))
      else Put(s, t, WantAbandon(x.id, x.cfg, x.net))
    else if o.ok then Put(s, t, WantUpgrade(x.id, x.cfg, x.net))
    else Put(Dispose(s, Vmm(x.id), !o.left), t, WantAbandon(x.id, x.cfg, x.net))
  }

  function AbandonStep(s: State, t: Tid, x: Task): State
    requires x.Abandoning?
  {
    if x.id in s.vms then
      Put(s.(vms := s.vms - {x.id}), t, Cleaning(EntryTodo(x.id, s.vms[x.id]), false, true, Armed(x.id)))
    else
      End(Unlock(s, t), t)
  }

  function UpgradeStep(s: State, t: Tid, o: Outcome, x: Task): State
    requires x.Upgrading?
  {
    var s1 := End(Unlock(s, t), t);
    if x.id in s.vms && s.vms[x.id].Creating? then
      s1.(vms := s.vms[x.id := Running(s.vms[x.id].cfg, s.vms[x.id].net)])
    else
      Dispose(s1.(vms := s.vms - {x.id}), Vmm(x.id), !o.left)
  }

  function GuardStep(s: State, t: Tid, o: Outcome, x: Task): Option<State>
    requires x.Guarding?
  {
    if x.todo == [] then Some(End(Unlock(s.(vms := s.vms - {x.id}), t), t))
    else
      var next := Guarding(x.id, x.todo[1..]);
      if x.todo[0].Slot? then
        if !o.ok then Some(Put(s, t, next))
        else if s.poolLock.Some? then None
        else Some(Put(s.(used := s.used - {x.todo[0].index}), t, next))
      else Some(Put(Dispose(s, x.todo[0], o.ok), t, next))
  }

  function CleanStep(s: State, t: Tid, o: Outcome, x: Task): Option<State>
    requires x.Cleaning?
  {
    if x.todo == [] then
      Some(if x.cont.Drain? then Put(s, t, Draining) else End(Unlock(s, t), t))
    else if x.todo[0].Slot? then
      if x.pool then
        Some(Put(s.(used := s.used - {x.todo[0].index}, poolLock := None), t, x.(todo := x.todo[1..], pool := false)))
      else if s.poolLock.Some? then None
      else Some(Put(s.(poolLock := Some(t)), t, x.(pool := true)))
    else Some(Put(Dispose(s, x.todo[0], o.ok), t, x.(todo := x.todo[1..])))
  }

  function DeleteStep(s: State, t: Tid, x: Task): State
    requires x.Deleting?
  {
    if x.id in s.vms && s.vms[x.id].Running? then
      Put(s.(vms := s.vms - {x.id}), t, Cleaning(EntryTodo(x.id, s.vms[x.id]), false, true, Return))
    else
      End(Unlock(s, t), t)   // not found, or put back because it is still being created
  }

  function DrainStep(s: State, t: Tid, o: Outcome): Option<State>
  {
    if s.vms == map[] then Some(End(Unlock(s, t), t))
    else if o.pick in s.vms then
      Some(Put(s.(vms := s.vms - {o.pick}), t, Cleaning(EntryTodo(o.pick, s.vms[o.pick]), false, true, Drain)))
    else None
  }

  /** What follows `state.vms.lock().await`, `state.subnet_pool.lock().await` or a successful `try_lock`. */
  function Acquired(s: State, x: Task): Option<Task> {
    match x
    case WantSubnet(id, cfg) => Some(Allocating(id, cfg))
    case WantReserve(id, cfg, net) => Some(Reserving(id, cfg, net))
    case WantAbandon(id, cfg, net) => Some(Abandoning(id, cfg, net))
    case WantUpgrade(id, cfg, net) => Some(Upgrading(id, cfg, net))
    case WantGuard(id) =>
      Some(Guarding(id, if id in s.vms && s.vms[id].Creating? then EntryTodo(id, s.vms[id]) else []))
    case WantDelete(id) => Some(Deleting(id))
    case WantRead => Some(Reading)
    case WantDrain => Some(Draining)
    case _ => None
  }

  function AcquireStep(s: State, t: Tid, o: Outcome, x: Task): Option<State>
    requires Acquired(s, x).Some?
  {
    var next := Acquired(s, x).value;
    if x.WantGuard? && !o.ok then Some(End(s, t))   // try_lock failed: the placeholder stays
    else if x.WantSubnet? then
      if s.poolLock.Some? then None else Some(Put(s.(poolLock := Some(t)), t, next))
    else
      if s.vmsLock.Some? then None else Some(Put(s.(vmsLock := Some(t)), t, next))
  }

  ghost function RunStep(s: State, t: Tid, o: Outcome, x: Task): Option<State>
  {
    if Acquired(s, x).Some? then AcquireStep(s, t, o, x)
    else
      match x
      case Job(_, _, _, _) => JobStep(s, t, o, x)
      case Allocating(id, cfg) =>
        (match Pool.FirstFree(s.used)
         case None => Some(End(Unlock(s, t), t))
         case Some(i) => Some(Put(Unlock(s.(used := s.used + {i}), t), t, Job(id, cfg, TapAdd(i), true))))
      case Reserving(_, _, _) => Some(ReserveStep(s, t, x))
      case Booting(_, _, _, _) => Some(BootStep(s, t, o, x))
      case Abandoning(_, _, _) => Some(AbandonStep(s, t, x))
      case Upgrading(_, _, _) => Some(UpgradeStep(s, t, o, x))
      case Guarding(_, _) => GuardStep(s, t, o, x)
      case Cleaning(_, _, _, _) => CleanStep(s, t, o, x)
      case Deleting(_) => Some(DeleteStep(s, t, x))
      case Reading => Some(End(Unlock(s, t), t))
      case Draining => DrainStep(s, t, o)
      case _ => None
  }

  /** Futures that can be dropped or unwind; a detached job, the guard itself and main cannot. */
  predicate Abortable(x: Task) {
    match x
    case Job(_, _, _, attached) => attached
    case WantGuard(_) => false
    case Guarding(_, _) => false
    case Cleaning(_, _, _, cont) => !cont.Drain?
    case WantDrain => false
    case Draining => false
    case _ => true
  }

  /** The id whose CreateGuard is armed. */
  function ArmedId(x: Task): Option<Id> {
    match x
    case Booting(id, _, _, _) => Some(id)
    case WantAbandon(id, _, _) => Some(id)
    case Abandoning(id, _, _) => Some(id)
    case WantUpgrade(id, _, _) => Some(id)
    case Upgrading(id, _, _) => Some(id)
    case Cleaning(_, _, _, Armed(id)) => Some(id)
    case _ => None
  }

  /** The SDK instance the task owns; dropping it ends the VMM. */
  function InstanceOf(x: Task): Option<Id> {
    match x
    case Booting(id, _, _, true) => Some(id)
    case WantUpgrade(id, _, _) => Some(id)
    case Upgrading(id, _, _) => Some(id)
    case Cleaning(todo, _, _, _) => if todo != [] && todo[0].Vmm? then Some(todo[0].id) else None
    case _ => None
  }

  function AbortStep(s: State, t: Tid, left: bool, x: Task): State {
    if x.Job? then Put(s, t, x.(attached := false))
    else
      var s1 := Unlock(if InstanceOf(x).Some? then Dispose(s, Vmm(InstanceOf(x).value), !left) else s, t);
      if ArmedId(x).Some? then Put(s1, t, WantGuard(ArmedId(x).value)) else End(s1, t)
  }

  function PanicStep(s: State, t: Tid, left: bool, x: Task): State
    requires x.Job?
  {
    End(if x.stage.CopyRootfs? && left then Emit(s, Rootfs(x.id)) else s, t)
  }

  ghost function Exec(s: State, a: Action): Option<State> {
    match a
    case SpawnCreate(t, id, vcpus, memoryMb, keys) =>
      if t in s.tasks || id in s.ids then None
      else
        (match ValidateVmConfig(vcpus, memoryMb)
         case Err(_) => Some(s)
         case Ok(p) => Some(Put(s.(ids := s.ids + {id}), t, Job(id, Config(p.0, p.1, keys), CopyRootfs, true))))
    case SpawnDelete(t, id) => if t in s.tasks then None else Some(Put(s, t, WantDelete(id)))
    case SpawnRead(t) => if t in s.tasks then None else Some(Put(s, t, WantRead))
    case SpawnShutdown(t) => if t in s.tasks then None else Some(Put(s.(stopping := true), t, WantDrain))
    case Run(t, o) => if t in s.tasks then RunStep(s, t, o, s.tasks[t]) else None
    case Abort(t, left) =>
      if t in s.tasks && Abortable(s.tasks[t]) then Some(AbortStep(s, t, left, s.tasks[t])) else None
    case JobPanic(t, left) =>
      if t in s.tasks && s.tasks[t].Job? then
        Some(PanicStep(s, t, left, s.tasks[t]))
      else None
    case Crash(kept) =>
      if kept <= s.world then Some(Init(s.cap).(world := kept, ids := s.ids)) else None
  }

  function Init(cap: Capacity): State {
    State(cap, map[], None, {}, None, map[], {}, {}, false)
  }

  ghost predicate Next(s: State, a: Action, s': State) {
    Exec(s, a) == Some(s')
  }
}
