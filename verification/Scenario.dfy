/**
  Runs that exist: the good case of a create, and one run for each kind of leak, all ending with
  nothing in flight.
 */
module Scenario {
  import opened Prelude
  import opened VmConfig
  import opened Lifecycle
  import opened Ownership
  import opened NetworkSetup
  import opened Solo
  import opened SoloRequests
  import opened SoloCreate
  import Exactness
  import Pool = SubnetPools

  /** A started server that has drawn one id. */
  function Fresh(cap: Capacity, id: Id): State {
    Init(cap).(ids := {id})
  }

  predicate Valid(cfg: Config) {
    ValidVcpus(cfg.vcpus) && ValidMemory(cfg.memoryMb)
  }

  predicate Fits(cap: Capacity, cfg: Config) {
    cfg.vcpus <= cap.vcpus && cfg.memoryMb <= cap.AllocatableMemoryMb()
  }

  const NET: Net := Net(0, 0, 1)

  /** The facts about an empty server that the stages of create ask for. */
  lemma EmptyServer(cap: Capacity, id: Id, cfg: Config)
    ensures Pool.FirstFree(Fresh(cap, id).used) == Some(0) && NewNet(Fresh(cap, id).world, NET)
    ensures Admits(Fresh(cap, id), cfg) <==> Fits(cap, cfg)
  {
    Pool.FirstFreeIs({}, 0);
    assert Vcpus(map[]) == map[] && Memory(map[]) == map[];
  }

  lemma Requested(cap: Capacity, id: Id, cfg: Config)
    requires Valid(cfg)
    ensures Path(Init(cap), Request(Fresh(cap, id), id, cfg), CalmSteps)
  {
    var s := Init(cap);
    var spawn := SpawnCreate(0, id, Some(cfg.vcpus), Some(cfg.memoryMb), cfg.sshKeys);
    var s' := Request(Fresh(cap, id), id, cfg);
    assert s.ids + {id} == {id} && map[][0 := Job(id, cfg, CopyRootfs, true)] == s'.tasks;
    assert Put(s.(ids := s.ids + {id}), 0, Job(id, cfg, CopyRootfs, true)) == s';
    Stay(s, CalmSteps);
    Further(s, s, spawn, s', CalmSteps);
  }

  /**
    On every host with room for it, a valid request can be served: some run of that one create ends
    with nothing in flight and its VM Running.
   */
  lemma CreateCanSucceed(cap: Capacity, id: Id, cfg: Config) returns (s: State)
    requires Valid(cfg) && Fits(cap, cfg)
    ensures Path(Init(cap), s, CalmSteps) && Resting(s)
    ensures s.vms == map[id := Running(cfg, NET)] && s.used == {0}
    ensures s.world == {Rootfs(id), Tap(0), Post(0, 0), Filter(1, 0), Vmm(id)}
  {
    var start := Fresh(cap, id);
    Requested(cap, id, cfg);
    EmptyServer(cap, id, cfg);
    Succeeds(start, id, cfg, NET);
    s := Served(start, id, cfg, NET);
    Join(Init(cap), Request(start, id, cfg), s, CalmSteps, OwnSteps, CalmSteps);
  }

  /** And a shutdown after it takes everything down again. */
  lemma ShutdownCanEmpty(cap: Capacity, id: Id, cfg: Config) returns (s: State)
    requires Valid(cfg) && Fits(cap, cfg)
    ensures Path(Init(cap), s, CalmSteps) && Resting(s) && s.stopping
    ensures s.vms == map[] && s.used == {} && s.world == {}
  {
    var served := CreateCanSucceed(cap, id, cfg);
    var stopping := served.(stopping := true);
    var asked := Doing(stopping, WantDrain, false);
    assert Put(stopping, 0, WantDrain) == asked;
    Further(Init(cap), served, SpawnShutdown(0), asked, CalmSteps);
    Lock(stopping, WantDrain, Draining);
    DrainTurn(asked, stopping, id, {});
    s := Without(stopping, id, served.vms[id], {});
    Emptied(s, served.world, id, cfg);
    DrainEnds(asked, s);
    Join(Init(cap), asked, s, CalmSteps, OwnSteps, CalmSteps);
  }

  lemma Emptied(s: State, world: set<Resource>, id: Id, cfg: Config)
    requires world == {Rootfs(id), Tap(0), Post(0, 0), Filter(1, 0), Vmm(id)}
    requires s.world == world - (EntryHolds(id, Running(cfg, NET)) - {})
    ensures s.world == {}
  {
  }

  // ── Leaks that do happen ──

  lemma HeldByNobody(s: State, r: Resource)
    requires s.tasks == map[] && s.vms == map[] && Present(s, r)
    ensures Leaked(s, r)
  {
  }

  /** A create refused for capacity leaves its rootfs copy, without any panic, cancellation or failed command. */
  lemma RefusalLeavesRootfs(cap: Capacity, id: Id, cfg: Config) returns (s: State)
    requires Valid(cfg) && !Fits(cap, cfg)
    ensures Path(Init(cap), s, CalmSteps) && s.tasks == map[] && s.vms == map[]
    ensures s.used == {} && s.world == {Rootfs(id)} && Leaked(s, Rootfs(id))
  {
    var start := Fresh(cap, id);
    Requested(cap, id, cfg);
    EmptyServer(cap, id, cfg);
    s := Copied(start, id);
    assert s.world == {Rootfs(id)} <= Connected(start, id, NET).world;
    Refused(start, id, cfg, NET, s.world);
    Join(Init(cap), Request(start, id, cfg), s, CalmSteps, OwnSteps, CalmSteps);
    HeldByNobody(s, Rootfs(id));
  }

  /** A create cancelled while its network job runs, whose detached `ip tuntap add` fails, leaves its index used. */
  lemma CancellationLeaksSlot(cap: Capacity, id: Id, cfg: Config) returns (s: State)
    requires Valid(cfg)
    ensures Path(Init(cap), s, AnySteps) && s.tasks == map[] && s.vms == map[]
    ensures s.used == {0} && s.world == {Rootfs(id)} && Leaked(s, Slot(0))
  {
    var start := Fresh(cap, id);
    Requested(cap, id, cfg);
    EmptyServer(cap, id, cfg);
    SoloCreate.Allocates(start, id, cfg, 0);
    s := Allocated(start, id, 0);
    var job := Job(id, cfg, TapAdd(0), true);
    var running, detached := Doing(s, job, false), Doing(s, job.(attached := false), false);
    Join(Init(cap), Request(start, id, cfg), running, CalmSteps, OwnSteps, AnySteps);
    PutAlone(running, job, job.(attached := false));
    Further(Init(cap), running, Abort(0, false), detached, AnySteps);
    assert End(detached, 0) == s;
    Further(Init(cap), detached, Run(0, Answer(false)), s, AnySteps);
    HeldByNobody(s, Slot(0));
  }

  /** A masquerade rule whose handle cannot be read stays on the host while its index becomes free again. */
  lemma UnreadHandleLeavesRule(cap: Capacity, id: Id, cfg: Config) returns (s: State)
    requires Valid(cfg)
    ensures Path(Init(cap), s, CalmSteps) && s.tasks == map[] && s.vms == map[]
    ensures s.used == {} && s.world == {Rootfs(id), Post(0, 0)} && Leaked(s, Post(0, 0))
  {
    var start := Fresh(cap, id);
    var s0, m := Request(start, id, cfg), Tapped(start, id, 0);
    Requested(cap, id, cfg);
    EmptyServer(cap, id, cfg);
    Taps(start, id, cfg, 0);
    var posted := m.(world := {Rootfs(id), Tap(0), Post(0, 0)});
    var unread := Outcome(true, false, false, 0, 0);
    assert m.world + {Post(0, 0)} == posted.world;
    Goes(s0, m, Job(id, cfg, PostAdd(0), true), false, unread, posted, Job(id, cfg, Undo(0, [Tap(0)]), true), false);
    var untapped := posted.(world := {Rootfs(id), Post(0, 0)});
    assert Erase(posted, Tap(0)).world == untapped.world && [Tap(0)][1..] == [];
    Goes(s0, posted, Job(id, cfg, Undo(0, [Tap(0)]), true), false, Answer(true),
         untapped, Job(id, cfg, Undo(0, []), true), false);
    Goes(s0, untapped, Job(id, cfg, Undo(0, []), true), false, Answer(true),
         untapped, Cleaning([Slot(0)], false, false, Return), false);
    ReturnsSlot(s0, untapped, 0);
    s := untapped.(used := untapped.used - {0});
    Join(Init(cap), s0, s, CalmSteps, OwnSteps, CalmSteps);
    HeldByNobody(s, Post(0, 0));
  }

  /** A guard that gets the map but not the pool removes its placeholder and leaves the index used. */
  lemma GuardLeaksSlot(cap: Capacity, id: Id, cfg: Config) returns (s: State)
    requires Valid(cfg) && Fits(cap, cfg)
    ensures Path(Init(cap), s, AnySteps) && s.tasks == map[] && s.vms == map[]
    ensures s.used == {0} && s.world == {} && Leaked(s, Slot(0))
  {
    var start := Fresh(cap, id);
    var m, x := Placed(start, id, cfg, NET), Booting(id, cfg, NET, false);
    Requested(cap, id, cfg);
    EmptyServer(cap, id, cfg);
    SoloCreate.Reserves(start, id, cfg, NET);
    Join(Init(cap), Request(start, id, cfg), Doing(m, x, false), CalmSteps, OwnSteps, AnySteps);
    PutAlone(Doing(m, x, false), x, WantGuard(id));
    Further(Init(cap), Doing(m, x, false), Abort(0, false), Doing(m, WantGuard(id), false), AnySteps);
    GuardRuns(m, id, true, false, {});
    s := Guarded(m, id, true, false, {});
    Join(Init(cap), Doing(m, WantGuard(id), false), s, AnySteps, OwnSteps, AnySteps);
    assert s.vms == map[] && s.world == {};
    HeldByNobody(s, Slot(0));
  }

  /**
    A guard that does not even get the map leaves its placeholder stranded, index, network and
    capacity included; a delete of it changes nothing.
   */
  lemma GuardStrandsPlaceholder(cap: Capacity, id: Id, cfg: Config) returns (s: State)
    requires Valid(cfg) && Fits(cap, cfg)
    ensures Path(Init(cap), s, AnySteps) && s.tasks == map[]
    ensures s.vms == map[id := Creating(cfg, NET)] && s.used == {0}
    ensures Path(Doing(s, WantDelete(id), false), s, OwnSteps)
  {
    var start := Fresh(cap, id);
    s := Placed(start, id, cfg, NET);
    var x := Booting(id, cfg, NET, false);
    Requested(cap, id, cfg);
    EmptyServer(cap, id, cfg);
    SoloCreate.Reserves(start, id, cfg, NET);
    Join(Init(cap), Request(start, id, cfg), Doing(s, x, false), CalmSteps, OwnSteps, AnySteps);
    PutAlone(Doing(s, x, false), x, WantGuard(id));
    Further(Init(cap), Doing(s, x, false), Abort(0, false), Doing(s, WantGuard(id), false), AnySteps);
    GuardRuns(s, id, false, false, {});
    Join(Init(cap), Doing(s, WantGuard(id), false), s, AnySteps, OwnSteps, AnySteps);
    DeleteRefused(s, id);
  }

  /**
    A delete whose `ip link del` fails leaves the tap behind although its index is free, and even the
    next to be handed out: without successful cleanup, taps do outlive their slots.
   */
  lemma FailedDeleteLeavesTap(cap: Capacity, id: Id, cfg: Config) returns (s: State)
    requires Valid(cfg) && Fits(cap, cfg)
    ensures Path(Init(cap), s, CalmSteps) && s.tasks == map[] && s.vms == map[]
    ensures s.world == {Tap(0)} && Leaked(s, Tap(0)) && Pool.FirstFree(s.used) == Some(0)
  {
    var m := CreateCanSucceed(cap, id, cfg);
    var e := m.vms[id];
    RestAfterCalm(cap, m);
    Further(Init(cap), m, SpawnDelete(0, id), Doing(m, WantDelete(id), false), CalmSteps);
    DeleteRuns(m, id, {Tap(0)});
    s := Without(m, id, e, {Tap(0)});
    Join(Init(cap), Doing(m, WantDelete(id), false), s, CalmSteps, OwnSteps, CalmSteps);
    assert s.vms == map[] && s.used == {} && s.world == {Tap(0)};
    Pool.FirstFreeIs({}, 0);
    HeldByNobody(s, Tap(0));
  }

  /**
    A delete that is dropped while it stops the instance has removed the entry and ends the VMM, but
    everything else of the VM stays, owned by nobody.
   */
  lemma CancelledDeleteLeaks(cap: Capacity, id: Id, cfg: Config) returns (s: State)
    requires Valid(cfg) && Fits(cap, cfg)
    ensures Path(Init(cap), s, AnySteps) && s.tasks == map[] && s.vms == map[]
    ensures s.used == {0} && s.world == {Rootfs(id), Tap(0), Post(0, 0), Filter(1, 0)}
    ensures Leaked(s, Slot(0)) && forall r :: r in s.world ==> Leaked(s, r)
  {
    var m := CreateCanSucceed(cap, id, cfg);
    var asked, todo := Doing(m, WantDelete(id), false), EntryTodo(id, m.vms[id]);
    var taken := m.(vms := m.vms - {id});
    var stopping := Doing(taken, Cleaning(todo, false, true, Return), true);
    RestAfterCalm(cap, m);
    Further(Init(cap), m, SpawnDelete(0, id), asked, CalmSteps);
    DeleteTakes(m, id);
    Join(Init(cap), asked, stopping, CalmSteps, OwnSteps, AnySteps);
    s := taken.(world := m.world - {Vmm(id)});
    DropsInstance(taken, id, todo);
    Further(Init(cap), stopping, Abort(0, false), s, AnySteps);
    assert s.vms == map[] && s.world == {Rootfs(id), Tap(0), Post(0, 0), Filter(1, 0)};
    forall r | Present(s, r)
      ensures Leaked(s, r)
    {
      HeldByNobody(s, r);
    }
  }

  lemma DropsInstance(s: State, id: Id, todo: seq<Resource>)
    requires Resting(s) && todo != [] && todo[0] == Vmm(id)
    ensures var x := Cleaning(todo, false, true, Return);
            AbortStep(Doing(s, x, true), 0, false, x) == s.(world := s.world - {Vmm(id)})
  {
    assert Erase(s, Vmm(id)).world == s.world - {Vmm(id)};
  }

  lemma RestAfterCalm(cap: Capacity, s: State)
    requires Path(Init(cap), s, CalmSteps) && s.tasks == map[]
    ensures Resting(s) && HandlesAgree(s.world, s.vms)
  {
    var ss, acts :| Trail(ss, acts, Init(cap), s, CalmSteps);
    Exactness.RunKeeps(ss, acts, |acts|);
    Exactness.RestHoldings(s);
    GoodAgrees(s);
  }
}
