/**
  The handlers of src/handlers/vm.rs and the drain of src/main.rs as straight-line code on the live
  map, pool and host, one request at a time. Each of them does what some run of its task alone does
  in `Lifecycle`, which has the same steps interleaved.
 */
module Handlers {
  import opened Prelude
  import opened Sums
  import opened Lifecycle
  import opened Ownership
  import opened VmConfig
  import opened VmTables
  import opened NetworkSetup
  import opened Solo
  import R = SoloRequests
  import C = SoloCreate
  import Conservation
  import Exactness
  import Pool = SubnetPools

  datatype CreateError = CopyFailed | NoSubnet | NetworkFailed | Insufficient(verdict: Verdict) | SdkFailed

  /**
    How the host answers one create: the copy of the rootfs, and whether a failed one leaves a partial
    file; the network commands; the start of the VMM; and the SDK calls that follow it.
   */
  datatype CreateAnswers = CreateAnswers(copied: bool, partial: bool, net: NetAnswers, started: bool, described: bool)

  /** What a create that fails with `e` leaves on `world`, having tried `net`. */
  function CreateLeft(e: CreateError, a: CreateAnswers, id: Id, net: Net, world: set<Resource>, stuck: set<Resource>)
    : set<Resource>
  {
    match e
    case CopyFailed => if a.partial then {Rootfs(id)} else {}
    case NoSubnet => {Rootfs(id)}
    case NetworkFailed => {Rootfs(id)} + if Tap(net.index) in world then {} else SetUpLeft(a.net, net, stuck)
    case Insufficient(_) => {Rootfs(id)} + (NetParts(net) * stuck)
    case SdkFailed => ({Rootfs(id)} + NetParts(net) + if a.started then {Vmm(id)} else {}) * stuck
  }

  /** No removal fails, no partial copy is left, and every reply to a rule that was added can be read. */
  predicate Faultless(a: CreateAnswers, stuck: set<Resource>) {
    stuck == {} && !a.partial && (a.net.post ==> a.net.postRead) && (a.net.filter ==> a.net.filterRead)
  }

  /** A free index, no tap of its name, and every network command works. */
  ghost predicate Connects(used: set<nat>, world: set<Resource>, a: NetAnswers) {
    var index := Pool.FirstFree(used);
    index.Some? && Tap(index.value) !in world && a.TapWorks() && a.RulesWork()
  }

  /** The request fits beside all entries, as plain sums. */
  ghost predicate HasRoom(cap: Capacity, vms: map<Id, Entry>, cfg: Config) {
    && Total(Vcpus(vms)) + cfg.vcpus <= cap.vcpus
    && Total(Memory(vms)) + cfg.memoryMb <= cap.AllocatableMemoryMb()
  }

  /** What a request without room is told: vCPUs are judged first, and the rest is what is available. */
  ghost function Refusal(cap: Capacity, vms: map<Id, Entry>, cfg: Config): Verdict
    requires Total(Vcpus(vms)) <= cap.vcpus && Total(Memory(vms)) <= cap.AllocatableMemoryMb()
  {
    if Total(Vcpus(vms)) + cfg.vcpus > cap.vcpus then RefusedVcpus(cap.vcpus - Total(Vcpus(vms)))
    else RefusedMemory(cap.AllocatableMemoryMb() - Total(Memory(vms)))
  }

  /** Everything the entries of a map hold. */
  ghost function AllHeld(vms: map<Id, Entry>): set<Resource> {
    set id, r | id in vms && r in EntryHolds(id, vms[id]) :: r
  }

  ghost function Indices(vms: map<Id, Entry>): set<nat> {
    set id | id in vms :: vms[id].net.index
  }

  ghost predicate InPool(vms: map<Id, Entry>) {
    forall id :: id in vms ==> vms[id].net.index < Pool.MAX_SUBNETS
  }

  class Server {
    const table: VmTable
    const pool: Pool.SubnetPool
    const host: NetHost

    ghost predicate Valid()
      reads table, pool, pool.slots, host
    {
      pool.Valid() && host.Valid() && table.Fits() && InPool(table.vms)
    }

    /** The lifecycle state with nothing in flight that map, pool and host make up. */
    ghost function Now(): State
      reads table, pool, pool.slots, host
    {
      R.Idle(table.cap, table.vms, pool.Used(), host.world)
    }

    ghost predicate Agreed()
      reads table, host
    {
      R.HandlesAgree(host.world, table.vms)
    }

    constructor (table: VmTable, pool: Pool.SubnetPool, host: NetHost)
      ensures this.table == table && this.pool == pool && this.host == host
    {
      this.table, this.pool, this.host := table, pool, host;
    }

    /**
      Tears down what an entry holds. The slot is released whatever the commands do, and only after
      every command on the network has been tried.
     */
    method CleanupVmResources(id: Id, e: Entry)
      requires pool.Valid() && host.Valid() && e.net.index < Pool.MAX_SUBNETS
      modifies pool.slots, host`world
      ensures pool.Valid() && host.Valid()
      ensures pool.Used() == old(pool.Used()) - {e.net.index}
      ensures host.world == old(host.world) - (EntryHolds(id, e) - host.stuck)
    {
      if e.Running? { host.Delete(Vmm(id)); }
      host.TearDown(e.net);
      assert NetParts(e.net) * host.world <= host.stuck;   // release last
      pool.Release(e.net.index);
      host.Delete(Rootfs(id));
    }

    /** Removes an entry and tears it down: the SDK failure path, and one turn of the drain. */
    method TakeDown(id: Id)
      requires pool.Valid() && host.Valid() && id in table.vms && table.vms[id].net.index < Pool.MAX_SUBNETS
      modifies table, pool.slots, host`world
      ensures table.vms == old(table.vms) - {id} && (old(table.Fits()) ==> table.Fits())
      ensures pool.Valid() && host.Valid()
      ensures pool.Used() == old(pool.Used()) - {old(table.vms)[id].net.index}
      ensures host.world == old(host.world) - (EntryHolds(id, old(table.vms)[id]) - host.stuck)
      ensures Now() == R.Without(old(Now()), id, old(table.vms)[id], host.stuck)
    {
      var entry := table.Remove(id);
      CleanupVmResources(id, entry.value);
    }

    /** Undoes the network of a create that is refused. */
    method RollBack(net: Net)
      requires pool.Valid() && host.Valid() && net.index < Pool.MAX_SUBNETS
      modifies pool.slots, host`world
      ensures pool.Valid() && host.Valid()
      ensures pool.Used() == old(pool.Used()) - {net.index}
      ensures host.world == old(host.world) - (NetParts(net) - host.stuck)
    {
      host.RemoveNatRules(net);
      host.DeleteTap(net.index);
      pool.Release(net.index);
    }

    /** Deletes a Running VM and everything it holds; any other id changes nothing. */
    method Delete(id: Id) returns (r: Result<(), DeleteError>)
      requires Valid()
      modifies table, pool.slots, host`world
      ensures pool.Valid() && host.Valid()
      ensures r.Ok? <==> id in old(table.vms) && old(table.vms)[id].Running?
      ensures r == Err(NotFound) <==> id !in old(table.vms)
      ensures r.Err? ==> table.vms == old(table.vms) && pool.Used() == old(pool.Used()) && host.world == old(host.world)
      ensures r.Ok? ==> table.vms == old(table.vms) - {id}
                        && pool.Used() == old(pool.Used()) - {old(table.vms)[id].net.index}
                        && host.world == old(host.world) - (EntryHolds(id, old(table.vms)[id]) - host.stuck)
      ensures old(Agreed()) ==> Path(R.Doing(old(Now()), WantDelete(id), false), Now(), OwnSteps)
    {
      ghost var before := Now();
      var taken := table.TakeRunning(id);
      if taken.Err? {
        R.DeleteRefused(before, id);
        return Err(taken.error);
      }
      CleanupVmResources(id, taken.value);
      assert Now() == R.Without(before, id, taken.value, host.stuck);
      if R.HandlesAgree(before.world, before.vms) { R.DeleteRuns(before, id, host.stuck); }
      return Ok(());
    }

    /** The guard's best effort on a placeholder; the slot goes back only if the pool could be locked. */
    method CleanPlaceholder(id: Id, e: Entry, gotPool: bool)
      requires pool.Valid() && host.Valid() && e.Creating? && e.net.index < Pool.MAX_SUBNETS
      modifies pool.slots, host`world
      ensures pool.Valid() && host.Valid()
      ensures pool.Used() == old(pool.Used()) - if gotPool then {e.net.index} else {}
      ensures host.world == old(host.world) - (EntryHolds(id, e) - host.stuck)
    {
      host.TearDown(e.net);
      if gotPool { pool.Release(e.net.index); }
      host.Delete(Rootfs(id));
    }

    /** CreateGuard::drop, with the outcome of its two `try_lock`s. */
    method GuardDrop(id: Id, gotVms: bool, gotPool: bool)
      requires Valid()
      modifies table, pool.slots, host`world
      ensures pool.Valid() && host.Valid()
      ensures !gotVms ==> Now() == old(Now())
      ensures gotVms ==> table.vms == old(table.vms) - {id}
      ensures var torn := gotVms && id in old(table.vms) && old(table.vms)[id].Creating?;
              && pool.Used() == old(pool.Used()) - (if torn && gotPool then {old(table.vms)[id].net.index} else {})
              && host.world == old(host.world)
                               - (if torn then EntryHolds(id, old(table.vms)[id]) - host.stuck else {})
      ensures old(Agreed()) ==> Path(R.Doing(old(Now()), WantGuard(id), false), Now(), OwnSteps)
    {
      ghost var before := Now();
      if R.HandlesAgree(before.world, before.vms) { R.GuardRuns(before, id, gotVms, gotPool, host.stuck); }
      if !gotVms { return; }
      if id in table.vms && table.vms[id].Creating? {
        CleanPlaceholder(id, table.vms[id], gotPool);
      }
      var entry := table.Remove(id);
      assert before.used - {} == before.used;
      assert Now() == R.Guarded(before, id, true, gotPool, host.stuck);
    }

    /** Draining, `s0` being the state in which the drain began. */
    ghost predicate DrainingFrom(s0: State)
      reads table, pool, pool.slots, host
    {
      Agreed() && Path(s0, R.Doing(Now(), Draining, true), OwnSteps)
    }

    /** One turn of the drain: what is not the entries' stays, and the path of the drain goes on. */
    method DrainOne(id: Id, ghost s0: State)
      requires pool.Valid() && host.Valid() && InPool(table.vms) && id in table.vms
      modifies table, pool.slots, host`world
      ensures pool.Valid() && host.Valid() && InPool(table.vms)
      ensures table.vms == old(table.vms) - {id}
      ensures pool.Used() - Indices(table.vms) == old(pool.Used() - Indices(table.vms))
      ensures host.world - (AllHeld(table.vms) - host.stuck) == old(host.world - (AllHeld(table.vms) - host.stuck))
      ensures old(DrainingFrom(s0)) ==> DrainingFrom(s0)
    {
      ghost var before := Now();
      OneLess(table.vms, id);
      TakeDown(id);
      if R.HandlesAgree(before.world, before.vms) && Path(s0, R.Doing(before, Draining, true), OwnSteps) {
        R.DrainTurn(s0, before, id, host.stuck);
        R.FewerAgree(before.world, before.vms, host.world, table.vms);
      }
    }

    /** Takes down every entry, in whatever order the map yields them. */
    method Drain()
      requires Valid()
      modifies table, pool.slots, host`world
      ensures table.vms == map[] && pool.Valid() && host.Valid()
      ensures pool.Used() == old(pool.Used()) - Indices(old(table.vms))
      ensures host.world == old(host.world) - (AllHeld(old(table.vms)) - host.stuck)
      ensures old(Agreed()) ==> Path(R.Doing(old(Now()), WantDrain, false), Now(), OwnSteps)
    {
      ghost var start := R.Doing(Now(), WantDrain, false);
      R.Lock(Now(), WantDrain, Draining);
      while table.vms != map[]
        invariant pool.Valid() && pool.slots == old(pool.slots) && host.Valid() && InPool(table.vms)
        invariant pool.Used() - Indices(table.vms) == old(pool.Used() - Indices(table.vms))
        invariant host.world - (AllHeld(table.vms) - host.stuck) == old(host.world - (AllHeld(table.vms) - host.stuck))
        invariant old(Agreed()) ==> DrainingFrom(start)
        decreases table.vms.Keys
      {
        var id: Id :| id in table.vms;
        DrainOne(id, start);
      }
      assert Indices(map[]) == {} && AllHeld(map[]) == {};
      if DrainingFrom(start) { R.DrainEnds(start, Now()); }
    }

    /** Starts the VMM: nothing, or a process that may fail afterwards and is then dropped. */
    method Boot(id: Id, started: bool, described: bool) returns (ok: bool)
      requires host.Valid() && Vmm(id) !in host.world
      modifies host`world
      ensures host.Valid()
      ensures ok <==> started && described
      ensures host.world == old(host.world) + if ok then {Vmm(id)} else if started then {Vmm(id)} * host.stuck else {}
    {
      if !started { return false; }
      host.Add(Vmm(id));
      ok := described;
      if !ok { host.Delete(Vmm(id)); }
    }

    /** The subnet and the network setup; `net` is what was tried. */
    method Connect(a: NetAnswers) returns (r: Result<Net, CreateError>, ghost net: Net)
      requires pool.Valid() && host.Valid()
      modifies pool.slots, host`world
      ensures pool.Valid() && host.Valid()
      ensures r == if Pool.FirstFree(old(pool.Used())).None? then Err(NoSubnet)
                   else if !Connects(old(pool.Used()), old(host.world), a) then Err(NetworkFailed)
                   else Ok(net)
      ensures Pool.FirstFree(old(pool.Used())).Some? ==> Pool.FirstFree(old(pool.Used())) == Some(net.index)
      ensures Tap(net.index) !in old(host.world) ==> NewNet(old(host.world), net)
      ensures r.Ok? ==> pool.Used() == old(pool.Used()) + {net.index}
                        && NetParts(net) !! old(host.world) && host.world == old(host.world) + NetParts(net)
      ensures r.Err? ==> pool.Used() == old(pool.Used())
      ensures r.Err? && r.error.NoSubnet? ==> host.world == old(host.world)
      ensures r.Err? && r.error.NetworkFailed? ==>
              && host.world == old(host.world)
                               + (if Tap(net.index) in old(host.world) then {} else SetUpLeft(a, net, host.stuck))
              && FailsTo(old(host.world), net.index, host.world)
    {
      var subnet := pool.Allocate();
      if subnet.None? {
        ghost var post := OtherHandle(host.world, 0);
        return Err(NoSubnet), Net(0, post, OtherHandle(host.world, post));
      }
      var index := subnet.value.index;
      var done;
      done, net := host.SetUp(index, a);
      if done.None? {
        pool.Release(index);
        return Err(NetworkFailed), net;
      }
      return Ok(done.value), net;
    }

    /** From the placeholder to the upgrade. */
    method Start(id: Id, cfg: Config, net: Net, started: bool, described: bool) returns (r: Result<(), CreateError>)
      requires pool.Valid() && host.Valid() && table.Fits()
      requires Vmm(id) !in host.world && net.index < Pool.MAX_SUBNETS
      requires id in table.vms && table.vms[id] == Creating(cfg, net)
      modifies table, pool.slots, host`world
      ensures pool.Valid() && host.Valid() && table.Fits()
      ensures r == if started && described then Ok(()) else Err(SdkFailed)
      ensures r.Ok? ==> table.vms == old(table.vms)[id := Running(cfg, net)]
                        && pool.Used() == old(pool.Used()) && host.world == old(host.world) + {Vmm(id)}
      ensures r.Err? ==> table.vms == old(table.vms) - {id} && pool.Used() == old(pool.Used()) - {net.index}
                         && host.world == old(host.world) - (NetParts(net) + {Rootfs(id)} - host.stuck)
                                          + if started then {Vmm(id)} * host.stuck else {}
    {
      var booted := Boot(id, started, described);
      if !booted {
        TakeDown(id);
        return Err(SdkFailed);
      }
      var found := table.Promote(id);
      return Ok(());
    }

    /** From the capacity check to the upgrade, with the rollback of each failure. */
    method Launch(id: Id, cfg: Config, net: Net, started: bool, described: bool) returns (r: Result<(), CreateError>)
      requires Valid() && id !in table.vms && Vmm(id) !in host.world && net.index < Pool.MAX_SUBNETS
      modifies table, pool.slots, host`world
      ensures pool.Valid() && host.Valid() && table.Fits()
      ensures r == if !HasRoom(table.cap, old(table.vms), cfg) then
                     Err(Insufficient(Refusal(table.cap, old(table.vms), cfg)))
                   else if started && described then Ok(()) else Err(SdkFailed)
      ensures r.Ok? ==> table.vms == old(table.vms)[id := Running(cfg, net)]
                        && pool.Used() == old(pool.Used()) && host.world == old(host.world) + {Vmm(id)}
      ensures r.Err? ==> table.vms == old(table.vms) && pool.Used() == old(pool.Used()) - {net.index}
      ensures r.Err? && r.error.Insufficient? ==> host.world == old(host.world) - (NetParts(net) - host.stuck)
      ensures r.Err? && r.error.SdkFailed? ==>
              host.world == old(host.world) - (NetParts(net) + {Rootfs(id)} - host.stuck)
                            + if started then {Vmm(id)} * host.stuck else {}
    {
      PutTake(table.vms, id, Creating(cfg, net), Running(cfg, net));
      var verdict := table.Reserve(id, cfg, net);
      if !verdict.Admitted? {
        RollBack(net);
        return Err(Insufficient(verdict));
      }
      r := Start(id, cfg, net, started, described);
    }

    /** From the network to the end, for a create that started in `before`. */
    method Finish(id: Id, cfg: Config, a: CreateAnswers, net: Net, ghost before: State)
      returns (r: Result<Net, CreateError>)
      requires Valid() && Now() == C.Connected(before, id, net) && R.Resting(before)
      requires Pool.FirstFree(before.used) == Some(net.index) && NewNet(before.world, net)
      requires id !in before.vms && Rootfs(id) !in before.world && Vmm(id) !in before.world
      modifies table, pool.slots, host`world
      ensures pool.Valid() && host.Valid() && table.Fits()
      ensures r == if !HasRoom(table.cap, before.vms, cfg) then
                     Err(Insufficient(Refusal(table.cap, before.vms, cfg)))
                   else if a.started && a.described then Ok(net) else Err(SdkFailed)
      ensures r.Ok? ==> Now() == C.Served(before, id, cfg, net)
      ensures r.Err? ==> table.vms == before.vms && pool.Used() == before.used
                         && host.world == before.world + CreateLeft(r.error, a, id, net, before.world, host.stuck)
      ensures Path(C.Request(before, id, cfg), Now(), OwnSteps)
    {
      assert table.vms == before.vms && table.cap == before.cap;
      var launched := Launch(id, cfg, net, a.started, a.described);
      Restored(before, id, net, host.stuck, if a.started then {Vmm(id)} else {});
      BeforeHasNoSlots(before, id, net, old(host.world));
      if launched.Err? {
        LaunchFailed(before, id, cfg, net, host.world);
        return Err(launched.error);
      }
      C.Succeeds(before, id, cfg, net);
      assert Now() == C.Served(before, id, cfg, net);
      return Ok(net);
    }

    /** From the finished copy to the end, for a create that started in `before`. */
    method Build(id: Id, cfg: Config, a: CreateAnswers, ghost before: State)
      returns (r: Result<Net, CreateError>, ghost net: Net)
      requires Valid() && Now() == C.Copied(before, id) && R.Resting(before)
      requires id !in before.vms && Rootfs(id) !in before.world && Vmm(id) !in before.world
      modifies table, pool.slots, host`world
      ensures Valid()
      ensures r == if Pool.FirstFree(before.used).None? then Err(NoSubnet)
                   else if !Connects(before.used, before.world, a.net) then Err(NetworkFailed)
                   else if !HasRoom(table.cap, before.vms, cfg) then
                     Err(Insufficient(Refusal(table.cap, before.vms, cfg)))
                   else if a.started && a.described then Ok(net) else Err(SdkFailed)
      ensures Pool.FirstFree(before.used).Some? ==> Pool.FirstFree(before.used) == Some(net.index)
      ensures Tap(net.index) !in before.world ==> NewNet(before.world, net)
      ensures r.Ok? ==> Now() == C.Served(before, id, cfg, net) && NetParts(net) !! before.world
      ensures r.Err? ==> table.vms == before.vms && pool.Used() == before.used
                         && host.world == before.world + CreateLeft(r.error, a, id, net, before.world, host.stuck)
      ensures Path(C.Request(before, id, cfg), Now(), OwnSteps)
    {
      assert before.world <= host.world;
      var done;
      done, net := Connect(a.net);
      if done.Err? {
        ConnectFailed(before, id, cfg, host.world);
        assert Now() == before.(world := host.world);
        return Err(done.error), net;
      }
      NewNetBefore(before.world, id, done.value);
      r := Finish(id, cfg, a, done.value, before);
    }

    /** The copy of the rootfs fails, and may leave a partial file. */
    method CopyFails(id: Id, cfg: Config, a: CreateAnswers)
      requires Valid()
      modifies host`world
      ensures Valid() && host.world == old(host.world) + if a.partial then {Rootfs(id)} else {}
      ensures Path(C.Request(old(Now()), id, cfg), Now(), OwnSteps)
    {
      C.CopyFails(Now(), id, cfg, a.partial);
      if a.partial { host.Add(Rootfs(id)); }
      assert old(host.world) + {} == old(host.world);
    }

    /**
      The whole create: which answer it gives, and what it leaves on the host, for every way the host
      can answer. On success the map gains one Running entry, on the least free index, and the host
      and pool gain exactly what that entry holds. On failure map and pool are as before; when
      nothing else goes wrong the host is too, except for the rootfs copy, which stays behind exactly
      when the failure lies between the copy and the placeholder. `net` is the network that was tried.
     */
    method Create(id: Id, cfg: Config, a: CreateAnswers) returns (r: Result<Net, CreateError>, ghost net: Net)
      requires Valid() && id !in table.vms && Rootfs(id) !in host.world && Vmm(id) !in host.world
      modifies table, pool.slots, host`world
      ensures Valid()
      ensures var free, linked := Pool.FirstFree(old(pool.Used())), Connects(old(pool.Used()), old(host.world), a.net);
              var room := HasRoom(table.cap, old(table.vms), cfg);
              && (r == Err(CopyFailed) <==> !a.copied)
              && (r == Err(NoSubnet) <==> a.copied && free.None?)
              && (r == Err(NetworkFailed) <==> a.copied && free.Some? && !linked)
              && (r.Err? && r.error.Insufficient? <==> a.copied && linked && !room)
              && (r == Err(SdkFailed) <==> a.copied && linked && room && !(a.started && a.described))
              && (r.Ok? <==> a.copied && linked && room && a.started && a.described)
      ensures r.Err? && r.error.Insufficient? ==> r.error.verdict == Refusal(table.cap, old(table.vms), cfg)
      ensures r.Ok? ==> r.value == net
      ensures a.copied && Pool.FirstFree(old(pool.Used())).Some? ==>
              && Pool.FirstFree(old(pool.Used())) == Some(net.index)
              && (Tap(net.index) !in old(host.world) ==> NewNet(old(host.world), net))
      ensures r.Ok? ==> table.vms == old(table.vms)[id := Running(cfg, net)]
                        && pool.Used() == old(pool.Used()) + {net.index}
                        && NetParts(net) !! old(host.world)
                        && host.world == old(host.world) + NetParts(net) + {Rootfs(id), Vmm(id)}
      ensures r.Err? ==> table.vms == old(table.vms) && pool.Used() == old(pool.Used())
                         && host.world == old(host.world)
                                          + CreateLeft(r.error, a, id, net, old(host.world), host.stuck)
      ensures r.Err? && Faultless(a, host.stuck) ==>
              host.world == old(host.world) + if r.error.CopyFailed? || r.error.SdkFailed? then {} else {Rootfs(id)}
      ensures Path(C.Request(old(Now()), id, cfg), Now(), OwnSteps)
    {
      ghost var before := Now();
      if !a.copied {
        CopyFails(id, cfg, a);
        return Err(CopyFailed), Net(0, 0, 0);
      }
      host.Add(Rootfs(id));
      r, net := Build(id, cfg, a, before);
      if r.Err? && Faultless(a, host.stuck) { LeavesNoMore(r.error, a, id, net, before.world, host.stuck); }
    }

    /** Creating and then deleting a VM restores map and pool, and the host but for what it refuses to remove. */
    method CreateThenDelete(id: Id, cfg: Config, a: CreateAnswers) returns (created: bool)
      requires Valid() && id !in table.vms && Rootfs(id) !in host.world && Vmm(id) !in host.world
      modifies table, pool.slots, host`world
      ensures created <==> a.copied && Connects(old(pool.Used()), old(host.world), a.net)
                           && HasRoom(table.cap, old(table.vms), cfg) && a.started && a.described
      ensures table.vms == old(table.vms) && pool.Used() == old(pool.Used())
      ensures created && host.stuck == {} ==> host.world == old(host.world)
    {
      ghost var tried;
      var r;
      r, tried := Create(id, cfg, a);
      created := r.Ok?;
      if created {
        PutTake(old(table.vms), id, Running(cfg, r.value), Running(cfg, r.value));
        GiveBack(old(host.world), id, Running(cfg, r.value));
        var d := Delete(id);
      }
    }
  }

  // ── The paths of create ──

  lemma ConnectFailed(s: State, id: Id, cfg: Config, after: set<Resource>)
    requires R.Resting(s) && forall x :: x in s.world ==> !x.Slot?
    requires Pool.FirstFree(s.used).None? ==> after == C.Copied(s, id).world
    requires Pool.FirstFree(s.used).Some? ==>
               FailsTo(C.Copied(s, id).world, Pool.FirstFree(s.used).value, after)
    ensures Path(C.Request(s, id, cfg), s.(world := after), OwnSteps)
  {
    match Pool.FirstFree(s.used)
    case None => C.PoolIsFull(s, id, cfg);
    case Some(i) => C.NetworkFailsTo(s, id, cfg, i, after);
  }

  lemma NewNetBefore(world: set<Resource>, id: Id, net: Net)
    requires NewNet(world + {Rootfs(id)}, net)
    ensures NewNet(world, net)
  {
  }

  lemma LaunchFailed(s: State, id: Id, cfg: Config, net: Net, after: set<Resource>)
    requires R.Resting(s) && Pool.FirstFree(s.used) == Some(net.index) && NewNet(s.world, net)
    requires id !in s.vms && Rootfs(id) !in s.world && Vmm(id) !in s.world && forall x :: x in s.world ==> !x.Slot?
    requires var world := C.Connected(s, id, net).world;
             if Admits(s, cfg) then world - NetParts(net) - {Rootfs(id)} <= after <= world + {Vmm(id)}
             else world - NetParts(net) <= after <= world
    ensures Path(C.Request(s, id, cfg), s.(world := after), OwnSteps)
  {
    if Admits(s, cfg) { C.SdkFails(s, id, cfg, net, after); }
    else { C.Refused(s, id, cfg, net, after); }
  }

  lemma BeforeHasNoSlots(s: State, id: Id, net: Net, world: set<Resource>)
    requires world == s.world + {Rootfs(id)} + NetParts(net) && forall x :: x in world ==> !x.Slot?
    ensures forall x :: x in s.world ==> !x.Slot?
  {
  }

  /** Rolling a create back leaves what the host refuses to remove. */
  lemma Restored(s: State, id: Id, net: Net, stuck: set<Resource>, vmm: set<Resource>)
    requires Pool.FirstFree(s.used) == Some(net.index) && NewNet(s.world, net) && Rootfs(id) !in s.world
    ensures s.used + {net.index} - {net.index} == s.used
    ensures var world := s.world + {Rootfs(id)} + NetParts(net);
            && world - (NetParts(net) - stuck) == s.world + ({Rootfs(id)} + (NetParts(net) * stuck))
            && world - (NetParts(net) + {Rootfs(id)} - stuck) + (vmm * stuck)
               == s.world + (({Rootfs(id)} + NetParts(net) + vmm) * stuck)
  {
  }

  lemma LeavesNoMore(e: CreateError, a: CreateAnswers, id: Id, net: Net, world: set<Resource>, stuck: set<Resource>)
    requires Faultless(a, stuck)
    requires e.NetworkFailed? && Tap(net.index) !in world ==> !(a.net.TapWorks() && a.net.RulesWork())
    ensures CreateLeft(e, a, id, net, world, stuck) == if e.CopyFailed? || e.SdkFailed? then {} else {Rootfs(id)}
  {
  }

  lemma PutTake(vms: map<Id, Entry>, id: Id, e: Entry, f: Entry)
    requires id !in vms
    ensures vms[id := e] - {id} == vms
    ensures vms[id := e][id := f] == vms[id := f]
  {
  }

  lemma GiveBack(world: set<Resource>, id: Id, e: Entry)
    requires e.Running? && NetParts(e.net) !! world && Rootfs(id) !in world && Vmm(id) !in world
    requires forall r :: r in world ==> !r.Slot?
    ensures world + NetParts(e.net) + {Rootfs(id), Vmm(id)} - EntryHolds(id, e) == world
  {
  }

  lemma OneLess(vms: map<Id, Entry>, id: Id)
    requires id in vms
    ensures Indices(vms) == Indices(vms - {id}) + {vms[id].net.index}
    ensures AllHeld(vms) == AllHeld(vms - {id}) + EntryHolds(id, vms[id])
  {
    var rest := vms - {id};
    forall r | r in AllHeld(vms)
      ensures r in AllHeld(rest) + EntryHolds(id, vms[id])
    {
      var k :| k in vms && r in EntryHolds(k, vms[k]);
      assert k != id ==> k in rest && rest[k] == vms[k];
    }
    forall i | i in Indices(vms)
      ensures i in Indices(rest) + {vms[id].net.index}
    {
      var k :| k in vms && vms[k].net.index == i;
      assert k != id ==> k in rest && rest[k] == vms[k];
    }
    forall r | r in AllHeld(rest)
      ensures r in AllHeld(vms)
    {
      var k :| k in rest && r in EntryHolds(k, rest[k]);
      assert k in vms && vms[k] == rest[k];
    }
    forall i | i in Indices(rest)
      ensures i in Indices(vms)
    {
      var k :| k in rest && rest[k].net.index == i;
      assert k in vms && vms[k] == rest[k];
    }
  }

  /**
    A shutdown with nothing in flight: what the drain does not take down, on the host and in the
    pool, is exactly what has leaked.
   */
  lemma DrainLeavesLeaks(s: State, r: Resource, i: nat)
    requires Conservation.Good(s) && s.tasks == map[]
    ensures r in s.world - AllHeld(s.vms) <==> !r.Slot? && Leaked(s, r)
    ensures i in s.used - Indices(s.vms) <==> Leaked(s, Slot(i))
  {
    Exactness.AtRest(s, r);
    Exactness.AtRest(s, Slot(i));
    IndexHeld(s, i);
    assert r.Slot? ==> r !in s.world;
  }

  lemma IndexHeld(s: State, i: nat)
    ensures i in Indices(s.vms) <==> Exactness.SomeEntryHolds(s, Slot(i))
  {
    if Exactness.SomeEntryHolds(s, Slot(i)) {
      var id :| id in s.vms && Slot(i) in EntryHolds(id, s.vms[id]);
      Exactness.EntrySlot(id, s.vms[id], i);
    }
    if i in Indices(s.vms) {
      var id :| id in s.vms && s.vms[id].net.index == i;
      Exactness.EntrySlot(id, s.vms[id], i);
    }
  }

  /** In particular, when nothing has leaked the drain takes everything. */
  lemma DrainTakesAll(s: State)
    requires Conservation.Good(s) && s.tasks == map[] && forall r :: !Leaked(s, r)
    ensures s.world - AllHeld(s.vms) == {} && s.used - Indices(s.vms) == {}
  {
    forall r
      ensures r !in s.world - AllHeld(s.vms)
    {
      DrainLeavesLeaks(s, r, 0);
    }
    forall i: nat
      ensures i !in s.used - Indices(s.vms)
    {
      DrainLeavesLeaks(s, Slot(i), i);
    }
  }
}
