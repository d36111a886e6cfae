/** What the invariant gives for the VMs in the map: stable placeholders, bounds, disjoint networks. */
module LiveVms {
  import opened Prelude
  import opened Sums
  import opened VmConfig
  import opened Lifecycle
  import opened Ownership
  import opened Invariant
  import opened Conservation
  import opened Exactness
  import opened Refinement
  import Pool = SubnetPools

  // ── Placeholders ──

  /** A create task and its guard change no entry but their own. */
  lemma OwnEntryOnly(s: State, t: Tid, o: Outcome, x: Task, s': State, id: Id)
    requires x.Reserving? || x.Upgrading? || x.Abandoning? || x.Guarding?
    requires RunStep(s, t, o, x) == Some(s') && id in s.vms && id != x.id
    ensures id in s'.vms && s'.vms[id] == s.vms[id]
  {
  }

  /** Only the inserting create, through its guard too, or the shutdown drain changes a Creating entry. */
  lemma PlaceholderStable(s: State, t: Tid, o: Outcome, s': State, id: Id)
    requires Next(s, Run(t, o), s') && id in s.vms && s.vms[id].Creating?
    requires id !in s'.vms || s'.vms[id] != s.vms[id]
    ensures CreateId(s.tasks[t]) == Some(id) || s.tasks[t].Draining?
  {
    var x := s.tasks[t];
    if !Books(x) { QuietRun(s, t, o, x, s'); }
    else if !x.Deleting? && !x.Draining? && id != x.id { OwnEntryOnly(s, t, o, x, s', id); }
  }

  /**
    The upgrade finds exactly what its task inserted and makes it Running. Only a shutdown can have
    taken the entry, and then the map is left alone and the instance is dropped.
   */
  lemma UpgradeOutcome(s: State, t: Tid, o: Outcome, x: Task, s': State)
    requires Good(s) && t in s.tasks && s.tasks[t] == x && x.Upgrading?
    requires Next(s, Run(t, o), s')
    ensures !s.stopping ==> x.id in s.vms
    ensures x.id in s.vms ==> s.vms[x.id] == Creating(x.cfg, x.net) && s'.vms == s.vms[x.id := Running(x.cfg, x.net)]
    ensures x.id !in s.vms ==> s'.vms == s.vms && s'.used == s.used && (!o.left ==> s'.world == s.world - {Vmm(x.id)})
  {
    assert PlaceholderOk(s, x) && Placeholder(s, x.id, x.cfg, x.net);
    assert s' == UpgradeStep(s, t, o, x);
    if x.id !in s.vms { InstanceDropped(s, t, o, x); }
  }

  lemma InstanceDropped(s: State, t: Tid, o: Outcome, x: Task)
    requires Good(s) && t in s.tasks && s.tasks[t] == x && x.Upgrading? && x.id !in s.vms
    ensures var s' := UpgradeStep(s, t, o, x);
            s'.vms == s.vms && s'.used == s.used && (!o.left ==> s'.world == s.world - {Vmm(x.id)})
  {
    MineIs(s, t, None);
    EraseHeld(s, Vmm(x.id));
    assert s.vms - {x.id} == s.vms;
  }

  /**
    A request that is dropped, or unwinds, with a VMM in its hands takes the VMM down, if dropping the
    instance works: it is neither held nor leaked afterwards.
   */
  lemma DroppedVmmEnds(s: State, t: Tid, id: Id, s': State)
    requires Good(s) && Next(s, Abort(t, false), s') && Vmm(id) in TaskHolds(s.tasks[t])
    ensures s'.world == s.world - {Vmm(id)} && !Leaked(s', Vmm(id)) && forall p :: Vmm(id) !in HoldsAt(s', p)
  {
    StepKeeps(s, Abort(t, false), s');
    VmmIsInstance(s.tasks[t], id);
    MineIs(s, t, None);
    DroppedWorld(s, t, false, s.tasks[t]);
    GoneIsFree(s', Vmm(id));
  }

  /** The VMM a task holds, other than a guard, is the instance that goes with it. */
  lemma VmmIsInstance(x: Task, id: Id)
    requires ShapeOk(x) && !x.Guarding? && Vmm(id) in TaskHolds(x)
    ensures InstanceOf(x) == Some(id) && !x.Job?
  {
  }

  lemma GoneIsFree(s: State, r: Resource)
    requires Backed(s) && !r.Slot? && r !in s.world
    ensures !Leaked(s, r) && forall p :: r !in HoldsAt(s, p)
  {
    assert !Present(s, r);
  }

  // ── Bounds ──

  lemma AtLeast(m: map<Id, nat>, each: nat)
    requires forall id :: id in m ==> each <= m[id]
    ensures each * |m| <= Total(m)
  {
    var floor := Affine(m, 0, each);
    TotalAffine(m, 0, each);
    TotalDominates(floor, m);
  }

  lemma SameSize(vms: map<Id, Entry>)
    ensures |Vcpus(vms)| == |vms| && |Memory(vms)| == |vms|
  {
    assert Vcpus(vms).Keys == vms.Keys && Memory(vms).Keys == vms.Keys;
    assert |Vcpus(vms)| == |Vcpus(vms).Keys| && |Memory(vms)| == |Memory(vms).Keys| && |vms| == |vms.Keys|;
  }

  /** The map never holds more VMs than the host has cores, nor than 128 MB pieces of memory. */
  lemma Population(s: State)
    requires Good(s)
    ensures |s.vms| <= s.cap.vcpus <= 255
    ensures |s.vms| <= s.cap.AllocatableMemoryMb() / 128
  {
    SameSize(s.vms);
    AtLeast(Vcpus(s.vms), 1);
    AtLeast(Memory(s.vms), 128);
  }

  /**
    In every state of every run with a VM in the map, the memory of all VMs together, each of at least
    128 MB, leaves the host 256 MB of what it has.
   */
  lemma HostKeepsMemory(ss: seq<State>, acts: seq<Action>, k: nat)
    requires IsRun(ss, acts) && Started(ss[0]) && k < |ss| && ss[k].vms != map[]
    ensures 128 * |ss[k].vms| <= Total(Memory(ss[k].vms)) && Total(Memory(ss[k].vms)) + 256 <= ss[k].cap.memoryMb
  {
    RunKeeps(ss, acts, k);
    SameSize(ss[k].vms);
    AtLeast(Memory(ss[k].vms), 128);
    var id :| id in ss[k].vms;
    assert |ss[k].vms| > 0;
  }

  ghost function Quotas(vms: map<Id, Entry>): map<Id, nat> {
    map id | id in vms :: CpuQuota(vms[id].cfg.vcpus)
  }

  ghost function MemoryLimits(vms: map<Id, Entry>): map<Id, nat> {
    map id | id in vms :: MemoryLimitBytes(vms[id].cfg.memoryMb)
  }

  lemma QuotaTotal(vms: map<Id, Entry>)
    ensures Total(Quotas(vms)) == 100_000 * Total(Vcpus(vms))
  {
    TotalAffine(Vcpus(vms), 100_000, 0);
    assert Quotas(vms) == Affine(Vcpus(vms), 100_000, 0);
  }

  lemma LimitTotal(vms: map<Id, Entry>)
    ensures Total(MemoryLimits(vms)) == 0x10_0000 * (Total(Memory(vms)) + 50 * |vms|)
  {
    SameSize(vms);
    TotalAffine(Memory(vms), 0x10_0000, 50 * 0x10_0000);
    assert MemoryLimits(vms) == Affine(Memory(vms), 0x10_0000, 50 * 0x10_0000);
  }

  /** The cgroup limits of all VMs together: the host's cores, and its memory plus 50 MiB a VM. */
  lemma CgroupTotals(s: State)
    requires Good(s)
    ensures Total(Quotas(s.vms)) <= s.cap.vcpus * 100_000
    ensures Total(MemoryLimits(s.vms)) <= (s.cap.AllocatableMemoryMb() + 50 * |s.vms|) * 0x10_0000
  {
    QuotaTotal(s.vms);
    LimitTotal(s.vms);
  }

  // ── Addresses ──

  /**
    While the map can be looked at, the tap and guest addresses of two VMs never coincide, every
    pair lies in its own /30 of 172.16.0.0/16, and the names of their taps differ.
   */
  lemma NetworksDisjoint(s: State, a: Id, b: Id)
    requires Good(s) && s.vmsLock == None && a in s.vms && b in s.vms && a != b
    ensures var i, j := s.vms[a].net.index, s.vms[b].net.index;
            && i < Pool.MAX_SUBNETS && j < Pool.MAX_SUBNETS
            && {Pool.SubnetTapIp(i), Pool.SubnetGuestIp(i)} !! {Pool.SubnetTapIp(j), Pool.SubnetGuestIp(j)}
            && Pool.AddressValue(Pool.SubnetTapIp(i)) / 4 != Pool.AddressValue(Pool.SubnetTapIp(j)) / 4
            && Pool.TapName(i) != Pool.TapName(j)
  {
    EntriesDistinct(s, a, b);
    EntriesDistinct(s, b, a);
    Pool.SubnetGeometry(s.vms[a].net.index, s.vms[b].net.index);
    Pool.SubnetGeometry(s.vms[b].net.index, s.vms[a].net.index);
    Pool.TapNames(s.vms[a].net.index, s.vms[b].net.index);
  }
}
