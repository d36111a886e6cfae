/**
  The bodies of the `vms` lock regions (src/handlers/vm.rs) as methods on the map they mutate.
 */
module VmTables {
  import opened Prelude
  import opened Sums
  import opened VmConfig
  import opened Lifecycle

  datatype DeleteError = NotFound | StillCreating

  class VmTable {
    const cap: Capacity
    var vms: map<Id, Entry>

    /** The machine-arithmetic precondition every reachable map meets. */
    ghost predicate Fits()
      reads this
    {
      Total(Vcpus(vms)) <= cap.vcpus && Total(Memory(vms)) <= cap.AllocatableMemoryMb()
    }

    constructor (cap: Capacity)
      ensures this.cap == cap && vms == map[] && Fits()
    {
      this.cap := cap;
      vms := map[];
      new;
      assert Vcpus(vms) == map[] && Memory(vms) == map[];
    }

    /** Sums the vCPUs of all entries in whatever order the map yields them; the u8 never overflows. */
    method AllocatedVcpus() returns (total: u8)
      requires Fits()
      ensures total == Total(Vcpus(vms))
    {
      total := 0;
      var rest := vms.Keys;
      assert Vcpus(vms) - (vms.Keys - rest) == Vcpus(vms);
      while rest != {}
        invariant rest <= vms.Keys
        invariant total + Total(Vcpus(vms) - (vms.Keys - rest)) == Total(Vcpus(vms))
        decreases rest
      {
        var id :| id in rest;
        ghost var left := Vcpus(vms) - (vms.Keys - rest);
        TotalTakeOut(left, id);
        assert left - {id} == Vcpus(vms) - (vms.Keys - (rest - {id}));
        total := total + vms[id].cfg.vcpus;
        rest := rest - {id};
      }
      assert Vcpus(vms) - (vms.Keys - rest) == map[];
    }

    /** Likewise for memory, in a u64. */
    method AllocatedMemory() returns (total: u64)
      requires Fits()
      ensures total == Total(Memory(vms))
    {
      total := 0;
      var rest := vms.Keys;
      assert Memory(vms) - (vms.Keys - rest) == Memory(vms);
      while rest != {}
        invariant rest <= vms.Keys
        invariant total + Total(Memory(vms) - (vms.Keys - rest)) == Total(Memory(vms))
        decreases rest
      {
        var id :| id in rest;
        ghost var left := Memory(vms) - (vms.Keys - rest);
        TotalTakeOut(left, id);
        assert left - {id} == Memory(vms) - (vms.Keys - (rest - {id}));
        total := total + vms[id].cfg.memoryMb;
        rest := rest - {id};
      }
      assert Memory(vms) - (vms.Keys - rest) == map[];
    }

    /** Capacity check and placeholder, in one lock region. */
    method Reserve(id: Id, cfg: Config, net: Net) returns (verdict: Verdict)
      requires Fits() && id !in vms
      modifies this
      ensures verdict == Admit(cap, old(Total(Vcpus(vms))), old(Total(Memory(vms))), cfg)
      ensures verdict.RefusedVcpus? <==> old(Total(Vcpus(vms))) + cfg.vcpus > cap.vcpus
      ensures verdict.RefusedVcpus? ==> verdict.available == cap.vcpus - old(Total(Vcpus(vms)))
      ensures verdict.RefusedMemory? ==> verdict.available == cap.AllocatableMemoryMb() - old(Total(Memory(vms)))
      ensures verdict.Admitted? <==>
              old(Total(Vcpus(vms))) + cfg.vcpus <= cap.vcpus
              && old(Total(Memory(vms))) + cfg.memoryMb <= cap.AllocatableMemoryMb()
      ensures vms == if verdict.Admitted? then old(vms)[id := Creating(cfg, net)] else old(vms)
      ensures Fits()
    {
      var vcpus := AllocatedVcpus();
      var memory := AllocatedMemory();
      verdict := Admit(cap, vcpus, memory, cfg);
      if verdict.Admitted? {
        assert Vcpus(vms[id := Creating(cfg, net)]) == Vcpus(vms)[id := cfg.vcpus] && Vcpus(vms) - {id} == Vcpus(vms);
        assert Memory(vms[id := Creating(cfg, net)]) == Memory(vms)[id := cfg.memoryMb];
        assert Memory(vms) - {id} == Memory(vms);
        TotalPut(Vcpus(vms), id, cfg.vcpus);
        TotalPut(Memory(vms), id, cfg.memoryMb);
        vms := vms[id := Creating(cfg, net)];
      }
    }

    /** `vms.remove`. */
    method Remove(id: Id) returns (entry: Option<Entry>)
      modifies this
      ensures entry == if id in old(vms) then Some(old(vms)[id]) else None
      ensures vms == old(vms) - {id}
      ensures old(Fits()) ==> Fits()
    {
      assert Vcpus(vms - {id}) == Vcpus(vms) - {id} && Memory(vms - {id}) == Memory(vms) - {id};
      TotalMonotone(Vcpus(vms), {id});
      TotalMonotone(Memory(vms), {id});
      entry := if id in vms then Some(vms[id]) else None;
      vms := vms - {id};
    }

    /** Placeholder to Running, by removing and inserting; false when there was no placeholder. */
    method Promote(id: Id) returns (found: bool)
      modifies this
      ensures found <==> id in old(vms) && old(vms)[id].Creating?
      ensures found ==> vms == old(vms)[id := Running(old(vms)[id].cfg, old(vms)[id].net)]
      ensures !found ==> vms == old(vms) - {id}
      ensures old(Fits()) ==> Fits()
    {
      var entry := Remove(id);
      found := entry.Some? && entry.value.Creating?;
      if found {
        vms := vms[id := Running(entry.value.cfg, entry.value.net)];
        assert vms == old(vms)[id := Running(entry.value.cfg, entry.value.net)];
        assert Vcpus(vms) == old(Vcpus(vms)) && Memory(vms) == old(Memory(vms));
      }
    }

    /** Delete's region: a placeholder is taken out and put back, leaving the map as it was. */
    method TakeRunning(id: Id) returns (r: Result<Entry, DeleteError>)
      modifies this
      ensures match r
              case Ok(e) => id in old(vms) && old(vms)[id] == e && e.Running? && vms == old(vms) - {id}
              case Err(NotFound) => id !in old(vms) && vms == old(vms)
              case Err(StillCreating) => id in old(vms) && old(vms)[id].Creating? && vms == old(vms)
      ensures old(Fits()) ==> Fits()
    {
      var entry := Remove(id);
      if entry.None? {
        assert vms == old(vms);
        return Err(NotFound);
      }
      if entry.value.Creating? {
        vms := vms[id := entry.value];
        assert vms == old(vms);
        return Err(StillCreating);
      }
      return Ok(entry.value);
    }
  }
}
