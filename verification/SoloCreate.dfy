/** What a create running alone can do, outcome by outcome. */
module SoloCreate {
  import opened Prelude
  import opened Lifecycle
  import opened Ownership
  import opened NetworkSetup
  import opened Solo
  import opened SoloRequests
  import Pool = SubnetPools

  /** A create that has validated its request and drawn its id. */
  function Request(s: State, id: Id, cfg: Config): State {
    Doing(s, Job(id, cfg, CopyRootfs, true), false)
  }

  function Copied(s: State, id: Id): State {
    s.(world := s.world + {Rootfs(id)})
  }

  function Allocated(s: State, id: Id, i: nat): State {
    Copied(s, id).(used := s.used + {i})
  }

  function Connected(s: State, id: Id, net: Net): State {
    Allocated(s, id, net.index).(world := s.world + {Rootfs(id)} + NetParts(net))
  }

  function Placed(s: State, id: Id, cfg: Config, net: Net): State {
    Connected(s, id, net).(vms := s.vms[id := Creating(cfg, net)])
  }

  function Booted(s: State, id: Id, cfg: Config, net: Net): State {
    Placed(s, id, cfg, net).(world := s.world + {Rootfs(id)} + NetParts(net) + {Vmm(id)})
  }

  function Served(s: State, id: Id, cfg: Config, net: Net): State {
    s.(vms := s.vms[id := Running(cfg, net)],
       used := s.used + {net.index},
       world := s.world + {Rootfs(id)} + NetParts(net) + {Vmm(id)})
  }

  // ── The stages ──

  lemma Goes(s0: State, s: State, x: Task, locked: bool, o: Outcome, m: State, y: Task, locked': bool)
    requires Path(s0, Doing(s, x, locked), OwnSteps) && Resting(s) && Resting(m)
    requires RunStep(Doing(s, x, locked), 0, o, x) == Some(Put(Doing(m, x, locked'), 0, y))
    ensures Path(s0, Doing(m, y, locked'), OwnSteps)
  {
    PutAlone(Doing(m, x, locked'), x, y);
    Move(s0, Doing(s, x, locked), o, Doing(m, y, locked'));
  }

  lemma Ends(s0: State, s: State, x: Task, locked: bool, o: Outcome, m: State)
    requires Path(s0, Doing(s, x, locked), OwnSteps) && Resting(s) && Resting(m)
    requires RunStep(Doing(s, x, locked), 0, o, x) == Some(End(Doing(m, x, false), 0))
    ensures Path(s0, m, OwnSteps)
  {
    assert End(Doing(m, x, false), 0) == m;
    Move(s0, Doing(s, x, locked), o, m);
  }

  /** The copy fails, with or without a partial file left. */
  lemma CopyFails(s: State, id: Id, cfg: Config, left: bool)
    requires Resting(s)
    ensures Path(Request(s, id, cfg), if left then Copied(s, id) else s, OwnSteps)
  {
    Stay(Request(s, id, cfg), OwnSteps);
    Ends(Request(s, id, cfg), s, Job(id, cfg, CopyRootfs, true), false, Answer(false).(left := left),
         if left then Copied(s, id) else s);
  }

  /** Copy done and the pool locked. */
  lemma Copies(s: State, id: Id, cfg: Config)
    requires Resting(s)
    ensures Path(Request(s, id, cfg), Doing(Copied(s, id), Allocating(id, cfg), false).(poolLock := Some(0)), OwnSteps)
  {
    var s0, m := Request(s, id, cfg), Copied(s, id);
    Stay(s0, OwnSteps);
    Goes(s0, s, Job(id, cfg, CopyRootfs, true), false, Answer(true), m, WantSubnet(id, cfg), false);
    var w := Doing(m, WantSubnet(id, cfg), false);
    PutAlone(w.(poolLock := Some(0)), WantSubnet(id, cfg), Allocating(id, cfg));
    Move(s0, w, Answer(true), Put(w.(poolLock := Some(0)), 0, Allocating(id, cfg)));
  }

  lemma PoolIsFull(s: State, id: Id, cfg: Config)
    requires Resting(s) && Pool.FirstFree(s.used) == None
    ensures Path(Request(s, id, cfg), Copied(s, id), OwnSteps)
  {
    var m := Doing(Copied(s, id), Allocating(id, cfg), false).(poolLock := Some(0));
    Copies(s, id, cfg);
    assert End(Unlock(m, 0), 0) == Copied(s, id);
    Move(Request(s, id, cfg), m, Answer(true), Copied(s, id));
  }

  lemma Allocates(s: State, id: Id, cfg: Config, i: nat)
    requires Resting(s) && Pool.FirstFree(s.used) == Some(i)
    ensures Path(Request(s, id, cfg), Doing(Allocated(s, id, i), Job(id, cfg, TapAdd(i), true), false), OwnSteps)
  {
    var m := Doing(Copied(s, id), Allocating(id, cfg), false).(poolLock := Some(0));
    Copies(s, id, cfg);
    var u := Unlock(m.(used := m.used + {i}), 0);
    PutAlone(u, Allocating(id, cfg), Job(id, cfg, TapAdd(i), true));
    Move(Request(s, id, cfg), m, Answer(true), Put(u, 0, Job(id, cfg, TapAdd(i), true)));
  }

  /** `ip tuntap add` fails and the index goes back. */
  lemma NetworkFails(s: State, id: Id, cfg: Config, i: nat)
    requires Resting(s) && Pool.FirstFree(s.used) == Some(i) && forall x :: x in s.world ==> !x.Slot?
    ensures Path(Request(s, id, cfg), Copied(s, id), OwnSteps)
  {
    var s0, m := Request(s, id, cfg), Allocated(s, id, i);
    Allocates(s, id, cfg, i);
    Goes(s0, m, Job(id, cfg, TapAdd(i), true), false, Answer(false),
         m, Cleaning([Slot(i)], false, false, Return), false);
    ReturnsSlot(s0, m, i);
    assert m.(used := m.used - {i}) == Copied(s, id);
  }

  lemma ReturnsSlot(s0: State, s: State, i: nat)
    requires Path(s0, Doing(s, Cleaning([Slot(i)], false, false, Return), false), OwnSteps) && Resting(s)
    requires forall x :: x in s.world ==> !x.Slot?
    ensures Path(s0, s.(used := s.used - {i}), OwnSteps)
  {
    var todo, x, freed := [Slot(i)], Cleaning([], false, false, Return), s.(used := s.used - {i});
    var m := Doing(s, Cleaning(todo, false, false, Return), false);
    Teardown(s0, m, todo, false, Return, {});
    SlotTorn(m, todo, {}, true, x);
    assert [todo[0]] == todo;
    assert Torn(m, todo, {}, true, x) == Doing(freed, x, false);
    Ends(s0, freed, x, false, Answer(true), freed);
  }

  function Tapped(s: State, id: Id, i: nat): State {
    Allocated(s, id, i).(world := s.world + {Rootfs(id), Tap(i)})
  }

  lemma Taps(s: State, id: Id, cfg: Config, i: nat)
    requires Resting(s) && Pool.FirstFree(s.used) == Some(i) && Tap(i) !in s.world
    ensures Path(Request(s, id, cfg), Doing(Tapped(s, id, i), Job(id, cfg, PostAdd(i), true), false), OwnSteps)
  {
    var s0, m, tapped := Request(s, id, cfg), Allocated(s, id, i), Tapped(s, id, i);
    Allocates(s, id, cfg, i);
    assert m.world + {Tap(i)} == tapped.world;
    Goes(s0, m, Job(id, cfg, TapAdd(i), true), false, Answer(true), tapped, Job(id, cfg, TapAddr(i), true), false);
    Goes(s0, tapped, Job(id, cfg, TapAddr(i), true), false, Answer(true), tapped, Job(id, cfg, TapUp(i), true), false);
    Goes(s0, tapped, Job(id, cfg, TapUp(i), true), false, Answer(true), tapped, Job(id, cfg, PostAdd(i), true), false);
  }

  // ── The network fails ──

  function Undoing(id: Id, cfg: Config, i: nat, todo: seq<Resource>): Task {
    Job(id, cfg, Undo(i, todo), true)
  }

  lemma UndoHead(s0: State, s: State, id: Id, cfg: Config, i: nat, todo: seq<Resource>, kept: set<Resource>)
    requires Path(s0, Doing(s, Undoing(id, cfg, i, todo), false), OwnSteps) && Resting(s)
    requires todo != [] && !todo[0].Slot? && Agrees(s.world, todo)
    ensures Path(s0, Doing(s.(world := s.world - (ToSet([todo[0]]) - kept)), Undoing(id, cfg, i, todo[1..]), false),
                 OwnSteps)
  {
    DisposeAgreed(s, todo, kept);
    Goes(s0, s, Undoing(id, cfg, i, todo), false, Answer(todo[0] !in kept),
         s.(world := s.world - (ToSet([todo[0]]) - kept)), Undoing(id, cfg, i, todo[1..]), false);
  }

  /** The rollback of the network job, whatever subset the failing commands leave, and the index goes back. */
  lemma {:induction false} Undoes(s0: State, s: State, id: Id, cfg: Config, i: nat, todo: seq<Resource>,
                                  kept: set<Resource>)
    requires Path(s0, Doing(s, Undoing(id, cfg, i, todo), false), OwnSteps) && Resting(s)
    requires (forall r :: r in todo ==> !r.Slot?) && Agrees(s.world, todo)
    ensures Path(s0, s.(used := s.used - {i}, world := s.world - (ToSet(todo) - kept)), OwnSteps)
    decreases |todo|
  {
    if todo == [] {
      Goes(s0, s, Undoing(id, cfg, i, []), false, Answer(true), s, Cleaning([Slot(i)], false, false, Return), false);
      ReturnsSlot(s0, s, i);
      assert s.world - (ToSet([]) - kept) == s.world;
    } else {
      var m := s.(world := s.world - (ToSet([todo[0]]) - kept));
      UndoHead(s0, s, id, cfg, i, todo, kept);
      AgreesAfter(s, todo, kept, true, WantRead);
      assert Agrees(m.world, todo[1..]) && forall r :: r in todo[1..] ==> r in todo;
      Undoes(s0, m, id, cfg, i, todo[1..], kept);
      HeadAndRest(todo);
      assert m.world - (ToSet(todo[1..]) - kept) == s.world - (ToSet(todo) - kept);
    }
  }

  function Posted(s: State, id: Id, net: Net): State {
    Tapped(s, id, net.index).(world := s.world + {Rootfs(id), Tap(net.index), Post(net.post, net.index)})
  }

  lemma Posts(s: State, id: Id, cfg: Config, net: Net)
    requires Resting(s) && Pool.FirstFree(s.used) == Some(net.index) && NewNet(s.world, net)
    ensures Path(Request(s, id, cfg),
                 Doing(Posted(s, id, net), Job(id, cfg, FilterAdd(net.index, net.post), true), false), OwnSteps)
  {
    var s0, i, m := Request(s, id, cfg), net.index, Tapped(s, id, net.index);
    Taps(s, id, cfg, i);
    assert m.world + {Post(net.post, i)} == Posted(s, id, net).world;
    Goes(s0, m, Job(id, cfg, PostAdd(i), true), false, Answer(true).(handle := net.post),
         Posted(s, id, net), Job(id, cfg, FilterAdd(i, net.post), true), false);
  }

  /** The second rule cannot be added: both earlier resources are rolled back, or left. */
  lemma FilterFails(s: State, id: Id, cfg: Config, net: Net, after: set<Resource>)
    requires Resting(s) && Pool.FirstFree(s.used) == Some(net.index) && forall x :: x in s.world ==> !x.Slot?
    requires LeftBy(Copied(s, id).world, net, after) && Filter(net.filter, net.index) !in after
    ensures Path(Request(s, id, cfg), s.(world := after), OwnSteps)
  {
    var s0, i, m := Request(s, id, cfg), net.index, Posted(s, id, net);
    var todo := [Post(net.post, i), Tap(i)];
    Posts(s, id, cfg, net);
    Goes(s0, m, Job(id, cfg, FilterAdd(i, net.post), true), false, Answer(false), m, Undoing(id, cfg, i, todo), false);
    Undoes(s0, m, id, cfg, i, todo, after);
    assert ToSet(todo) == {Post(net.post, i), Tap(i)};
    assert m.world - (ToSet(todo) - after) == after && m.used - {i} == s.used;
  }

  /** The handle of the second rule cannot be read: both rules stay, the tap goes or stays. */
  lemma FilterUnread(s: State, id: Id, cfg: Config, net: Net, after: set<Resource>)
    requires Resting(s) && Pool.FirstFree(s.used) == Some(net.index) && forall x :: x in s.world ==> !x.Slot?
    requires LeftBy(Copied(s, id).world, net, after) && Filter(net.filter, net.index) in after
    ensures Path(Request(s, id, cfg), s.(world := after), OwnSteps)
  {
    var s0, i, m := Request(s, id, cfg), net.index, Connected(s, id, net);
    var todo := [Tap(i)];
    Posts(s, id, cfg, net);
    assert Posted(s, id, net).world + {Filter(net.filter, i)} == m.world;
    Goes(s0, Posted(s, id, net), Job(id, cfg, FilterAdd(i, net.post), true), false,
         Outcome(true, false, false, net.filter, 0), m, Undoing(id, cfg, i, todo), false);
    Undoes(s0, m, id, cfg, i, todo, after);
    assert ToSet(todo) == {Tap(i)};
    assert m.world - (ToSet(todo) - after) == after && m.used - {i} == s.used;
  }

  /** Whatever a failed network setup can leave behind. */
  lemma NetworkFailsTo(s: State, id: Id, cfg: Config, i: nat, after: set<Resource>)
    requires Resting(s) && Pool.FirstFree(s.used) == Some(i) && forall x :: x in s.world ==> !x.Slot?
    requires FailsTo(Copied(s, id).world, i, after)
    ensures Path(Request(s, id, cfg), s.(world := after), OwnSteps)
  {
    if after == Copied(s, id).world {
      NetworkFails(s, id, cfg, i);
    } else {
      var net: Net :| net.index == i && LeftBy(Copied(s, id).world, net, after);
      if Filter(net.filter, i) in after { FilterUnread(s, id, cfg, net, after); }
      else { FilterFails(s, id, cfg, net, after); }
    }
  }

  /** Tap and rules. */
  lemma Connects(s: State, id: Id, cfg: Config, net: Net)
    requires Resting(s) && Pool.FirstFree(s.used) == Some(net.index) && NewNet(s.world, net)
    ensures Path(Request(s, id, cfg), Doing(Connected(s, id, net), WantReserve(id, cfg, net), false), OwnSteps)
  {
    var i, m := net.index, Posted(s, id, net);
    Posts(s, id, cfg, net);
    assert m.world + {Filter(net.filter, i)} == Connected(s, id, net).world;
    Goes(Request(s, id, cfg), m, Job(id, cfg, FilterAdd(i, net.post), true), false,
         Answer(true).(handle := net.filter), Connected(s, id, net), WantReserve(id, cfg, net), false);
  }

  // ── Reservation and boot ──

  lemma Locks(s: State, id: Id, cfg: Config, net: Net)
    requires Resting(s) && Pool.FirstFree(s.used) == Some(net.index) && NewNet(s.world, net)
    ensures Path(Request(s, id, cfg), Doing(Connected(s, id, net), Reserving(id, cfg, net), true), OwnSteps)
  {
    var m := Connected(s, id, net);
    Connects(s, id, cfg, net);
    Goes(Request(s, id, cfg), m, WantReserve(id, cfg, net), false, Answer(true), m, Reserving(id, cfg, net), true);
  }

  lemma RefusalHolds(net: Net)
    ensures ToSet(RefusalTodo(net)) == NetHolds(net) && Slots(RefusalTodo(net)) == {net.index}
  {
    assert Slot(net.index) in RefusalTodo(net);
  }

  /** No room: the network goes again, but for what failing commands leave; the rootfs copy stays. */
  lemma Refused(s: State, id: Id, cfg: Config, net: Net, after: set<Resource>)
    requires Resting(s) && Pool.FirstFree(s.used) == Some(net.index) && NewNet(s.world, net) && !Admits(s, cfg)
    requires forall x :: x in s.world ==> !x.Slot?
    requires Copied(s, id).world <= after <= Connected(s, id, net).world
    ensures Path(Request(s, id, cfg), s.(world := after), OwnSteps)
  {
    var s0, m := Request(s, id, cfg), Connected(s, id, net);
    var y, x := Cleaning(RefusalTodo(net), false, true, Return), Cleaning([], false, true, Return);
    Locks(s, id, cfg, net);
    assert !Admits(Doing(m, Reserving(id, cfg, net), true), cfg);
    Goes(s0, m, Reserving(id, cfg, net), true, Answer(true), m, y, true);
    RefusalAgrees(s, id, net);
    Teardown(s0, Doing(m, y, true), RefusalTodo(net), true, Return, after);
    RefusalTorn(s, id, net, after, x);
    Ends(s0, s.(world := after), x, true, Answer(true), s.(world := after));
  }

  lemma RefusalAgrees(s: State, id: Id, net: Net)
    requires NewNet(s.world, net) && forall x :: x in s.world ==> !x.Slot?
    ensures Agrees(Connected(s, id, net).world, RefusalTodo(net))
  {
  }

  lemma RefusalTorn(s: State, id: Id, net: Net, after: set<Resource>, x: Task)
    requires Resting(s) && Pool.FirstFree(s.used) == Some(net.index) && NewNet(s.world, net)
    requires forall r :: r in s.world ==> !r.Slot?
    requires Copied(s, id).world <= after <= Connected(s, id, net).world
    ensures Torn(Doing(Connected(s, id, net), Cleaning(RefusalTodo(net), false, true, Return), true),
                 RefusalTodo(net), after, true, x) == Doing(s.(world := after), x, true)
  {
    RefusalHolds(net);
    var m := Connected(s, id, net);
    assert m.used - {net.index} == s.used;
    assert m.world - (NetHolds(net) - after) == after;
  }

  lemma Reserves(s: State, id: Id, cfg: Config, net: Net)
    requires Resting(s) && Pool.FirstFree(s.used) == Some(net.index) && NewNet(s.world, net) && Admits(s, cfg)
    ensures Path(Request(s, id, cfg), Doing(Placed(s, id, cfg, net), Booting(id, cfg, net, false), false), OwnSteps)
  {
    var m := Connected(s, id, net);
    Locks(s, id, cfg, net);
    assert Admits(Doing(m, Reserving(id, cfg, net), true), cfg);
    Goes(Request(s, id, cfg), m, Reserving(id, cfg, net), true, Answer(true),
         Placed(s, id, cfg, net), Booting(id, cfg, net, false), false);
  }

  /** The SDK fails: everything goes, the rootfs copy too, but for what failing commands leave. */
  lemma SdkFails(s: State, id: Id, cfg: Config, net: Net, after: set<Resource>)
    requires Resting(s) && Pool.FirstFree(s.used) == Some(net.index) && NewNet(s.world, net) && Admits(s, cfg)
    requires id !in s.vms && Vmm(id) !in s.world && forall x :: x in s.world ==> !x.Slot?
    requires s.world - {Rootfs(id)} <= after <= Connected(s, id, net).world + {Vmm(id)}
    ensures Path(Request(s, id, cfg), s.(world := after), OwnSteps)
  {
    var s0, m := Request(s, id, cfg), Placed(s, id, cfg, net);
    Reserves(s, id, cfg, net);
    if Vmm(id) in after {
      var booted := Booted(s, id, cfg, net);
      assert m.world + {Vmm(id)} == booted.world;
      Goes(s0, m, Booting(id, cfg, net, false), false, Answer(true), booted, Booting(id, cfg, net, true), false);
      Goes(s0, booted, Booting(id, cfg, net, true), false, Answer(false).(left := true),
           booted, WantAbandon(id, cfg, net), false);
      Abandons(s0, s, id, cfg, net, booted.world, after);
    } else {
      Goes(s0, m, Booting(id, cfg, net, false), false, Answer(false), m, WantAbandon(id, cfg, net), false);
      Abandons(s0, s, id, cfg, net, m.world, after);
    }
  }

  lemma Abandons(s0: State, s: State, id: Id, cfg: Config, net: Net, world: set<Resource>, after: set<Resource>)
    requires Resting(s) && Pool.FirstFree(s.used) == Some(net.index) && NewNet(s.world, net)
    requires id !in s.vms && Vmm(id) !in s.world && forall x :: x in s.world ==> !x.Slot?
    requires world == Connected(s, id, net).world + if Vmm(id) in after then {Vmm(id)} else {}
    requires s.world - {Rootfs(id)} <= after <= world
    requires Path(s0, Doing(Placed(s, id, cfg, net).(world := world), WantAbandon(id, cfg, net), false), OwnSteps)
    ensures Path(s0, s.(world := after), OwnSteps)
  {
    var m, e := Placed(s, id, cfg, net).(world := world), Creating(cfg, net);
    var taken := m.(vms := m.vms - {id});
    Goes(s0, m, WantAbandon(id, cfg, net), false, Answer(true), m, Abandoning(id, cfg, net), true);
    Goes(s0, m, Abandoning(id, cfg, net), true, Answer(true),
         taken, Cleaning(EntryTodo(id, e), false, true, Armed(id)), true);
    NewEntryAgrees(s, id, cfg, net, world);
    TearEntry(s0, taken, id, e, Armed(id), after);
    Undone(s, id, cfg, net, world, after);
  }

  lemma NewEntryAgrees(s: State, id: Id, cfg: Config, net: Net, world: set<Resource>)
    requires NewNet(s.world, net) && forall x :: x in s.world ==> !x.Slot?
    requires world <= Connected(s, id, net).world + {Vmm(id)}
    ensures Agrees(world, EntryTodo(id, Creating(cfg, net)))
  {
  }

  lemma Undone(s: State, id: Id, cfg: Config, net: Net, world: set<Resource>, after: set<Resource>)
    requires Pool.FirstFree(s.used) == Some(net.index) && NewNet(s.world, net)
    requires id !in s.vms && Vmm(id) !in s.world && forall x :: x in s.world ==> !x.Slot?
    requires world == Connected(s, id, net).world + if Vmm(id) in after then {Vmm(id)} else {}
    requires s.world - {Rootfs(id)} <= after <= world
    ensures var m := Placed(s, id, cfg, net).(world := world);
            Without(m.(vms := m.vms - {id}), id, Creating(cfg, net), after) == s.(world := after)
  {
    var m := Placed(s, id, cfg, net);
    assert m.vms - {id} - {id} == s.vms;
    assert world - (EntryHolds(id, Creating(cfg, net)) - after) == after;
    assert m.used - {net.index} == s.used;
  }

  /** And the good case. */
  lemma Succeeds(s: State, id: Id, cfg: Config, net: Net)
    requires Resting(s) && Pool.FirstFree(s.used) == Some(net.index) && NewNet(s.world, net) && Admits(s, cfg)
    ensures Path(Request(s, id, cfg), Served(s, id, cfg, net), OwnSteps)
  {
    var s0, m := Request(s, id, cfg), Placed(s, id, cfg, net);
    var booted := Booted(s, id, cfg, net);
    Reserves(s, id, cfg, net);
    Goes(s0, m, Booting(id, cfg, net, false), false, Answer(true), booted, Booting(id, cfg, net, true), false);
    Goes(s0, booted, Booting(id, cfg, net, true), false, Answer(true), booted, WantUpgrade(id, cfg, net), false);
    Goes(s0, booted, WantUpgrade(id, cfg, net), false, Answer(true), booted, Upgrading(id, cfg, net), true);
    Upgrades(s0, s, id, cfg, net);
  }

  lemma Upgrades(s0: State, s: State, id: Id, cfg: Config, net: Net)
    requires Resting(s)
    requires Path(s0, Doing(Booted(s, id, cfg, net), Upgrading(id, cfg, net), true), OwnSteps)
    ensures Path(s0, Served(s, id, cfg, net), OwnSteps)
  {
    var booted, x := Booted(s, id, cfg, net), Upgrading(id, cfg, net);
    var served := Served(s, id, cfg, net);
    assert booted.vms[id := Running(cfg, net)] == served.vms;
    assert UpgradeStep(Doing(booted, x, true), 0, Answer(true), x) == End(Doing(served, x, false), 0);
    Ends(s0, booted, x, true, Answer(true), served);
  }
}
