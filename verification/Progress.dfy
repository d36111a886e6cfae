/** Deadlock freedom and termination of the lifecycle. */
module Progress {
  import opened Prelude
  import opened Sums
  import opened VmConfig
  import opened Lifecycle
  import opened Invariant
  import opened Conservation
  import opened Exactness
  import opened Refinement

  // ── Deadlock freedom ──

  predicate AwaitsVms(s: State, x: Task) {
    Acquired(s, x).Some? && !x.WantSubnet?
  }

  predicate AwaitsPool(x: Task) {
    x.WantSubnet? || (x.Cleaning? && x.todo != [] && x.todo[0].Slot? && !x.pool)
  }

  /**
    Lock order: a task that awaits `vms` holds neither lock, and one that awaits `subnet_pool` holds
    at most `vms`; nobody waits for `vms` with the pool in hand.
   */
  lemma LockOrder(s: State, t: Tid)
    requires Good(s) && t in s.tasks
    ensures AwaitsVms(s, s.tasks[t]) ==> s.vmsLock != Some(t) && s.poolLock != Some(t)
    ensures AwaitsPool(s.tasks[t]) ==> s.poolLock != Some(t)
  {
  }

  /** A task awaits a lock someone else holds; `try_lock` never waits. */
  predicate Waiting(s: State, x: Task) {
    (AwaitsPool(x) && s.poolLock.Some?) || (AwaitsVms(s, x) && !x.WantGuard? && s.vmsLock.Some?)
  }

  /**
    Answers the outside can give: a command does not succeed where it cannot, nft picks a handle not
    in use, `try_lock` does not get a taken lock, and the map yields an entry it has.
   */
  predicate Plausible(s: State, x: Task, o: Outcome) {
    match x
    case Job(_, _, TapAdd(i), _) => o.ok ==> Tap(i) !in s.world
    case Job(_, _, PostAdd(_), _) => o.ok ==> FreshHandle(s.world, o.handle)
    case Job(_, _, FilterAdd(_, _), _) => o.ok ==> FreshHandle(s.world, o.handle)
    case WantGuard(_) => o.ok ==> s.vmsLock.None?
    case Guarding(_, todo) => todo != [] && todo[0].Slot? && o.ok ==> s.poolLock.None?
    case Draining => s.vms != map[] ==> o.pick in s.vms
    case _ => true
  }

  ghost predicate Enabled(s: State, t: Tid, o: Outcome) {
    Exec(s, Run(t, o)).Some?
  }

  /** The task moves whatever it is answered. */
  ghost predicate Ready(s: State, t: Tid) {
    t in s.tasks && forall o :: Plausible(s, s.tasks[t], o) ==> Enabled(s, t, o)
  }

  lemma CanRun(s: State, t: Tid, x: Task, o: Outcome)
    requires !Waiting(s, x) && Plausible(s, x, o)
    ensures RunStep(s, t, o, x).Some?
  {
  }

  /** Someone can always move, however the outside answers: the pool's holder, else the map's, else anybody. */
  lemma NoDeadlock(s: State)
    requires Good(s) && s.tasks != map[]
    ensures exists t :: Ready(s, t)
  {
    var t := Mover(s);
    HolderMoves(s, t);
    forall o | Plausible(s, s.tasks[t], o)
      ensures Enabled(s, t, o)
    {
      CanRun(s, t, s.tasks[t], o);
    }
    assert Ready(s, t);
  }

  lemma Mover(s: State) returns (t: Tid)
    requires Locks(s) && s.tasks != map[]
    ensures t in s.tasks
    ensures s.poolLock == Some(t) || (s.poolLock == None && (s.vmsLock == None || s.vmsLock == Some(t)))
  {
    if s.poolLock.Some? { t := s.poolLock.value; }
    else if s.vmsLock.Some? { t := s.vmsLock.value; }
    else { t :| t in s.tasks; }
  }

  lemma HolderMoves(s: State, t: Tid)
    requires Good(s) && t in s.tasks
    requires s.poolLock == Some(t) || (s.poolLock == None && (s.vmsLock == None || s.vmsLock == Some(t)))
    ensures !Waiting(s, s.tasks[t])
  {
    assert ShapeOk(s.tasks[t]);
  }

  ghost predicate Stuck(s: State) {
    forall t, o :: !Enabled(s, t, o)
  }

  lemma NotStuck(s: State)
    requires Good(s) && s.tasks != map[]
    ensures !Stuck(s)
  {
    NoDeadlock(s);
    var t :| Ready(s, t);
    var pick := 0;
    if s.vms != map[] { pick :| pick in s.vms; }
    assert Enabled(s, t, Outcome(false, false, false, 0, pick));
  }

  /** A run that cannot be continued has finished: no task left, both locks free. */
  lemma StuckIsDone(s: State)
    requires Good(s) && Stuck(s)
    ensures s.tasks == map[] && s.vmsLock == None && s.poolLock == None
  {
    if s.tasks != map[] { NotStuck(s); }
    RestHoldings(s);
  }

  // ── Termination ──

  /** Steps a map entry may still cost whoever takes it down. */
  const ENTRY_COST: nat := 20

  function StageRank(stage: Stage): nat {
    match stage
    case CopyRootfs => 47
    case TapAdd(_) => 44
    case TapAddr(_) => 43
    case TapUp(_) => 42
    case PostAdd(_) => 41
    case FilterAdd(_, _) => 40
    case Undo(_, todo) => 4 + |todo|
  }

  /** A bound on the steps left in a task. */
  function Rank(x: Task): nat {
    match x
    case Job(_, _, stage, attached) => StageRank(stage) + (if attached then 1 else 0)
    case WantSubnet(_, _) => 47
    case Allocating(_, _) => 46
    case WantReserve(_, _, _) => 38
    case Reserving(_, _, _) => 37
    case Booting(_, _, _, started) => if started then 15 else 16
    case WantAbandon(_, _, _) => 14
    case Abandoning(_, _, _) => 13
    case WantUpgrade(_, _, _) => 14
    case Upgrading(_, _, _) => 13
    case WantGuard(_) => 12
    case Guarding(_, todo) => 2 * |todo| + 1
    case Cleaning(todo, pool, _, cont) =>
      2 * |todo| + (if pool && todo != [] then 0 else 1)
      + (match cont case Return => 0 case Armed(_) => 13 case Drain => 3)
    case WantDelete(_) => 3
    case Deleting(_) => 2
    case WantRead => 2
    case Reading => 1
    case WantDrain => 3
    case Draining => 2
  }

  ghost function Ranks(s: State): map<Tid, nat> {
    map t | t in s.tasks :: Rank(s.tasks[t])
  }

  ghost function Measure(s: State): nat {
    Total(Ranks(s)) + ENTRY_COST * |s.vms|
  }

  function RankAfter(s': State, t: Tid): nat {
    if t in s'.tasks then Rank(s'.tasks[t]) else 0
  }

  /** Entries the step adds to the map, at most. */
  ghost function Gain(s: State, x: Task): int {
    match x
    case Reserving(_, cfg, _) => if Admits(s, cfg) then 1 else 0
    case Abandoning(id, _, _) => if id in s.vms then -1 else 0
    case Deleting(id) => if id in s.vms && s.vms[id].Running? then -1 else 0
    case Draining => if s.vms == map[] then 0 else -1
    case _ => 0
  }

  ghost predicate Grows(s: State, x: Task, s': State) {
    |s'.vms| <= |s.vms| + Gain(s, x)
  }

  /** The stepping task pays for the step, and for the entry it may insert. */
  ghost predicate Pays(s: State, t: Tid, x: Task, s': State, gain: int) {
    && s'.tasks == (if t in s'.tasks then s.tasks[t := s'.tasks[t]] else s.tasks - {t})
    && RankAfter(s', t) + ENTRY_COST * gain < Rank(x)
  }

  lemma TakeOne(vms: map<Id, Entry>, id: Id)
    ensures |vms - {id}| == if id in vms then |vms| - 1 else |vms|
  {
    if id in vms { SizeWithout(vms, id); } else { assert vms - {id} == vms; }
  }

  lemma PutOne(vms: map<Id, Entry>, id: Id, e: Entry)
    ensures |vms[id := e]| == if id in vms then |vms| else |vms| + 1
  {
    var m := vms[id := e];
    SizeWithout(m, id);
    assert m - {id} == vms - {id};
    TakeOne(vms, id);
  }

  lemma UpgradeGrows(s: State, t: Tid, o: Outcome, x: Task, s': State)
    requires x.Upgrading? && s' == UpgradeStep(s, t, o, x)
    ensures Grows(s, x, s')
  {
    TakeOne(s.vms, x.id);
    if x.id in s.vms { PutOne(s.vms, x.id, Running(s.vms[x.id].cfg, s.vms[x.id].net)); }
  }

  lemma AbandonGrows(s: State, t: Tid, x: Task, s': State)
    requires x.Abandoning? && s' == AbandonStep(s, t, x)
    ensures Grows(s, x, s')
  {
    TakeOne(s.vms, x.id);
  }

  lemma GuardGrows(s: State, t: Tid, o: Outcome, x: Task, s': State)
    requires x.Guarding? && GuardStep(s, t, o, x) == Some(s')
    ensures Grows(s, x, s')
  {
    if x.todo == [] { TakeOne(s.vms, x.id); }
    else if x.todo[0].Slot? { }
    else { }
  }

  lemma DeleteGrows(s: State, t: Tid, x: Task, s': State)
    requires x.Deleting? && s' == DeleteStep(s, t, x)
    ensures Grows(s, x, s')
  {
    TakeOne(s.vms, x.id);
  }

  lemma DrainGrows(s: State, t: Tid, o: Outcome, x: Task, s': State)
    requires x.Draining? && DrainStep(s, t, o) == Some(s')
    ensures Grows(s, x, s')
  {
    TakeOne(s.vms, o.pick);
  }

  lemma ReserveGrows(s: State, t: Tid, x: Task, s': State)
    requires x.Reserving? && s' == ReserveStep(s, t, x)
    ensures Grows(s, x, s')
  {
    PutOne(s.vms, x.id, Creating(x.cfg, x.net));
  }

  lemma RunGrows(s: State, t: Tid, o: Outcome, x: Task, s': State)
    requires t in s.tasks && s.tasks[t] == x && RunStep(s, t, o, x) == Some(s')
    ensures Grows(s, x, s')
  {
    if x.Reserving? { ReserveGrows(s, t, x, s'); }
    else if x.Upgrading? { UpgradeGrows(s, t, o, x, s'); }
    else if x.Abandoning? { AbandonGrows(s, t, x, s'); }
    else if x.Guarding? { GuardGrows(s, t, o, x, s'); }
    else if x.Deleting? { DeleteGrows(s, t, x, s'); }
    else if x.Draining? { DrainGrows(s, t, o, x, s'); }
    else { QuietRun(s, t, o, x, s'); }
  }

  lemma AcquirePays(s: State, t: Tid, o: Outcome, x: Task, s': State)
    requires t in s.tasks && s.tasks[t] == x && Acquired(s, x).Some? && AcquireStep(s, t, o, x) == Some(s')
    ensures Pays(s, t, x, s', 0)
  {
  }

  lemma JobPays(s: State, t: Tid, o: Outcome, x: Task, s': State)
    requires t in s.tasks && s.tasks[t] == x && x.Job? && JobStep(s, t, o, x) == Some(s')
    ensures Pays(s, t, x, s', 0)
  {
    match x.stage
    case CopyRootfs =>
    case Undo(_, _) =>
    case _ =>
  }

  lemma CleanPays(s: State, t: Tid, o: Outcome, x: Task, s': State)
    requires t in s.tasks && s.tasks[t] == x && x.Cleaning? && CleanStep(s, t, o, x) == Some(s')
    ensures Pays(s, t, x, s', 0)
  {
  }

  lemma GuardPays(s: State, t: Tid, o: Outcome, x: Task, s': State)
    requires t in s.tasks && s.tasks[t] == x && x.Guarding? && GuardStep(s, t, o, x) == Some(s')
    ensures Pays(s, t, x, s', 0)
  {
  }

  lemma ReservePays(s: State, t: Tid, x: Task, s': State)
    requires t in s.tasks && s.tasks[t] == x && x.Reserving? && s' == ReserveStep(s, t, x)
    ensures Pays(s, t, x, s', Gain(s, x))
  {
  }

  lemma TakePays(s: State, t: Tid, o: Outcome, x: Task, s': State)
    requires t in s.tasks && s.tasks[t] == x
    requires (x.Abandoning? && s' == AbandonStep(s, t, x)) || (x.Deleting? && s' == DeleteStep(s, t, x))
             || (x.Draining? && DrainStep(s, t, o) == Some(s'))
    ensures Pays(s, t, x, s', Gain(s, x))
  {
  }

  lemma OtherPays(s: State, t: Tid, o: Outcome, x: Task, s': State)
    requires t in s.tasks && s.tasks[t] == x && (x.Allocating? || x.Booting? || x.Reading? || x.Upgrading?)
    requires RunStep(s, t, o, x) == Some(s')
    ensures Pays(s, t, x, s', 0)
  {
  }

  lemma RunPays(s: State, t: Tid, o: Outcome, x: Task, s': State)
    requires t in s.tasks && s.tasks[t] == x && RunStep(s, t, o, x) == Some(s')
    ensures Pays(s, t, x, s', Gain(s, x))
  {
    if Acquired(s, x).Some? { AcquirePays(s, t, o, x, s'); }
    else {
      match x
      case Job(_, _, _, _) => JobPays(s, t, o, x, s');
      case Cleaning(_, _, _, _) => CleanPays(s, t, o, x, s');
      case Guarding(_, _) => GuardPays(s, t, o, x, s');
      case Reserving(_, _, _) => ReservePays(s, t, x, s');
      case Abandoning(_, _, _) => TakePays(s, t, o, x, s');
      case Deleting(_) => TakePays(s, t, o, x, s');
      case Draining => TakePays(s, t, o, x, s');
      case _ => OtherPays(s, t, o, x, s');
    }
  }

  lemma AbortPays(s: State, t: Tid, left: bool, x: Task, s': State)
    requires t in s.tasks && s.tasks[t] == x && Abortable(x) && s' == AbortStep(s, t, left, x)
    ensures Pays(s, t, x, s', 0) && s'.vms == s.vms
  {
  }

  lemma PanicPays(s: State, t: Tid, left: bool, x: Task, s': State)
    requires t in s.tasks && s.tasks[t] == x && x.Job? && s' == PanicStep(s, t, left, x)
    ensures Pays(s, t, x, s', 0) && s'.vms == s.vms
  {
  }

  lemma PaidFor(s: State, t: Tid, x: Task, s': State, gain: int)
    requires t in s.tasks && s.tasks[t] == x && Pays(s, t, x, s', gain) && |s'.vms| <= |s.vms| + gain
    ensures Measure(s') < Measure(s)
  {
    RanksAfter(s, t, s');
    TotalTakeOut(Ranks(s), t);
    if t in s'.tasks { TotalPut(Ranks(s), t, Rank(s'.tasks[t])); }
  }

  lemma RanksAfter(s: State, t: Tid, s': State)
    requires t in s.tasks
    requires s'.tasks == if t in s'.tasks then s.tasks[t := s'.tasks[t]] else s.tasks - {t}
    ensures Ranks(s)[t] == Rank(s.tasks[t])
    ensures Ranks(s') == if t in s'.tasks then Ranks(s)[t := Rank(s'.tasks[t])] else Ranks(s) - {t}
  {
  }

  lemma RequestAdds(s: State, t: Tid, y: Task)
    requires t !in s.tasks && Rank(y) <= 48
    ensures Measure(Put(s, t, y)) <= Measure(s) + 48
  {
    assert Ranks(Put(s, t, y)) == Ranks(s)[t := Rank(y)];
    assert Ranks(s) - {t} == Ranks(s);
    TotalPut(Ranks(s), t, Rank(y));
  }

  predicate IsRequest(a: Action) {
    a.SpawnCreate? || a.SpawnDelete? || a.SpawnRead? || a.SpawnShutdown?
  }

  lemma RequestMeasure(s: State, a: Action, s': State)
    requires Next(s, a, s') && IsRequest(a)
    ensures Measure(s') <= Measure(s) + 48
  {
    match a
    case SpawnCreate(t, id, vcpus, memoryMb, keys) =>
      var r := ValidateVmConfig(vcpus, memoryMb);
      if r.Ok? {
        var s1 := s.(ids := s.ids + {id});
        assert Ranks(s1) == Ranks(s);
        RequestAdds(s1, t, Job(id, Config(r.value.0, r.value.1, keys), CopyRootfs, true));
      }
    case SpawnDelete(t, id) => RequestAdds(s, t, WantDelete(id));
    case SpawnRead(t) => RequestAdds(s, t, WantRead);
    case SpawnShutdown(t) =>
      assert Ranks(s.(stopping := true)) == Ranks(s);
      RequestAdds(s.(stopping := true), t, WantDrain);
  }

  /** A request adds a bounded amount of work; every other action but a crash uses some up. */
  lemma MeasureMoves(s: State, a: Action, s': State)
    requires Next(s, a, s') && !a.Crash?
    ensures IsRequest(a) ==> Measure(s') <= Measure(s) + 48
    ensures !IsRequest(a) ==> Measure(s') < Measure(s)
  {
    match a
    case Run(t, o) =>
      RunPays(s, t, o, s.tasks[t], s');
      RunGrows(s, t, o, s.tasks[t], s');
      PaidFor(s, t, s.tasks[t], s', Gain(s, s.tasks[t]));
    case Abort(t, left) =>
      AbortPays(s, t, left, s.tasks[t], s');
      PaidFor(s, t, s.tasks[t], s', 0);
    case JobPanic(t, left) =>
      PanicPays(s, t, left, s.tasks[t], s');
      PaidFor(s, t, s.tasks[t], s', 0);
    case _ => RequestMeasure(s, a, s');
  }

  predicate NoCrash(acts: seq<Action>) {
    forall j :: 0 <= j < |acts| ==> !acts[j].Crash?
  }

  function Requests(acts: seq<Action>): nat {
    if acts == [] then 0
    else Requests(acts[..|acts| - 1]) + (if IsRequest(acts[|acts| - 1]) then 1 else 0)
  }

  /**
    Termination: a run without crashes that serves n requests, shutdowns included, takes at most
    49 n steps more than the work it started with, whatever the interleaving, the host's answers,
    the panics and the cancellations.
   */
  lemma {:induction false} RunsAreBounded(ss: seq<State>, acts: seq<Action>)
    requires IsRun(ss, acts) && NoCrash(acts)
    ensures |acts| + Measure(ss[|acts|]) <= Measure(ss[0]) + 49 * Requests(acts)
    decreases |acts|
  {
    if acts != [] {
      var n := |acts| - 1;
      var acts0, ss0 := acts[..n], ss[..n + 1];
      forall k | 0 <= k < n
        ensures Next(ss0[k], acts0[k], ss0[k + 1])
      {
        assert Next(ss[k], acts[k], ss[k + 1]);
      }
      RunsAreBounded(ss0, acts0);
      MeasureMoves(ss[n], acts[n], ss[n + 1]);
    }
  }

  /** From a fresh start, every maximal run of n requests ends within 49 n steps with nothing in flight. */
  lemma MaximalRunsFinish(ss: seq<State>, acts: seq<Action>)
    requires IsRun(ss, acts) && Started(ss[0]) && NoCrash(acts)
    requires Stuck(ss[|acts|])
    ensures |acts| <= 49 * Requests(acts)
    ensures var s := ss[|acts|]; s.tasks == map[] && s.vmsLock == None && s.poolLock == None
  {
    RunsAreBounded(ss, acts);
    assert Ranks(ss[0]) == map[];
    RunKeeps(ss, acts, |acts|);
    StuckIsDone(ss[|acts|]);
  }
}
