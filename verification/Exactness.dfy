/** What conservation means over whole runs: who owns an index, and what is left when nothing is in flight. */
module Exactness {
  import opened Prelude
  import opened Lifecycle
  import opened Ownership
  import opened Invariant
  import opened Conservation
  import Pool = SubnetPools

  ghost predicate IsRun(ss: seq<State>, acts: seq<Action>) {
    |ss| == |acts| + 1 && forall k :: 0 <= k < |acts| ==> Next(ss[k], acts[k], ss[k + 1])
  }

  /** A server that has just started on a clean host; ids drawn before a crash are not drawn again. */
  predicate Started(s: State) {
    s == Init(s.cap).(ids := s.ids)
  }

  lemma StartedIsGood(s: State)
    requires Started(s)
    ensures Good(s)
    ensures forall r :: !Leaked(s, r)
  {
    InitGood(s.cap);
    assert Vcpus(s.vms) == map[] && Memory(s.vms) == map[];
    forall p
      ensures HoldsAt(s, p) == {}
    {
    }
  }

  lemma StepKeeps(s: State, a: Action, s': State)
    requires Good(s) && Next(s, a, s')
    ensures Good(s')
  {
    match a
    case Crash(kept) => CrashConserves(s, kept, s');
    case _ => ActionConserves(s, a, s');
  }

  /** The invariant holds in every state of every run, through any number of crashes. */
  lemma {:induction false} RunKeeps(ss: seq<State>, acts: seq<Action>, k: nat)
    requires IsRun(ss, acts) && Started(ss[0]) && k < |ss|
    ensures Good(ss[k])
  {
    if k == 0 {
      StartedIsGood(ss[0]);
    } else {
      RunKeeps(ss, acts, k - 1);
      StepKeeps(ss[k - 1], acts[k - 1], ss[k]);
    }
  }

  // ── Ownership of indices ──

  /** A place that will release the index, or hand it on. */
  predicate Owns(s: State, p: Place, i: nat) {
    Slot(i) in HoldsAt(s, p)
  }

  /** Each index has at most one owner, and an owned index is in the pool's range and marked used. */
  lemma OneOwner(s: State, p: Place, q: Place, i: nat)
    requires Good(s) && Owns(s, p, i)
    ensures i < Pool.MAX_SUBNETS && i in s.used
    ensures Owns(s, q, i) ==> p == q
  {
    assert Present(s, Slot(i));
  }

  /** Entries of the map never share an index while the map can be looked at. */
  lemma EntriesDistinct(s: State, a: Id, b: Id)
    requires Good(s) && s.vmsLock == None && a in s.vms && b in s.vms && a != b
    ensures s.vms[a].net.index != s.vms[b].net.index
    ensures s.vms[a].net.index < Pool.MAX_SUBNETS && s.vms[a].net.index in s.used
  {
    assert Owns(s, OfEntry(a), s.vms[a].net.index) && Owns(s, OfEntry(b), s.vms[b].net.index);
    OneOwner(s, OfEntry(a), OfEntry(b), s.vms[a].net.index);
  }

  /** The step marks index `i` free: the pool's holder in a teardown, or the guard that got the pool. */
  predicate Releases(s: State, a: Action, i: nat) {
    && a.Run? && a.t in s.tasks
    && Head(s.tasks[a.t]) == Some(Slot(i))
    && (s.tasks[a.t].Cleaning? ==> s.tasks[a.t].pool)
    && (s.tasks[a.t].Guarding? ==> a.o.ok)
  }

  lemma KeepsUsed(s: State, t: Tid, o: Outcome, x: Task, s': State)
    requires RunStep(s, t, o, x) == Some(s') && !x.Guarding? && !x.Cleaning?
    ensures s.used <= s'.used
  {
  }

  lemma TeardownUsed(s: State, t: Tid, o: Outcome, x: Task, s': State)
    requires RunStep(s, t, o, x) == Some(s') && t in s.tasks && s.tasks[t] == x && (x.Guarding? || x.Cleaning?)
    ensures forall i :: i in s'.used <==> i in s.used && !Releases(s, Run(t, o), i)
  {
  }

  lemma HeadIsHeld(s: State, t: Tid, i: nat)
    requires Shapes(s) && t in s.tasks && Head(s.tasks[t]) == Some(Slot(i))
    ensures Owns(s, OfTask(t), i) && (s.tasks[t].Guarding? || s.tasks[t].Cleaning?)
  {
    assert ShapeOk(s.tasks[t]);
  }

  lemma OthersNeverRelease(s: State, a: Action, s': State)
    requires Next(s, a, s') && !a.Run? && !a.Crash?
    ensures s'.used == s.used
  {
  }

  /**
    No double release. Whatever action is taken, short of a crash: a release is only ever executed on
    a used index that the stepping task owns; it frees the index, and nobody owns it afterwards; and
    no index is freed in any other way.
   */
  lemma ReleasedByOwner(s: State, a: Action, s': State, i: nat)
    requires Good(s) && Next(s, a, s') && !a.Crash?
    ensures Releases(s, a, i) <==> i in s.used && i !in s'.used
    ensures Releases(s, a, i) ==> Owns(s, OfTask(a.t), i) && forall p :: !Owns(s', p, i)
  {
    if a.Run? {
      var x := s.tasks[a.t];
      if !x.Guarding? && !x.Cleaning? { KeepsUsed(s, a.t, a.o, x, s'); }
      else { TeardownUsed(s, a.t, a.o, x, s'); }
      if Head(x) == Some(Slot(i)) { ReleaseIsOwned(s, a, s', i); }
    } else {
      OthersNeverRelease(s, a, s');
    }
  }

  lemma ReleaseIsOwned(s: State, a: Action, s': State, i: nat)
    requires Good(s) && Next(s, a, s') && a.Run? && Head(s.tasks[a.t]) == Some(Slot(i))
    ensures Owns(s, OfTask(a.t), i) && i in s.used
    ensures s.tasks[a.t].Guarding? || s.tasks[a.t].Cleaning?
    ensures i !in s'.used ==> forall p :: !Owns(s', p, i)
  {
    HeadIsHeld(s, a.t, i);
    assert Present(s, Slot(i));
    StepKeeps(s, a, s');
    assert i !in s'.used ==> !Present(s', Slot(i));
  }

  // ── Runs without panics and cancellations ──

  /** No job outlives its handler and no guard fires. */
  ghost predicate Calm(s: State) {
    forall t :: t in s.tasks ==> CalmTask(s.tasks[t])
  }

  predicate CalmTask(x: Task) {
    (x.Job? ==> x.attached) && !x.WantGuard? && !x.Guarding?
  }

  predicate CalmAction(a: Action) {
    !a.Abort? && !a.JobPanic? && !a.Crash?
  }

  /** Control flow: no step goes back before the insert, detaches a job or starts a guard. */
  predicate Follows(x: Task, y: Task) {
    && (BeforeInsert(y) ==> BeforeInsert(x) && y.id == x.id)
    && (CalmTask(x) ==> CalmTask(y))
  }

  ghost predicate Summary(s: State, t: Tid, x: Task, s': State) {
    && s'.ids == s.ids
    && (t in s'.tasks ==> Follows(x, s'.tasks[t]))
    && (forall u :: u in s'.tasks && u != t ==> u in s.tasks && s'.tasks[u] == s.tasks[u])
  }

  lemma AcquireSummary(s: State, t: Tid, o: Outcome, x: Task, s': State)
    requires Acquired(s, x).Some? && AcquireStep(s, t, o, x) == Some(s')
    ensures Summary(s, t, x, s')
  {
  }

  lemma JobSummary(s: State, t: Tid, o: Outcome, x: Task, s': State)
    requires x.Job? && !x.stage.PostAdd? && !x.stage.FilterAdd? && JobStep(s, t, o, x) == Some(s')
    ensures Summary(s, t, x, s')
  {
    match x.stage
    case CopyRootfs =>
    case Undo(_, _) =>
    case _ =>
  }

  lemma NatSummary(s: State, t: Tid, o: Outcome, x: Task, s': State)
    requires x.Job? && (x.stage.PostAdd? || x.stage.FilterAdd?) && JobStep(s, t, o, x) == Some(s')
    ensures Summary(s, t, x, s')
  {
  }

  lemma GuardSummary(s: State, t: Tid, o: Outcome, x: Task, s': State)
    requires x.Guarding? && GuardStep(s, t, o, x) == Some(s')
    ensures Summary(s, t, x, s')
  {
  }

  lemma CleanSummary(s: State, t: Tid, o: Outcome, x: Task, s': State)
    requires x.Cleaning? && CleanStep(s, t, o, x) == Some(s')
    ensures Summary(s, t, x, s')
  {
  }

  predicate TakesEntry(x: Task) {
    x.Abandoning? || x.Deleting? || x.Draining?
  }

  lemma TakeSummary(s: State, t: Tid, o: Outcome, x: Task, s': State)
    requires TakesEntry(x) && RunStep(s, t, o, x) == Some(s')
    ensures Summary(s, t, x, s')
  {
  }

  lemma RegionSummary(s: State, t: Tid, o: Outcome, x: Task, s': State)
    requires x.Allocating? || x.Reserving? || x.Booting? || x.Upgrading? || x.Reading?
    requires RunStep(s, t, o, x) == Some(s')
    ensures Summary(s, t, x, s')
  {
  }

  lemma RunSummary(s: State, t: Tid, o: Outcome, x: Task, s': State)
    requires RunStep(s, t, o, x) == Some(s')
    ensures Summary(s, t, x, s')
  {
    if Acquired(s, x).Some? { AcquireSummary(s, t, o, x, s'); }
    else if x.Job? && (x.stage.PostAdd? || x.stage.FilterAdd?) { NatSummary(s, t, o, x, s'); }
    else if x.Job? { JobSummary(s, t, o, x, s'); }
    else if x.Guarding? { GuardSummary(s, t, o, x, s'); }
    else if x.Cleaning? { CleanSummary(s, t, o, x, s'); }
    else if TakesEntry(x) { TakeSummary(s, t, o, x, s'); }
    else { RegionSummary(s, t, o, x, s'); }
  }

  lemma CalmKept(s: State, a: Action, s': State)
    requires Calm(s) && Next(s, a, s') && CalmAction(a)
    ensures Calm(s')
  {
    if a.Run? {
      RunSummary(s, a.t, a.o, s.tasks[a.t], s');
    }
  }

  /** Everything the host was asked to remove it removed, and every nft reply parsed. */
  predicate Tidy(s: State, a: Action) {
    a.Run? && a.t in s.tasks ==>
      var x, o := s.tasks[a.t], a.o;
      && (Head(x).Some? ==> o.ok)
      && (x.Booting? || x.Upgrading? ==> !o.left)
      && (x.Job? && (x.stage.PostAdd? || x.stage.FilterAdd?) && o.ok ==> o.parsed)
  }

  /** Without panics and cancellations no index is ever leaked; with tidy outcomes only rootfs copies are. */
  lemma CalmLeaks(s: State, a: Action)
    requires Shapes(s) && Calm(s) && CalmAction(a)
    ensures forall r :: r in Lost(s, a) ==> !r.Slot?
    ensures Tidy(s, a) ==> forall r :: r in Lost(s, a) ==> r.Rootfs?
  {
  }

  lemma {:induction false} CalmRun(ss: seq<State>, acts: seq<Action>, k: nat)
    requires IsRun(ss, acts) && Started(ss[0]) && k < |ss|
    requires forall j :: 0 <= j < |acts| ==> CalmAction(acts[j])
    ensures Good(ss[k]) && Calm(ss[k])
    ensures forall r :: Leaked(ss[k], r) ==> !r.Slot?
    ensures (forall j :: 0 <= j < |acts| ==> Tidy(ss[j], acts[j])) ==> forall r :: Leaked(ss[k], r) ==> r.Rootfs?
  {
    if k == 0 {
      StartedIsGood(ss[0]);
    } else {
      CalmRun(ss, acts, k - 1);
      CalmKept(ss[k - 1], acts[k - 1], ss[k]);
      CalmLeaks(ss[k - 1], acts[k - 1]);
      ActionConserves(ss[k - 1], acts[k - 1], ss[k]);
    }
  }

  /** With no task in flight both locks are free and only map entries hold anything. */
  lemma RestHoldings(s: State)
    requires Locks(s) && s.tasks == map[]
    ensures s.vmsLock == None && s.poolLock == None
    ensures forall t :: HoldsAt(s, OfTask(t)) == {}
    ensures forall id :: HoldsAt(s, OfEntry(id)) == if id in s.vms then EntryHolds(id, s.vms[id]) else {}
  {
    assert forall t :: s.vmsLock != Some(t) && s.poolLock != Some(t);
  }

  ghost predicate SomeEntryHolds(s: State, r: Resource) {
    exists id :: id in s.vms && r in EntryHolds(id, s.vms[id])
  }

  /** At rest, what exists and is not leaked is exactly what the map entries hold, each its own. */
  lemma AtRest(s: State, r: Resource)
    requires Good(s) && s.tasks == map[]
    ensures Present(s, r) && !Leaked(s, r) <==> SomeEntryHolds(s, r)
  {
    RestHoldings(s);
    if Present(s, r) && !Leaked(s, r) {
      var p :| r in HoldsAt(s, p);
      assert p.OfEntry? && r in EntryHolds(p.id, s.vms[p.id]);
    }
    if SomeEntryHolds(s, r) {
      var id :| id in s.vms && r in EntryHolds(id, s.vms[id]);
      assert r in HoldsAt(s, OfEntry(id));
    }
  }

  lemma EntrySlot(id: Id, e: Entry, i: nat)
    ensures Slot(i) in EntryHolds(id, e) <==> e.net.index == i
  {
  }

  /**
    Quiescent exactness of the pool: after any run without panics and cancellations, once no task
    is in flight, an index is used exactly when one map entry holds it.
   */
  lemma SlotsExact(ss: seq<State>, acts: seq<Action>, i: nat)
    requires IsRun(ss, acts) && Started(ss[0])
    requires forall j :: 0 <= j < |acts| ==> CalmAction(acts[j])
    requires ss[|acts|].tasks == map[]
    ensures var s := ss[|acts|];
            && (i in s.used <==> exists id :: id in s.vms && s.vms[id].net.index == i)
            && (forall a, b :: a in s.vms && b in s.vms && s.vms[a].net.index == i == s.vms[b].net.index ==> a == b)
  {
    var s := ss[|acts|];
    CalmRun(ss, acts, |acts|);
    RestHoldings(s);
    AtRest(s, Slot(i));
    assert i in s.used <==> SomeEntryHolds(s, Slot(i));
    if i in s.used {
      var id :| id in s.vms && Slot(i) in EntryHolds(id, s.vms[id]);
      EntrySlot(id, s.vms[id], i);
    }
    if id :| id in s.vms && s.vms[id].net.index == i {
      EntrySlot(id, s.vms[id], i);
    }
    forall a, b | a in s.vms && b in s.vms && s.vms[a].net.index == i == s.vms[b].net.index
      ensures a == b
    {
      if a != b { EntriesDistinct(s, a, b); }
    }
  }

  /**
    Quiescent exactness of the host: if cleanup commands and handle parses also succeeded, the taps,
    rules and VMM processes are exactly those of the map entries.
   */
  lemma HostExact(ss: seq<State>, acts: seq<Action>, r: Resource)
    requires IsRun(ss, acts) && Started(ss[0])
    requires forall j :: 0 <= j < |acts| ==> CalmAction(acts[j]) && Tidy(ss[j], acts[j])
    requires ss[|acts|].tasks == map[] && !r.Rootfs? && !r.Slot?
    ensures var s := ss[|acts|];
            r in s.world <==> SomeEntryHolds(s, r)
  {
    CalmRun(ss, acts, |acts|);
    AtRest(ss[|acts|], r);
  }
}
