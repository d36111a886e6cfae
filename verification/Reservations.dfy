/**
  The reservation ledger: what create, delete and shutdown amount to when every lock region is
  one atomic step, and the proof that the concurrent system refines it.
 */
module Ledger {
  import opened Sums
  import opened VmConfig
  import L = Lifecycle

  datatype Booking = Booking(cfg: L.Config, live: bool)

  /** `spent` ids are never booked (again). */
  datatype Book = Book(cap: Capacity, booked: map<L.Id, Booking>, spent: set<L.Id>)

  datatype Event =
    | Quiet
    | Reserve(id: L.Id, cfg: L.Config)
    | RefuseVcpus(cfg: L.Config)
    | RefuseMemory(cfg: L.Config)
    | Promote(id: L.Id)
    | Release(id: L.Id)
    | Restart

  ghost function VcpusOf(booked: map<L.Id, Booking>): map<L.Id, nat> {
    map id | id in booked :: booked[id].cfg.vcpus
  }

  ghost function MemoryOf(booked: map<L.Id, Booking>): map<L.Id, nat> {
    map id | id in booked :: booked[id].cfg.memoryMb
  }

  ghost function BookedVcpus(b: Book): nat {
    Total(VcpusOf(b.booked))
  }

  ghost function BookedMemory(b: Book): nat {
    Total(MemoryOf(b.booked))
  }

  /** The request fits beside everything booked: plain sums, no saturation. */
  ghost predicate VcpusFit(b: Book, cfg: L.Config) {
    BookedVcpus(b) + cfg.vcpus <= b.cap.vcpus
  }

  ghost predicate MemoryFits(b: Book, cfg: L.Config) {
    BookedMemory(b) + cfg.memoryMb <= b.cap.AllocatableMemoryMb()
  }

  ghost predicate Step(b: Book, e: Event, b': Book) {
    && b'.cap == b.cap
    && b.spent <= b'.spent
    && match e
       case Quiet => b'.booked == b.booked
       case RefuseVcpus(cfg) => b'.booked == b.booked && !VcpusFit(b, cfg)
       case RefuseMemory(cfg) => b'.booked == b.booked && VcpusFit(b, cfg) && !MemoryFits(b, cfg)
       case Reserve(id, cfg) =>
         && id !in b.spent && id in b'.spent
         && VcpusFit(b, cfg) && MemoryFits(b, cfg)
         && b'.booked == b.booked[id := Booking(cfg, false)]
       case Promote(id) =>
         && id in b.booked && !b.booked[id].live
         && b'.booked == b.booked[id := Booking(b.booked[id].cfg, true)]
       case Release(id) =>
         && id in b.booked
         && b'.booked == b.booked - {id}
       case Restart => b'.booked == map[]
  }

  ghost predicate Sound(b: Book) {
    b.booked.Keys <= b.spent
  }

  /** Once booked, a configuration never changes; once released, an id never comes back. */
  lemma BookingIsForever(b: Book, e: Event, b': Book, id: L.Id)
    requires Sound(b) && Step(b, e, b') && id in b.spent
    ensures Sound(b')
    ensures id in b'.booked ==> id in b.booked && b'.booked[id].cfg == b.booked[id].cfg
    ensures id in b'.booked && b.booked[id].live ==> b'.booked[id].live
  {
  }
}

module Refinement {
  import opened Prelude
  import opened Sums
  import opened Lifecycle
  import opened Invariant
  import opened Conservation
  import opened Exactness
  import B = Ledger

  function Booked(vms: map<Id, Entry>): map<Id, B.Booking> {
    map id | id in vms :: B.Booking(vms[id].cfg, vms[id].Running?)
  }

  ghost predicate Pending(s: State, id: Id) {
    exists t :: t in s.tasks && BeforeInsert(s.tasks[t]) && s.tasks[t].id == id
  }

  ghost function Abs(s: State): B.Book {
    B.Book(s.cap, Booked(s.vms), set id | id in s.ids && !Pending(s, id))
  }

  /** The ledger event of an action; refusals and bookings take effect inside the `vms` lock. */
  ghost function EventOf(s: State, a: Action): B.Event {
    match a
    case Run(t, o) => if t in s.tasks then RunEvent(s, o, s.tasks[t]) else B.Quiet
    case Crash(_) => B.Restart
    case _ => B.Quiet
  }

  ghost function RunEvent(s: State, o: Outcome, x: Task): B.Event {
    match x
    case Reserving(id, cfg, _) =>
      (match Admit(s.cap, Total(Vcpus(s.vms)), Total(Memory(s.vms)), cfg)
       case Admitted => B.Reserve(id, cfg)
       case RefusedVcpus(_) => B.RefuseVcpus(cfg)
       case RefusedMemory(_) => B.RefuseMemory(cfg))
    case Upgrading(id, _, _) => if id in s.vms then B.Promote(id) else B.Quiet
    case Abandoning(id, _, _) => if id in s.vms then B.Release(id) else B.Quiet
    case Guarding(id, todo) => if todo == [] && id in s.vms then B.Release(id) else B.Quiet
    case Deleting(id) => if id in s.vms && s.vms[id].Running? then B.Release(id) else B.Quiet
    case Draining => if s.vms != map[] then B.Release(o.pick) else B.Quiet
    case _ => B.Quiet
  }

  // ── vms changes only where an event says so ──

  predicate Books(x: Task) {
    x.Reserving? || x.Upgrading? || x.Abandoning? || x.Guarding? || x.Deleting? || x.Draining?
  }

  lemma QuietRun(s: State, t: Tid, o: Outcome, x: Task, s': State)
    requires t in s.tasks && s.tasks[t] == x && !Books(x) && RunStep(s, t, o, x) == Some(s')
    ensures s'.vms == s.vms
  {
  }

  lemma BookedTotals(s: State)
    ensures B.BookedVcpus(Abs(s)) == Total(Vcpus(s.vms))
    ensures B.BookedMemory(Abs(s)) == Total(Memory(s.vms))
  {
    assert B.VcpusOf(Booked(s.vms)) == Vcpus(s.vms);
    assert B.MemoryOf(Booked(s.vms)) == Memory(s.vms);
  }

  lemma BookedPut(vms: map<Id, Entry>, id: Id, e: Entry)
    ensures Booked(vms[id := e]) == Booked(vms)[id := B.Booking(e.cfg, e.Running?)]
  {
  }

  lemma BookedTake(vms: map<Id, Entry>, id: Id)
    ensures Booked(vms - {id}) == Booked(vms) - {id}
  {
  }

  /** The id being reserved was never booked, and is spent from now on. */
  lemma ReservedId(s: State, t: Tid, x: Task, s': State)
    requires Good(s) && t in s.tasks && s.tasks[t] == x && x.Reserving? && s' == ReserveStep(s, t, x)
    ensures x.id !in Abs(s).spent
    ensures x.id in s'.vms ==> x.id in Abs(s').spent
  {
    assert Pending(s, x.id);
    ReservingKept(s, t, x, s');
  }

  lemma ReservingBooks(s: State, t: Tid, o: Outcome, x: Task, s': State)
    requires WithinCapacity(s) && x.Reserving? && s' == ReserveStep(s, t, x)
    requires Abs(s).spent <= Abs(s').spent
    requires x.id !in Abs(s).spent && (x.id in s'.vms ==> x.id in Abs(s').spent)
    ensures B.Step(Abs(s), RunEvent(s, o, x), Abs(s'))
  {
    BookedTotals(s);
    AdmitIsPlainSum(s.cap, Total(Vcpus(s.vms)), Total(Memory(s.vms)), x.cfg);
    BookedPut(s.vms, x.id, Creating(x.cfg, x.net));
  }

  lemma UpgradingBooks(s: State, t: Tid, o: Outcome, x: Task, s': State)
    requires PlaceholderOk(s, x) && x.Upgrading? && s' == UpgradeStep(s, t, o, x)
    requires Abs(s).spent <= Abs(s').spent
    ensures B.Step(Abs(s), RunEvent(s, o, x), Abs(s'))
  {
    if x.id in s.vms { BookedPut(s.vms, x.id, Running(s.vms[x.id].cfg, s.vms[x.id].net)); }
    else { assert s.vms - {x.id} == s.vms; }
  }

  lemma AbandoningBooks(s: State, t: Tid, o: Outcome, x: Task, s': State)
    requires x.Abandoning? && s' == AbandonStep(s, t, x)
    requires Abs(s).spent <= Abs(s').spent
    ensures B.Step(Abs(s), RunEvent(s, o, x), Abs(s'))
  {
    BookedTake(s.vms, x.id);
  }

  lemma GuardingBooks(s: State, t: Tid, o: Outcome, x: Task, s': State)
    requires x.Guarding? && GuardStep(s, t, o, x) == Some(s')
    requires Abs(s).spent <= Abs(s').spent
    ensures B.Step(Abs(s), RunEvent(s, o, x), Abs(s'))
  {
    BookedTake(s.vms, x.id);
    if x.id !in s.vms { assert s.vms - {x.id} == s.vms; }
  }

  lemma DeletingBooks(s: State, t: Tid, o: Outcome, x: Task, s': State)
    requires x.Deleting? && s' == DeleteStep(s, t, x)
    requires Abs(s).spent <= Abs(s').spent
    ensures B.Step(Abs(s), RunEvent(s, o, x), Abs(s'))
  {
    BookedTake(s.vms, x.id);
  }

  lemma DrainingBooks(s: State, t: Tid, o: Outcome, x: Task, s': State)
    requires x.Draining? && DrainStep(s, t, o) == Some(s')
    requires Abs(s).spent <= Abs(s').spent
    ensures B.Step(Abs(s), RunEvent(s, o, x), Abs(s'))
  {
    BookedTake(s.vms, o.pick);
  }

  lemma RunBooks(s: State, t: Tid, o: Outcome, x: Task, s': State)
    requires WithinCapacity(s) && PlaceholderOk(s, x)
    requires t in s.tasks && s.tasks[t] == x && RunStep(s, t, o, x) == Some(s')
    requires Abs(s).spent <= Abs(s').spent
    requires x.Reserving? ==> x.id !in Abs(s).spent && (x.id in s'.vms ==> x.id in Abs(s').spent)
    ensures B.Step(Abs(s), RunEvent(s, o, x), Abs(s'))
  {
    match x
    case Reserving(_, _, _) =>
      ReservingBooks(s, t, o, x, s');
    case Upgrading(_, _, _) => UpgradingBooks(s, t, o, x, s');
    case Abandoning(_, _, _) => AbandoningBooks(s, t, o, x, s');
    case Guarding(_, _) => GuardingBooks(s, t, o, x, s');
    case Deleting(_) => DeletingBooks(s, t, o, x, s');
    case Draining => DrainingBooks(s, t, o, x, s');
    case _ => QuietRun(s, t, o, x, s');
  }

  // ── Spent ids stay spent ──

  lemma PendingBefore(s: State, a: Action, s': State, t: Tid, id: Id)
    requires Ids(s) && Next(s, a, s') && id in s.ids
    requires t in s'.tasks && BeforeInsert(s'.tasks[t]) && s'.tasks[t].id == id
    ensures Pending(s, id)
  {
    if a.Run? { RunSummary(s, a.t, a.o, s.tasks[a.t], s'); }
    assert t in s.tasks && BeforeInsert(s.tasks[t]) && s.tasks[t].id == id;
  }

  lemma SpentStays(s: State, a: Action, s': State)
    requires Ids(s) && Next(s, a, s')
    ensures Abs(s).spent <= Abs(s').spent
  {
    if a.Run? { RunSummary(s, a.t, a.o, s.tasks[a.t], s'); }
    forall id | id in s.ids && !Pending(s, id)
      ensures id in s'.ids && !Pending(s', id)
    {
      if t :| t in s'.tasks && BeforeInsert(s'.tasks[t]) && s'.tasks[t].id == id {
        PendingBefore(s, a, s', t, id);
      }
    }
  }

  lemma AbsSound(s: State)
    requires Good(s)
    ensures B.Sound(Abs(s))
  {
    forall id | id in s.vms
      ensures id in s.ids && !Pending(s, id)
    {
    }
  }

  lemma RunStepRefines(s: State, t: Tid, o: Outcome, x: Task, s': State)
    requires Good(s) && t in s.tasks && s.tasks[t] == x && RunStep(s, t, o, x) == Some(s')
    requires Abs(s).spent <= Abs(s').spent
    ensures B.Step(Abs(s), RunEvent(s, o, x), Abs(s'))
  {
    assert PlaceholderOk(s, x);
    if x.Reserving? { ReservedId(s, t, x, s'); }
    RunBooks(s, t, o, x, s');
  }

  lemma OthersKeepEntries(s: State, a: Action, s': State)
    requires Next(s, a, s') && !a.Run? && !a.Crash?
    ensures s'.vms == s.vms && s'.cap == s.cap
  {
  }

  /** The concurrent system refines the ledger, step by step. */
  lemma StepRefines(s: State, a: Action, s': State)
    requires Good(s) && Next(s, a, s')
    ensures B.Step(Abs(s), EventOf(s, a), Abs(s'))
  {
    SpentStays(s, a, s');
    if a.Run? {
      RunStepRefines(s, a.t, a.o, s.tasks[a.t], s');
    } else if a.Crash? {
      assert Booked(s'.vms) == map[];
    } else {
      OthersKeepEntries(s, a, s');
    }
  }

  /** The map changes its abstract value only inside the `vms` lock: those are the linearization points. */
  lemma EventsUnderLock(s: State, t: Tid, o: Outcome)
    requires Good(s) && t in s.tasks && EventOf(s, Run(t, o)) != B.Quiet
    ensures s.vmsLock == Some(t)
  {
  }

  /** Every run of the server is a run of the ledger. */
  lemma RunRefines(ss: seq<State>, acts: seq<Action>, k: nat)
    requires IsRun(ss, acts) && Started(ss[0]) && k < |acts|
    ensures B.Step(Abs(ss[k]), EventOf(ss[k], acts[k]), Abs(ss[k + 1]))
  {
    RunKeeps(ss, acts, k);
    StepRefines(ss[k], acts[k], ss[k + 1]);
  }
}
