/**
  Exact accounts over whole runs, panics, cancellations, failed locks and crashes included: what has
  leaked, what is left when nothing is in flight, and how far the pool ever reaches.
 */
module Accounts {
  import opened Prelude
  import opened Lifecycle
  import opened Ownership
  import opened Conservation
  import opened Exactness
  import Pool = SubnetPools

  // ── Leaks ──

  /** The action loses `r`: as `Lost` says, or as what cleanup left behind after a crash. */
  ghost predicate Loses(s: State, a: Action, r: Resource) {
    if a.Crash? then r in a.kept else r in Lost(s, a)
  }

  /** Step `j` lost `r`, and nothing has crashed between it and state `n`. */
  ghost predicate LostAt(ss: seq<State>, acts: seq<Action>, j: nat, n: nat, r: Resource)
    requires |ss| == |acts| + 1 && n <= |acts|
  {
    j < n && Loses(ss[j], acts[j], r) && forall k :: j < k < n ==> !acts[k].Crash?
  }

  ghost predicate LostSince(ss: seq<State>, acts: seq<Action>, n: nat, r: Resource)
    requires |ss| == |acts| + 1 && n <= |acts|
  {
    exists j: nat :: LostAt(ss, acts, j, n, r)
  }

  lemma LostOneMore(ss: seq<State>, acts: seq<Action>, n: nat, r: Resource)
    requires |ss| == |acts| + 1 && n < |acts|
    ensures LostSince(ss, acts, n + 1, r) <==>
            Loses(ss[n], acts[n], r) || (!acts[n].Crash? && LostSince(ss, acts, n, r))
  {
    if LostSince(ss, acts, n + 1, r) {
      var j: nat :| LostAt(ss, acts, j, n + 1, r);
      assert j < n ==> LostAt(ss, acts, j, n, r);
    }
    if Loses(ss[n], acts[n], r) { assert LostAt(ss, acts, n, n + 1, r); }
    if !acts[n].Crash? && LostSince(ss, acts, n, r) {
      var j: nat :| LostAt(ss, acts, j, n, r);
      assert LostAt(ss, acts, j, n + 1, r);
    }
  }

  /** Leaked is exactly what has been lost since the server last started. */
  lemma {:induction false} RunLeaks(ss: seq<State>, acts: seq<Action>, n: nat, r: Resource)
    requires IsRun(ss, acts) && Started(ss[0]) && n <= |acts|
    ensures Leaked(ss[n], r) <==> LostSince(ss, acts, n, r)
  {
    if n == 0 {
      StartedIsGood(ss[0]);
    } else {
      RunLeaks(ss, acts, n - 1, r);
      LeakStep(ss, acts, n - 1, r);
    }
  }

  lemma LeakStep(ss: seq<State>, acts: seq<Action>, n: nat, r: Resource)
    requires IsRun(ss, acts) && Started(ss[0]) && n < |acts|
    requires Leaked(ss[n], r) <==> LostSince(ss, acts, n, r)
    ensures Leaked(ss[n + 1], r) <==> LostSince(ss, acts, n + 1, r)
  {
    RunKeeps(ss, acts, n);
    LostOneMore(ss, acts, n, r);
    LeakedByStep(ss[n], acts[n], ss[n + 1], r);
  }

  lemma LeakedByStep(s: State, a: Action, s': State, r: Resource)
    requires Good(s) && Next(s, a, s')
    ensures Leaked(s', r) <==> Loses(s, a, r) || (!a.Crash? && Leaked(s, r))
  {
    if a.Crash? { CrashConserves(s, a.kept, s'); } else { ActionConserves(s, a, s'); }
  }

  /** Without crashes: exactly what some action along the run has lost. */
  lemma CrashFreeLeaks(ss: seq<State>, acts: seq<Action>, n: nat, r: Resource)
    requires IsRun(ss, acts) && Started(ss[0]) && n <= |acts|
    requires forall k :: 0 <= k < |acts| ==> !acts[k].Crash?
    ensures Leaked(ss[n], r) <==> exists j: nat :: j < n && r in Lost(ss[j], acts[j])
  {
    RunLeaks(ss, acts, n, r);
    if j: nat :| j < n && r in Lost(ss[j], acts[j]) {
      assert LostAt(ss, acts, j, n, r);
    }
  }

  // ── At rest ──

  /**
    The account at rest: after any run whatever, once no task is in flight, a slot is used and a
    tap, rule, file or process exists exactly when one map entry holds it or it has been lost since
    the last start, and never both.
   */
  lemma RestAccount(ss: seq<State>, acts: seq<Action>, r: Resource)
    requires IsRun(ss, acts) && Started(ss[0]) && ss[|acts|].tasks == map[]
    ensures var s := ss[|acts|];
            && (Present(s, r) <==> SomeEntryHolds(s, r) || LostSince(ss, acts, |acts|, r))
            && !(SomeEntryHolds(s, r) && LostSince(ss, acts, |acts|, r))
            && (forall a, b :: a in s.vms && b in s.vms && r in EntryHolds(a, s.vms[a]) && r in EntryHolds(b, s.vms[b])
                               ==> a == b)
  {
    var s := ss[|acts|];
    RunKeeps(ss, acts, |acts|);
    RunLeaks(ss, acts, |acts|, r);
    AtRest(s, r);
    HeldIsNotLeaked(s, r);
    forall a, b | a in s.vms && b in s.vms && r in EntryHolds(a, s.vms[a]) && r in EntryHolds(b, s.vms[b])
      ensures a == b
    {
      OneHolder(s, a, b, r);
    }
  }

  lemma HeldIsNotLeaked(s: State, r: Resource)
    requires Good(s) && s.tasks == map[]
    ensures Leaked(s, r) ==> Present(s, r) && !SomeEntryHolds(s, r)
  {
    AtRest(s, r);
  }

  lemma OneHolder(s: State, a: Id, b: Id, r: Resource)
    requires Good(s) && s.tasks == map[] && a in s.vms && b in s.vms
    requires r in EntryHolds(a, s.vms[a]) && r in EntryHolds(b, s.vms[b])
    ensures a == b
  {
    RestHoldings(s);
    assert r in HoldsAt(s, OfEntry(a)) && r in HoldsAt(s, OfEntry(b));
  }

  /** At rest the map accounts for a resource exactly unless it has been lost since the last start. */
  lemma ExactIff(ss: seq<State>, acts: seq<Action>, r: Resource)
    requires IsRun(ss, acts) && Started(ss[0]) && ss[|acts|].tasks == map[]
    ensures (Present(ss[|acts|], r) <==> SomeEntryHolds(ss[|acts|], r)) <==> !LostSince(ss, acts, |acts|, r)
  {
    RestAccount(ss, acts, r);
  }

  /** The pool at rest: used means held by one entry, or a slot lost since the last start. */
  lemma PoolAccount(ss: seq<State>, acts: seq<Action>, i: nat)
    requires IsRun(ss, acts) && Started(ss[0]) && ss[|acts|].tasks == map[]
    ensures var s := ss[|acts|];
            var held := exists id :: id in s.vms && s.vms[id].net.index == i;
            && (i in s.used <==> held || LostSince(ss, acts, |acts|, Slot(i)))
            && !(held && LostSince(ss, acts, |acts|, Slot(i)))
  {
    var s := ss[|acts|];
    RestAccount(ss, acts, Slot(i));
    HeldByIndex(s, i);
  }

  lemma HeldByIndex(s: State, i: nat)
    ensures SomeEntryHolds(s, Slot(i)) <==> exists id :: id in s.vms && s.vms[id].net.index == i
  {
    if SomeEntryHolds(s, Slot(i)) {
      var id :| id in s.vms && Slot(i) in EntryHolds(id, s.vms[id]);
      EntrySlot(id, s.vms[id], i);
    }
    if id :| id in s.vms && s.vms[id].net.index == i {
      EntrySlot(id, s.vms[id], i);
    }
  }

  // ── How far the pool reaches ──

  /** The largest number of indices in use at once since the server last started. */
  function PeakUsed(ss: seq<State>, acts: seq<Action>, n: nat): nat
    requires |ss| == |acts| + 1 && n <= |acts|
  {
    var now := |ss[n].used|;
    if n == 0 || acts[n - 1].Crash? then now
    else
      var before := PeakUsed(ss, acts, n - 1);
      if now > before then now else before
  }

  /** Every action leaves the pool, frees indices, takes the least free one, or starts afresh. */
  lemma PoolMoves(s: State, a: Action, s': State)
    requires Good(s) && Next(s, a, s')
    ensures a.Crash? ==> s'.used == {}
    ensures s'.used <= s.used
            || (Pool.FirstFree(s.used).Some? && s'.used == s.used + {Pool.FirstFree(s.used).value})
  {
    if a.Run? {
      var x := s.tasks[a.t];
      if x.Guarding? || x.Cleaning? { TeardownUsed(s, a.t, a.o, x, s'); }
      else if x.Allocating? { TakesLeast(s, a.t, a.o, x, s'); }
      else { OthersKeepUsed(s, a.t, a.o, x, s'); }
    } else if !a.Crash? {
      OthersNeverRelease(s, a, s');
    }
  }

  lemma OthersKeepUsed(s: State, t: Tid, o: Outcome, x: Task, s': State)
    requires RunStep(s, t, o, x) == Some(s') && !x.Guarding? && !x.Cleaning? && !x.Allocating?
    ensures s'.used == s.used
  {
  }

  lemma TakesLeast(s: State, t: Tid, o: Outcome, x: Task, s': State)
    requires RunStep(s, t, o, x) == Some(s') && x.Allocating?
    ensures s'.used == s.used
            || (Pool.FirstFree(s.used).Some? && s'.used == s.used + {Pool.FirstFree(s.used).value})
  {
  }

  /**
    High water of the server: over every run an index in use is below the largest number of indices
    in use at once since the last start.
   */
  lemma {:induction false} IndicesBelowPeak(ss: seq<State>, acts: seq<Action>, n: nat)
    requires IsRun(ss, acts) && Started(ss[0]) && n <= |acts|
    ensures forall i :: i in ss[n].used ==> i < PeakUsed(ss, acts, n)
  {
    if n > 0 {
      IndicesBelowPeak(ss, acts, n - 1);
      RunKeeps(ss, acts, n - 1);
      PoolMoves(ss[n - 1], acts[n - 1], ss[n]);
      Pool.Dense(ss[n - 1].used, ss[n].used, PeakUsed(ss, acts, n - 1));
    }
  }
}
