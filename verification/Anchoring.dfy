/**
  Release last: a tap or rule of index i is there only while slot i is taken, by whoever holds it. The
  exact condition under which that holds, resource by resource, and the runs on which it holds for all.
 */
module Anchoring {
  import opened Prelude
  import opened Lifecycle
  import opened Ownership
  import opened Invariant
  import opened Conservation
  import opened Exactness
  import opened Accounts
  import Pool = SubnetPools

  /** The slot of a network resource is taken, and whoever holds the slot holds the resource. */
  ghost predicate AnchoredAt(s: State, r: Resource)
    requires OnNetwork(r)
  {
    r.index in s.used && forall p :: Slot(r.index) in HoldsAt(s, p) ==> r in HoldsAt(s, p)
  }

  // ── Holders ──

  lemma TaskHoldsSlot(x: Task, r: Resource)
    requires ShapeOk(x) && r in TaskHolds(x) && OnNetwork(r)
    ensures Slot(r.index) in TaskHolds(x)
  {
  }

  /** Whoever holds a tap or rule holds its slot. */
  lemma HolderHasSlot(s: State, p: Place, r: Resource)
    requires Shapes(s) && r in HoldsAt(s, p) && OnNetwork(r)
    ensures Slot(r.index) in HoldsAt(s, p)
  {
    if p.OfTask? { TaskHoldsSlot(s.tasks[p.t], r); }
  }

  // ── The exact condition ──

  /** A network resource is anchored exactly if it has not leaked, or its slot has leaked with it. */
  lemma AnchoredIff(s: State, r: Resource)
    requires Good(s) && r in s.world && OnNetwork(r)
    ensures AnchoredAt(s, r) <==> !Leaked(s, r) || Leaked(s, Slot(r.index))
  {
    assert Present(s, r);
    if !Leaked(s, r) { HeldIsAnchored(s, r); }
    assert AnchoredAt(s, r) || Leaked(s, Slot(r.index)) ==> Present(s, Slot(r.index));
  }

  lemma HeldIsAnchored(s: State, r: Resource)
    requires Good(s) && OnNetwork(r) && Present(s, r) && !Leaked(s, r)
    ensures AnchoredAt(s, r)
  {
    var p :| r in HoldsAt(s, p);
    HolderHasSlot(s, p, r);
    assert Present(s, Slot(r.index));
    forall q | Slot(r.index) in HoldsAt(s, q)
      ensures r in HoldsAt(s, q)
    {
      assert q == p;
    }
  }

  /**
    Over every run, panics, cancellations, failed locks and commands and crashes included: a tap or
    rule is anchored to its slot exactly unless it has been lost since the last start and its slot
    has not.
   */
  lemma RunAnchoredIff(ss: seq<State>, acts: seq<Action>, n: nat, r: Resource)
    requires IsRun(ss, acts) && Started(ss[0]) && n <= |acts| && r in ss[n].world && OnNetwork(r)
    ensures AnchoredAt(ss[n], r) <==>
            !LostSince(ss, acts, n, r) || LostSince(ss, acts, n, Slot(r.index))
  {
    RunKeeps(ss, acts, n);
    RunLeaks(ss, acts, n, r);
    RunLeaks(ss, acts, n, Slot(r.index));
    AnchoredIff(ss[n], r);
  }

  // ── Freshness ──

  /** A task about to add a tap finds the name taken exactly if that tap has leaked. */
  lemma TapAddMeets(s: State, t: Tid, i: nat)
    requires Good(s) && t in s.tasks && s.tasks[t].Job? && s.tasks[t].stage == TapAdd(i)
    ensures Tap(i) in s.world <==> Leaked(s, Tap(i))
  {
    assert Slot(i) in HoldsAt(s, OfTask(t)) && Tap(i) !in HoldsAt(s, OfTask(t));
    if Tap(i) in s.world && !Leaked(s, Tap(i)) {
      assert Present(s, Tap(i));
      HeldIsAnchored(s, Tap(i));
    }
  }

  /** Of a free index, there is on the host exactly what has leaked. */
  lemma FreeIndexShows(s: State, r: Resource)
    requires Good(s) && OnNetwork(r) && r.index !in s.used
    ensures r in s.world <==> Leaked(s, r)
  {
    if r in s.world && !Leaked(s, r) {
      assert Present(s, r);
      HeldIsAnchored(s, r);
    }
  }

  /**
    Freshness, exactly, over every run: `ip tuntap add` is run for a name that exists if and only if
    that tap has been lost since the last start, and a tap or rule of a free index, such as the one
    to be handed out next, is on the host if and only if it has been lost since then.
   */
  lemma RunFreshIff(ss: seq<State>, acts: seq<Action>, n: nat)
    requires IsRun(ss, acts) && Started(ss[0]) && n <= |acts|
    ensures forall t, i :: t in ss[n].tasks && ss[n].tasks[t].Job? && ss[n].tasks[t].stage == TapAdd(i) ==>
              (Tap(i) in ss[n].world <==> LostSince(ss, acts, n, Tap(i)))
    ensures forall r :: OnNetwork(r) && r.index !in ss[n].used ==>
              (r in ss[n].world <==> LostSince(ss, acts, n, r))
  {
    RunKeeps(ss, acts, n);
    forall t, i | t in ss[n].tasks && ss[n].tasks[t].Job? && ss[n].tasks[t].stage == TapAdd(i)
      ensures Tap(i) in ss[n].world <==> LostSince(ss, acts, n, Tap(i))
    {
      TapAddMeets(ss[n], t, i);
      RunLeaks(ss, acts, n, Tap(i));
    }
    forall r | OnNetwork(r) && r.index !in ss[n].used
      ensures r in ss[n].world <==> LostSince(ss, acts, n, r)
    {
      FreeIndexShows(ss[n], r);
      RunLeaks(ss, acts, n, r);
    }
  }

  // ── Runs on which everything stays anchored ──

  /** Taps, and the nft rules too when `rules` is set. */
  predicate IsNet(r: Resource, rules: bool) {
    r.Tap? || (rules && (r.Post? || r.Filter?))
  }

  ghost predicate Anchored(s: State, rules: bool) {
    forall r :: r in s.world && IsNet(r, rules) ==> AnchoredAt(s, r)
  }

  /** A cleanup command failed, or (for rules) nft's reply did not parse. */
  predicate Faulty(x: Task, o: Outcome, rules: bool) {
    || (Head(x).Some? && IsNet(Head(x).value, rules) && !o.ok)
    || (rules && x.Job? && (x.stage.PostAdd? || x.stage.FilterAdd?) && o.ok && !o.parsed)
  }

  predicate FaultyAction(s: State, a: Action, rules: bool) {
    match a
    case Run(t, o) => t in s.tasks && Faulty(s.tasks[t], o, rules)
    case Crash(kept) => exists r :: r in kept && IsNet(r, rules)
    case _ => false
  }

  /** Without a fault, an action that loses a network resource loses its slot in the same step. */
  lemma LostWithSlot(s: State, a: Action, r: Resource, rules: bool)
    requires Shapes(s) && !FaultyAction(s, a, rules) && IsNet(r, rules) && Loses(s, a, r)
    ensures !a.Crash? && Loses(s, a, Slot(r.index))
  {
    match a
    case Run(t, o) => RunLosesSlot(s, o, s.tasks[t], r, rules);
    case Abort(t, _) => TaskHoldsSlot(s.tasks[t], r);
    case JobPanic(t, _) => TaskHoldsSlot(s.tasks[t], r);
    case _ =>
  }

  lemma RunLosesSlot(s: State, o: Outcome, x: Task, r: Resource, rules: bool)
    requires ShapeOk(x) && !Faulty(x, o, rules) && IsNet(r, rules) && r in RunLost(s, o, x)
    ensures Slot(r.index) in RunLost(s, o, x)
  {
  }

  /** Every action without a fault keeps network state anchored: panics, cancellations, failed `try_lock`s. */
  lemma ActionAnchored(s: State, a: Action, s': State, rules: bool)
    requires Good(s) && Anchored(s, rules) && Next(s, a, s') && !FaultyAction(s, a, rules)
    ensures Anchored(s', rules)
  {
    StepKeeps(s, a, s');
    forall r | r in s'.world && IsNet(r, rules)
      ensures AnchoredAt(s', r)
    {
      AnchoredIff(s', r);
      if Leaked(s', r) { LeakIsAnchored(s, a, s', r, rules); }
    }
  }

  lemma LeakIsAnchored(s: State, a: Action, s': State, r: Resource, rules: bool)
    requires Good(s) && Anchored(s, rules) && Next(s, a, s') && !FaultyAction(s, a, rules)
    requires IsNet(r, rules) && Leaked(s', r)
    ensures Leaked(s', Slot(r.index))
  {
    LeakedByStep(s, a, s', r);
    LeakedByStep(s, a, s', Slot(r.index));
    if Loses(s, a, r) {
      LostWithSlot(s, a, r, rules);
    } else {
      assert Present(s, r);
      AnchoredIff(s, r);
    }
  }

  lemma StartedIsAnchored(s: State, rules: bool)
    requires Started(s)
    ensures Good(s) && Anchored(s, rules)
  {
    StartedIsGood(s);
  }

  /** Network state stays anchored to taken slots over runs whose cleanup commands succeed. */
  lemma {:induction false} RunAnchors(ss: seq<State>, acts: seq<Action>, rules: bool, k: nat)
    requires IsRun(ss, acts) && Started(ss[0]) && k < |ss|
    requires forall j :: 0 <= j < |acts| ==> !FaultyAction(ss[j], acts[j], rules)
    ensures Good(ss[k]) && Anchored(ss[k], rules)
  {
    if k == 0 {
      StartedIsAnchored(ss[0], rules);
    } else {
      RunAnchors(ss, acts, rules, k - 1);
      StepKeeps(ss[k - 1], acts[k - 1], ss[k]);
      ActionAnchored(ss[k - 1], acts[k - 1], ss[k], rules);
    }
  }

  /** There `ip tuntap add` meets no existing name, and no index comes back with leftovers. */
  lemma FreshIndices(s: State, rules: bool)
    requires Good(s) && Anchored(s, rules)
    ensures forall t, i :: t in s.tasks && s.tasks[t].Job? && s.tasks[t].stage == TapAdd(i) ==> Tap(i) !in s.world
    ensures forall r :: r in s.world && IsNet(r, rules) ==> Pool.FirstFree(s.used) != Some(r.index)
  {
    forall t, i | t in s.tasks && s.tasks[t].Job? && s.tasks[t].stage == TapAdd(i)
      ensures Tap(i) !in s.world
    {
      assert Slot(i) in HoldsAt(s, OfTask(t)) && Tap(i) !in HoldsAt(s, OfTask(t));
      assert Tap(i) in s.world ==> AnchoredAt(s, Tap(i));
    }
    forall r | r in s.world && IsNet(r, rules)
      ensures Pool.FirstFree(s.used) != Some(r.index)
    {
      assert AnchoredAt(s, r);
    }
  }
}
