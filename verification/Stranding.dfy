/**
  Placeholders nobody will finish: a `Creating` entry is left behind exactly when its guard loses the
  `try_lock` on the map, and then it stays until a shutdown or a restart.
 */
module Stranding {
  import opened Prelude
  import opened Lifecycle
  import opened Invariant
  import opened Conservation
  import opened Exactness
  import opened Refinement
  import LiveVms
  import Progress

  /** The guard of `id` gives up while the placeholder is in the map. */
  predicate Strands(s: State, a: Action, id: Id) {
    a.Run? && a.t in s.tasks && s.tasks[a.t] == WantGuard(id) && !a.o.ok && id in s.vms
  }

  ghost predicate StrandedAt(ss: seq<State>, acts: seq<Action>, j: nat, n: nat, id: Id)
    requires |ss| == |acts| + 1 && n <= |acts|
  {
    j < n && Strands(ss[j], acts[j], id) && forall k :: j < k < n ==> !acts[k].Crash?
  }

  /** The guard of `id` has given up since the last start. */
  ghost predicate StrandedSince(ss: seq<State>, acts: seq<Action>, n: nat, id: Id)
    requires |ss| == |acts| + 1 && n <= |acts|
  {
    exists j: nat :: StrandedAt(ss, acts, j, n, id)
  }

  lemma StrandedOneMore(ss: seq<State>, acts: seq<Action>, n: nat, id: Id)
    requires |ss| == |acts| + 1 && n < |acts|
    ensures StrandedSince(ss, acts, n + 1, id) <==>
            !acts[n].Crash? && (Strands(ss[n], acts[n], id) || StrandedSince(ss, acts, n, id))
  {
    if StrandedSince(ss, acts, n + 1, id) {
      var j: nat :| StrandedAt(ss, acts, j, n + 1, id);
      assert j < n ==> StrandedAt(ss, acts, j, n, id);
    }
    if Strands(ss[n], acts[n], id) { assert StrandedAt(ss, acts, n, n + 1, id); }
    if !acts[n].Crash? && StrandedSince(ss, acts, n, id) {
      var j: nat :| StrandedAt(ss, acts, j, n, id);
      assert StrandedAt(ss, acts, j, n + 1, id);
    }
  }

  // ── The invariant ──

  predicate Works(s: State, t: Tid, id: Id) {
    t in s.tasks && CreateId(s.tasks[t]) == Some(id)
  }

  ghost predicate Attended(s: State, id: Id) {
    exists t :: Works(s, t, id)
  }

  predicate IsPlaceholder(s: State, id: Id) {
    id in s.vms && s.vms[id].Creating?
  }

  /** A placeholder is attended or stranded; a stranded one has nobody, and never turns Running. */
  ghost predicate Kept(s: State, id: Id, stranded: bool) {
    && (IsPlaceholder(s, id) ==> stranded || Attended(s, id))
    && (stranded ==> id in s.ids && !Attended(s, id) && (id in s.vms ==> s.vms[id].Creating?))
  }

  // ── Steps ──

  /** No step takes over another create's id. */
  lemma IdFollows(s: State, t: Tid, o: Outcome, x: Task, s': State)
    requires RunStep(s, t, o, x) == Some(s') && t in s'.tasks
    ensures CreateId(s'.tasks[t]).Some? ==> CreateId(s'.tasks[t]) == CreateId(x)
  {
    if Acquired(s, x).Some? { AcquireIdFollows(s, t, o, x, s'); }
    else if x.Job? { JobIdFollows(s, t, o, x, s'); }
    else if x.Cleaning? || x.Guarding? { TeardownIdFollows(s, t, o, x, s'); }
    else if TakesEntry(x) { TakeIdFollows(s, t, o, x, s'); }
    else { RegionIdFollows(s, t, o, x, s'); }
  }

  lemma AcquireIdFollows(s: State, t: Tid, o: Outcome, x: Task, s': State)
    requires Acquired(s, x).Some? && AcquireStep(s, t, o, x) == Some(s') && t in s'.tasks
    ensures CreateId(s'.tasks[t]).Some? ==> CreateId(s'.tasks[t]) == CreateId(x)
  {
  }

  lemma RegionIdFollows(s: State, t: Tid, o: Outcome, x: Task, s': State)
    requires x.Allocating? || x.Reserving? || x.Booting? || x.Upgrading? || x.Reading?
    requires RunStep(s, t, o, x) == Some(s') && t in s'.tasks
    ensures CreateId(s'.tasks[t]).Some? ==> CreateId(s'.tasks[t]) == CreateId(x)
  {
  }

  lemma TakeIdFollows(s: State, t: Tid, o: Outcome, x: Task, s': State)
    requires TakesEntry(x) && RunStep(s, t, o, x) == Some(s') && t in s'.tasks
    ensures CreateId(s'.tasks[t]).Some? ==> CreateId(s'.tasks[t]) == CreateId(x)
  {
  }

  lemma TeardownIdFollows(s: State, t: Tid, o: Outcome, x: Task, s': State)
    requires (x.Cleaning? || x.Guarding?) && RunStep(s, t, o, x) == Some(s') && t in s'.tasks
    ensures CreateId(s'.tasks[t]).Some? ==> CreateId(s'.tasks[t]) == CreateId(x)
  {
    if x.todo == [] {
    } else if x.todo[0].Slot? {
    } else {
    }
  }

  lemma JobIdFollows(s: State, t: Tid, o: Outcome, x: Task, s': State)
    requires x.Job? && JobStep(s, t, o, x) == Some(s') && t in s'.tasks
    ensures CreateId(s'.tasks[t]).Some? ==> CreateId(s'.tasks[t]) == CreateId(x)
  {
    match x.stage
    case CopyRootfs =>
    case Undo(_, _) =>
    case _ =>
  }

  /** A create stays with its placeholder, or turns or removes it, or its guard gives up. */
  lemma CreatorStays(s: State, t: Tid, o: Outcome, x: Task, s': State)
    requires Good(s) && t in s.tasks && s.tasks[t] == x && CreateId(x).Some?
    requires RunStep(s, t, o, x) == Some(s') && IsPlaceholder(s', CreateId(x).value)
    ensures Works(s', t, CreateId(x).value) || Strands(s, Run(t, o), CreateId(x).value)
  {
    if BeforeInsert(x) {
      if !x.Reserving? { QuietRun(s, t, o, x, s'); }
    } else {
      assert PlaceholderOk(s, x);
      OwnerStays(s, t, o, x, s');
    }
  }

  lemma OwnerStays(s: State, t: Tid, o: Outcome, x: Task, s': State)
    requires t in s.tasks && s.tasks[t] == x && CreateId(x).Some? && !BeforeInsert(x) && PlaceholderOk(s, x)
    requires RunStep(s, t, o, x) == Some(s') && IsPlaceholder(s', CreateId(x).value)
    ensures Works(s', t, CreateId(x).value) || Strands(s, Run(t, o), CreateId(x).value)
  {
    if Acquired(s, x).Some? {
    } else if x.Cleaning? {
    } else if x.Guarding? {
    } else {
    }
  }

  lemma NewPlaceholder(s: State, t: Tid, o: Outcome, x: Task, s': State, id: Id)
    requires t in s.tasks && s.tasks[t] == x && RunStep(s, t, o, x) == Some(s')
    requires IsPlaceholder(s', id) && !IsPlaceholder(s, id)
    ensures Works(s', t, id)
  {
    if !Books(x) { QuietRun(s, t, o, x, s'); }
  }

  lemma PlaceholderAttended(s: State, t: Tid, o: Outcome, s': State, id: Id)
    requires Good(s) && Next(s, Run(t, o), s') && IsPlaceholder(s', id) && Attended(s, id)
    ensures Attended(s', id) || Strands(s, Run(t, o), id)
  {
    var u :| Works(s, u, id);
    if u == t { CreatorStays(s, t, o, s.tasks[t], s'); }
    else { Progress.RunPays(s, t, o, s.tasks[t], s'); assert Works(s', u, id); }
  }

  lemma NobodyComes(s: State, t: Tid, o: Outcome, s': State, id: Id)
    requires Good(s) && Next(s, Run(t, o), s') && (!Attended(s, id) || Strands(s, Run(t, o), id))
    ensures !Attended(s', id)
  {
    var x := s.tasks[t];
    RunSummary(s, t, o, x, s');
    forall u
      ensures !Works(s', u, id)
    {
      if u in s'.tasks {
        if u == t { IdFollows(s, t, o, x, s'); }
        assert !Works(s, u, id) || u == t;
      }
    }
  }

  lemma OnlyDrainTakes(s: State, t: Tid, o: Outcome, s': State, id: Id)
    requires Next(s, Run(t, o), s') && !Attended(s, id) && IsPlaceholder(s, id)
    ensures s.tasks[t].Draining? || (id in s'.vms && s'.vms[id] == s.vms[id])
  {
    assert !Works(s, t, id);
    if id !in s'.vms || s'.vms[id] != s.vms[id] { LiveVms.PlaceholderStable(s, t, o, s', id); }
  }

  lemma GoneStaysGone(s: State, t: Tid, o: Outcome, s': State, id: Id)
    requires Next(s, Run(t, o), s') && !Attended(s, id) && id !in s.vms
    ensures id !in s'.vms
  {
    var x := s.tasks[t];
    assert !Works(s, t, id);
    if !Books(x) { QuietRun(s, t, o, x, s'); }
  }

  lemma DrainTakesAway(s: State, t: Tid, o: Outcome, s': State, id: Id)
    requires Next(s, Run(t, o), s') && s.tasks[t].Draining? && id in s'.vms
    ensures id in s.vms && s'.vms[id] == s.vms[id]
  {
  }

  lemma RunKeepsStranded(s: State, t: Tid, o: Outcome, s': State, id: Id)
    requires Good(s) && Next(s, Run(t, o), s') && id in s.ids
    requires !Attended(s, id) && (id in s.vms ==> s.vms[id].Creating?)
    ensures Kept(s', id, true)
  {
    RunSummary(s, t, o, s.tasks[t], s');
    NobodyComes(s, t, o, s', id);
    if id !in s.vms { GoneStaysGone(s, t, o, s', id); }
    else if s.tasks[t].Draining? { if id in s'.vms { DrainTakesAway(s, t, o, s', id); } }
    else { OnlyDrainTakes(s, t, o, s', id); }
  }

  lemma RunStrands(s: State, t: Tid, o: Outcome, s': State, id: Id)
    requires Good(s) && Next(s, Run(t, o), s') && Strands(s, Run(t, o), id)
    ensures Kept(s', id, true)
  {
    NobodyComes(s, t, o, s', id);
    assert PlaceholderOk(s, s.tasks[t]);
    QuietRun(s, t, o, s.tasks[t], s');
    RunSummary(s, t, o, s.tasks[t], s');
  }

  lemma RunKept(s: State, t: Tid, o: Outcome, s': State, id: Id, stranded: bool)
    requires Good(s) && Next(s, Run(t, o), s') && Kept(s, id, stranded)
    ensures Kept(s', id, stranded || Strands(s, Run(t, o), id))
  {
    if stranded { RunKeepsStranded(s, t, o, s', id); }
    else if Strands(s, Run(t, o), id) { RunStrands(s, t, o, s', id); }
    else if IsPlaceholder(s', id) {
      if IsPlaceholder(s, id) { PlaceholderAttended(s, t, o, s', id); }
      else { NewPlaceholder(s, t, o, s.tasks[t], s', id); }
    }
  }

  /** A dropped create leaves its guard, unless it had no placeholder yet. */
  lemma DropKeepsId(s: State, a: Action, s': State, u: Tid, id: Id)
    requires Next(s, a, s') && (a.Abort? || a.JobPanic?)
    ensures Works(s', u, id) ==> Works(s, u, id)
    ensures Works(s, u, id) && !BeforeInsert(s.tasks[u]) ==> Works(s', u, id)
    ensures s'.ids == s.ids
  {
    if u == a.t {
      if a.Abort? { AbortKeepsId(s, s.tasks[u], u, a.left); }
    } else {
      OtherStays(s, a, s', u);
    }
  }

  lemma AbortKeepsId(s: State, x: Task, t: Tid, left: bool)
    requires t in s.tasks && s.tasks[t] == x
    ensures var s' := AbortStep(s, t, left, x);
            && (t in s'.tasks && CreateId(s'.tasks[t]).Some? ==> CreateId(s'.tasks[t]) == CreateId(x))
            && (CreateId(x).Some? && !BeforeInsert(x) && Abortable(x) ==>
                  t in s'.tasks && CreateId(s'.tasks[t]) == CreateId(x))
  {
  }

  lemma OtherStays(s: State, a: Action, s': State, u: Tid)
    requires Next(s, a, s') && (a.Abort? || a.JobPanic?) && u != a.t
    ensures u in s'.tasks <==> u in s.tasks
    ensures u in s.tasks ==> s'.tasks[u] == s.tasks[u]
  {
  }

  lemma DropKept(s: State, a: Action, s': State, id: Id, stranded: bool)
    requires Good(s) && Next(s, a, s') && (a.Abort? || a.JobPanic?) && Kept(s, id, stranded)
    ensures Kept(s', id, stranded)
  {
    OthersKeepEntries(s, a, s');
    forall u
      ensures Works(s', u, id) ==> Works(s, u, id)
      ensures Works(s, u, id) && IsPlaceholder(s, id) ==> Works(s', u, id)
      ensures s'.ids == s.ids
    {
      DropKeepsId(s, a, s', u, id);
      assert Works(s, u, id) && IsPlaceholder(s, id) ==> !BeforeInsert(s.tasks[u]);
    }
    DropKeepsId(s, a, s', 0, id);
  }

  lemma RequestKeepsId(s: State, a: Action, s': State, u: Tid, id: Id)
    requires Next(s, a, s') && Progress.IsRequest(a)
    ensures Works(s, u, id) ==> Works(s', u, id)
    ensures id in s.ids && Works(s', u, id) ==> Works(s, u, id)
    ensures s.ids <= s'.ids
  {
  }

  lemma RequestKept(s: State, a: Action, s': State, id: Id, stranded: bool)
    requires Next(s, a, s') && Progress.IsRequest(a) && Kept(s, id, stranded)
    ensures Kept(s', id, stranded)
  {
    OthersKeepEntries(s, a, s');
    forall u
      ensures Works(s, u, id) ==> Works(s', u, id)
      ensures id in s.ids && Works(s', u, id) ==> Works(s, u, id)
    {
      RequestKeepsId(s, a, s', u, id);
    }
    RequestKeepsId(s, a, s', 0, id);
  }

  lemma StepKept(s: State, a: Action, s': State, id: Id, stranded: bool)
    requires Good(s) && Next(s, a, s') && Kept(s, id, stranded)
    ensures Kept(s', id, !a.Crash? && (Strands(s, a, id) || stranded))
  {
    match a
    case Run(t, o) => RunKept(s, t, o, s', id, stranded);
    case Abort(_, _) => DropKept(s, a, s', id, stranded);
    case JobPanic(_, _) => DropKept(s, a, s', id, stranded);
    case Crash(_) =>
    case _ => RequestKept(s, a, s', id, stranded);
  }

  lemma {:induction false} KeptAlong(ss: seq<State>, acts: seq<Action>, n: nat, id: Id)
    requires IsRun(ss, acts) && Started(ss[0]) && n <= |acts|
    ensures Kept(ss[n], id, StrandedSince(ss, acts, n, id))
  {
    if n > 0 {
      KeptAlong(ss, acts, n - 1, id);
      KeptOneMore(ss, acts, n - 1, id);
    }
  }

  lemma KeptOneMore(ss: seq<State>, acts: seq<Action>, n: nat, id: Id)
    requires IsRun(ss, acts) && Started(ss[0]) && n < |acts| && Kept(ss[n], id, StrandedSince(ss, acts, n, id))
    ensures Kept(ss[n + 1], id, StrandedSince(ss, acts, n + 1, id))
  {
    RunKeeps(ss, acts, n);
    StepKept(ss[n], acts[n], ss[n + 1], id, StrandedSince(ss, acts, n, id));
    StrandedOneMore(ss, acts, n, id);
  }

  // ── At rest ──

  /**
    After any run whatever, once nothing is in flight, an entry of the map is still a placeholder if
    and only if its guard has lost the `try_lock` on the map since the last start.
   */
  lemma StrandedIff(ss: seq<State>, acts: seq<Action>, id: Id)
    requires IsRun(ss, acts) && Started(ss[0]) && ss[|acts|].tasks == map[] && id in ss[|acts|].vms
    ensures ss[|acts|].vms[id].Creating? <==> StrandedSince(ss, acts, |acts|, id)
  {
    KeptAlong(ss, acts, |acts|, id);
    assert forall t :: !Works(ss[|acts|], t, id);
  }

  /** After a run without panics and cancellations no placeholder is stranded. */
  lemma RestIsRunning(ss: seq<State>, acts: seq<Action>, id: Id)
    requires IsRun(ss, acts) && Started(ss[0]) && forall j :: 0 <= j < |acts| ==> CalmAction(acts[j])
    requires ss[|acts|].tasks == map[] && id in ss[|acts|].vms
    ensures ss[|acts|].vms[id].Running?
  {
    StrandedIff(ss, acts, id);
    forall j: nat | j < |acts|
      ensures !Strands(ss[j], acts[j], id)
    {
      CalmRun(ss, acts, j);
    }
  }

  /** A stranded placeholder stays as it is, whoever asks to delete it, until a drain takes it or a crash. */
  lemma StrandedStays(ss: seq<State>, acts: seq<Action>, n: nat, id: Id)
    requires IsRun(ss, acts) && Started(ss[0]) && n < |acts|
    requires id in ss[n].vms && StrandedSince(ss, acts, n, id)
    requires !acts[n].Crash? && !(acts[n].Run? && acts[n].t in ss[n].tasks && ss[n].tasks[acts[n].t].Draining?)
    ensures id in ss[n + 1].vms && ss[n + 1].vms[id] == ss[n].vms[id] && ss[n].vms[id].Creating?
  {
    KeptAlong(ss, acts, n, id);
    if acts[n].Run? { OnlyDrainTakes(ss[n], acts[n].t, acts[n].o, ss[n + 1], id); }
    else { OthersKeepEntries(ss[n], acts[n], ss[n + 1]); }
  }
}
