/**
  Startup cleanup (src/firecracker/orphan.rs): the host as the tools show it, and the sweep that
  removes what a dead server left behind. Which commands fail is an input.
 */
module Orphans {
  import opened Prelude
  import opened Text
  import opened HostText

  /** The host, as a value. */
  datatype Snapshot = Snapshot(
    processes: set<nat>,         // firecracker processes of the jailer user
    workspaces: set<string>,     // directories under the jailer root
    images: set<string>,         // files in the vm-images directory
    links: seq<Link>,            // network interfaces
    chains: Option<seq<Chain>>,  // the nft table, if it exists
    logs: set<string>            // files in /tmp
  )

  // ── File names ──

  /** Position of the last dot. */
  function LastDot(name: string): (r: Option<nat>)
    ensures r.Some? ==> r.value < |name| && name[r.value] == '.' && '.' !in name[r.value + 1..]
    ensures r.None? ==> '.' !in name
  {
    if name == "" then None
    else if name[|name| - 1] == '.' then Some(|name| - 1)
    else
      match LastDot(name[..|name| - 1])
      case None => None
      case Some(k) =>
        assert name[k + 1..] == name[..|name| - 1][k + 1..] + [name[|name| - 1]];
        Some(k)
  }

  /** `Path::extension` of a file name: what follows the last dot, unless the dot comes first. */
  function Extension(name: string): Option<string> {
    match LastDot(name)
    case None => None
    case Some(k) => if k == 0 || name == ".." then None else Some(name[k + 1..])
  }

  predicate IsImage(name: string): (r: bool)
    ensures r <==> |name| > 5 && name[|name| - 5..] == ".ext4"
  {
    ImageNames(name);
    Extension(name) == Some("ext4")
  }

  predicate IsLog(name: string): (r: bool)
    ensures r <==> |name| >= 19 && name[..15] == "warlock-jailer-" && name[|name| - 4..] == ".log"
  {
    LogNames(name);
    StartsWith(name, "warlock-jailer-") && EndsWith(name, ".log")
  }

  lemma ImageNames(name: string)
    ensures Extension(name) == Some("ext4") <==> |name| > 5 && name[|name| - 5..] == ".ext4"
  {
    if |name| > 5 && name[|name| - 5..] == ".ext4" {
      assert name[|name| - 5] == '.' && name[|name| - 4..] == ".ext4"[1..] == "ext4";
      LastDotIs(name, |name| - 5);
    }
    if Extension(name) == Some("ext4") {
      var k := LastDot(name).value;
      assert name[k..] == "." + name[k + 1..];
    }
  }

  /** Prefix and suffix cannot overlap. */
  lemma LogNames(name: string)
    ensures StartsWith(name, "warlock-jailer-") && EndsWith(name, ".log") ==> |name| >= 19
  {
    if StartsWith(name, "warlock-jailer-") && EndsWith(name, ".log") {
      var prefix := "warlock-jailer-";
      assert forall k :: 0 <= k < |prefix| ==> name[k] == prefix[k] != '.';
      assert name[|name| - 4] == name[|name| - 4..][0] == '.';
    }
  }

  lemma {:induction false} LastDotIs(name: string, k: nat)
    requires k < |name| && name[k] == '.' && '.' !in name[k + 1..]
    ensures LastDot(name) == Some(k)
  {
    if k < |name| - 1 {
      var last := name[|name| - 1];
      assert last == name[k + 1..][|name| - k - 2];
      assert name[k + 1..] == name[..|name| - 1][k + 1..] + [last];
      LastDotIs(name[..|name| - 1], k);
    }
  }

  /** The image of a VM, `{id}.ext4`, is recognised whatever the id. */
  lemma ImageRecognised(id: string)
    requires id != ""
    ensures IsImage(id + ".ext4")
  {
    var name := id + ".ext4";
    assert name[|id| + 1..] == "ext4";
    LastDotIs(name, |id|);
  }

  lemma LogRecognised(id: string)
    ensures IsLog("warlock-jailer-" + id + ".log")
  {
    var name := "warlock-jailer-" + id + ".log";
    assert name[..15] == "warlock-jailer-" && name[|name| - 4..] == ".log";
  }

  // ── The sweep, as a function ──

  function Foreign(links: seq<Link>): seq<Link> {
    if links == [] then []
    else (if IsFcName(links[0].name) then [] else [links[0]]) + Foreign(links[1..])
  }

  function Minus(links: seq<Link>, names: set<string>): seq<Link> {
    if links == [] then []
    else (if links[0].name in names then [] else [links[0]]) + Minus(links[1..], names)
  }

  function Emptied(chains: seq<Chain>): (r: seq<Chain>)
    ensures |r| == |chains| && forall k :: 0 <= k < |r| ==> r[k] == Chain(chains[k].name, chains[k].hook, [])
  {
    if chains == [] then [] else [chains[0].(rules := [])] + Emptied(chains[1..])
  }

  function TableEmptied(chains: Option<seq<Chain>>): Option<seq<Chain>> {
    if chains.Some? then Some(Emptied(chains.value)) else None
  }

  predicate TableHasRule(chains: Option<seq<Chain>>) {
    chains.Some? && HasRule(chains.value)
  }

  ghost function Images(files: set<string>): set<string> {
    set n | n in files && IsImage(n)
  }

  ghost function Logs(files: set<string>): set<string> {
    set n | n in files && IsLog(n)
  }

  /** What a sweep whose commands all succeed leaves. */
  ghost function Sweep(h: Snapshot): Snapshot {
    Snapshot({}, {},
             h.images - Images(h.images),
             Foreign(h.links),
             TableEmptied(h.chains),
             h.logs - Logs(h.logs))
  }

  ghost predicate HasOrphans(h: Snapshot) {
    || h.processes != {}
    || h.workspaces != {}
    || Images(h.images) != {}
    || FcNames(h.links) != []
    || TableHasRule(h.chains)
    || Logs(h.logs) != {}
  }

  predicate LinksOk(links: seq<Link>) {
    forall k :: 0 <= k < |links| ==> LinkOk(links[k])
  }

  predicate ChainsOk(chains: Option<seq<Chain>>) {
    chains.Some? ==> forall k :: 0 <= k < |chains.value| ==> ChainOk(chains.value[k])
  }

  // ── Lemmas on links and chains ──

  function NameSet(names: seq<string>): set<string> {
    set n | n in names
  }

  lemma {:induction false} MinusTwice(links: seq<Link>, a: set<string>, b: set<string>)
    ensures Minus(Minus(links, a), b) == Minus(links, a + b)
  {
    if links != [] {
      MinusTwice(links[1..], a, b);
      if links[0].name !in a {
        assert Minus(links, a)[1..] == Minus(links[1..], a);
      } else {
        assert Minus(links, a) == Minus(links[1..], a);
      }
    }
  }

  lemma {:induction false} MinusNone(links: seq<Link>)
    ensures Minus(links, {}) == links
  {
    if links != [] { MinusNone(links[1..]); }
  }

  lemma {:induction false} MinusAllFc(links: seq<Link>, names: set<string>)
    requires forall n :: n in names ==> IsFcName(n)
    requires forall n :: n in FcNames(links) ==> n in names
    ensures Minus(links, names) == Foreign(links)
  {
    if links != [] {
      assert forall n :: n in FcNames(links[1..]) ==> n in FcNames(links);
      assert IsFcName(links[0].name) ==> FcNames(links)[0] == links[0].name;
      MinusAllFc(links[1..], names);
    }
  }

  /** The positions of the links that stay. */
  lemma {:induction false} MinusAt(links: seq<Link>, names: set<string>) returns (at: seq<nat>)
    ensures |at| == |Minus(links, names)|
    ensures forall j, k :: 0 <= j < k < |at| ==> at[j] < at[k]
    ensures forall k :: 0 <= k < |at| ==> at[k] < |links| && Minus(links, names)[k] == links[at[k]]
    ensures forall j :: 0 <= j < |links| ==> (j !in at <==> links[j].name in names)
  {
    if links == [] {
      at := [];
    } else {
      var init, last := links[..|links| - 1], links[|links| - 1];
      at := MinusAt(init, names);
      MinusSnoc(init, last, names);
      assert links == init + [last];
      if last.name !in names { at := at + [|init|]; }
    }
  }

  lemma {:induction false} MinusSnoc(links: seq<Link>, last: Link, names: set<string>)
    ensures Minus(links + [last], names) == Minus(links, names) + if last.name in names then [] else [last]
  {
    if links != [] {
      MinusSnoc(links[1..], last, names);
      assert (links + [last])[1..] == links[1..] + [last];
    }
  }

  predicate Listed(links: seq<Link>, name: string) {
    exists k :: 0 <= k < |links| && links[k].name == name
  }

  lemma ListedSplit(links: seq<Link>, name: string)
    requires links != []
    ensures Listed(links, name) <==> links[0].name == name || Listed(links[1..], name)
  {
    if k :| 0 < k < |links| && links[k].name == name { assert links[1..][k - 1].name == name; }
    if k :| 0 <= k < |links[1..]| && links[1..][k].name == name { assert links[k + 1].name == name; }
  }

  /** The fc names of a list, as a set. */
  lemma {:induction false} FcNamesAre(links: seq<Link>)
    ensures forall n :: n in FcNames(links) <==> IsFcName(n) && Listed(links, n)
  {
    if links != [] {
      FcNamesAre(links[1..]);
      forall n
        ensures n in FcNames(links) <==> IsFcName(n) && Listed(links, n)
      {
        ListedSplit(links, n);
      }
    }
  }

  lemma {:induction false} EmptiedIsSame(chains: seq<Chain>)
    requires !HasRule(chains)
    ensures Emptied(chains) == chains
  {
    if chains != [] {
      HasRuleSplit(chains);
      EmptiedIsSame(chains[1..]);
      assert chains[0].(rules := []) == chains[0];
    }
  }

  // ── The sweep, as it runs ──

  /** What the commands of one sweep achieve. */
  datatype SweepAnswers = SweepAnswers(
    pkill: bool,                // pkill can be run
    slow: set<nat>,             // processes that survive SIGTERM
    unkillable: set<nat>,       // and SIGKILL
    workspaces: set<string>,    // names whose removal fails
    images: set<string>,
    linksListed: bool,          // `ip -o link show`
    links: set<string>,         // links that cannot be deleted
    tableListed: bool,          // `nft list table`
    tableFlushed: bool,         // `nft flush table`
    logs: set<string>
  )

  /** Nothing that the sweep should remove resists it. */
  ghost predicate Works(h: Snapshot, a: SweepAnswers) {
    && a.pkill && h.processes !! (a.slow * a.unkillable)
    && h.workspaces !! a.workspaces
    && Images(h.images) !! a.images
    && a.linksListed && FcGoes(h.links, a.links)
    && (h.chains.Some? ==> a.tableListed && a.tableFlushed)
    && Logs(h.logs) !! a.logs
  }

  /** The positions `at` of `before` that make up `after`, in order: all but those of the fc links outside `stuck`. */
  ghost predicate KeepsOthers(before: seq<Link>, after: seq<Link>, at: seq<nat>, stuck: set<string>) {
    && |at| == |after|
    && (forall j, k :: 0 <= j < k < |at| ==> at[j] < at[k])
    && (forall k :: 0 <= k < |at| ==> at[k] < |before| && after[k] == before[at[k]])
    && (forall j :: 0 <= j < |before| ==> (j !in at <==> IsFcName(before[j].name) && before[j].name !in stuck))
  }

  ghost predicate FcOutside(links: seq<Link>, stuck: set<string>) {
    exists k :: 0 <= k < |links| && IsFcName(links[k].name) && links[k].name !in stuck
  }

  ghost predicate FcGoes(links: seq<Link>, stuck: set<string>) {
    forall n :: n in FcNames(links) ==> n !in stuck
  }

  lemma LinksSwept(links: seq<Link>, stuck: set<string>) returns (at: seq<nat>)
    ensures KeepsOthers(links, Minus(links, NameSet(FcNames(links)) - stuck), at, stuck)
    ensures NameSet(FcNames(links)) - stuck != {} <==> FcOutside(links, stuck)
    ensures FcGoes(links, stuck) ==> Minus(links, NameSet(FcNames(links)) - stuck) == Foreign(links)
    ensures FcGoes(links, stuck) ==> (FcOutside(links, stuck) <==> FcNames(links) != [])
  {
    var gone := NameSet(FcNames(links)) - stuck;
    at := MinusAt(links, gone);
    FcNamesAre(links);
    forall j | 0 <= j < |links|
      ensures links[j].name in gone <==> IsFcName(links[j].name) && links[j].name !in stuck
    {
      assert Listed(links, links[j].name);
    }
    if gone != {} {
      var n :| n in gone;
      assert Listed(links, n);
    }
    if FcGoes(links, stuck) {
      MinusAllFc(links, gone);
      assert FcNames(links) != [] ==> FcNames(links)[0] in gone;
    }
  }

  lemma CleanSweep(h: Snapshot, h': Snapshot, a: SweepAnswers)
    requires Works(h, a)
    requires h'.processes == h.processes * a.slow * a.unkillable && h'.workspaces == h.workspaces * a.workspaces
    requires h'.images == h.images - (Images(h.images) - a.images) && h'.logs == h.logs - (Logs(h.logs) - a.logs)
    requires h'.links == Foreign(h.links)
    requires h'.chains == if a.tableListed && a.tableFlushed then TableEmptied(h.chains) else h.chains
    ensures h' == Sweep(h)
    ensures HasOrphans(h) <==>
            || h.processes != {}
            || h.workspaces - a.workspaces != {}
            || Images(h.images) - a.images != {}
            || FcNames(h.links) != []
            || (TableHasRule(h.chains) && a.tableListed && a.tableFlushed)
            || Logs(h.logs) - a.logs != {}
  {
  }

  class Host {
    var processes: set<nat>
    var workspaces: set<string>
    var images: set<string>
    var links: seq<Link>
    var chains: Option<seq<Chain>>
    var logs: set<string>

    ghost function Snap(): Snapshot
      reads this
    {
      Snapshot(processes, workspaces, images, links, chains, logs)
    }

    /** pkill twice: SIGTERM, and SIGKILL for whatever survives it. */
    method KillOrphanedProcesses(a: SweepAnswers) returns (found: bool)
      modifies this`processes
      ensures found <==> a.pkill && old(processes) != {}
      ensures processes == if a.pkill then old(processes) * a.slow * a.unkillable else old(processes)
    {
      if !a.pkill || processes == {} {
        return false;
      }
      processes := processes * a.slow;
      processes := processes * a.unkillable;
      found := true;
    }

    /** Every directory goes, but for those that cannot be removed. */
    method RemoveStaleWorkspaces(a: SweepAnswers) returns (found: bool)
      modifies this`workspaces
      ensures workspaces == old(workspaces) * a.workspaces
      ensures found <==> old(workspaces) - a.workspaces != {}
      ensures !found ==> workspaces == old(workspaces)
    {
      found := false;
      var rest := workspaces;
      while rest != {}
        invariant rest <= old(workspaces) && workspaces == rest + (old(workspaces) * a.workspaces)
        invariant found <==> old(workspaces) - rest - a.workspaces != {}
        decreases rest
      {
        var name :| name in rest;
        if name !in a.workspaces {
          workspaces := workspaces - {name};
          assert name in old(workspaces) - (rest - {name}) - a.workspaces;
          found := true;
        } else {
          assert old(workspaces) - (rest - {name}) - a.workspaces == old(workspaces) - rest - a.workspaces;
        }
        rest := rest - {name};
      }
    }

    /** Only `*.ext4` files go; a failed removal is skipped. */
    method RemoveStaleImages(a: SweepAnswers) returns (found: bool)
      modifies this`images
      ensures images == old(images) - (Images(old(images)) - a.images)
      ensures found <==> Images(old(images)) - a.images != {}
    {
      found := false;
      var rest := images;
      while rest != {}
        invariant rest <= old(images)
        invariant images == old(images) - (Images(old(images) - rest) - a.images)
        invariant found <==> Images(old(images) - rest) - a.images != {}
        decreases rest
      {
        var name :| name in rest;
        var next := rest - {name};
        assert Images(old(images) - next) == Images(old(images) - rest) + if IsImage(name) then {name} else {};
        if IsImage(name) && name !in a.images {
          images := images - {name};
          found := true;
        }
        rest := next;
      }
      assert old(images) - rest == old(images);
    }

    /** Lists the interfaces, recognises the fc ones in the text and deletes them one by one. */
    method RemoveStaleTapDevices(a: SweepAnswers) returns (found: bool, ghost at: seq<nat>)
      requires LinksOk(links)
      modifies this`links
      ensures !a.linksListed ==> !found
      ensures !found ==> links == old(links)
      ensures a.linksListed ==> KeepsOthers(old(links), links, at, a.links)
      ensures a.linksListed ==> (found <==> FcOutside(old(links), a.links))
      ensures a.linksListed && FcGoes(old(links), a.links) ==> (found <==> FcNames(old(links)) != [])
      ensures a.linksListed && FcGoes(old(links), a.links) ==> links == Foreign(old(links))
    {
      if !a.linksListed { return false, []; }
      var names := ParseFcTapDevices(RenderLinks(links));
      ListingRecognised(links);
      MinusNone(links);
      found := false;
      ghost var gone: set<string> := {};
      for k := 0 to |names|
        invariant gone == NameSet(names[..k]) - a.links && links == Minus(old(links), gone)
        invariant found <==> gone != {}
      {
        assert NameSet(names[..k + 1]) == NameSet(names[..k]) + {names[k]};
        if names[k] !in a.links {
          MinusTwice(old(links), gone, {names[k]});
          links := Minus(links, {names[k]});
          gone := gone + {names[k]};
          found := true;
        }
      }
      assert names[..|names|] == names;
      at := LinksSwept(old(links), a.links);
    }

    /** Lists the table and flushes it only if the text shows a rule. */
    method FlushNftablesRules(a: SweepAnswers) returns (found: bool)
      requires ChainsOk(chains)
      modifies this`chains
      ensures found <==> TableHasRule(old(chains)) && a.tableListed && a.tableFlushed
      ensures chains == if a.tableListed && a.tableFlushed then TableEmptied(old(chains)) else old(chains)
      ensures !found ==> chains == old(chains)
    {
      if chains.None? || !a.tableListed { return false; }
      TableRecognised(chains.value);
      var hasRules := HasNftablesRules(RenderTable(chains.value));
      found := hasRules && a.tableFlushed;
      if !hasRules { EmptiedIsSame(chains.value); }
      if found { chains := Some(Emptied(chains.value)); }
    }

    method RemoveStaleLogs(a: SweepAnswers) returns (found: bool)
      modifies this`logs
      ensures logs == old(logs) - (Logs(old(logs)) - a.logs)
      ensures found <==> Logs(old(logs)) - a.logs != {}
    {
      found := false;
      var rest := logs;
      while rest != {}
        invariant rest <= old(logs)
        invariant logs == old(logs) - (Logs(old(logs) - rest) - a.logs)
        invariant found <==> Logs(old(logs) - rest) - a.logs != {}
        decreases rest
      {
        var name :| name in rest;
        var next := rest - {name};
        assert Logs(old(logs) - next) == Logs(old(logs) - rest) + if IsLog(name) then {name} else {};
        if IsLog(name) && name !in a.logs {
          logs := logs - {name};
          found := true;
        }
        rest := next;
      }
      assert old(logs) - rest == old(logs);
    }

    /**
      The clean sweep. If nothing resists it the host is swept, and it reports a find exactly when
      there was something. In any case a find is reported when anything went, links that are not named
      "fc" and digits stay, in order, and so do all files but images and jailer logs.
     */
    method CleanupOrphans(a: SweepAnswers) returns (found: bool, ghost at: seq<nat>)
      requires LinksOk(links) && ChainsOk(chains)
      modifies this
      ensures Works(old(Snap()), a) ==> Snap() == Sweep(old(Snap())) && (found <==> HasOrphans(old(Snap())))
      ensures if a.linksListed then KeepsOthers(old(links), links, at, a.links) else links == old(links)
      ensures images == old(images) - (Images(old(images)) - a.images)
      ensures logs == old(logs) - (Logs(old(logs)) - a.logs)
      ensures Snap() != old(Snap()) ==> found
    {
      ghost var before := Snap();
      var found1 := KillOrphanedProcesses(a);
      var found2 := RemoveStaleWorkspaces(a);
      var found3 := RemoveStaleImages(a);
      var found4, at' := RemoveStaleTapDevices(a);
      at := at';
      var found5 := FlushNftablesRules(a);
      var found6 := RemoveStaleLogs(a);
      found := found1 || found2 || found3 || found4 || found5 || found6;
      if Works(before, a) { CleanSweep(before, Snap(), a); }
    }
  }
}
