/**
  Network setup and teardown of one VM as the host commands run in sequence
  (src/firecracker/network.rs, and the closure of create that calls them). Every command may fail.
 */
module NetworkSetup {
  import opened Prelude
  import opened Lifecycle

  function NetParts(net: Net): set<Resource> {
    {Tap(net.index), Post(net.post, net.index), Filter(net.filter, net.index)}
  }

  /** A tap that does not exist yet, and two handles nft is not using. */
  ghost predicate NewNet(world: set<Resource>, net: Net) {
    Tap(net.index) !in world && FreshHandle(world, net.post) && FreshHandle(world, net.filter) && net.post != net.filter
  }

  /** What a failed setup can leave: the tap, or the first rule, or both rules if the second was unreadable. */
  ghost predicate LeftBy(before: set<Resource>, net: Net, after: set<Resource>) {
    && NewNet(before, net)
    && before <= after <= before + NetParts(net)
    && (Filter(net.filter, net.index) in after ==> Post(net.post, net.index) in after)
  }

  ghost predicate FailsTo(before: set<Resource>, i: nat, after: set<Resource>) {
    after == before || exists net: Net :: net.index == i && LeftBy(before, net, after)
  }

  /**
    How the commands of one setup answer: `ip tuntap add`, `ip addr add`, `ip link set up`, and each
    `nft add rule` with whether a handle could be read from its reply.
   */
  datatype NetAnswers = NetAnswers(tapAdd: bool, tapAddr: bool, tapUp: bool,
                                   post: bool, postRead: bool, filter: bool, filterRead: bool) {
    predicate TapWorks() { tapAdd && tapAddr && tapUp }

    predicate RulesWork() { post && postRead && filter && filterRead }
  }

  /** The rules a failing `AddNatRules` leaves when the removals of `stuck` fail. */
  function RulesLeft(a: NetAnswers, net: Net, stuck: set<Resource>): set<Resource> {
    var post, filter := Post(net.post, net.index), Filter(net.filter, net.index);
    if !a.post then {}
    else if !a.postRead then {post}
    else if !a.filter then {post} * stuck
    else {post, filter}
  }

  /** What a failing setup of a new tap leaves. */
  function SetUpLeft(a: NetAnswers, net: Net, stuck: set<Resource>): set<Resource> {
    if !a.tapAdd then {}
    else ({Tap(net.index)} * stuck) + if a.TapWorks() then RulesLeft(a, net, stuck) else {}
  }

  class NetHost {
    var world: set<Resource>
    var stuck: set<Resource>   // what the host refuses to remove; the failure is logged and otherwise ignored

    /** nft handles are unique within the table, and pool slots are not on the host. */
    ghost predicate Valid()
      reads this`world
    {
      && (forall r, x :: r in world && x in world && SameRule(r, x) ==> r == x)
      && (forall r :: r in world ==> !r.Slot?)
    }

    // ── Single commands ──

    /** `ip tuntap add`: refuses a name that exists. */
    method TuntapAdd(i: nat, works: bool) returns (ok: bool)
      modifies this`world
      ensures ok <==> works && Tap(i) !in old(world)
      ensures world == old(world) + if ok then {Tap(i)} else {}
    {
      ok := works && Tap(i) !in world;
      if ok { world := world + {Tap(i)}; }
    }

    /** A command that undoes or cleans up. */
    method Delete(r: Resource)
      requires Valid()
      modifies this`world
      ensures Valid()
      ensures world == old(world) - ({r} - stuck)
    {
      if r !in stuck { world := world - {r}; }
    }

    /** A file or process appears. */
    method Add(r: Resource)
      requires Valid() && (r.Rootfs? || r.Vmm?)
      modifies this`world
      ensures Valid() && world == old(world) + {r}
    {
      world := world + {r};
    }

    method DeleteTap(i: nat)
      requires Valid()
      modifies this`world
      ensures Valid() && world == old(world) - ({Tap(i)} - stuck)
    {
      Delete(Tap(i));
    }

    /** `nft -ae add rule`: the rule, for a chain, gets a handle no rule of the table has. */
    method NftAdd(masquerade: bool, i: nat, works: bool) returns (r: Option<nat>)
      requires Valid()
      modifies this`world
      ensures Valid()
      ensures r.Some? <==> works
      ensures r.Some? ==> FreshHandle(old(world), r.value)
      ensures world == old(world) + if r.Some? then {RuleFor(masquerade, r.value, i)} else {}
    {
      if !works { return None; }
      FreshHandleExists(world);
      var h: nat :| FreshHandle(world, h);
      world := world + {RuleFor(masquerade, h, i)};
      r := Some(h);
    }

    // ── The functions of network.rs ──

    method CreateTap(i: nat, a: NetAnswers) returns (ok: bool)
      requires Valid()
      modifies this`world
      ensures Valid()
      ensures ok <==> Tap(i) !in old(world) && a.TapWorks()
      ensures world == old(world) + if ok then {Tap(i)}
                                    else if Tap(i) !in old(world) && a.tapAdd then {Tap(i)} * stuck
                                    else {}
    {
      ok := TuntapAdd(i, a.tapAdd);
      if !ok { return; }
      ok := a.tapAddr && a.tapUp;         // ip addr add, then ip link set up
      if !ok { Delete(Tap(i)); }
    }

    /**
      Postrouting first, then filter; only a failed filter command rolls the first rule back. `net`
      names the rules that were tried.
     */
    method AddNatRules(i: nat, a: NetAnswers) returns (r: Option<Net>, ghost net: Net)
      requires Valid()
      modifies this`world
      ensures Valid()
      ensures r == if a.RulesWork() then Some(net) else None
      ensures net.index == i && net.post != net.filter
      ensures FreshHandle(old(world), net.post) && FreshHandle(old(world), net.filter)
      ensures world == old(world) + if a.RulesWork() then {Post(net.post, i), Filter(net.filter, i)}
                                    else RulesLeft(a, net, stuck)
    {
      var post := NftAdd(true, i, a.post);
      if post.None? || !a.postRead {
        ghost var h := if post.Some? then post.value else OtherHandle(world, 0);
        return None, Net(i, h, OtherHandle(world, h));
      }
      var filter := NftAdd(false, i, a.filter);
      if filter.None? {
        net := Net(i, post.value, OtherHandle(world, post.value));
        Delete(Post(post.value, i));
        return None, net;
      }
      net := Net(i, post.value, filter.value);
      r := if a.filterRead then Some(Net(i, post.value, filter.value)) else None;
    }

    method RemoveNatRules(net: Net)
      requires Valid()
      modifies this`world
      ensures Valid()
      ensures world == old(world) - ({Post(net.post, net.index), Filter(net.filter, net.index)} - stuck)
    {
      Delete(Post(net.post, net.index));
      Delete(Filter(net.filter, net.index));
    }

    // ── All or nothing ──

    /**
      The setup job of create. It succeeds exactly when the tap is new and every command worked, and
      then one tap and two rules are new, and they are this VM's. When it fails, what stays behind
      follows from the command that failed. Nothing that was there is ever removed.
     */
    method SetUp(i: nat, a: NetAnswers) returns (r: Option<Net>, ghost net: Net)
      requires Valid()
      modifies this`world
      ensures Valid()
      ensures r == if Tap(i) !in old(world) && a.TapWorks() && a.RulesWork() then Some(net) else None
      ensures net.index == i && (Tap(i) !in old(world) ==> NewNet(old(world), net))
      ensures r.Some? ==> NetParts(net) !! old(world) && world == old(world) + NetParts(net)
      ensures r.None? ==> world == old(world) + if Tap(i) in old(world) then {} else SetUpLeft(a, net, stuck)
      ensures r.None? && stuck == {} && (a.post ==> a.postRead) && (a.filter ==> a.filterRead) ==>
              world == old(world)
      ensures r.None? ==> FailsTo(old(world), i, world)
    {
      ghost var before := world;
      var ok := CreateTap(i, a);
      if !ok {
        ghost var post := OtherHandle(before, 0);
        net := Net(i, post, OtherHandle(before, post));
        assert world != before ==> LeftBy(before, net, world);
        return None, net;
      }
      r, net := AddNatRules(i, a);
      if r.None? {
        DeleteTap(i);
        assert LeftBy(before, net, world);
      }
    }

    /** Teardown in the order of delete and shutdown. */
    method TearDown(net: Net)
      requires Valid()
      modifies this`world
      ensures Valid() && world == old(world) - (NetParts(net) - stuck)
    {
      DeleteTap(net.index);
      RemoveNatRules(net);
    }

    /** Setting up and tearing down undo each other, whatever else exists on the host. */
    method SetUpThenTearDown(i: nat, a: NetAnswers) returns (done: bool)
      requires Valid()
      modifies this`world
      ensures done <==> Tap(i) !in old(world) && a.TapWorks() && a.RulesWork()
      ensures stuck == {} && (a.post ==> a.postRead) && (a.filter ==> a.filterRead) ==> world == old(world)
    {
      ghost var tried;
      var net;
      net, tried := SetUp(i, a);
      done := net.Some?;
      if done { TearDown(net.value); }
    }
  }

  function RuleFor(masquerade: bool, h: nat, i: nat): Resource {
    if masquerade then Post(h, i) else Filter(h, i)
  }

  lemma HandleBound(world: set<Resource>) returns (bound: nat)
    ensures forall r :: r in world && (r.Post? || r.Filter?) ==> r.handle < bound
  {
    bound := 0;
    var rest := world;
    while rest != {}
      invariant rest <= world
      invariant forall r :: r in world - rest && (r.Post? || r.Filter?) ==> r.handle < bound
      decreases rest
    {
      var r :| r in rest;
      if (r.Post? || r.Filter?) && r.handle >= bound { bound := r.handle + 1; }
      rest := rest - {r};
    }
  }

  /** nft never runs out of handles. */
  lemma FreshHandleExists(world: set<Resource>)
    ensures exists h :: FreshHandle(world, h)
  {
    var h := HandleBound(world);
    assert FreshHandle(world, h);
  }

  lemma OtherFresh(world: set<Resource>, taken: nat)
    ensures exists h: nat :: FreshHandle(world, h) && h != taken
  {
    var bound := HandleBound(world);
    assert FreshHandle(world, bound) && FreshHandle(world, bound + 1);
  }

  /** A free handle other than `taken`. */
  ghost function OtherHandle(world: set<Resource>, taken: nat): (h: nat)
    ensures FreshHandle(world, h) && h != taken
  {
    OtherFresh(world, taken);
    var h: nat :| FreshHandle(world, h) && h != taken;
    h
  }
}
