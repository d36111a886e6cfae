/** Crash and restart: the sweep turns whatever a crash left into a host the empty map is right for. */
module Restart {
  import opened Prelude
  import opened HostText
  import opened Orphans
  import opened Lifecycle
  import opened Ownership
  import opened Conservation
  import opened Anchoring
  import opened Exactness
  import Decimal
  import Pool = SubnetPools

  // ── Names on the host ──

  function HexChar(d: nat): char
    requires d < 16
  {
    if d < 10 then '0' + d as char else 'a' + (d - 10) as char
  }

  function Power16(e: nat): (p: nat)
    ensures p > 0
  {
    if e == 0 then 1 else 16 * Power16(e - 1)
  }

  /** The low `width` hexadecimal digits. */
  function Hex(n: nat, width: nat): (s: string)
    ensures |s| == width
  {
    if width == 0 then "" else Hex(n / 16, width - 1) + [HexChar(n % 16)]
  }

  /** The hyphenated form of a UUID (section 4 of RFC 9562). */
  function UuidText(id: Id): string {
    var h := Hex(id, 32);
    h[..8] + "-" + h[8..12] + "-" + h[12..16] + "-" + h[16..20] + "-" + h[20..]
  }

  function IpText(ip: Pool.Ipv4): string {
    Decimal.Print(ip.a) + "." + Decimal.Print(ip.b) + "." + Decimal.Print(ip.c) + "." + Decimal.Print(ip.d)
  }

  lemma {:induction false} HexInjective(a: nat, b: nat, width: nat)
    requires a < Power16(width) && b < Power16(width) && Hex(a, width) == Hex(b, width)
    ensures a == b
  {
    if width > 0 {
      var x, y := Hex(a, width), Hex(b, width);
      assert x[..width - 1] == Hex(a / 16, width - 1) && y[..width - 1] == Hex(b / 16, width - 1);
      assert HexChar(a % 16) == x[width - 1] == y[width - 1] == HexChar(b % 16);
      HexInjective(a / 16, b / 16, width - 1);
    }
  }

  lemma Power16Of32()
    ensures Power16(32) == 0x1_0000_0000_0000_0000_0000_0000_0000_0000
  {
    assert Power16(4) == 0x1_0000;
    assert Power16(8) == 0x1_0000_0000;
    assert Power16(12) == 0x1_0000_0000_0000;
    assert Power16(16) == 0x1_0000_0000_0000_0000;
    assert Power16(20) == 0x1_0000_0000_0000_0000_0000;
    assert Power16(24) == 0x1_0000_0000_0000_0000_0000_0000;
    assert Power16(28) == 0x1_0000_0000_0000_0000_0000_0000_0000;
  }

  /** The texts of different UUIDs, which have 128 bits, differ. */
  lemma UuidTexts(a: Id, b: Id)
    requires a < 0x1_0000_0000_0000_0000_0000_0000_0000_0000 && b < 0x1_0000_0000_0000_0000_0000_0000_0000_0000
    requires UuidText(a) == UuidText(b)
    ensures a == b
  {
    var x, y := Hex(a, 32), Hex(b, 32);
    Hyphens(a, x);
    Hyphens(b, y);
    assert x == x[..8] + x[8..12] + x[12..16] + x[16..20] + x[20..];
    assert y == y[..8] + y[8..12] + y[12..16] + y[16..20] + y[20..];
    Power16Of32();
    HexInjective(a, b, 32);
  }

  /** The groups of 8, 4, 4, 4 and 12 digits. */
  lemma Hyphens(id: Id, h: string)
    requires h == Hex(id, 32)
    ensures var t := UuidText(id);
            && |t| == 36 && t[8] == t[13] == t[18] == t[23] == '-'
            && t[..8] == h[..8] && t[9..13] == h[8..12] && t[14..18] == h[12..16] && t[19..23] == h[16..20]
            && t[24..] == h[20..]
  {
  }

  lemma Octets(x: string, rest: string, y: string, rest': string)
    requires Decimal.AllDigits(x) && Decimal.AllDigits(y) && x + "." + rest == y + "." + rest'
    ensures x == y && rest == rest'
  {
    var s := x + "." + rest;
    assert s[|x|] == '.' && forall k :: 0 <= k < |x| ==> Decimal.IsDigit(s[k]) by {
      assert forall k :: 0 <= k < |x| ==> s[k] == x[k];
    }
    assert s == y + "." + rest';
    assert s[|y|] == '.' && forall k :: 0 <= k < |y| ==> Decimal.IsDigit(s[k]) by {
      assert forall k :: 0 <= k < |y| ==> s[k] == y[k];
    }
    assert x == s[..|x|] && y == s[..|y|] && rest == s[|x| + 1..] && rest' == s[|y| + 1..];
  }

  lemma FourOctets(a: string, b: string, c: string, d: string, a': string, b': string, c': string, d': string)
    requires Decimal.AllDigits(a) && Decimal.AllDigits(b) && Decimal.AllDigits(c)
    requires Decimal.AllDigits(a') && Decimal.AllDigits(b') && Decimal.AllDigits(c')
    requires a + "." + b + "." + c + "." + d == a' + "." + b' + "." + c' + "." + d'
    ensures a == a' && b == b' && c == c' && d == d'
  {
    assert a + "." + b + "." + c + "." + d == a + "." + (b + "." + (c + "." + d));
    assert a' + "." + b' + "." + c' + "." + d' == a' + "." + (b' + "." + (c' + "." + d'));
    Octets(a, b + "." + (c + "." + d), a', b' + "." + (c' + "." + d'));
    Octets(b, c + "." + d, b', c' + "." + d');
    Octets(c, d, c', d');
  }

  /** The texts of different addresses differ. */
  lemma IpTexts(a: Pool.Ipv4, b: Pool.Ipv4)
    requires IpText(a) == IpText(b)
    ensures a == b
  {
    FourOctets(Decimal.Print(a.a), Decimal.Print(a.b), Decimal.Print(a.c), Decimal.Print(a.d),
               Decimal.Print(b.a), Decimal.Print(b.b), Decimal.Print(b.c), Decimal.Print(b.d));
    Decimal.PrintInjective(a.a, b.a);
    Decimal.PrintInjective(a.b, b.b);
    Decimal.PrintInjective(a.c, b.c);
    Decimal.PrintInjective(a.d, b.d);
  }

  // ── What a lifecycle resource looks like from outside ──

  predicate RuleIs(rule: Rule, masquerade: bool, name: string) {
    if masquerade then rule.Masquerade? && rule.guest == name else rule.Forward? && rule.tap == name
  }

  ghost predicate RuleShown(h: Snapshot, masquerade: bool, name: string) {
    h.chains.Some? && exists k, j ::
      0 <= k < |h.chains.value| && 0 <= j < |h.chains.value[k].rules|
      && RuleIs(h.chains.value[k].rules[j], masquerade, name)
  }

  ghost predicate LinkShown(h: Snapshot, name: string) {
    exists k :: 0 <= k < |h.links| && h.links[k].name == name
  }

  ghost predicate VisibleOn(h: Snapshot, r: Resource) {
    match r
    case Slot(_) => false
    case Tap(i) => LinkShown(h, Pool.TapName(i))
    case Post(_, i) => RuleShown(h, true, IpText(Pool.SubnetGuestIp(Pool.AsU16(i))))
    case Filter(_, i) => RuleShown(h, false, Pool.TapName(i))
    case Rootfs(id) => UuidText(id) + ".ext4" in h.images
    case Vmm(id) => id in h.processes || UuidText(id) in h.workspaces
  }

  lemma {:induction false} ForeignNames(links: seq<Link>, k: nat)
    requires k < |Foreign(links)|
    ensures !IsFcName(Foreign(links)[k].name)
  {
    if IsFcName(links[0].name) {
      ForeignNames(links[1..], k);
    } else if k > 0 {
      ForeignNames(links[1..], k - 1);
    }
  }

  lemma {:induction false} EmptiedRules(chains: seq<Chain>, k: nat)
    requires k < |Emptied(chains)|
    ensures Emptied(chains)[k].rules == []
  {
    if k > 0 { EmptiedRules(chains[1..], k - 1); }
  }

  /** Nothing create can leave behind survives a sweep. */
  lemma SweptShowsNothing(h: Snapshot, r: Resource)
    ensures !VisibleOn(Sweep(h), r)
  {
    match r
    case Tap(i) =>
      TapNameIsFc(i);
      forall k | 0 <= k < |Foreign(h.links)|
        ensures Foreign(h.links)[k].name != Pool.TapName(i)
      {
        ForeignNames(h.links, k);
      }
    case Rootfs(id) => ImageRecognised(UuidText(id));
    case Vmm(_) =>
    case Slot(_) =>
    case _ =>
      if h.chains.Some? {
        forall k | 0 <= k < |Emptied(h.chains.value)|
          ensures Emptied(h.chains.value)[k].rules == []
        {
          EmptiedRules(h.chains.value, k);
        }
      }
  }

  lemma {:induction false} FcLinkListed(links: seq<Link>, k: nat)
    requires k < |links| && IsFcName(links[k].name)
    ensures FcNames(links) != []
  {
    if k > 0 { FcLinkListed(links[1..], k - 1); }
  }

  /** And anything it can leave behind makes the sweep report a find. */
  lemma LeftoverIsFound(h: Snapshot, r: Resource)
    requires VisibleOn(h, r)
    ensures HasOrphans(h)
  {
    match r
    case Tap(i) =>
      TapNameIsFc(i);
      var k :| 0 <= k < |h.links| && h.links[k].name == Pool.TapName(i);
      FcLinkListed(h.links, k);
    case Rootfs(id) =>
      ImageRecognised(UuidText(id));
      assert UuidText(id) + ".ext4" in Images(h.images);
    case Vmm(_) =>
    case _ =>
  }

  // ── The host a world shows ──

  /** The host tools cannot tell the two apart: same name, same address, same UUID. */
  predicate Alike(x: Resource, r: Resource) {
    match (x, r)
    case (Tap(i), Tap(j)) => Pool.TapName(i) == Pool.TapName(j)
    case (Post(_, i), Post(_, j)) =>
      IpText(Pool.SubnetGuestIp(Pool.AsU16(i))) == IpText(Pool.SubnetGuestIp(Pool.AsU16(j)))
    case (Filter(_, i), Filter(_, j)) => Pool.TapName(i) == Pool.TapName(j)
    case (Rootfs(a), Rootfs(b)) => UuidText(a) == UuidText(b)
    case (Vmm(a), Vmm(b)) => UuidText(a) == UuidText(b)
    case _ => false
  }

  lemma GuestTexts(i: nat, j: nat)
    requires i < Pool.MAX_SUBNETS && j < Pool.MAX_SUBNETS
    requires IpText(Pool.SubnetGuestIp(Pool.AsU16(i))) == IpText(Pool.SubnetGuestIp(Pool.AsU16(j)))
    ensures i == j
  {
    Pool.NarrowingIsExact(i);
    Pool.NarrowingIsExact(j);
    IpTexts(Pool.SubnetGuestIp(i), Pool.SubnetGuestIp(j));
  }

  predicate InRange(r: Resource) {
    match r
    case Rootfs(id) => id < 0x1_0000_0000_0000_0000_0000_0000_0000_0000
    case Vmm(id) => id < 0x1_0000_0000_0000_0000_0000_0000_0000_0000
    case _ => r.index < Pool.MAX_SUBNETS
  }

  /** Only the handles of rules are hidden from outside: within the pool and 128 bits, alike is the same index or id. */
  lemma AlikeIsSame(x: Resource, r: Resource)
    requires Alike(x, r) && InRange(x) && InRange(r)
    ensures match x
            case Tap(i) => r == x
            case Post(_, i) => r.Post? && r.index == i
            case Filter(_, i) => r.Filter? && r.index == i
            case _ => r == x
  {
    match x
    case Post(_, i) => GuestTexts(i, r.index);
    case Tap(i) => Pool.TapNames(i, r.index);
    case Filter(_, i) => Pool.TapNames(i, r.index);
    case Rootfs(id) => UuidTexts(id, r.id);
    case Vmm(id) => UuidTexts(id, r.id);
    case Slot(_) =>
  }

  /** Everything of `world` is visible on the host, and nothing else of its kind. */
  ghost predicate Shows(h: Snapshot, world: set<Resource>) {
    && (forall r {:trigger VisibleOn(h, r)} :: r in world && !r.Slot? ==> VisibleOn(h, r))
    && (forall r {:trigger VisibleOn(h, r)} :: VisibleOn(h, r) ==> SomeAlike(world, r))
  }

  ghost predicate SomeAlike(world: set<Resource>, r: Resource) {
    exists x :: x in world && Alike(x, r)
  }

  /** The server's own part of a host. */
  datatype Parts = Parts(links: seq<Link>, posts: seq<Rule>, filters: seq<Rule>, images: set<string>,
                         processes: set<nat>, workspaces: set<string>)
  {
    function Host(): Snapshot {
      Snapshot(processes, workspaces, images, links,
               Some([Chain("postrouting", "nat hook postrouting priority 100", posts),
                     Chain("filter", "filter hook forward priority 0", filters)]), {})
    }

    predicate Ok() {
      && LinksOk(links)
      && (forall k :: 0 <= k < |posts| ==> RuleOk(posts[k]))
      && (forall k :: 0 <= k < |filters| ==> RuleOk(filters[k]))
    }

    function With(r: Resource): Parts {
      match r
      case Slot(_) => this
      case Tap(i) => this.(links := links + [Link(0, Pool.TapName(i), "")])
      case Post(_, i) =>
        this.(posts := posts + [Masquerade(IpText(Pool.SubnetGuestIp(Pool.AsU16(i))), "eth0", 0, 0)])
      case Filter(_, i) => this.(filters := filters + [Forward(Pool.TapName(i), "eth0")])
      case Rootfs(id) => this.(images := images + {UuidText(id) + ".ext4"})
      case Vmm(id) => this.(processes := processes + {id}, workspaces := workspaces + {UuidText(id)})
    }
  }

  // ── A rule is shown by one of the two chains ──

  ghost predicate RuleIn(rules: seq<Rule>, masquerade: bool, name: string) {
    exists j :: 0 <= j < |rules| && RuleIs(rules[j], masquerade, name)
  }

  lemma TwoChains(p: Parts, masquerade: bool, name: string)
    ensures RuleShown(p.Host(), masquerade, name) <==>
            RuleIn(p.posts, masquerade, name) || RuleIn(p.filters, masquerade, name)
  {
    var chains := p.Host().chains.value;
    assert chains[0].rules == p.posts && chains[1].rules == p.filters;
    if RuleIn(p.posts, masquerade, name) {
      var j :| 0 <= j < |p.posts| && RuleIs(p.posts[j], masquerade, name);
      assert RuleIs(chains[0].rules[j], masquerade, name);
    }
    if RuleIn(p.filters, masquerade, name) {
      var j :| 0 <= j < |p.filters| && RuleIs(p.filters[j], masquerade, name);
      assert RuleIs(chains[1].rules[j], masquerade, name);
    }
  }

  lemma OneMoreRule(rules: seq<Rule>, rule: Rule, masquerade: bool, name: string)
    ensures RuleIn(rules + [rule], masquerade, name) <==>
            RuleIn(rules, masquerade, name) || RuleIs(rule, masquerade, name)
  {
    var more := rules + [rule];
    if RuleIn(rules, masquerade, name) {
      var j :| 0 <= j < |rules| && RuleIs(rules[j], masquerade, name);
      assert RuleIs(more[j], masquerade, name);
    }
    if RuleIs(rule, masquerade, name) { assert RuleIs(more[|rules|], masquerade, name); }
  }

  lemma OneMoreLink(h: Snapshot, link: Link, name: string)
    ensures LinkShown(h.(links := h.links + [link]), name) <==> LinkShown(h, name) || link.name == name
  {
    var more := h.links + [link];
    if LinkShown(h, name) {
      var k :| 0 <= k < |h.links| && h.links[k].name == name;
      assert more[k].name == name;
    }
    assert more[|h.links|] == link;
  }

  /** Adding a resource to a host makes it and its likes visible, and nothing else. */
  lemma OneMoreVisible(p: Parts, r: Resource, q: Resource)
    ensures VisibleOn(p.With(r).Host(), q) <==> VisibleOn(p.Host(), q) || Alike(r, q)
  {
    var p' := p.With(r);
    match q
    case Tap(j) =>
      if r.Tap? { OneMoreLink(p.Host(), Link(0, Pool.TapName(r.index), ""), Pool.TapName(j)); }
    case Post(_, j) => OneMoreShown(p, r, true, IpText(Pool.SubnetGuestIp(Pool.AsU16(j))));
    case Filter(_, j) => OneMoreShown(p, r, false, Pool.TapName(j));
    case Rootfs(b) => if r.Rootfs? { SuffixKeeps(UuidText(r.id), UuidText(b), ".ext4"); }
    case _ =>
  }

  lemma OneMoreShown(p: Parts, r: Resource, masquerade: bool, name: string)
    ensures RuleShown(p.With(r).Host(), masquerade, name) <==>
            || RuleShown(p.Host(), masquerade, name)
            || (r.Post? && masquerade && IpText(Pool.SubnetGuestIp(Pool.AsU16(r.index))) == name)
            || (r.Filter? && !masquerade && Pool.TapName(r.index) == name)
  {
    TwoChains(p, masquerade, name);
    TwoChains(p.With(r), masquerade, name);
    if r.Post? {
      OneMoreRule(p.posts, p.With(r).posts[|p.posts|], masquerade, name);
    } else if r.Filter? {
      OneMoreRule(p.filters, p.With(r).filters[|p.filters|], masquerade, name);
    }
  }

  lemma SuffixKeeps(a: string, b: string, suffix: string)
    ensures a + suffix == b + suffix <==> a == b
  {
    if a + suffix == b + suffix {
      assert |a| == |b| && a == (a + suffix)[..|a|];
    }
  }

  lemma NamesAreInline(r: Resource)
    ensures r.Tap? || r.Filter? ==> LinkOk(Link(0, Pool.TapName(r.index), "")) && Inline(Pool.TapName(r.index))
    ensures r.Post? ==> Inline(IpText(Pool.SubnetGuestIp(Pool.AsU16(r.index))))
  {
    if r.Tap? || r.Filter? {
      var d := Decimal.Print(r.index);
      assert forall k :: 0 <= k < |d| ==> Decimal.IsDigit(d[k]);
    }
    if r.Post? {
      var ip := Pool.SubnetGuestIp(Pool.AsU16(r.index));
      DigitsInline(ip.a);
      DigitsInline(ip.b);
      DigitsInline(ip.c);
      DigitsInline(ip.d);
    }
  }

  /** Whatever a crash leaves, there is a host that shows exactly that, in the formats the sweep reads. */
  lemma {:induction false} WorldIsShown(world: set<Resource>) returns (p: Parts)
    ensures p.Ok() && Shows(p.Host(), world)
    decreases |world|
  {
    if world == {} {
      p := Parts([], [], [], {}, {}, {});
      forall q
        ensures !VisibleOn(p.Host(), q)
      {
        NothingShown(p, q);
      }
    } else {
      var r :| r in world;
      var p0 := WorldIsShown(world - {r});
      p := p0.With(r);
      NamesAreInline(r);
      ShowsOneMore(p0, world - {r}, r);
      assert world - {r} + {r} == world;
    }
  }

  lemma NothingShown(p: Parts, q: Resource)
    requires p == Parts([], [], [], {}, {}, {})
    ensures !VisibleOn(p.Host(), q)
  {
    if q.Post? { TwoChains(p, true, IpText(Pool.SubnetGuestIp(Pool.AsU16(q.index)))); }
    if q.Filter? { TwoChains(p, false, Pool.TapName(q.index)); }
  }

  lemma ShowsOneMore(p: Parts, world: set<Resource>, r: Resource)
    requires Shows(p.Host(), world)
    ensures Shows(p.With(r).Host(), world + {r})
  {
    forall q | q in world + {r} && !q.Slot?
      ensures VisibleOn(p.With(r).Host(), q)
    {
      OneMoreVisible(p, r, q);
    }
    forall q | VisibleOn(p.With(r).Host(), q)
      ensures SomeAlike(world + {r}, q)
    {
      OneMoreVisible(p, r, q);
      if Alike(r, q) {
        assert r in world + {r};
      } else {
        var x :| x in world && Alike(x, q);
        assert x in world + {r};
      }
    }
  }

  // ── Crash and restart ──

  /** What of the old world is still on the host. */
  ghost function Remaining(world: set<Resource>, h: Snapshot): set<Resource> {
    set r | r in world && VisibleOn(h, r)
  }

  /**
    Crash recovery: from any reachable state, a crash followed by a sweep whose commands succeed
    ends in a freshly started server, and every invariant holds again.
   */
  lemma CrashRecovers(s: State, h: Snapshot, s': State)
    requires Good(s) && Next(s, Crash(Remaining(s.world, Sweep(h))), s')
    ensures Started(s') && s'.world == {} && s'.used == {} && s'.vms == map[]
    ensures Good(s') && Anchored(s', true) && Anchored(s', false) && forall r :: !Leaked(s', r)
  {
    forall r
      ensures r !in Remaining(s.world, Sweep(h))
    {
      SweptShowsNothing(h, r);
    }
    assert Remaining(s.world, Sweep(h)) == {};
    StartedIsGood(s');
    StartedIsAnchored(s', true);
    StartedIsAnchored(s', false);
  }

  /**
    Restart after a crash: the cleanup of a host that shows the crashed world. If nothing resists it
    the server starts afresh, having reported a find if there was anything; if something does,
    ownership is linear all the same, what is still visible is leaked, and a find has been reported if
    anything went.
   */
  method RestartServer(host: Host, a: SweepAnswers, ghost s: State) returns (found: bool, ghost s': State)
    requires Good(s) && Shows(host.Snap(), s.world) && LinksOk(host.links) && ChainsOk(host.chains)
    modifies host
    ensures Next(s, Crash(Remaining(s.world, host.Snap())), s') && Good(s')
    ensures forall r :: Leaked(s', r) <==> r in s.world && VisibleOn(host.Snap(), r)
    ensures Works(old(host.Snap()), a) ==> Started(s') && s'.world == {} && s'.used == {} && s'.vms == map[]
    ensures Works(old(host.Snap()), a) && s.world != {} ==> found
    ensures s'.world != s.world ==> found
  {
    ghost var before := host.Snap();
    ghost var at;
    found, at := host.CleanupOrphans(a);
    ghost var kept := Remaining(s.world, host.Snap());
    s' := Init(s.cap).(world := kept, ids := s.ids);
    CrashConserves(s, kept, s');
    if Works(before, a) { CrashRecovers(s, before, s'); }
    if Works(before, a) && s.world != {} { WorldIsFound(s, before); }
    if host.Snap() == before { assert kept == s.world; }
  }

  lemma WorldIsFound(s: State, h: Snapshot)
    requires Good(s) && Shows(h, s.world) && s.world != {}
    ensures HasOrphans(h)
  {
    var r :| r in s.world;
    LeftoverIsFound(h, r);
  }

  /** Even when cleanup fails, ownership is linear again; what it left is leaked, and nothing else. */
  lemma FailedSweepIsSafe(s: State, h: Snapshot, s': State, r: Resource)
    requires Good(s) && Next(s, Crash(Remaining(s.world, h)), s')
    ensures Good(s') && (Leaked(s', r) <==> r in s.world && VisibleOn(h, r))
  {
    CrashConserves(s, Remaining(s.world, h), s');
  }
}
