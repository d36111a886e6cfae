/**
  The pool of /30 subnets of 172.16.0.0/16 (src/vm/network.rs): a first-fit bitmap
  allocator and the address arithmetic that turns an index into a network.
 */
module SubnetPools {
  import opened Prelude
  import Decimal

  const MAX_SUBNETS: nat := 16_384

  // ── The abstract pool: the set of indices in use ──

  /** The least index at or above `from` that is not in use. */
  function FirstFreeFrom(used: set<nat>, from: nat): (r: Option<nat>)
    requires from <= MAX_SUBNETS
    ensures r.Some? ==> from <= r.value < MAX_SUBNETS && r.value !in used
    ensures r.Some? ==> forall j :: from <= j < r.value ==> j in used
    ensures r.None? ==> forall j :: from <= j < MAX_SUBNETS ==> j in used
    decreases MAX_SUBNETS - from
  {
    if from == MAX_SUBNETS then None
    else if from !in used then Some(from)
    else FirstFreeFrom(used, from + 1)
  }

  function FirstFree(used: set<nat>): (r: Option<nat>)
    ensures r.Some? ==> r.value < 16_384 && r.value !in used && forall j :: 0 <= j < r.value ==> j in used
    ensures r.None? ==> forall j :: 0 <= j < 16_384 ==> j in used
  {
    FirstFreeFrom(used, 0)
  }

  lemma FirstFreeIs(used: set<nat>, i: nat)
    requires i < MAX_SUBNETS && i !in used && forall j :: 0 <= j < i ==> j in used
    ensures FirstFree(used) == Some(i)
  {
    assert FirstFree(used).Some?;
  }

  // ── Addresses ──

  datatype Ipv4 = Ipv4(a: u8, b: u8, c: u8, d: u8)

  /** The address as the 32-bit number its octets spell. */
  function AddressValue(ip: Ipv4): nat {
    ((ip.a * 256 + ip.b) * 256 + ip.c) * 256 + ip.d
  }

  // `as u8` and `as u16` truncate.
  function AsU8(n: nat): u8 { n % 0x100 }

  function AsU16(n: nat): u16 { n % 0x1_0000 }

  function SubnetTapIp(index: u16): Ipv4 {
    var offset := 4 * index + 1;
    Ipv4(172, 16, AsU8(offset / 256), AsU8(offset % 256))
  }

  function SubnetGuestIp(index: u16): Ipv4 {
    var offset := 4 * index + 2;
    Ipv4(172, 16, AsU8(offset / 256), AsU8(offset % 256))
  }

  function TapName(index: nat): string {
    "fc" + Decimal.Print(index)
  }

  datatype SubnetAllocation = SubnetAllocation(index: u16, tapIp: Ipv4, guestIp: Ipv4, tapName: string)

  function AllocationFor(index: u16): SubnetAllocation {
    SubnetAllocation(index, SubnetTapIp(index), SubnetGuestIp(index), TapName(index))
  }

  /** 172.16.0.0 as a number. */
  const NETWORK_BASE: nat := 172 * 0x100_0000 + 16 * 0x1_0000

  /** The addresses are 172.16.0.0 plus 4 index plus 1 and 2, and the name is "fc" with the index in decimal. */
  ghost predicate Names(a: SubnetAllocation, index: nat) {
    && a.index == index
    && AddressValue(a.tapIp) == 172 * 0x100_0000 + 16 * 0x1_0000 + 4 * index + 1
    && AddressValue(a.guestIp) == 172 * 0x100_0000 + 16 * 0x1_0000 + 4 * index + 2
    && |a.tapName| > 2 && a.tapName[0] == 'f' && a.tapName[1] == 'c' && a.tapName[2..] == Decimal.Print(index)
  }

  lemma AllocationNames(index: u16)
    requires index < MAX_SUBNETS
    ensures Names(AllocationFor(index), index)
  {
    NarrowingIsExact(index);
    assert TapName(index)[2..] == Decimal.Print(index);
  }

  /** The four addresses of subnet `index`: network, tap, guest, broadcast. */
  function SubnetBase(index: nat): nat { NETWORK_BASE + 4 * index }

  /** Below `MAX_SUBNETS` the narrowing casts keep every bit: the octets spell the exact address. */
  lemma NarrowingIsExact(index: nat)
    requires index < MAX_SUBNETS
    ensures AsU16(index) == index
    ensures AddressValue(SubnetTapIp(index)) == SubnetBase(index) + 1
    ensures AddressValue(SubnetGuestIp(index)) == SubnetBase(index) + 2
  {
    var t, g := 4 * index + 1, 4 * index + 2;
    assert t / 256 < 256 && g / 256 < 256;
    assert AsU8(t / 256) == t / 256 && AsU8(g / 256) == g / 256;
    assert t == 256 * (t / 256) + t % 256 && g == 256 * (g / 256) + g % 256;
  }

  lemma Apart(a: Ipv4, b: Ipv4)
    requires AddressValue(a) != AddressValue(b)
    ensures a != b
  {
  }

  lemma Quarter(n: nat, k: nat)
    requires k < 4
    ensures (4 * n + k) / 4 == n
  {
  }

  lemma BaseQuarter(i: nat, k: nat)
    requires k < 4
    ensures (SubnetBase(i) + k) / 4 == SubnetBase(i) / 4 == NETWORK_BASE / 4 + i
    ensures SubnetBase(i) % 4 == 0
  {
    Quarter(NETWORK_BASE / 4 + i, k);
    Quarter(NETWORK_BASE / 4 + i, 0);
    assert SubnetBase(i) == 4 * (NETWORK_BASE / 4 + i);
  }

  /** Addresses known by their values only: same /30 within a subnet, all four different across two. */
  lemma Geometry(i: nat, tap: Ipv4, guest: Ipv4, j: nat, tap': Ipv4, guest': Ipv4)
    requires AddressValue(tap) == SubnetBase(i) + 1 && AddressValue(guest) == SubnetBase(i) + 2
    requires AddressValue(tap') == SubnetBase(j) + 1 && AddressValue(guest') == SubnetBase(j) + 2
    ensures AddressValue(tap) / 4 == AddressValue(guest) / 4 == SubnetBase(i) / 4
    ensures tap != guest && (i != j ==> tap != tap' && tap != guest' && guest != tap' && guest != guest')
  {
    BaseQuarter(i, 1);
    BaseQuarter(i, 2);
    Apart(tap, guest);
    if i != j {
      Apart(tap, tap');
      Apart(tap, guest');
      Apart(guest, tap');
      Apart(guest, guest');
    }
  }

  /**
    Tap and guest are the two host addresses of the index's own /30, strictly between its
    network and broadcast address, inside 172.16.0.0/16; two indices share no address.
   */
  lemma SubnetGeometry(i: nat, j: nat)
    requires i < MAX_SUBNETS && j < MAX_SUBNETS
    ensures SubnetBase(i) % 4 == 0
    ensures var tap := AddressValue(SubnetTapIp(i)); var guest := AddressValue(SubnetGuestIp(i));
            && tap / 4 == guest / 4 == SubnetBase(i) / 4
            && SubnetBase(i) < tap < guest < SubnetBase(i) + 3
            && NETWORK_BASE <= SubnetBase(i) && SubnetBase(i) + 3 < NETWORK_BASE + 0x1_0000
    ensures i != j ==> {SubnetTapIp(i), SubnetGuestIp(i)} !! {SubnetTapIp(j), SubnetGuestIp(j)}
    ensures SubnetTapIp(i) != SubnetGuestIp(i)
  {
    NarrowingIsExact(i);
    NarrowingIsExact(j);
    BaseQuarter(i, 0);
    Geometry(i, SubnetTapIp(i), SubnetGuestIp(i), j, SubnetTapIp(j), SubnetGuestIp(j));
  }

  /** The first and the last subnet, and the one that carries into the third octet. */
  lemma KnownSubnets()
    ensures SubnetTapIp(0) == Ipv4(172, 16, 0, 1) && SubnetGuestIp(0) == Ipv4(172, 16, 0, 2)
    ensures SubnetTapIp(64) == Ipv4(172, 16, 1, 1) && SubnetGuestIp(64) == Ipv4(172, 16, 1, 2)
    ensures SubnetTapIp(999) == Ipv4(172, 16, 15, 157) && SubnetGuestIp(999) == Ipv4(172, 16, 15, 158)
    ensures SubnetTapIp(16_383) == Ipv4(172, 16, 255, 253) && SubnetGuestIp(16_383) == Ipv4(172, 16, 255, 254)
    ensures TapName(0) == "fc0" && TapName(42) == "fc42" && TapName(16_383) == "fc16383"
  {
    assert Decimal.Print(4) == "4";
    assert Decimal.Print(1) == "1" && Decimal.Print(16) == "16" && Decimal.Print(163) == "163";
    assert Decimal.Print(1638) == "1638" && Decimal.Print(16_383) == "16383";
  }

  lemma OctetsWrap(index: nat, k: nat)
    requires 1 <= k < 4
    ensures AsU8((4 * (index % MAX_SUBNETS) + k) / 256) == AsU8((4 * index + k) / 256)
    ensures AsU8((4 * (index % MAX_SUBNETS) + k) % 256) == AsU8((4 * index + k) % 256)
  {
    var q, low := index / MAX_SUBNETS, 4 * (index % MAX_SUBNETS) + k;
    assert 4 * index + k == 0x1_0000 * q + low;
    assert (0x1_0000 * q + low) / 256 == 256 * q + low / 256;
    assert (256 * q + low / 256) % 256 == (low / 256) % 256;
  }

  /** The casts lose exactly what lies past the pool: any larger position aliases one inside it. */
  lemma NarrowingBeyondPool(position: nat)
    ensures SubnetTapIp(AsU16(position)) == SubnetTapIp(position % MAX_SUBNETS)
    ensures SubnetGuestIp(AsU16(position)) == SubnetGuestIp(position % MAX_SUBNETS)
  {
    assert AsU16(position) % MAX_SUBNETS == position % MAX_SUBNETS;
    OctetsWrap(AsU16(position), 1);
    OctetsWrap(AsU16(position), 2);
  }

  /** Tap names are distinct for distinct indices and fit the 15 characters Linux allows. */
  lemma TapNames(i: nat, j: nat)
    requires i < MAX_SUBNETS
    ensures |TapName(i)| <= 7
    ensures TapName(i) == TapName(j) ==> i == j
  {
    assert Decimal.Power10(5) == 100_000 by {
      assert Decimal.Power10(3) == 1000;
    }
    Decimal.PrintLength(i, 5, 100_000);
    if TapName(i) == TapName(j) {
      assert TapName(i)[2..] == Decimal.Print(i) && TapName(j)[2..] == Decimal.Print(j);
      Decimal.PrintInjective(i, j);
    }
  }

  // ── The bitmap ──

  class SubnetPool {
    var slots: array<bool>  // true = in use

    ghost predicate Valid()
      reads this
    {
      slots.Length == MAX_SUBNETS
    }

    /** The indices in use. */
    ghost function Used(): set<nat>
      reads this, slots
    {
      set i: nat | i < slots.Length && slots[i]
    }

    constructor ()
      ensures Valid() && fresh(slots) && Used() == {}
    {
      slots := new bool[MAX_SUBNETS](_ => false);
    }

    /** Takes the least free index; fails exactly when all 16384 are in use. */
    method Allocate() returns (r: Option<SubnetAllocation>)
      requires Valid()
      modifies slots
      ensures Valid() && slots == old(slots)
      ensures match FirstFree(old(Used()))
              case None => r == None && Used() == old(Used())
              case Some(i) => r == Some(AllocationFor(i)) && Used() == old(Used()) + {i} && Names(r.value, i)
    {
      var i := 0;
      while i < slots.Length && slots[i]
        invariant 0 <= i <= slots.Length
        invariant forall j :: 0 <= j < i ==> slots[j]
      {
        i := i + 1;
      }
      if i == slots.Length {
        return None;
      }
      FirstFreeIs(Used(), i);
      slots[i] := true;
      var index := AsU16(i);
      NarrowingIsExact(i);
      AllocationNames(i);
      r := Some(SubnetAllocation(index, SubnetTapIp(index), SubnetGuestIp(index), TapName(index)));
    }

    /** Frees one index; the source panics on an index outside the pool. */
    method Release(index: u16)
      requires Valid() && index < MAX_SUBNETS
      modifies slots
      ensures Valid() && slots == old(slots)
      ensures Used() == old(Used()) - {index}
    {
      slots[index] := false;
    }
  }

  // ── Traces ──

  datatype PoolOp = Take | Give(index: nat)

  function Apply(used: set<nat>, op: PoolOp): set<nat> {
    match op
    case Take => (match FirstFree(used) case None => used case Some(i) => used + {i})
    case Give(i) => used - {i}
  }

  /** The indices in use after a trace that starts from the empty pool. */
  function Replay(ops: seq<PoolOp>): set<nat> {
    if ops == [] then {} else Apply(Replay(ops[..|ops| - 1]), ops[|ops| - 1])
  }

  /** The largest number of indices in use at once along the trace. */
  function Peak(ops: seq<PoolOp>): nat {
    if ops == [] then 0
    else
      var before := Peak(ops[..|ops| - 1]);
      if |Replay(ops)| > before then |Replay(ops)| else before
  }

  lemma {:induction false} InitialSegmentFits(n: nat, s: set<nat>)
    requires forall j :: 0 <= j < n ==> j in s
    ensures n <= |s|
  {
    if n > 0 {
      InitialSegmentFits(n - 1, s - {n - 1});
    }
  }

  /** One step of first fit: the index taken is below the number of indices then in use. */
  lemma Dense(used: set<nat>, used': set<nat>, peak: nat)
    requires forall i :: i in used ==> i < peak
    requires used' <= used || (FirstFree(used).Some? && used' == used + {FirstFree(used).value})
    ensures forall i :: i in used' ==> i < peak || i < |used'|
  {
    if !(used' <= used) {
      var i := FirstFree(used).value;
      assert forall j :: 0 <= j < i + 1 ==> j in used';
      InitialSegmentFits(i + 1, used');
    }
  }

  /** First fit keeps the pool dense: no index ever reaches the peak number of simultaneous users. */
  lemma {:induction false} HighWater(ops: seq<PoolOp>)
    ensures forall i :: i in Replay(ops) ==> i < Peak(ops)
  {
    if ops != [] {
      var init, op := ops[..|ops| - 1], ops[|ops| - 1];
      HighWater(init);
      Dense(Replay(init), Replay(ops), Peak(init));
    }
  }
}
