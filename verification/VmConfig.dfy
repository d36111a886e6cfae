/** Request validation and cgroup limits (src/vm/config.rs), host capacity (src/capacity.rs). */
module VmConfig {
  import opened Prelude
  import Decimal
  import Text

  const DEFAULT_VCPUS: u8 := 1
  const DEFAULT_MEMORY_MB: u32 := 128
  const MIN_MEMORY_MB: u32 := 128
  const MAX_VCPUS: u8 := 32
  const HOST_RESERVED_MEMORY_MB: u64 := 256

  datatype ConfigError = InvalidVcpus | InvalidMemory

  predicate ValidVcpus(vcpus: nat) {
    vcpus == 1 || (2 <= vcpus <= 32 && vcpus % 2 == 0)
  }

  predicate ValidMemory(memoryMb: nat) {
    MIN_MEMORY_MB <= memoryMb
  }

  function GetOr<T>(o: Option<T>, default: T): (r: T)
    ensures o.Some? ==> r == o.value
    ensures o.None? ==> r == default
  {
    if o.Some? then o.value else default
  }

  /** Accepts exactly 1 or an even number of vCPUs up to 32, and at least 128 MB; vCPUs are judged first. */
  function ValidateVmConfig(vcpus: Option<u8>, memoryMb: Option<u32>): (r: Result<(u8, u32), ConfigError>)
    ensures r.Ok? <==> ValidVcpus(GetOr(vcpus, 1)) && GetOr(memoryMb, 128) >= 128
    ensures r.Ok? ==> r.value == (GetOr(vcpus, 1), GetOr(memoryMb, 128))
    ensures r == Err(InvalidVcpus) <==> !ValidVcpus(GetOr(vcpus, 1))
  {
    var v := GetOr(vcpus, DEFAULT_VCPUS);
    var m := GetOr(memoryMb, DEFAULT_MEMORY_MB);
    if v == 0 || v > MAX_VCPUS || (v > 1 && v % 2 != 0) then Err(InvalidVcpus)
    else if m < MIN_MEMORY_MB then Err(InvalidMemory)
    else Ok((v, m))
  }

  // ── Capacity ──

  datatype Capacity = Capacity(memoryMb: u64, vcpus: u8) {
    /** Memory left for VMs: the host keeps 256 MB, or all of it when it has less. */
    function AllocatableMemoryMb(): (r: u64)
      ensures memoryMb >= 256 ==> r + 256 == memoryMb
      ensures memoryMb < 256 ==> r == 0
    {
      SaturatingSub(memoryMb, HOST_RESERVED_MEMORY_MB)
    }
  }

  // ── cgroups ──

  const CPU_PERIOD_US: nat := 100_000
  const OVERHEAD_MB: nat := 50
  const MIB: nat := 1024 * 1024

  function CpuQuota(vcpus: u8): u64 { vcpus * CPU_PERIOD_US }

  function MemoryLimitBytes(memoryMb: u32): u64 { (memoryMb + OVERHEAD_MB) * MIB }

  /** The (file, value) pairs handed to the jailer. */
  function BuildCgroupConfig(cgroupVersion: nat, vcpus: u8, memoryMb: u32): seq<(string, string)>
  {
    var limit := Decimal.Print(MemoryLimitBytes(memoryMb));
    var quota := Decimal.Print(CpuQuota(vcpus));
    if cgroupVersion == 2 then
      [("cpu.max", quota + " 100000"), ("memory.max", limit)]
    else
      [("cpu.cfs_quota_us", quota), ("cpu.cfs_period_us", "100000"), ("memory.limit_in_bytes", limit)]
  }

  // How the kernel reads the files back: both hierarchies name a quota, a period and a byte limit.

  datatype Limits = Limits(quota: nat, period: nat, bytes: nat)

  function Lookup(settings: seq<(string, string)>, file: string): Option<string> {
    if settings == [] then None
    else if settings[0].0 == file then Some(settings[0].1)
    else Lookup(settings[1..], file)
  }

  function LimitsOf(quota: Option<nat>, period: Option<nat>, bytes: Option<nat>): Option<Limits> {
    if quota.Some? && period.Some? && bytes.Some? then Some(Limits(quota.value, period.value, bytes.value)) else None
  }

  function Number(s: Option<string>): Option<nat> {
    if s.Some? && Decimal.AllDigits(s.value) && s.value != [] then Some(Decimal.Value(s.value)) else None
  }

  function ReadV1(settings: seq<(string, string)>): Option<Limits> {
    LimitsOf(Number(Lookup(settings, "cpu.cfs_quota_us")),
             Number(Lookup(settings, "cpu.cfs_period_us")),
             Number(Lookup(settings, "memory.limit_in_bytes")))
  }

  function ReadV2(settings: seq<(string, string)>): Option<Limits> {
    var cpu := Lookup(settings, "cpu.max");
    var words := if cpu.Some? then Text.Words(cpu.value) else [];
    if |words| != 2 then None
    else LimitsOf(Number(Some(words[0])), Number(Some(words[1])), Number(Lookup(settings, "memory.max")))
  }

  lemma NumberOfPrint(n: nat)
    ensures Number(Some(Decimal.Print(n))) == Some(n)
  {
    Decimal.ValueOfPrint(n);
  }

  lemma PrintPeriod()
    ensures Decimal.Print(100_000) == "100000"
  {
    assert Decimal.Print(1) == "1";
    assert Decimal.Print(10) == "10";
    assert Decimal.Print(100) == "100";
    assert Decimal.Print(1000) == "1000";
    assert Decimal.Print(10000) == "10000";
  }

  function LimitsFor(vcpus: u8, memoryMb: u32): Limits {
    Limits(vcpus * 100_000, 100_000, (memoryMb + 50) * 1024 * 1024)
  }

  /** The v1 files read back as one full core per vCPU and the requested memory plus 50 MiB. */
  lemma CgroupV1(version: nat, vcpus: u8, memoryMb: u32)
    requires version != 2
    ensures ReadV1(BuildCgroupConfig(version, vcpus, memoryMb)) == Some(LimitsFor(vcpus, memoryMb))
  {
    NumberOfPrint(CpuQuota(vcpus));
    NumberOfPrint(MemoryLimitBytes(memoryMb));
    NumberOfPrint(100_000);
    PrintPeriod();
    var v1 := BuildCgroupConfig(version, vcpus, memoryMb);
    assert Lookup(v1, "cpu.cfs_quota_us") == Some(v1[0].1);
    assert Lookup(v1, "cpu.cfs_period_us") == Lookup(v1[1..], "cpu.cfs_period_us") == Some(v1[1].1);
    assert v1[1..][1..] == v1[2..];
    assert Lookup(v1, "memory.limit_in_bytes") == Lookup(v1[1..], "memory.limit_in_bytes")
        == Lookup(v1[2..], "memory.limit_in_bytes") == Some(v1[2].1);
  }

  lemma CpuMaxWords(q: string)
    requires q != [] && Decimal.AllDigits(q)
    ensures Text.Words(q + " 100000") == [q, "100000"]
  {
    assert " 100000" == [' '] + "100000";
    TwoWords(q, "100000");
  }

  lemma TwoWords(q: string, period: string)
    requires q != [] && Decimal.AllDigits(q) && period != [] && Decimal.AllDigits(period)
    ensures Text.Words(q + ([' '] + period)) == [q, period]
  {
    Text.WordsCons(q, [' '] + period);
    Text.WordsSkip(' ', period);
    Text.WordsCons(period, []);
    assert period + [] == period;
  }

  /** The v2 files read back as the same limits. */
  lemma CgroupV2(vcpus: u8, memoryMb: u32)
    ensures ReadV2(BuildCgroupConfig(2, vcpus, memoryMb)) == Some(LimitsFor(vcpus, memoryMb))
  {
    NumberOfPrint(CpuQuota(vcpus));
    NumberOfPrint(MemoryLimitBytes(memoryMb));
    NumberOfPrint(100_000);
    PrintPeriod();
    CpuMaxWords(Decimal.Print(CpuQuota(vcpus)));
    var v2 := BuildCgroupConfig(2, vcpus, memoryMb);
    assert Lookup(v2[1..], "memory.max") == Some(v2[1].1);
  }
}
