# warlock: a verified model of the VM server

warlock runs Firecracker micro-VMs on one host. A `create` request copies a root filesystem, takes a
subnet index from a bitmap, creates a tap device and two nft rules, reserves capacity by inserting a
`Creating` placeholder into the VM map, boots the VM without holding a lock, and upgrades the placeholder
to `Running`. Each stage has its own rollback. `delete`, the guard that fires when `create` panics or is
cancelled, and the shutdown drain undo the same things in other orders. After a crash, startup cleanup
recognises what is left by the names and texts `create` used. SSH clients reach a VM's console through a
handler that authorises them against the live map and relays bytes through a queue and a writer task.

The project proves what these parts promise together: who owns which resource at every step of every
interleaving, what is leaked and by which step, that capacity is never exceeded, that runs cannot
deadlock and end, that a crash followed by a clean sweep restores the starting point, and that a console
only ever reaches a VM that authorised its key.

`dafny verify dfyconfig.toml` checks everything.

## How the model is laid out

Bottom up:

| file | content |
|---|---|
| Prelude, Decimal, Text, Sums | options and results, machine integer ranges, decimal numerals, `str` operations, sums over maps |
| SubnetPool | the bitmap allocator as a class over an array, and the address arithmetic |
| VmConfig | request validation, capacity, cgroup limits |
| Lifecycle | the transition system: resources, tasks with program counters, the two locks, one action per lock acquisition, lock region or host command |
| Ownership, Invariant, Conservation | linear ownership of resources, the inductive invariant, what each action leaks |
| Exactness, Accounts, Anchoring, Stranding, Reservations, Progress, LiveVms, Scenario | theorems over whole runs: ownership and exact accounts of leaks, of network state and of placeholders, refinement of an atomic booking ledger, deadlock freedom and termination, facts about the VMs in the map, runs that succeed and runs that leak |
| VmTable, NetworkSetup, Handlers | the same operations as imperative code on the live map, pool and host, for one request at a time |
| Solo, SoloRequests, SoloCreate | runs of the transition system in which one task is alone: what the imperative code is tied to |
| HostText, Orphans, Restart | the texts of `ip` and `nft`, startup cleanup, crash recovery |
| AuthorizedKeys, Sessions, SessionHandler, Console, ConsoleScenario | key authorisation, the SSH session and its byte streams, sessions interleaved with the lifecycle, a run in which a client reaches a console |

A task of `Lifecycle` is one request, one guard or the drain. What a host command, the SDK, the nft
handle allocator or the map iterator answers is part of the action, so a theorem about all actions covers
every outcome. Futures may be dropped (`Abort`) at any step, blocking jobs may unwind (`JobPanic`), a
`try_lock` may fail at any time, and the process may crash at any step: each is at least what the code
allows. A dropped create before the placeholder leaves its blocking job running, detached.

The imperative files take the same answers as parameters (`NetAnswers`, `CreateAnswers`, `SweepAnswers`) and
a set `stuck` of what the host refuses to remove, so each method's answer and effect are determined; only
the handles nft picks are left open.

Every resource (pool slot, tap, rule by handle, rootfs copy, VMM process) is held by one task or one map
entry, or by nobody. `Leaked` is "exists and is held by nobody"; `Lost` lists, action by action, what
joins it. The leaks of the code are all in that list: the rootfs copy of a create that fails between copy
and placeholder, a rule whose handle did not parse, the slot of a guard whose `try_lock` on the pool
failed, everything a dropped future held, and whatever a failed cleanup command left.

While `CreateGuard::drop` runs it releases the index before it removes the map entry
(src/handlers/vm.rs:653-672). The model says that the guard holds the entry's resources from the moment it
takes the `vms` lock, so ownership stays linear; `EntriesDistinct` is about states in which the map is
free.

Where the code and its documentation disagree the model follows the code: docs/architecture.md:143 says
that the map stays locked for the whole of `create`; the code holds the lock for the capacity check with
the insert, and again for the upgrade.

Three promises of the code can fail, and for each the exact condition is proved over all runs:

- The map accounts for a slot or host resource at rest if and only if the resource has not been lost since
  the last start (`ExactIff`, with `RunLeaks` for every state). Runs without panics, cancellations and
  crashes lose no slot, and with successful cleanup and handle parses nothing but rootfs copies
  (`CalmLeaks`), which gives `SlotsExact` and `HostExact`.
- A tap or rule is tied to its slot if and only if it has not been lost since the last start, or its slot
  has been lost with it (`RunAnchoredIff`); a new tap meets an old one exactly if that one has been lost
  (`RunFreshIff`). Runs whose cleanup commands succeed keep everything tied (`RunAnchors`).
- An entry is left as a placeholder if and only if its guard lost the `try_lock` on the map
  (`StrandedIff`). Runs without panics, cancellations and crashes leave none (`RestIsRunning`).

`Scenario` holds a run for each of these failures.

## Model

| member | source | states |
|---|---|---|
| SubnetPools.SubnetPool.constructor | src/vm/network.rs:39-43 | a new pool has all indices free |
| SubnetPools.SubnetPool.Allocate | src/vm/network.rs:48-59 | takes the least free index and fails exactly when all 16384 are used; its addresses are 172.16.0.0 plus 4 index plus 1 and 2 as numbers, its name is "fc" and the index in decimal; nothing else changes |
| SubnetPools.SubnetPool.Release | src/vm/network.rs:66-68 | frees that index and no other |
| SubnetPools.FirstFree | src/vm/network.rs:48-59 | the bitmap scan as a function on the set of used indices: the answer is in range, free and least; none only if all are used |
| SubnetPools.HighWater | src/vm/network.rs:48-68 | over any allocate/release trace every used index is below the peak number of simultaneously used ones |
| SubnetPools.NarrowingIsExact | src/vm/network.rs:48-85 | for every index of the pool the u8 and u16 casts lose nothing: the octets spell 172.16.0.0 plus 4 index plus 1 and 2 |
| SubnetPools.NarrowingBeyondPool | src/vm/network.rs:48-85 | any position past the pool would get the addresses of that position modulo 16384, so the bound of the pool is exactly where narrowing starts to alias |
| SubnetPools.KnownSubnets | src/vm/network.rs:74-93 | subnets 0, 64, 999 and 16383 have the addresses 172.16.0.1/2, 172.16.1.1/2, 172.16.15.157/158 and 172.16.255.253/254, and the names are fc0, fc42, fc16383 |
| SubnetPools.SubnetGeometry | src/vm/network.rs:74-85 | tap and guest are the two host addresses of the index's own /30 inside 172.16.0.0/16, and two indices share no address |
| SubnetPools.TapNames | src/vm/network.rs:91-93 | tap names are injective and at most 7 characters |
| VmConfig.ValidateVmConfig | src/vm/config.rs:24-45 | accepts exactly 1 or an even number of vCPUs up to 32 and at least 128 MB, with the defaults for absent fields; vCPUs are judged first |
| VmConfig.CgroupV1 | src/vm/config.rs:49-73 | the v1 files read back as one core per vCPU and the memory plus 50 MiB |
| VmConfig.CgroupV2 | src/vm/config.rs:49-73 | the v2 files read back as the same limits |
| Invariant.StructureKept | src/handlers/vm.rs:107-343 | every action of every interleaving keeps the invariant: program counters agree with lock holders, handles and ids are unique, teardown lists release the slot last, placeholders are their creator's, capacity is not exceeded |
| Invariant.AdmitIsPlainSum | src/handlers/vm.rs:213-242 | within capacity the saturating test refuses exactly when the plain sum exceeds the host, for vCPUs first, then for memory |
| Invariant.InsertWithin | src/handlers/vm.rs:213-259 | an admitted placeholder keeps the sums of all entries within capacity |
| Conservation.JobMoves | src/handlers/vm.rs:163-185 | every stage of the copy and network jobs, attached or detached, moves ownership as its rollback says and leaks exactly `JobLost` |
| Conservation.GuardExchange | src/handlers/vm.rs:653-656 | the guard that gets the map lock takes over exactly what its placeholder holds |
| Conservation.TakeExchange | src/handlers/vm.rs:516-559 | removing an entry hands everything it holds to the task that tears it down |
| Conservation.ActionConserves | src/handlers/vm.rs:107-675 | in every reachable state each resource has at most one holder and exists; each action leaks precisely what `Lost` lists, and what has leaked stays leaked |
| Conservation.CrashConserves | src/firecracker/orphan.rs:36-63 | after a crash nothing is held and what cleanup left is all that is leaked |
| Exactness.RunKeeps | src/handlers/vm.rs:107-675 | the invariant and linear ownership hold in every state of every run, through any number of crashes |
| Exactness.OneOwner | src/vm/network.rs:48-68 | an index has at most one owner, and an owned index is in range and marked used |
| Exactness.EntriesDistinct | src/handlers/vm.rs:244-262 | while the map is free no two entries share an index |
| Exactness.ReleasedByOwner | src/vm/network.rs:66-68 | whatever action is taken, short of a crash, a release is executed only on a used index its task owns, it is executed iff the index leaves the pool's used set, and nobody owns the index afterwards: no double release |
| Exactness.CalmLeaks | src/handlers/vm.rs:148-185 | without panics and cancellations no action leaks an index; with successful cleanup and parses only rootfs copies leak |
| Accounts.RunLeaks | src/handlers/vm.rs:107-675 | in every state of every run, what is leaked is exactly what some action has lost since the server last started, with panics, cancellations, failed `try_lock`s, failed commands and crashes |
| Accounts.CrashFreeLeaks | src/handlers/vm.rs:107-675 | without crashes: exactly what some action of the run lost |
| Accounts.RestAccount | src/handlers/vm.rs:147-319 | after any run whatever, once nothing is in flight, a slot, tap, rule, file or process is there iff an entry holds it or it has been lost since the last start, never both, and by one entry at most |
| Accounts.ExactIff | src/handlers/vm.rs:147-319 | corollary: at rest the map accounts for a resource exactly if and only if it has not been lost since the last start |
| Accounts.PoolAccount | src/vm/network.rs:48-68 | the same for the pool in terms of entry indices |
| Accounts.IndicesBelowPeak | src/vm/network.rs:48-59 | in every state of every run each used index is below the largest number of indices in use at once since the last start |
| Anchoring.RunAnchoredIff | src/handlers/vm.rs:597-605 | over every run, panics, cancellations, failed locks and commands and crashes included: a tap or rule on the host has its slot used and is held by whoever holds the slot, if and only if it has not been lost since the last start or its slot has been lost too |
| Anchoring.RunFreshIff | src/firecracker/network.rs:20-38 | over every run: `ip tuntap add` is run for a name that exists iff that tap has been lost since the last start; a tap or rule of a free index, such as the one handed out next, is on the host iff it has been lost since then |
| Anchoring.LostWithSlot | src/handlers/vm.rs:163-185 | an action without a failed cleanup command (or, for rules, an unreadable handle) that loses a tap or rule loses its slot in the same step |
| Anchoring.ActionAnchored | src/handlers/vm.rs:597-605 | such an action keeps everything anchored, through panics, cancellations and failed `try_lock`s |
| Anchoring.RunAnchors | src/handlers/vm.rs:551-559 | so on runs without such faults every tap and rule stays anchored |
| Anchoring.FreshIndices | src/firecracker/network.rs:20-38 | and there `ip tuntap add` meets no existing name and no index comes back with leftovers |
| Stranding.StrandedIff | src/handlers/vm.rs:639-675 | after any run whatever, once nothing is in flight, an entry is still `Creating` if and only if its guard has lost the `try_lock` on the map since the last start |
| Stranding.StrandedStays | src/handlers/vm.rs:516-528 | such a placeholder stays as it is, deletes included, until a drain takes it or the server crashes |
| Stranding.RestIsRunning | src/handlers/vm.rs:287-319 | in particular no placeholder is stranded by a run without panics, cancellations and crashes |
| Exactness.SlotsExact | src/handlers/vm.rs:147-319 | in particular, after a run without panics, cancellations and crashes, once nothing is in flight, an index is used iff exactly one entry holds it |
| Exactness.HostExact | src/firecracker/network.rs:66-169 | and if cleanup commands and parses also succeeded, taps, rules and VMMs are exactly those of the entries |
| Ledger.BookingIsForever | src/handlers/vm.rs:302-319 | in the atomic booking specification a booked configuration never changes, a live booking stays live until released, and a released id never returns |
| Refinement.StepRefines | src/handlers/vm.rs:209-262 | every step of the concurrent system is a step of the ledger: a create is refused for vCPUs or memory exactly when the sum booked inside that lock region plus the request exceeds the host |
| Refinement.EventsUnderLock | src/handlers/vm.rs:209-262 | only the task that holds the map lock changes the ledger: its events are linearization points inside that lock |
| Refinement.RunRefines | src/handlers/vm.rs:514-528 | every run of the server is a run of the ledger |
| Progress.LockOrder | src/handlers/vm.rs:210-242 | nobody awaits the map while holding a lock, or the pool while holding the pool |
| Progress.NoDeadlock | src/handlers/vm.rs:148-304 | in every reachable state with tasks there is one that can step whatever the host, the allocator of handles and `try_lock` can answer |
| Progress.MeasureMoves | src/handlers/vm.rs:107-675 | every action but a request or crash strictly decreases one measure over all tasks and entries |
| Progress.RunsAreBounded | src/main.rs:110-148 | a run without crashes that serves n requests takes at most 49 n steps more than the work it started with, shutdowns, panics and cancellations included |
| Progress.MaximalRunsFinish | src/handlers/vm.rs:107-675 | from a start, every run that cannot continue has ended within 49 steps per request, with no task left and both locks free |
| Scenario.CreateCanSucceed | src/handlers/vm.rs:107-343 | on every host with room for it, some run of a valid request alone ends with its VM Running and nothing in flight |
| Scenario.ShutdownCanEmpty | src/main.rs:110-148 | a shutdown after it can take down everything: map, pool and host are empty |
| Scenario.RefusalLeavesRootfs | src/handlers/vm.rs:222-241 | a refused create does leave its rootfs copy, without any fault |
| Scenario.CancellationLeaksSlot | src/handlers/vm.rs:163-185 | a create cancelled before its `ip tuntap add` fails does leave its index used and owned by nobody |
| Scenario.UnreadHandleLeavesRule | src/firecracker/network.rs:73-80 | an unparsed handle does leave a masquerade rule for a free index |
| Scenario.GuardLeaksSlot | src/handlers/vm.rs:663-672 | a guard whose `try_lock` on the pool fails does remove its entry and leave the index used |
| Scenario.GuardStrandsPlaceholder | src/handlers/vm.rs:650-653 | a guard whose `try_lock` on the map fails does strand its placeholder, and a delete of it changes nothing |
| Scenario.FailedDeleteLeavesTap | src/handlers/vm.rs:551-559 | a delete whose tap removal fails does leave the tap of the index handed out next |
| Scenario.CancelledDeleteLeaks | src/handlers/vm.rs:530-556 | a delete dropped while it stops the instance does end the VMM and leave everything else of the VM owned by nobody |
| LiveVms.PlaceholderStable | src/handlers/vm.rs:516-528 | only the inserting create, through its guard too, or the drain changes a `Creating` entry |
| LiveVms.UpgradeOutcome | src/handlers/vm.rs:302-319 | the upgrade finds exactly what its task inserted and makes it Running; only after a shutdown request can it find nothing, and then map and pool are untouched and the instance is dropped |
| LiveVms.DroppedVmmEnds | src/handlers/vm.rs:302-319 | in every reachable state a request that is dropped or unwinds with a VMM in its hands takes it down, if dropping the instance works, and then it is neither held nor leaked |
| LiveVms.Population | src/handlers/vm.rs:213-259 | the map never holds more entries than the host has cores (at most 255), nor than allocatable memory divided by 128 MB |
| LiveVms.HostKeepsMemory | src/capacity.rs:4-18 | in every state of every run with a VM in the map, the memory of all VMs, each of at least 128 MB, leaves the host 256 MB of what it has |
| LiveVms.CgroupTotals | src/vm/config.rs:49-73 | the CPU quotas of all entries add up to at most the host's cores, their memory limits to at most allocatable memory plus 50 MiB each |
| LiveVms.NetworksDisjoint | src/vm/network.rs:74-93 | two live VMs have different addresses, different /30s and different tap names |
| VmTables.VmTable.AllocatedVcpus | src/handlers/vm.rs:213 | the u8 sum over all entries, in any iteration order, never overflows and is the total |
| VmTables.VmTable.AllocatedMemory | src/handlers/healthcheck.rs:72-73 | likewise the u64 sum of memory |
| VmTables.VmTable.Reserve | src/handlers/vm.rs:209-262 | inserts the placeholder iff both plain sums fit; else leaves the map, says which failed, vCPUs first, and exactly how much is available |
| VmTables.VmTable.Promote | src/handlers/vm.rs:302-315 | remove and insert turn a placeholder into the Running entry with the same configuration and network |
| VmTables.VmTable.TakeRunning | src/handlers/vm.rs:514-537 | removes a Running entry; a placeholder is put back unchanged and reported as a conflict |
| NetworkSetup.NetHost.CreateTap | src/firecracker/network.rs:20-38 | succeeds iff the name is free and all three commands work, and then adds exactly the tap; a failure after `tuntap add` leaves it only if its removal fails too |
| NetworkSetup.NetHost.AddNatRules | src/firecracker/network.rs:66-118 | succeeds iff both rules are added and both handles read, under handles not in use; which rules a failure leaves follows from the command that failed: an unread first rule alone, both when the second is unread, and the first after a failed second only if its removal fails |
| NetworkSetup.NetHost.RemoveNatRules | src/firecracker/network.rs:135-169 | removes exactly those two rules, but for what the host refuses to remove |
| NetworkSetup.NetHost.SetUp | src/handlers/vm.rs:163-174 | the network job succeeds iff the tap is new and every command works, with three new resources; otherwise the host is as before, but for an exact list of leftovers that is empty when removals work and replies can be read |
| NetworkSetup.NetHost.SetUpThenTearDown | src/handlers/vm.rs:551-556 | setup followed by teardown restores the host, whatever else is on it; it says when setup succeeds |
| Handlers.Server.CleanupVmResources | src/handlers/vm.rs:582-609 | removes exactly what the entry holds, but for what the host refuses to remove; the slot is released in any case |
| Handlers.Server.Delete | src/handlers/vm.rs:510-564 | a Running VM goes with exactly what it holds, but for what the host refuses to remove; any other id changes nothing and gets its own error; the effect is that of a run of this request alone in the transition system |
| Handlers.Server.GuardDrop | src/handlers/vm.rs:639-675 | with the map lock the placeholder goes with its network and rootfs copy, the slot only with the pool lock too; without the map lock nothing changes; and some run of the guard alone does the same |
| Handlers.Server.Drain | src/main.rs:110-148 | empties the map in any order, frees exactly the entries' indices and removes exactly what they held; and some run of the drain alone does the same |
| Handlers.Server.Create | src/handlers/vm.rs:120-321 | which of the six answers is given, each if and only if: the copy failed; no index is free; the tap exists or a network command failed; the plain sums do not fit, with exactly what is available; the SDK failed; or all went well. Success adds one Running entry on the least free index and exactly its resources; a failure restores map and pool and leaves an exact list on the host, which without further faults is the rootfs copy when create fails between copy and placeholder and nothing otherwise; and some run of this create alone does the same |
| Handlers.Server.CreateThenDelete | src/handlers/vm.rs:107-576 | says when the create succeeds; then create followed by delete restores map and pool, and the host when nothing refuses to go |
| SoloRequests.GoodAgrees | src/firecracker/network.rs:135-169 | the condition under which those runs are stated, that the handles of every entry name its own rules, holds in every reachable state with the map free |
| Handlers.DrainLeavesLeaks | src/main.rs:110-148 | when nothing is in flight, what the drain does not take down, on the host and in the pool, is exactly what has leaked |
| Decimal.ParsePrinted | src/firecracker/network.rs:246-249 | the decimal numeral of a number, with or without `+`, parses to it iff it is below 2^64 |
| Decimal.ParseRejects | src/firecracker/network.rs:246-249 | nothing with another character parses, nor the empty string or a lone sign |
| HostText.ParseNftHandle | src/firecracker/network.rs:238-254 | returns the number on the last `# handle` line if every such tail is a u64, and an error if one is not or none exists |
| HostText.HandleRoundTrip | src/firecracker/network.rs:73-104 | printing any u64 handle after an echoed rule, before lines without the marker, and parsing gives it back, exactly when every earlier marked line is a number too |
| HostText.NoMarkerNoHandle | src/firecracker/network.rs:238-254 | a reply without `# handle ` on any line names no handle |
| HostText.BadLineSpoils | src/firecracker/network.rs:244-250 | one marked line whose trimmed tail is no u64 makes the reply an error, wherever it stands |
| HostText.HasNftablesRules | src/firecracker/orphan.rs:375-396 | true iff some line of the listing is not part of the table structure |
| HostText.TableRecognised | src/firecracker/orphan.rs:356-396 | on every rendered table that is true iff some chain holds a rule: one of the two shapes the server adds, or any text that begins with another word than the lines of the structure |
| HostText.ListingRecognised | src/firecracker/orphan.rs:287-300 | on every rendered listing the parser returns, in order, exactly the interfaces whose names are `f`, `c` and then characters from `0` to `9` |
| HostText.TapNameIsFc | src/vm/network.rs:91-93 | every name the pool can print is one of those |
| Orphans.IsImage | src/firecracker/orphan.rs:208-213 | what follows the last dot is `ext4`, with a name before it, iff the name is longer than 5 characters and ends with `.ext4` |
| Orphans.IsLog | src/firecracker/orphan.rs:423-426 | recognised iff the name begins with `warlock-jailer-` and ends with `.log` without overlap |
| Orphans.ImageRecognised | src/firecracker/orphan.rs:187-226 | so the rootfs copy of any id is recognised |
| Orphans.LogRecognised | src/firecracker/orphan.rs:405-439 | and the log of any id |
| Orphans.Host.KillOrphanedProcesses | src/firecracker/orphan.rs:72-117 | exactly the processes that survive both signals are left, and a find is reported iff `pkill` ran and there was a process |
| Orphans.Host.RemoveStaleWorkspaces | src/firecracker/orphan.rs:124-171 | exactly the workspaces whose removal fails are left, and a find is reported iff one went |
| Orphans.Host.RemoveStaleImages | src/firecracker/orphan.rs:187-226 | exactly the `.ext4` files go, but for failed removals; other files stay, and a find is reported iff one went |
| Orphans.Host.RemoveStaleTapDevices | src/firecracker/orphan.rs:240-276 | from the text of the listing: the links that stay are, in order, those at an explicit list of positions, and a position is missing from it iff the link is named `fc` and digits and can be deleted; a find is reported iff there is one |
| Orphans.Host.FlushNftablesRules | src/firecracker/orphan.rs:310-349 | from the text of the table, flushes every chain iff there is a rule, and both commands work |
| Orphans.Host.RemoveStaleLogs | src/firecracker/orphan.rs:405-439 | exactly the jailer logs go, but for failed removals; a find is reported iff one went |
| Orphans.Host.CleanupOrphans | src/firecracker/orphan.rs:36-63 | if nothing resists, the host is swept and a find is reported iff there was one; in any case a find is reported if anything changed, and links, images and files are exactly as the single steps leave them |
| Restart.SweptShowsNothing | src/firecracker/orphan.rs:36-63 | no resource create can leave behind is visible after a sweep |
| Restart.LeftoverIsFound | src/firecracker/orphan.rs:36-63 | any of them still visible makes the sweep report a find |
| Restart.WorldIsShown | src/firecracker/orphan.rs:36-63 | whatever a crash leaves, some host shows exactly that, in the listing formats the sweep reads |
| Restart.AlikeIsSame | src/vm/network.rs:74-93 | two resources that look the same from outside, within the pool and 128-bit ids, have the same index or id: tap names, addresses and UUID texts are injective |
| Restart.RestartServer | src/firecracker/orphan.rs:36-63 | from a host that shows the world of any reachable state, the sweep followed by the restart is a crash action of the transition system; if nothing resists the sweep the server is freshly started, on an empty host, and anything there was has been reported; if not, exactly what is still visible is leaked, and a find is reported if anything went |
| AuthorizedKeys.IsKeyAuthorized | src/ssh/authorized_keys.rs:17-72 | true iff some trimmed, non-comment line has two tokens and its second decodes to an equal key; never an error |
| AuthorizedKeys.KeysEqual | src/ssh/authorized_keys.rs:78-87 | keys are equal iff they are the same, or RSA keys that differ in the hash alone |
| AuthorizedKeys.EntryGrants | src/ssh/authorized_keys.rs:33-58 | a line of white space, a word, white space, a second word, and then the end or white space and anything, grants exactly the keys equal to what the second word decodes to, unless the first begins with `#` |
| AuthorizedKeys.AuthorizedIff | src/ssh/authorized_keys.rs:17-72 | a key is authorised iff some line is of that form and its second word decodes to an equal key: no other line grants anything |
| AuthorizedKeys.PermutationInvariant | src/ssh/authorized_keys.rs:17-72 | the order of the lines does not matter |
| AuthorizedKeys.InsertionInvariant | src/ssh/authorized_keys.rs:17-72 | a line that grants nothing can be inserted anywhere |
| AuthorizedKeys.IdleLines | src/ssh/authorized_keys.rs:17-72 | blank lines, comments and undecodable lines grant nothing |
| Sessions.ParseUser | src/ssh/auth.rs:12-21 | a user whose name begins with `vm-` is the UUID that follows, or an error if it does not parse; every other name is no VM user |
| Sessions.ConnectResult | src/ssh/session.rs:166-180 | a shell opens iff the bytes read back are text beginning with `O`, `K` and a space |
| Sessions.MessageKeepsStreams | src/ssh/session.rs:233-266 | data and resize messages are recorded as they are and appended to the current shell's stream and to no other |
| Sessions.WriteKeepsStreams | src/ssh/session.rs:188-199 | every step of a writer keeps written plus queued bytes equal to the accepted ones, or a prefix after an error |
| Sessions.EventKeepsStreams | src/ssh/session.rs:169-266 | for every interleaving of callbacks and writers each socket holds the CONNECT line and a prefix of the stream of its shell; the messages of the session grow by exactly the bytes of a data event, or `ESC [ 8 ; rows ; columns t` of a resize, and by nothing else |
| SessionHandlers.SessionHandler.constructor | src/ssh/session.rs:26-34 | a new handler has no VM, channel or shell |
| SessionHandlers.SessionHandler.AuthPublickey | src/ssh/session.rs:40-106 | accepts exactly a Running VM's own keys and then records the VM; every other answer changes nothing |
| SessionHandlers.SessionHandler.ChannelOpenSession | src/ssh/session.rs:108-116 | records the channel and keeps every stream |
| SessionHandlers.SessionHandler.LookUp | src/ssh/session.rs:144-164 | the first half of a shell request: each way the map refuses leaves the handler as it was |
| SessionHandlers.SessionHandler.Connect | src/ssh/session.rs:166-199 | the second half, whatever writer tasks did in between: a failed handshake leaves the previous sender, success replaces it and starts a stream with the CONNECT line |
| SessionHandlers.SessionHandler.Data | src/ssh/session.rs:233-244 | the bytes join the current queue, if its receiver lives |
| SessionHandlers.SessionHandler.WindowChangeRequest | src/ssh/session.rs:246-266 | so does the escape sequence with rows before columns |
| SessionHandlers.SessionHandler.WriterTask | src/ssh/session.rs:191-199 | the writer loop until it waits or ends: it fails iff the socket does not take all that was sent to the shell so far, having written exactly what fits; otherwise the socket has the whole stream, and the task has ended iff its sender is gone |
| Sessions.ResizeRoundTrip | src/ssh/session.rs:257-259 | a terminal reading the resize sequence gets back the rows and columns the client announced |
| Console.VouchedStays | src/ssh/session.rs:50-106 | no server step turns a VM that authorised a key into one in the map that does not |
| Console.RunIsSound | src/ssh/session.rs:139-164 | in every state of every run of server and clients, all sessions and relays refer to VMs that are gone for good or Running with the key authorised |
| Console.RunKeepsStreams | src/ssh/session.rs:169-266 | in every state of every such run, told from the client's events alone: there is one relay for every shell request the socket answered with OK, and its socket, what its writer has in hand and its queue together are `CONNECT 1024`, a newline, and exactly the messages sent between that request and the next such one; after a write error, a prefix of that |
| Console.RelaysStayAuthorised | src/ssh/session.rs:139-164 | a shell's VM, as long as it is in the map, is Running and authorises the key the shell rests on |
| Console.ShellsAreAuthorised | src/ssh/session.rs:40-164 | every shell was opened by a request whose lookup, the client's last callback before the connection, found the VM Running and authorising the key, and that goes back to the session's last accepted authentication, for the same VM and key and equally justified |
| ConsoleScenario.TypingReachesVm | src/ssh/session.rs:40-244 | on every host with room, some run serves a VM whose keys list a client's, the client logs in and opens a shell, and what it types is on the VM's socket behind the CONNECT line |

## Left out

- Process execution, file and socket I/O, the Firecracker SDK, JSON and HTTP routing: each is a step that succeeds or fails; `setup_firecracker_instance` is reduced to no VMM, a VMM that is dropped again, or a running one.
- Gateway registration and deregistration: network calls made after the lock is released, which a delete can overtake; the shutdown calls only lengthen the time the map is locked.
- Preflight checks, version probing, host keys, SSH server plumbing, logging, error texts and shell scripts.
- Key decoding, UUID parsing and cryptography: decoders are parameters, and ids are fresh.
- `list`, `get` and the readiness probe beyond taking and releasing the map lock and its sums.
- The guest-to-client direction of a shell, including bytes read together with the handshake reply, which the code discards.
- Exact conservation of rootfs copies over failed creates: the code leaks them, `Lost` says when, and crash recovery removes them.
- Fairness of the locks: a waiting task may be overtaken any number of times; termination does not depend on the order.
- Host commands still running when the process dies: a crash takes effect between commands.
- `VmResources` fields that are `Option` in the source are always present in the model, as `create` always fills them.
- The boot argument string, the vsock CID formula and other single expressions.
- NetworkSetup.NetHost.CreateTap: `ip addr add` and `ip link set up` only succeed or fail; addresses and link state of a tap are not modelled.
- Handlers.Server.Create: runs one request at a time; interleaving, panics and cancellation are the subject of the transition system.
- Restart.RestartServer: processes are identified with VM ids, since what matters is whether any is left.
