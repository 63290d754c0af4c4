# A verified model of the osdemo kernel

A Dafny model of the multi-core aarch64 demo kernel in google/osdemo, and proofs of what the kernel
relies on. There are four parts.

**Interrupts on many cores** (`Machine`, `Frames`, `Locks`, `Dispatch`, `Kernel`, `Secondaries`, `Runs`,
`Devices`, `CommandLine`, `Paths`, `Interrupts`, `Witnesses`, `BootRuns`, `Cpus`). `Machine` is a step
system. A core has a place in its main program, possibly a place inside one API call, and possibly a place
inside `handle_irq`; it has a mask bit, saved masks, enabled interrupts with priorities, a priority mask and
a stack of active interrupts. The global state has the four spin locks, the shared and the private handler
tables with a log of all accesses, the RTC, the console and the power states. One event is one step of one
core, the delivery of an interrupt, a received byte, an RTC match, any other SPI line raised at any core, or
a core coming out of reset; a run is any sequence of events that can happen, on any number of cores.
`KernelInit` starts this kernel's own programs: the boot sequence and shell on the primary core and
`secondary_entry` on the others. `ClientInit` starts arbitrary programs on all cores that make arbitrary
calls of the interrupt API, configure and unmask interrupts and send each other SGIs. In `KernelInit` runs
the shell runs any commands in any order; `CommandLine` adds to a run what `read_line` has read so far and
lets the core start only what the shell starts next. `Paths` builds runs out of what single cores can do;
`Witnesses` and `BootRuns` give the runs in which things go wrong, each from the initial state. `Interrupts`
is the sequential form of the handler tables, a class that updates maps in place; `CallsAreAtomicAlone` ties
the two forms together.

**PCI ranges to BARs** (`Pci`, `Blocks`, `FrameAllocator`, `Bars`, `Placement`, `Replay`, `Programming`,
`Conversion`). Range decoding, trimming and mapping, a power-of-two frame allocator with its free lists, the
three pools with their fallbacks, and the programming of all BARs of all devices on a root. A trace of the
pools before and after each BAR says where every BAR goes; `Replay` proves that ranges and devices fix it.

**Device tree to identity map** (`DeviceTree`, `Paging`, `MapWalk`, `Boot`). The recursive walk, the page
map it leaves, the MMIO addresses the kernel then uses, and the boot sequence that joins this with PCI.

**Line reader** (`LineReader`). The shell's byte-by-byte reader and its command loop.

A failed `assert!`, `unwrap` or `expect` ends a run: `panic` in the step system, `Err(fault)` elsewhere.

Assumptions about the environment:

- The console and the RTC interrupt the primary core. Any other SPI may be delivered to any core. An SGI
  sent to `All` reaches every core but the sender.
- The GIC behaves as in section 4.1 of the GICv3/v4 Architecture Specification (IHI 0069): acknowledging
  pushes an interrupt on the core's active stack, ending pops the latest one, and only an interrupt of
  higher priority than the running one is signalled. Pending state is visible to all cores at once.
- The RTC line is a level: raised by a match, lowered by `clear_interrupt`. The PL011 receive interrupt is
  pending from a received byte until its handler clears it; the crosvm UART's is edge triggered. The
  UART's receive queue never overruns.
- `wfi` in `secondary_entry` returns after an interrupt was taken, unless `earlyWfi` is set, in which case
  it may return at any time. `wfi` in `Console::read` may return at any time.
- CPU_ON starts only a core that is off, and CPU_OFF and AFFINITY_INFO behave as in chapter 5 of the Arm
  PSCI specification (DEN0022). Distinct cores have distinct affinities.
- Handler table and stack map updates allocate nothing.
- `find_compatible` visits the node and all nodes below it in document order.
- `Gicd` is 64 KiB, `GicrSgi` is 128 KiB, `VirtIOHeader` is 256 bytes, a CAM region is 16 MiB and an ECAM
  region 256 MiB. An end address that does not fit 64 bits ends the run.

Properties that turned out false of the code, with what holds instead:

- *A registration never leaves an interrupt in both tables.* False. `set_shared_irq_handler` looks only at
  the private table of its own core, so a private registration on one core and then a shared one on another
  are enough (`OverlapInSequence`). The other way round it takes an interleaving, because
  `set_private_irq_handler` releases the table between its check and its insertion (`RegistrationRace`). In
  every run, `set_shared_irq_handler` leaves an interrupt in both tables of a core exactly when that is
  another core with a private handler for it (`SharedInsertOverlaps`), `set_private_irq_handler` exactly when
  a shared handler is there by the time it inserts its own (`PrivateInsertOverlaps`), and nothing else does
  (`OverlapBegins`). In the log: exactly when another core added the shared entry after this core's check and
  nobody has removed it since (`OverlapByOvertaking`).
- *`handle_irq` always finds a handler.* False on the primary core for an alarm after `irq_remove`
  (`RemovedAlarmRun`), and on a secondary core for an SGI after `wfi` returned early (`EarlyWakeRun`), both
  reached from boot on every system. Every panic in every run of the step system is one of these two:
  `PanicExplained`, `PrimaryFindsHandler`, `SecondaryFindsHandler`.
- *Every RTC match leads to a handler run.* False for a match while the level of an earlier one is still on
  the line, for instance one that fires between `irq_finish` and `set_match`: `SecondAlarmLost`, reached from
  boot in `SecondAlarmRun`. Exactly these are missing: `AlarmAccounting`.
- *An allocation fails only if no aligned free window is left.* False for windows of more than 32 bytes at
  address 0 (`ZeroWindowLost`) and for windows larger than the largest free list's blocks
  (`LargeWindowLost`). These two limits are the only ways: `ServesIfFits`, `FailsOnlyAtLimits`.
- *The conversion of a 32-bit BAR address to `u32` never fails.* False (`ConversionFails`). For BARs of a given
  size it can fail only if a 32-bit range has room for an aligned BAR of that size from 4 GiB on, for any
  ranges (`NoConversionPanic`); and if the ranges are disjoint it does fail then, once a device has enough such
  BARs (`FillLow`). A range that merely ends past 4 GiB, such as 0xffff_fff0 to 0x1_0000_0008, does no harm,
  because a memory BAR has at least 16 bytes (section 6.2.5.1 of the PCI Local Bus Specification). Every BAR
  that does get an address from the 32-bit pool ends by 4 GiB in any case: `LowBarsFit`.

## Model

| member | source | states |
|---|---|---|
| `Locks.LocksAlways` | src/interrupts.rs:36-113 | in every state of every run a core owns exactly the locks its position says, and is masked with matching saved masks inside `exception_free` and handlers |
| `Locks.WaitsRise` | src/interrupts.rs:36-113 | no core waits for a lock it holds, and a core that is waited for waits only for locks of higher rank (stacks, GIC, handler table, console) |
| `Locks.NoWaitCycle` | src/interrupts.rs:36-113 | in every run no chain of cores, each waiting for a lock of the next, comes back to where it started |
| `Locks.DeadlockFree` | src/console.rs:25-97 | while any core spins on a lock, some core that holds a lock can make a step, for any number of cores and any interleaving |
| `Dispatch.TablesAlways` | src/interrupts.rs:36-113 | the tables are always what the log of accesses says, and a core running a shared handler runs the one in the table |
| `Dispatch.DispatchRefinement` | src/interrupts.rs:95-113 | the handler a core starts is the one found by replaying the log: its latest live private registration, else the latest live shared one; the no-handler panic means the log has neither |
| `Dispatch.PrivateStaysPrivate` | src/interrupts.rs:65-88 | another core's private calls never change what is chosen on this core |
| `Dispatch.OneSharedHandler` | src/interrupts.rs:107-108 | at most one shared handler runs at a time over all cores |
| `Dispatch.Quiescence` | src/interrupts.rs:36-60 | once a handler is not in the shared table, no core runs it then or later in the run unless it was registered again |
| `Dispatch.QuietAfterRemoval` | src/interrupts.rs:36-60 | after a removal or a replacing registration in the log, by any core, no core runs the old handler until some core registers it again |
| `Dispatch.CallTakesOut` | src/interrupts.rs:36-60 | `remove_shared_irq_handler` and a replacing `set_shared_irq_handler` are the calls that log such an access |
| `Dispatch.OverlapByOvertaking` | src/interrupts.rs:36-80 | a core's private interrupt is also in the shared table exactly if a different core added the shared entry after this core's check and it has not been removed since |
| `Dispatch.OverlapBegins` | src/interrupts.rs:36-80 | the events that put an interrupt into both tables of a core are exactly: another core's shared insertion over its private entry, and its own insertion over a shared one |
| `Dispatch.SharedInsertOverlaps` | src/interrupts.rs:36-52 | when `set_shared_irq_handler` inserts, the interrupt is in both tables of exactly the other cores that have a private handler for it |
| `Dispatch.PrivateInsertOverlaps` | src/interrupts.rs:65-80 | when `set_private_irq_handler` inserts, it is in both tables exactly if a shared handler is there by then |
| `Dispatch.AloneNeverOverlaps` | src/interrupts.rs:36-80 | a core that alone adds shared handlers for an interrupt never has it in both tables |
| `Dispatch.SplitNeverOverlaps` | src/interrupts.rs:36-80 | no overlap in any run that registers SGIs only privately and SPIs only shared |
| `Witnesses.SharedHandlerHeldUp` | src/interrupts.rs:95-113 | on any two cores one can be running a shared handler while the other, interrupted by the same SGI, waits for the table it would look its handler up in |
| `Witnesses.OverlapInSequence` | src/interrupts.rs:36-80 | a private registration on one core and then a shared one on another, each run to its end, leave the interrupt in both tables |
| `Witnesses.RegistrationRace` | src/interrupts.rs:65-80 | so does a shared registration between the check and the insertion of a private one |
| `Witnesses.UnhandledPanics` | src/interrupts.rs:95-113 | an interrupt that is deliverable and in neither table stops the system once the table lock is free |
| `BootRuns.EarlyWakePanics` | src/apps/cpus.rs:83-89 | an SGI that arrives after `wfi` returned early and its handler was removed stops the system |
| `BootRuns.EarlyWakeRun` | src/apps/cpus.rs:26-100 | if `wfi` can return early, every secondary core of every system can get there from boot |
| `BootRuns.Boots` | src/main.rs:96-137 | the kernel can come up: from the first instruction to the shell prompt with interrupts unmasked |
| `BootRuns.RemovedAlarmPanics` | src/apps/alarm.rs:33-35 | an RTC interrupt after `irq_remove` stops the system |
| `BootRuns.RemovedAlarmRun` | src/apps/shell.rs:62-76 | every system can get there from boot |
| `Interrupts.IrqTables.constructor` | src/interrupts.rs:26-29 | empty tables, one private table for each CPU of the device tree |
| `Interrupts.IrqTables.SetShared` | src/interrupts.rs:36-52 | panics exactly when the calling core has a private handler, else returns the previous handler and is one logged registration; the log keeps explaining every overlap |
| `Interrupts.IrqTables.RemoveShared` | src/interrupts.rs:57-60 | returns the previous handler and removes it |
| `Interrupts.IrqTables.SetPrivate` | src/interrupts.rs:65-80 | panics exactly when a shared handler is registered, else returns the core's previous handler and is one check and one registration in the log |
| `Interrupts.IrqTables.RemovePrivate` | src/interrupts.rs:85-88 | returns the core's previous handler and removes it |
| `Interrupts.IrqTables.Find` | src/interrupts.rs:99-112 | finds the handler that replaying the log gives for the calling core |
| `Interrupts.CallsAreAtomicAlone` | src/interrupts.rs:36-88 | each call, run step by step without interference, has the effect of the method, and panics in the same cases |
| `Cpus.IndexOf` | src/cpus.rs:31-35 | the first position with the given affinity, or none if it is not in the device tree |
| `Cpus.SlotsAreSeparate` | src/cpus.rs:13-46 | slots are in range, and two cores get the same slot exactly when their affinities are equal |
| `Cpus.SlotsAreDense` | src/cpus.rs:26-35 | with distinct CPU ids every CPU node has its own position as its slot |
| `Kernel.PrimaryThread` | src/main.rs:96-141 | every thread step of the primary core keeps its invariant on tables, GIC configuration, masking, active stack and boot order, and cannot panic |
| `Kernel.PrimaryHandles` | src/interrupts.rs:95-113 | so does every step of its handlers; the only panic is after `irq_remove` |
| `Secondaries.SecondaryThread` | src/apps/cpus.rs:67-100 | every thread step of a secondary core keeps its invariant on registered SGIs, priorities, masking and the wait, and cannot panic |
| `Secondaries.SecondaryHandles` | src/apps/cpus.rs:102-107 | so does every step of its handler; the only panic is after an early `wfi` |
| `Secondaries.ActiveBlocks` | src/apps/cpus.rs:72-76 | an SGI that was taken and never ended masks every further SGI on that core |
| `Runs.KernelAlways` | src/main.rs:65-141 | the invariants of all cores hold in every state of every run |
| `Runs.AckEndDiscipline` | src/interrupts.rs:95-113 | on the primary core each end names the latest acknowledged interrupt not yet ended; while unmasked at most the RTC interrupt is active, and a pending console interrupt is then deliverable; secondary cores never end one |
| `Runs.PanicExplained` | src/apps/cpus.rs:67-100 | every panic in every run is the no-handler panic of the primary core for the RTC after `irq_remove`, or that of a secondary core for an SGI after an early `wfi` |
| `Runs.PrimaryFindsHandler` | src/apps/shell.rs:39-77 | the primary core meets no interrupt without a handler until `irq_remove`, and then only the RTC's, whatever `wfi` does elsewhere |
| `Runs.SecondaryFindsHandler` | src/apps/cpus.rs:67-100 | a secondary core never meets one if `wfi` does not return early, whatever the primary core has removed |
| `Runs.NoUnexpectedIrq` | src/interrupts.rs:95-113 | if `wfi` does not return early, the only panic of any kind on any core is the RTC's after `irq_remove` |
| `Runs.KernelNeverOverlaps` | src/apps/cpus.rs:78-80 | in this kernel shared handlers are for SPIs and private ones for SGIs of secondary cores, so no interrupt is ever in both tables |
| `Devices.DevicesAlways` | src/apps/alarm.rs:17-71 | the alarm, console and stack invariants hold in every state of every run |
| `Devices.AlarmAccounting` | src/apps/alarm.rs:38-50 | the RTC handler never finds the flag set, handler runs minus successful swaps equal the flag, and acknowledged plus merged plus waiting matches equal all matches |
| `Devices.ClearedBeforeEnd` | src/apps/alarm.rs:44-50 | when the RTC interrupt is ended or not active, the level it was acknowledged for is gone, so one match never causes two handler runs |
| `BootRuns.SecondAlarmLost` | src/apps/alarm.rs:53-71 | a match while an earlier alarm is unfinished is counted but never handled |
| `BootRuns.SecondAlarmRun` | src/apps/alarm.rs:38-71 | every system can get there from boot: two matches, one handler run |
| `Devices.ReadsArePrefix` | src/console.rs:64-81 | the bytes of all reads are a prefix of the bytes received, and after a positive `read_ready` there is always something to read |
| `Devices.OnlyOwnerReads` | src/console.rs:35-97 | outside the owner's own `read` and `read_ready`, no step of any core or handler, no interrupt and no device takes a byte away or changes the answer of `read_ready` |
| `Devices.ReadyReadDoesNotWait` | src/console.rs:64-87 | the read after a positive `read_ready` returns at least one byte without waiting |
| `Devices.StacksSeparate` | src/secondary_entry.rs:41-69 | every core that is not off uses its own stack, no two share one, and a stack is handed to `start_core` only while its core is off |
| `Devices.StacksStay` | src/secondary_entry.rs:41-43 | no event frees or replaces a stack |
| `Devices.SecondaryFindsBootDone` | src/secondary_entry.rs:71-79 | a core that has been started finds the page table stored and active and the GIC initialised |
| `LineReader.ReadLine` | src/apps/shell.rs:79-102 | returns the non-control bytes before the first CR or LF, or the EOF line if EOF comes before any kept byte; echoes exactly the kept bytes and CRLF; overflows exactly on the 129th kept byte |
| `LineReader.ReadsOnce` | src/apps/shell.rs:79-102 | that specification determines line, bytes consumed and echo |
| `LineReader.ExitTest` | src/apps/shell.rs:44-49 | the line is the EOF line exactly when an EOF ended it, and no other line has a control byte |
| `LineReader.TypedLine` | src/apps/shell.rs:79-102 | a line of at most 128 plain bytes followed by CR is read back unchanged |
| `LineReader.Session` | src/apps/shell.rs:44-75 | the command loop reads back every typed session line by line, up to and including the first `exit` or up to the EOF, with invalid UTF-8 skipped and the bytes `vcat` reads itself left to it |
| `LineReader.TypedIsScript` | src/apps/shell.rs:44-75 | lines typed one after the other and an EOF are such a session up to the first `exit` |
| `CommandLine.ShellAlways` | src/apps/shell.rs:44-102 | in every state of every run the bytes delivered are those the shell has accounted for, but for one it has not looked at yet or those of a `vcat` under way; what it has of the current line is what `read_line` keeps of them |
| `CommandLine.CommandsAreReceived` | src/apps/shell.rs:44-75 | in every run, whatever other cores, handlers and devices do, the lines whose commands were started are those that `read_line` reads from the bytes received, in order, and each was started as the command it names |
| `CommandLine.CommandsAsTyped` | src/apps/shell.rs:44-75 | of a typed session the kernel starts the commands in the order typed, none twice and none left out, up to the first `exit` or the EOF |
| `CommandLine.ShellGoesOn` | src/apps/shell.rs:44-102 | between commands the shell always has a next step, unless a line was too long or it was told to leave |
| `Pci.TypeNeverPanics` | src/pci.rs:312-356 | the range type conversion cannot reach its panic, whatever the flags |
| `Pci.FlagsRoundTrip` | src/pci.rs:300-315 | relocatable, prefetchable and type read back what section 2.2.1.1 of the PCI Bus Binding to IEEE Std 1275 encodes |
| `Pci.CellsRoundTrip` | src/pci.rs:215-225 | the child address splits into flags and bus address, and decoding inverts encoding |
| `Pci.TrimKeepsBytes` | src/pci.rs:43-62 | trimming one memory range keeps exactly its bytes below the limit, so the end cannot overflow |
| `Pci.KeptSource` | src/pci.rs:43-62 | every kept range is an entry of the device tree, trimmed, and ends by the limit if it is memory |
| `Pci.KeptTarget` | src/pci.rs:43-62 | every entry of the device tree was decoded, and is kept unless it starts past the limit |
| `Pci.KeptBytes` | src/pci.rs:43-62 | the bytes of all kept memory ranges are those of the device tree's memory ranges below the limit |
| `Pci.ForFdtNode` | src/pci.rs:35-69 | succeeds exactly for a configuration region of the right size and readable ranges, and returns its address and the kept ranges in order |
| `Pci.MapRanges` | src/pci.rs:72-83 | fails exactly if a memory range ends past the page table, else makes exactly the pages of the memory ranges device memory |
| `FrameAllocator.BlockOrder` | src/pci.rs:144-169 | the largest aligned block at an address that ends by the end of the range |
| `FrameAllocator.Pool.AddFrame` | src/pci.rs:144-169 | the free bytes grow by exactly the range; with disjoint ranges blocks stay disjoint, as large as can be, and free plus allocated bytes equal the bytes added |
| `FrameAllocator.Pool.CutDown` | src/pci.rs:177-197 | splitting keeps the free bytes, disjointness and the byte count |
| `FrameAllocator.Pool.AllocAligned` | src/pci.rs:177-197 | fails exactly if no free block is large enough, else hands out the start of the lowest block of the smallest sufficient order: aligned, inside one range, and exactly its bytes are no longer free |
| `FrameAllocator.ServesIfFits` | src/pci.rs:177-197 | with disjoint ranges a request is served exactly if an aligned free window of that size exists inside one range, of an order below the number of free lists, and not larger than 32 bytes at address 0 |
| `FrameAllocator.FailsOnlyAtLimits` | src/pci.rs:177-197 | if a window is free, the request fails exactly if it is past the largest order, or larger than 32 bytes with address 0 as its only window |
| `FrameAllocator.ZeroWindowLost` | src/pci.rs:177-197 | after adding the range from 0 to 64, 64 aligned bytes are free and cannot be allocated |
| `FrameAllocator.LargeWindowLost` | src/pci.rs:177-197 | after adding the range from 2^32 to 2^33 to a pool of 32 orders, 2^32 aligned bytes are free and cannot be allocated |
| `Bars.Build` | src/pci.rs:140-175 | fails exactly if a memory range is not at its bus address, else each pool holds exactly the ranges that belong to it |
| `Bars.BarAllocator.Allocate32` | src/pci.rs:177-183 | exhausted exactly if the pool cannot serve the request, a failed conversion exactly if the block it would hand out starts at 4 GiB or above, else a 32-bit address |
| `Bars.BarAllocator.Allocate64` | src/pci.rs:185-197 | exhausted exactly if every eligible pool cannot serve the request; a failed conversion exactly if only the 32-bit pool can and not below 4 GiB; falls back in order, touches no other pool, and uses the prefetchable pool only for prefetchable BARs |
| `Programming.LayoutOrder` | src/pci.rs:259-260 | a layout exists exactly for a power of two of at most 2^62 |
| `Programming.RequestFor` | src/pci.rs:251-278 | a BAR is asked for with its own size, width and prefetchability, or refused, exactly if its size has no layout or it is below 1 MiB |
| `Programming.Allocate` | src/pci.rs:261-274 | exhausted exactly if no eligible pool can serve, a failed conversion exactly if only the 32-bit pool can and not below 4 GiB; else the first eligible pool in the order of the fallbacks serves |
| `Placement.GrantStep` | src/pci.rs:177-197 | one more BAR keeps the pools accounted for, and with disjoint ranges meets no earlier BAR, in its own pool or another |
| `Placement.TraceConsistent` | src/pci.rs:93-104 | so the BARs of every trace account for the pools at its end |
| `Programming.PlaceBar` | src/pci.rs:249-281 | programs one BAR as requested, in the first eligible pool that can serve it, or gives the reason |
| `Programming.AllocateBars` | src/pci.rs:238-294 | programs every memory BAR of a device that wants an address, once, in order, and where the BARs before it leave it to go, then enables the device; or stops at a BAR that cannot be placed after those |
| `Programming.InitPci` | src/pci.rs:93-104 | programs all devices of a root in this way; a stop names the BAR, after exactly the BARs before it, and why; with disjoint ranges it stops with a reason exactly if that is so |
| `Replay.TraceFixed` | src/pci.rs:140-198 | with disjoint ranges the requests fix the pool and the address of every BAR and all that is left in the pools |
| `Replay.StoppedOnce` | src/pci.rs:93-104 | with disjoint ranges there is only one BAR to stop at, for one reason, after one placement of the others |
| `Replay.RefusedExactly` | src/pci.rs:177-197 | with disjoint ranges a BAR is refused for lack of space exactly if no eligible range has aligned room for it clear of the BARs placed before |
| `Replay.FirstRefusedExactly` | src/pci.rs:177-197 | the first BAR of a root is refused exactly if no eligible range has an aligned window for it, for any ranges |
| `Boot.BarInOneRange` | src/pci.rs:139-198 | every programmed BAR is aligned to its size and lies inside one kept memory range of its pool, for any ranges |
| `Boot.BarsDisjoint` | src/pci.rs:238-285 | with disjoint ranges no two BARs programmed on a root have a byte in common |
| `Boot.ConsistentIsPlaced` | src/pci.rs:93-104 | the two together, for all BARs of all devices on a root |
| `Boot.PoolsConserve` | src/pci.rs:140-198 | in each pool free plus handed-out bytes equal the bytes of its ranges, the free bytes are those not covered by its BARs, and only eligible BARs got any |
| `Conversion.LowBarsFit` | src/pci.rs:177-197 | every BAR from the 32-bit pool ends by 4 GiB, 64-bit fallbacks included, for any ranges |
| `Conversion.NoConversionPanic` | src/pci.rs:177-183 | without a 32-bit range that has aligned room for a BAR of this size from 4 GiB on, it never fails in the conversion, whatever was placed before |
| `Conversion.FillLow` | src/pci.rs:93-183 | for every BAR size: a device with enough 32-bit BARs of that size stops the kernel with a failed conversion exactly if there is such a range, else with the pool exhausted |
| `Conversion.ConversionFails` | src/pci.rs:93-183 | one 32-bit BAR of sixteen bytes and a 32-bit range of sixteen bytes at 4 GiB make the conversion fail |
| `Boot.KeptDisjoint` | src/pci.rs:43-62 | ranges that are disjoint in the device tree are disjoint when kept |
| `Boot.RootsOf` | src/pci.rs:110-130 | one root for each node, in order, or a fault exactly if some node is unusable |
| `Boot.FindPciRoots` | src/pci.rs:110-130 | all PCI roots, then all PCIe roots |
| `Boot.RootsFixed` | src/pci.rs:35-130 | the device tree fixes the roots and their kept ranges |
| `Paging.RoundingTouches` | src/main.rs:212-216 | rounding a region outwards reaches exactly the pages it touches |
| `Paging.TouchesBytes` | src/main.rs:212-216 | these are the pages of its bytes; an empty region that starts inside a page touches that one page, one that starts at a page boundary none |
| `Paging.RoundingFits` | src/pagetable.rs:143-168 | a rounded region ends by the limit exactly when its bytes do |
| `Paging.IdMap.constructor` | src/pagetable.rs:113-131 | an empty map |
| `Paging.IdMap.MapRange` | src/pagetable.rs:143-168 | fails exactly if the region is backwards or ends past the limit, and then changes nothing; keeps the map an identity map |
| `Paging.IdMap.MapMemory` | src/pagetable.rs:143-154 | makes exactly the region's pages normal memory |
| `Paging.IdMap.MapDevice` | src/pagetable.rs:157-168 | makes exactly the region's pages device memory |
| `MapWalk.MapRegs` | src/main.rs:157-165 | maps every register of a node, or fails exactly if one is out of reach |
| `MapWalk.MapNode` | src/main.rs:172-210 | the recursive walk succeeds exactly if nothing in the subtree stops it, and makes exactly the pages touched by a register of some known device below the node device memory |
| `MapWalk.MapFdtRegions` | src/main.rs:153-169 | the result is flat: device if a device register touches the page, else normal if a memory register does, else unmapped |
| `MapWalk.FlatMore` | src/main.rs:100-103 | mapping PCI ranges afterwards keeps the map flat |
| `DeviceTree.FoundBelow` | src/pci.rs:113-121 | the nodes found are exactly the compatible ones at or below the node |
| `MapWalk.GicMapped` | src/interrupts.rs:122-147 | the distributor and a redistributor frame for every core are device memory |
| `MapWalk.FindVirtio` | src/virtio.rs:34-78 | exactly the children of the root with a large enough first region become transports, unless one stops the kernel |
| `MapWalk.VirtioMapped` | src/virtio.rs:34-54 | every VirtIO transport region is device memory |
| `Boot.BuildMap` | src/main.rs:96-103 | succeeds exactly if memory, devices and all roots are in order; then the map is flat with the PCI memory ranges as device memory, and mapping them cannot fail |
| `Boot.ConfigMapped` | src/pci.rs:35-40 | the configuration space of every root is device memory |
| `Boot.RangeMapped` | src/pci.rs:72-83 | every byte of every kept memory range is device memory |
| `Boot.BarMapped` | src/pci.rs:93-104 | every byte of every BAR programmed on a root is identity-mapped device memory |
| `Boot.Start` | src/main.rs:96-131 | a boot that gets through leaves a flat map that covers every GIC, VirtIO, PCI configuration and BAR address it uses, with all BARs placed; one that does not has a map that does not fit, no usable GIC, a VirtIO node that stops it, or a root that `init_pci` stops on; if each root's ranges are disjoint in the device tree, it fails exactly then |

## Left out

- Register and MMIO access, the UART, RTC and GIC drivers, VirtIO transports and `vcat`: only the effects named above are modelled.
- Device tree parsing: the model starts from a tree of nodes; a missing property and a malformed one are the same.
- Page table levels, table allocation, attribute bits and TLB maintenance: the map is from pages to an address and normal or device.
- `buddy_system_allocator` is not part of the repository; `FrameAllocator` models its `add_frame` and `alloc_aligned`, freeing is not used by the kernel.
- The alarm, the console, `secondary_entry` and `SECONDARY_STACKS` are steps of the step system on values, not classes, because what matters is how they interleave; aliasing of the real statics is not modelled.
- Liveness: that `wfi` wakes up, that a spinning core gets its lock, that an SGI taken before `wfi` (which then masks all others) lets the core go on.
- The heap: its lock and running out of memory.
- The panic handler and everything after a panic; the primary core after `SYSTEM_OFF`.
- Writing console output: a write is a step under the console lock; the bytes written are modelled only for the line reader's echo.
- The arguments of shell commands: the alarm time, `start_cpu`'s argument and the parsing of both are choices of the environment.
- `help`, `date`, `lsdev`, `lspci`, `cpus`, `dtdump`, the build script, the linker scripts and the initial page table: nothing hard to state.
- Programming.InitPci: for ranges that overlap, a stop has its reason, but not every such reason is shown to stop it; overlapping ranges make the allocator's free blocks overlap, and the trace then leaves the free lists open.
- CommandLine.ShellGoesOn: the panic for a line of more than 128 bytes is a shell that cannot go on, not a panic of the step system; the arguments of commands are free, and `vcat` reads as often as it likes.
- LineReader.Session: says nothing about input that is not a whole typed session, beyond what `ReadLine` says of each line; how many bytes `vcat` reads is a parameter.
