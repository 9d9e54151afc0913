# Verified model of the ETM trace driver

This project models a kernel module that drives an ARM CoreSight trace chain, and proves what its calls guarantee on every run.

The modelled system has four parts.

1. **Trace sessions.** A trace unit (ETM), funnels, link TMCs and a sink TMC are components with a register file, a software
   lock and, for a TMC, a state and a FIFO (`Devices`). Each driver function is a register program (`Programs`). `Chain` runs a
   program against the hardware: every register access is one atomic step, and between any two of them the hardware may emit
   words, move words between FIFOs, complete flushes and stop. `Boards.Board` holds the driver in its own form, one method per
   C function; it records the program it performed and the interleaving, so every theorem about runs applies to it. The theorems
   are proved for chains of any length and any number of pause/continue rounds, then used for Juno r2 and HiKey 970.
2. **The trace buffer.** `TraceBuffers` is the buffer and its `read` call; `Sharing` is the same data shared, step by step, by
   the interrupt handler that dumps into it and any number of reader threads on any number of CPUs; `Framing` is the block format.
3. **The stand-alone FIFO device** (`CsDevices`).
4. **Pacing and bookkeeping**: the cycle counter that triggers interrupts (`CycleCounters`) and the event-count session (`PmuSessions`).

## Main results

- *Flow* (`Guarantees.NoClosedPath`, `EmittedIsTaken`, `NothingLost`, `DrainComplete`): whatever can still send words is followed only by
  components that take them; at all times the words of the session are with the sink or in flight, in order; when a pause has
  returned all FIFOs are empty and the drained stream is one block per session.
- *Registers* (`Guarantees.RoundsRestore`, `ProperUse`, `Configurations.AlwaysConfigured`): after any number of rounds every component
  is in the state of its first enable, with one exception that is stated exactly; every access finds locks, state and programming as
  it requires; whatever works is programmed with the source's values, stated as numbers by register offset.
- *Progress* (`Progress.AlwaysCompletable`): no reachable state prevents the calls from completing, so the above is never vacuous.
- *Lock reaction* (`Twins.LockReactionInvisible`, `ComponentsAgree`, `FunctlAgrees`): whether a locked funnel ignores
  `funnel_disable` or obeys it makes no difference to the trace, whatever FUNCTL holds at reset; the funnel registers agree while
  tracing exactly if the upper FUNCTL bits are clear at reset.
- *Decoding* (`Histories.DrainedDecodes`, `JunoModule`, `Sharing.ReadersDecode`, `Framing.FormattedWordsNotOnes`): what readers
  got and what is left in the buffer splits back into the sessions, after any number of interrupts.
- *Sharing* (`Sharing.Conservation`, `DumpAppends`, `ReadCompletes`, `WritesInBoundsIff`, `StuckIff`, `NeverStuck`): no interleaving
  loses, repeats or tears a word; a dump appends exactly its block, and a read takes exactly the buffer, each in a fixed number of
  its own steps and whatever others do; memory past the allocation is written exactly when more
  than 0x4000 words are stored between rewinds; a state is stuck exactly when the handler spins for a lock held by a reader on
  its own CPU.

## Where code and intent differ

- A comment at etm.c:20 says the OS lock disables the trace unit, but the driver sets it right after enabling. Here "running"
  means TRCPRGCTLR.EN is set, and the OS lock only gates register access.
- `funnel_disable` writes without unlocking, after `funnel_enable` locked. Both hardware reactions are modelled and proved equivalent
  for the trace. They are not equivalent for FUNCTL itself: the 0x300 written clears upper bits that `funnel_enable` would keep, so
  a funnel that obeys is restored by the next continue exactly if those bits are clear at reset (`LocalRuns.UpAgain`,
  `Guarantees.RoundsRestore`, `Twins.FunctlAgrees`).
- A full 64 KB ETF holds 0x4000 words; with its terminator a dump of it is one word longer than the 64 KB buffer
  (`Sharing.OneDumpFits`); `Sharing.FullSinkOverruns` gives the run that writes past the allocation.
- `cs_read` takes its lock without disabling interrupts. `Sharing.DeadlockReachable` gives, for every reader thread, a run into
  deadlock; `Sharing.NeverStuck` shows that not taking the interrupt on the holder's CPU excludes it.
- The FIFO device rewinds only on an empty read, so its bound is on history and not on occupancy (`CsDevices.OccupancyDoesNotBound`).

## Assumptions about the hardware

- A manual flush of a link TMC completes only when its FIFO has been pushed downstream, and while running a TMC takes every word
  sent to it. A link FIFO is not bounded (back-pressure only removes behaviours). A sink in circular-buffer mode keeps the last
  `depth` words. Clearing CTL switches a TMC off at once and discards what it holds.
- A flush and the rise of TMCReady happen eventually: a polling loop ends within an arbitrary, unknown number of polls (`Board.due`).
- At reset every component is locked, off and empty; its registers are arbitrary, except that the trace unit is not enabled.
- The overflow flag of the cycle counter is cleared elsewhere: `pmu_irq_handler` re-arms the counter but clears no flag.
- Clearing the trace unit's enable bit leaves nothing in flight in it; funnels store nothing; a closed funnel port loses words.
- The trace unit's formatted words are never all ones, which `Framing.FormattedWordsNotOnes` derives from the frame rule of the
  CoreSight Architecture Specification (ARM IHI 0029) for the source, trigger and null IDs in use.
- TMC states and registers follow ARM DDI 0461; TRCPRGCTLR and TRCOSLAR follow ARM IHI 0064.

## Model

| member | source | states |
|---|---|---|
| Guarantees.NoClosedPath | connect.c:4-49 | after every register access of any run, whatever can still send words is followed only by components that take them: ports open, TMCs capturing in the right mode, StopOnFl clear |
| Guarantees.NothingLost | connect.c:59-88 | at every moment the words of the session are exactly the sink's intake followed by what the link FIFOs hold, in order |
| Guarantees.EmittedIsTaken | connect.c:4-18 | whenever the trace unit is enabled, a word it emits is appended to the current session and to the stream of sink intake and link FIFOs |
| Guarantees.ProperUse | tmc.c:78-109 | every access finds its component as required: locks open, MODE/TRG/RSZ/AXICTL only while off and ready, CTL set only when fully programmed (MODE 0, FFCR 0x133 and TRG 0x100 for a sink, MODE 2 and FFCR 0x3 for a link, and the ETR's registers) and cleared only when stopped and empty, RRD read only when stopped |
| Configurations.AlwaysConfigured | tmc-etf.c:8-14 | at every moment of any run a TMC that is not off has CTL 1, its MODE, TRG, BUFWM, RSZ, AXICTL and DBAHI values, and FFCR 0x133 (link 0x3) plus only the flush bits in the order the flush sets them; while the trace unit is enabled it has its program with ID 6, every funnel has hold time 7 and exactly its port open with priority 0xFAC688, and every TMC captures with its flush bits clear |
| Guarantees.RoundsRestore | connect.c:32-49 | after enable and any number of pause/continue rounds every component is locked and in the state an enable leaves it; this is the state of the first enable exactly if there was no round, or the component is not a funnel that obeyed funnel_disable with upper FUNCTL bits set at reset |
| Guarantees.DrainComplete | connect.c:75-88 | when a disable or pause returns all FIFOs are empty, the sink has taken every word of the session, and the drained stream is one block per session |
| Progress.AlwaysCompletable | tmc.c:78-109 | every run can be extended to one in which all calls have returned |
| Twins.LockReactionInvisible | funnel.c:13-38 | boards whose locked funnels ignore or take funnel_disable are, on equal events, at the same program position and have emitted, delivered and drained the same words |
| Twins.ComponentsAgree | connect.c:32-49 | on two such boards all trace units and TMCs agree in every register, lock and word at every step |
| Twins.FunctlAgrees | funnel.c:18-36 | on two such boards all registers of all components agree, in every state of every run in which the trace unit runs, if and only if each funnel that reacts differently has FUNCTL below 0x1000 (upper twenty bits zero) at reset |
| LocalRuns.UpAgain | connect.c:40-49 | enabling a component again after its disable gives the state of its first enable if and only if it is not a funnel that obeyed the disable with FUNCTL at least 0x1000 at reset |
| Funnels.FunctlByLastCall | funnel.c:13-38 | after any calls the low 12 bits of FUNCTL depend only on the last call that took effect, with at most that call's port open |
| Boards.FunctlIs | funnel.c:18-24 | for every old value and port 0..31 the stepwise computation yields (old & 0xFFFFF000) or 0x700 or (1 << port); for ports 0..7 the upper twenty bits are kept, the hold time field is 7, and the low byte is 1 << port |
| Boards.AxictlIs | tmc-etr.c:23-28 | the stepwise AXICTL computation clears bits 0, 1, 7 and sets the burst length and bit 1, keeping all others |
| Boards.Board.CsUnlock | coresight_priv.h:102-111 | one write of 0xC5ACCE55 at offset 0xFB0; the lock is open afterwards, and nothing else changes in a component the hardware leaves alone |
| Boards.Board.CsLock | coresight_priv.h:92-100 | one write of 0 at offset 0xFB0; the lock is closed afterwards |
| Boards.Board.TmcEnable | tmc.c:68-71 | performs exactly the write of 1 at offset 0x020; an unlocked TMC that was off is capturing afterwards, from empty, its other registers unchanged |
| Boards.Board.TmcDisable | tmc.c:73-76 | performs exactly the write of 0 at offset 0x020; an unlocked TMC is off and empty afterwards |
| Boards.Board.TmcWaitForTmcready | tmc.c:78-87 | the polling loop terminates, writes nothing, and returns with TMCReady set |
| Boards.Board.TmcFlushAndStop | tmc.c:89-109 | performs the flush program in order, terminates, and leaves the TMC ready; a running TMC is then stopped, with FFCR bit 12 added and no other register changed |
| Boards.Board.TmcEnableEtfSink | tmc-etf.c:3-17 | performs exactly the ETF sink program, in order; a TMC that was off is then capturing and locked with MODE 0, FFCR 0x133, the given TRG and CTL 1, each at its offset, and no other register changed |
| Boards.Board.TmcDisableEtfSink | tmc-etf.c:20-32 | performs exactly the sink disable program, leaves the TMC off, and appends all drained words to the trace buffer; a running TMC ends empty and locked with FFCR bit 12 added, CTL 0 and no other register changed |
| Boards.Board.TmcEnableEtfLink | tmc-etf.c:41-57 | performs exactly the link program, in order; a TMC that was off is then capturing and locked with MODE 2, FFCR 0x3, BUFWM 0 and CTL 1, each at its offset, and no other register changed |
| Boards.Board.TmcDisableEtfLink | tmc-etf.c:59-67 | performs exactly the link disable program and leaves the TMC off, a running one empty and locked with FFCR bit 12 added and CTL 0 |
| Boards.Board.TmcDumpEtfSink | tmc-etf.c:70-93 | terminates for every content, appends the content up to the first all-ones word plus one terminator, keeps earlier words, returns the count, and empties a sink that holds no all-ones word |
| Boards.Board.TmcEnableEtrSink | tmc-etr.c:4-42 | performs exactly the ETR program; a TMC that was off is then capturing and locked with RSZ the size divided by four, MODE 0, AXICTL bits as masked, DBAHI 0, FFCR 0x133, the given TRG and CTL 1, each at its offset, and no other register changed |
| Boards.Board.TmcDumpEtrSink | tmc-etr.c:61-92 | the read-out loop terminates, and from a stopped ETR reads its content up to the first all-ones word and that word, storing none and leaving a clean content empty |
| Boards.Board.TmcDisableEtrSink | tmc-etr.c:44-57 | performs exactly the sink disable program and leaves the ETR off, a running one empty and locked with FFCR bit 12 added and CTL 0 |
| Boards.Board.FunnelEnable | funnel.c:13-30 | performs exactly the funnel program; FUNCTL keeps its upper twenty bits, has hold time 7 and (for ports 0..7) only the given port open, PRICTL is the given priority, nothing else changes, and the lock is closed |
| Boards.Board.FunnelDisable | funnel.c:34-38 | performs the two unbracketed writes; a gated, locked funnel is unchanged, any other gets FUNCTL 0x300 and PRICTL 0xFAC688 |
| Boards.Board.EtmEnableTraceProgramFlow | etm.c:78-108 | performs exactly the programming sequence between unlock and lock; the trace unit ends enabled and locked with the nine configuration values at their offsets and no other register changed |
| Boards.Board.EtmDisable | etm.c:148-157 | clears EN and nothing else, leaving both locks closed |
| Boards.Board.EtmContinue | etm.c:159-169 | sets EN and nothing else, leaving both locks closed |
| Boards.Board.EnableJunor2Trace | connect.c:4-18 | performs exactly sink, main funnel, cluster funnel, trace unit, with the PMU export set immediately before the trace unit is programmed |
| Boards.Board.SetPmuExport | pmu.c:3-16 | sets bit 4 of PMCR, keeps every other bit, and leaves the PMU locked |
| Boards.Board.PauseJunor2Trace | connect.c:32-38 | performs exactly trace unit, cluster funnel, main funnel, sink, and appends the drained block to the buffer |
| Boards.Board.ContinueJunor2Trace | connect.c:40-49 | performs exactly sink, main funnel, cluster funnel, and only switches the trace unit on |
| Boards.Board.DisableJunor2Trace | connect.c:20-30 | the same program as a pause |
| Boards.Board.EnableHikey970Trace | connect.c:59-73 | performs exactly ETR, link, funnel 2, link, funnel 1, trace unit |
| Boards.Board.DisableHikey970Trace | connect.c:75-88 | performs exactly trace unit, funnel 1, link, funnel 2, link, ETR |
| Boards.Board.PmuIrqHandler | pmi_handler/pmi_handler.c:29-44 | one pause then one continue, the drained block in the buffer, the counter re-armed |
| Boards.UpToOnesAll | tmc-etf.c:79-89 | a content without an all-ones word is stored whole |
| Histories.DrainedDecodes | tmc-etf.c:70-93 | splitting the drained stream at terminators gives per session the words the sink still held, and all words if no session outgrew the sink |
| Histories.JunoPaused | trace.c:114-119 | a Juno board after enable and any number of interrupt rounds ending in a pause is off, locked and empty, its drained stream decodes to its sessions, and at every moment up to then the next access was proper, no path was closed, and whatever worked was programmed as it should be |
| Histories.JunoTracing | trace.c:107-112 | a Juno board between interrupts has all locks closed, and each component is in the state of its first enable, exactly unless it is a funnel that obeyed a disable with upper FUNCTL bits set at reset |
| Histories.HikeyDisabled | connect.c:75-88 | after enable and disable the ETR has taken every emitted word in order and both link FIFOs are empty; at every moment the next access was proper, no path was closed, and whatever worked was programmed as it should be |
| Histories.JunoModule | trace.c:121-169 | a Juno board through module load, any number of interrupts each followed by a read that may fault, and unload: what the reads returned followed by what the buffer holds splits into one block per session |
| Histories.HikeyModule | trace.c:157-180 | a HiKey board through module load and unload: the ETR has taken every emitted word in order and nothing is left in any FIFO |
| Histories.HandlerTurns | pmi_handler/pmi_handler.c:35-36 | handling an interrupt is exactly one pause and one continue of the history |
| Framing.ParseRender | tmc-etf.c:79-89 | splitting on 0xFFFFFFFF returns exactly the list of drained blocks, empty ones included |
| Framing.FormattedWordsNotOnes | etm.c:89 | with source ID 6, trigger ID 0x7D and null ID 0 no aligned word of a formatter frame is all ones |
| TraceBuffers.TraceBuffer.Append | tmc-etf.c:82-83 | appends one word at the cursor and moves it by four, keeping all earlier words |
| TraceBuffers.TraceBuffer.CsRead | trace.c:43-65 | hands out the whole buffer in order, rewinds and zeroes the 64 KB, or on the first faulting copy returns -EFAULT and changes nothing |
| Sharing.Conservation | tmc-etf.c:70-93 | in every interleaving the words removed by successful reads, then those in the buffer, then those the current dump has yet to store, are all dumped blocks in order |
| Sharing.DumpAppends | tmc-etf.c:78-90 | from any moment at which a dump holds the lock until it releases it, whatever readers do, nothing is removed and the buffer gains exactly the words then pending; the dump ends after a fixed number of its own steps, none of which can block |
| Sharing.DumpAppendsContent | tmc-etf.c:70-93 | whatever readers do before and during it, a dump appends exactly its content and one terminator to what the buffer held when it took the lock |
| Sharing.DumpTakesAll | tmc-etf.c:70-93 | whenever the lock is free and no dump under way, an interrupt has a run in which its content and one terminator are appended in 3 * n + 5 steps of the handler |
| Sharing.ReadersDecode | trace.c:43-65 | with no dump under way, what successful reads returned followed by the buffer splits into exactly the dumped contents |
| Sharing.CursorIsCount | trace.c:28-33 | in every interleaving the cursor is four times the words stored since the last successful read |
| Sharing.CursorInBoundsIff | trace.c:28-33 | the cursor stays within 64 KB throughout a run exactly when at every moment at most 0x4000 words were stored since the last successful read |
| Sharing.WritesInBoundsIff | trace.c:28-33 | a run writes no word past 64 KB exactly when at every moment at most 0x4000 words, the one being stored included, were written since the last successful read |
| Sharing.OneDumpFits | tmc-etf.c:79-89 | a dump that finds the buffer empty leaves the cursor after its words and terminator, inside the buffer exactly up to 0x3FFF words |
| Sharing.FullSinkOverruns | tmc-etf.c:79-89 | from any quiet state with an empty buffer an interrupt with a full 64 KB sink has a run that writes past the allocation |
| Sharing.CopyStep | trace.c:51-59 | a reader in the loop leaves it before the end exactly if its copy faults, releasing the lock; otherwise it keeps the lock and has copied the next word of the buffer |
| Sharing.ReadCompletes | trace.c:50-64 | from any moment a reader is in the loop, whatever others do and while none of its copies faults, exactly (write_point - read_point) / 4 + 2 of its own steps bring it out, with the lock released, the buffer empty and zero, and exactly the buffer's words removed |
| Sharing.ReadTakesAll | trace.c:43-65 | whenever the lock is free and the buffer not empty, a thread that can run has a run of its own steps from its call to the end that takes exactly what the buffer holds |
| Sharing.FaultRemovesNothing | trace.c:53-56 | a read that returns -EFAULT removes nothing and releases the lock |
| Sharing.SuccessTakesAll | trace.c:48-61 | a successful read hands out exactly the buffer's contents, whatever its unlocked test raced with |
| Sharing.MutualExclusion | tmc-etf.c:78-90 | a dump's and a read's critical sections never overlap, nor do two reads' |
| Sharing.StuckIff | trace.c:50-62 | a reachable state is stuck exactly when the handler spins for a lock held by a reader of its own CPU |
| Sharing.NeverStuck | pmi_handler/pmi_handler.c:29-44 | if no interrupt is taken on the holder's CPU no reachable state is stuck |
| Sharing.DeadlockReachable | trace.c:50 | without that condition every reader thread has a run into deadlock |
| CsDevices.CsDevice.CsRead | mount_cs_device/mount_cs_device.c:42-62 | takes the oldest word and returns it, or -EFAULT if the copy faults; on an empty queue returns 0, rewinds and zeroes the 64 KB |
| CsDevices.CsDevice.CsWrite | mount_cs_device/mount_cs_device.c:65-73 | queues the word and reports success, or with a faulting copy adds nothing and returns -EFAULT |
| CsDevices.RefinesQueue | mount_cs_device/mount_cs_device.c:42-73 | no sequence of calls can tell the device from an unbounded queue |
| CsDevices.WrittenAreLeftOrHere | mount_cs_device/mount_cs_device.c:42-73 | the accepted words are, in order, those that left and those still queued |
| CsDevices.DroppedExactlyOnFault | mount_cs_device/mount_cs_device.c:56-60 | 0 is returned exactly when the queue is empty, and a word leaves undelivered exactly when its read returns -EFAULT |
| CsDevices.RepliesTell | mount_cs_device/mount_cs_device.c:65-73 | in every history a write is answered with success exactly if its copy succeeded and with -EFAULT otherwise, and the words of the writes so answered are, in order, those that left and those still queued |
| CsDevices.ReadersGetDelivered | mount_cs_device/mount_cs_device.c:52-61 | the words that reads returned are, in order, the words that left without those whose copy faulted |
| CsDevices.EmptyReadClears | mount_cs_device/mount_cs_device.c:44-50 | after a read that finds the queue empty both cursors are at the start and every word of the 64 KB is zero |
| CsDevices.InBoundsIff | mount_cs_device/mount_cs_device.c:44-50 | the cursors stay ordered and within 64 KB exactly when at most 0x4000 words are accepted between empty reads |
| CsDevices.OccupancyDoesNotBound | mount_cs_device/mount_cs_device.c:44-50 | with never more than one word queued the write cursor still grows without bound |
| CycleCounters.FirstOverflow | pmi_handler/pmi_handler.c:46-48 | after a re-arm the next overflow is exactly 2^28 counted cycles away under 32-bit and 64-bit overflow |
| CycleCounters.AtMostOnePerPeriod | pmi_handler/pmi_handler.c:39 | in any run at most T / 2^28 interrupts are raised in T counted cycles, however late handlers run |
| CycleCounters.PromptHandler | pmi_handler/pmi_handler.c:39 | with a prompt handler exactly n interrupts come in n * 2^28 cycles |
| PmuSessions.PmuSession.Reset | pre-exec/spectre-v4/pmu/pmu_utils.h:143-147 | no event, all counts and samples zero |
| PmuSessions.PmuSession.PmuBegin | pre-exec/spectre-v4/pmu/pmu_utils.h:149-158 | a valid type becomes current with its opening sample; an invalid one changes nothing |
| PmuSessions.PmuSession.PmuEnd | pre-exec/spectre-v4/pmu/pmu_utils.h:160-170 | with a current type the sample is kept and the slot of that type grows by one modulo 2^32 exactly when the samples differ; no other slot changes |
| PmuSessions.PmuSession.PmuGetScore | pre-exec/spectre-v4/pmu/pmu_utils.h:172-182 | the loop returns the sum of the slots 0..60 modulo 2^32, or 0 without a current type |
| PmuSessions.SlotCountsMoves | pre-exec/spectre-v4/pmu/pmu_utils.h:160-170 | from a reset, over any calls, each slot up to 60 is modulo 2^32 the number of ends made while its type was current whose sample differs from the opening one, and the slots above are zero |
| PmuSessions.Follows | pre-exec/spectre-v4/pmu/pmu_utils.h:149-170 | over any calls the current type and the opening sample are those of the last accepted begin, the closing sample that of the last accepted end |
| PmuSessions.RejectsReserved | pre-exec/spectre-v4/pmu/pmu_utils.h:79-84 | exactly the nineteen reserved enumerators 30, 33-36, 41-51 and 54-56 are invalid |
| PmuSessions.ScoreCountsMoves | pre-exec/spectre-v4/pmu/pmu_utils.h:141-182 | from a reset, over any calls, the score is modulo 2^32 the number of accepted ends whose samples differ, and only valid types' slots up to 60 are ever non-zero |

## Left out

- Boards.Board.TmcWaitForTmcready: asks that the TMC is not running, because on a running TMC the loop in the code never ends.
- Boards.Board.TmcFlushAndStop: asks that the software lock is open, as every caller makes it; with it closed the loop never ends.
- TraceBuffers.TraceBuffer.CsRead: delivery is the sequence of words given to copy_to_user; the code passes the same user address each time and ignores the length, so the final user buffer is not modelled.
- Sharing.Conservation: memory past the 64 KB allocation is assumed to be used by nobody else; Sharing.WritesInBoundsIff says when it is not touched.
- PmuSessions.ScoreCountsMoves: types are the declared enumerators; other integers that isValidType would accept are not modelled.
- Components are indexed by number; the mapped register blocks are assumed not to overlap.
- Trace unit packets, its internal FIFO and TRCSTATR; formatter padding added by a flush.
- funnel_lock_status, set_trace_exception_level, etm_accept_pmu_events, etm_enable_trace_instruction_and_data, tmc_continue_etf_sink and the status printers: not on the live path.
- Device registration, mapping, allocation and their failures; interrupts racing with module load or unload.
- Memory ordering, page faults in copy_to_user, thread migration between CPUs while inside cs_read.
- Several interrupts running pause and continue at once: only one line is registered.
- The kernel modules and assembly that switch PMU counters on and off, the forced module removal tool, and the timing experiments.
