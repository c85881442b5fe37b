# Three computer-architecture simulators, modelled and proved

The repository holds three simulators: a snooping cache-coherence simulator (Project3), an
out-of-order scheduler in the style of Tomasulo's algorithm (Project2) and a branch predictor
(Project1). This project models their behaviour in Dafny and proves what they are for.

Each simulator is modelled twice. A function on values says what a step makes of the whole
state; the theorems are about it. Classes with the program's own fields and loops do the same
in place, and each method is proved to compute what the function says.

## Cache coherence

n caches share one bus with a first-in-first-out queue, one transaction at a time, a reply
slot and a shared line. Within a cycle the caches tick one after another, each handling its
processor's request before the message on the bus, so requests race with snoops and queued
GETs go stale. Any number of nodes, any addresses and any finite traces are covered, for MI,
MSI, MESI, MOSI and MOESI.

| files | what they hold |
|---|---|
| Messages, Protocols, Machine | messages, the handlers' tables, one cycle of the machine |
| Hardware, CacheLines, Simulators | the objects: bus, processors, lines, caches, memory, main loop |
| LineMachine, LineValues | one line on its own: its column of states, its transaction, its versions |
| Invariant, Steps, Cycles | the machine's invariant and its preservation, step by step |
| Rules, Synchronous | all protocols by one set of rules, and a cycle of all nodes at once that the simulator is proved to follow |
| KeptCopies, Tallies | what follows for copies and counters |
| Safety, Ownership, Transactions | what holds in every reachable state and for every transaction |
| Liveness, Progress, Waiting | what even a run with MOESI's hazard keeps, termination, bounded waiting and its order |
| Shadow, Consistency, Coherence | versions carried alongside a run, and sequential consistency |
| MoesiLoads, MoesiExclusivity, MoesiHazard, MoesiCoherence, SmallMachines | MOESI: what holds, in exactly which runs, and on how many caches |
| IdleNodes, ThreeCaches, MoesiExample, StaleExample | concrete runs for every memory delay and every number of caches from three on: MOESI without a single writer, MSI and MESI with a stale memory; for which protocols and sizes all runs are right |

The central invariant is that an outstanding request sits in exactly one place: the cache's
request slot, the bus's queue, the transaction in progress, or one of the two halves of the
answer buffer. `Cycles.Safe` says that no OM line has snooped another cache's GETS so far. It
holds in every run of MI, MSI, MESI and MOSI (`Cycles.AlwaysSafe`) and is the side condition
of what is proved to hold in MOESI: as written, MOESI answers its own processor in that case and
becomes M while its GETM is still queued (Project3/protocols/MOESI_protocol.cpp:410-417).
`MoesiHazard.MoesiExactCondition` proves that this is the only way to lose the single writer
and that it always does, `MoesiCoherence.CoherentExactly` the same of coherent reads.
`MoesiExample.SingleWriterExact` and `StaleExample.CoherenceExact` turn this into conditions on
the configuration alone. `Progress.EveryRunEnds` and the main loop need no side condition.

The fields `outstanding_request` and `proc_request` are not set by their constructors; the
model starts them as false and empty. `Stats.replies` counts memory's answers, which the
program does not; nothing depends on it. A fatal error or a failed assertion is the flag
`failed`, after which nothing moves.

## Scheduler

Scheduler holds the alias table, the stations and the driver as functions; a unified station
and a station per functional unit are one table in which each type has its range of entries.
ReservationStations holds the objects and loops. SchedulerInv, SchedulerBounds and
SchedulerOrder hold the invariant, the bounds and the order of dependences, SchedulerLost which
dependences are lost, SchedulerExample a counterexample. SchedulerCycle states a whole cycle,
all entries at once, and SchedulerTimes what the cycles add up to. The history that the statements need
(issue numbers, issue and start cycles) is kept beside the run in `SchedulerInv.Past` and never read by it.

Completion clears the alias of its destination whatever the alias is
(Project2/schedulersim.cpp:205), so a later writer of the same register can lose its alias.
`SchedulerOrder.AliasNamesLastWriter` states exactly when, and `SchedulerLost.WaitsExactly`
exactly which sources are then not waited for.

## Branch predictor

BranchPredictor holds the predictors as functions, Histories, Predictions, LocalHistories and
Saturation what their tables mean, Predictors the tables updated in place, Bits the bitwise operations on
naturals. The
index mask is num_entries - 1 for any num_entries, not only for powers of two. The comments
call the counter's limit strongly taken; the code's limit is 2^(2^(c-1)) - 1, which is the
largest c-bit value for c = 1 and c = 2 only, and the model follows the code.

## Model

| member | source | states |
|---|---|---|
| Hardware.Bus.Tick | Project3/sim/bus.cpp:16-45 | the next current request, queue, reply slot, progress flag and shared line: the reply ends the transaction, otherwise the oldest request is granted and the shared line lowered, otherwise the bus is idle |
| Hardware.Bus.Request | Project3/sim/bus.cpp:47-60 | DATA takes the reply slot and is refused if it is taken; everything else goes to the end of the queue |
| Hardware.Bus.Snoop | Project3/sim/bus.cpp:62-76 | what is on the bus, or nothing |
| Hardware.Processor.Tick | Project3/sim/processor.cpp:35-72 | an arrived answer ends the outstanding request; with none outstanding the next trace record is issued, or the end of the trace noted |
| Hardware.Processor.Tock | Project3/sim/processor.cpp:74-81 | the back half of the double buffer moves to the front half if it holds an answer |
| Hardware.Processor.Deliver | Project3/sim/hash_table.cpp:195-205 | an answer fills the back buffer, and a second one in the same cycle is the failed assertion |
| CacheLines.Line.SendGets | Project3/protocols/protocol.cpp:28-36 | a GETS from this cache joins the bus's queue |
| CacheLines.Line.SendGetm | Project3/protocols/protocol.cpp:18-26 | a GETM from this cache joins the bus's queue |
| CacheLines.Line.SendDataOnBus | Project3/protocols/protocol.cpp:38-51 | DATA for the requester takes the reply slot and one transfer is counted; a taken slot is the failed assertion |
| CacheLines.Line.SetSharedLine | Project3/protocols/protocol.cpp:66-70 | the shared line is up |
| CacheLines.Line.MiCacheRequest | Project3/protocols/MI_protocol.cpp:53-109 | MI's reaction to a load or store in every state: next state, answer or GET sent, counters, and the fatal errors |
| CacheLines.Line.MiSnoopRequest | Project3/protocols/MI_protocol.cpp:110-183 | MI's reaction to every snooped message in every state: next state, shared line, DATA sent or delivered, counters, and the fatal errors |
| CacheLines.Line.MsiCacheRequest | Project3/protocols/MSI_protocol.cpp:58-185 | MSI's reaction to a load or store in every state: next state, answer or GET sent, counters, and the fatal errors |
| CacheLines.Line.MsiSnoopRequest | Project3/protocols/MSI_protocol.cpp:187-327 | MSI's reaction to every snooped message in every state: next state, shared line, DATA sent or delivered, counters, and the fatal errors |
| CacheLines.Line.MesiCacheRequest | Project3/protocols/MESI_protocol.cpp:59-181 | MESI's reaction to a load or store in every state: next state, answer or GET sent, counters, and the fatal errors |
| CacheLines.Line.MesiSnoopRequest | Project3/protocols/MESI_protocol.cpp:183-342 | MESI's reaction to every snooped message in every state: next state, shared line, DATA sent or delivered, counters, and the fatal errors |
| CacheLines.Line.MosiCacheRequest | Project3/protocols/MOSI_protocol.cpp:62-196 | MOSI's reaction to a load or store in every state: next state, answer or GET sent, counters, and the fatal errors |
| CacheLines.Line.MosiSnoopRequest | Project3/protocols/MOSI_protocol.cpp:198-380 | MOSI's reaction to every snooped message in every state: next state, shared line, DATA sent or delivered, counters, and the fatal errors |
| CacheLines.Line.MoesiCacheRequest | Project3/protocols/MOESI_protocol.cpp:62-219 | MOESI's reaction to a load or store in every state: next state, answer or GET sent, counters, and the fatal errors |
| CacheLines.Line.MoesiSnoopRequest | Project3/protocols/MOESI_protocol.cpp:221-438 | MOESI's reaction to every snooped message in every state: next state, shared line, DATA sent or delivered, counters, and the fatal errors |
| CacheLines.Line.MoesiSnoopOm | Project3/protocols/MOESI_protocol.cpp:407-438 | an OM line that snoops GETS answers its own processor, becomes M and sends no DATA; another cache's GETM takes it to IM, its own leaves it OM |
| CacheLines.Line.ProcessCacheRequest | Project3/sim/hash_table.cpp:26-53 | the handlers of the configured protocol are the ones that run on a processor request |
| CacheLines.Line.ProcessSnoopRequest | Project3/sim/hash_table.cpp:59-65 | the handlers of the configured protocol are the ones that run on a snooped message |
| Simulators.HashTable.GetEntry | Project3/sim/hash_table.cpp:183-193 | the line's own entry, created in state I if missing; no other entry changes |
| Simulators.HashTable.ServeRequest | Project3/sim/hash_table.cpp:139-149 | the pending processor request is counted, handled by its line and cleared |
| Simulators.HashTable.SnoopMessage | Project3/sim/hash_table.cpp:152-165 | the message on the bus is handled by its line and by no other |
| Simulators.HashTable.Tick | Project3/sim/hash_table.cpp:133-166 | processor request first, bus message second, DATA for another module skipped, as on values |
| Simulators.MemoryController.Tick | Project3/sim/memory.cpp:19-47 | a GET starts an access of hitTime cycles (failing if one is under way), DATA cancels it, and a due access puts DATA for its requester in the reply slot |
| Simulators.Simulator.TickCaches | Project3/sim/sim.cpp:106-107 | caches tick in order, each seeing what the earlier ones left on the bus |
| Simulators.Simulator.TickProcs | Project3/sim/sim.cpp:109-110 | every processor ticks and leaves its request with its own cache |
| Simulators.Simulator.Cycle | Project3/sim/sim.cpp:104-118 | one iteration is bus, caches, processors, memory, tock, clock, in this order |
| Simulators.Simulator.AllDone | Project3/sim/sim.cpp:120-126 | true exactly if every processor has read its trace and waits for nothing |
| Simulators.Simulator.Run | Project3/sim/sim.cpp:99-127 | on all traces and protocols the loop ends within Bound + 1 cycles: in the first cycle in which all processors are done, in the state the cycle function predicts, or with a fatal error exactly when that function has one; without MOESI's hazard there is no fatal error and misses = transfers + memory replies |
| Simulators.Simulate | Project3/sim/sim.cpp:86-131 | from traces to statistics: every run ends, done or with a fatal error; without MOESI's hazard it does not fail and its misses equal transfers plus memory replies |
| LineMachine.ServeKeepsInv | Project3/protocols/MOSI_protocol.cpp:62-144 | no processor request breaks a line's invariant (single writer, no owner missed by a snoop, owned lines of MOESI shared), for all protocols |
| LineMachine.SnoopKeepsInv | Project3/protocols/MOSI_protocol.cpp:211-380 | no snooped GET breaks it and only an owner answers, except an OM line of MOESI snooping another cache's GETS |
| LineMachine.FillKeepsInv | Project3/protocols/MESI_protocol.cpp:274-342 | DATA takes the requester to M, S or, with the shared line down, E, without breaking it |
| LineMachine.UnsharedMeansAlone | Project3/protocols/MOESI_protocol.cpp:356-381 | when all caches have snooped a GETS and the shared line is down, no other cache holds the line |
| Steps.TickCachesKeep | Project3/sim/hash_table.cpp:133-166 | the machine's invariant (lines, one place per request, queue, transient lines, bus, misses) survives any number of cache ticks within a cycle |
| Cycles.CycleKeeps | Project3/sim/sim.cpp:104-118 | the machine's invariant survives every whole cycle, MOESI's hazard excepted |
| Cycles.ReachableOk | Project3/sim/sim.cpp:99-127 | the machine's invariant holds after any number of cycles of any run, for any number of nodes and any traces, as long as MOESI's hazard has not occurred |
| Liveness.ServeSteady | Project3/sim/hash_table.cpp:139-149 | serving a request keeps what every run keeps, hazard or not: a waiting processor has exactly one transient line and every transient line has a GET queued or on the bus |
| Liveness.ReactSteady | Project3/sim/hash_table.cpp:152-165 | so does reacting to any bus message, unless it is a fatal error |
| Rules.RequestRules | Project3/protocols/MESI_protocol.cpp:59-181 | every protocol's reaction to a processor request is an instance of one set of rules: who hits, what is asked for, which state remembers the miss, when the shared line is raised and an upgrade counted |
| Rules.GetRules | Project3/protocols/MOESI_protocol.cpp:221-438 | so is its reaction to a snooped GET: who gives way to what, who answers, who raises the shared line |
| Rules.DataRules | Project3/protocols/MOESI_protocol.cpp:356-438 | and to DATA: what fills to M, S or E, and which lines do not want it |
| Synchronous.EveryCycle | Project3/sim/sim.cpp:104-118 | one cycle with caches ticking in turn over a changing bus does, to every line, processor, queue, slot, timer and counter, exactly what the rules say of all nodes at once, and fails exactly if two caches answer one GET or DATA reaches a line that does not want it; in every protocol and with MOESI's hazard |
| Synchronous.EveryRun | Project3/sim/sim.cpp:99-127 | so does every cycle of every run until it fails |
| KeptCopies.OnlyGetmTakes | Project3/protocols/MESI_protocol.cpp:197-342 | in every protocol and run a copy held in S, E, O, M, SM or OM leaves its cache only in a cycle with a GETM for the line on the bus |
| KeptCopies.LoadHits | Project3/protocols/MESI_protocol.cpp:227-227 | a load of a line held since some cycle, with no GETM for it since, is answered in one cycle and sends no GET |
| Tallies.CountersExact | Project3/protocols/MESI_protocol.cpp:113-140 | over any run accesses are the requests served, misses those whose line did not suffice, and upgrades the stores that found their line in E |
| Tallies.RecordsConserved | Project3/sim/processor.cpp:35-81 | every trace record is unread, waits in its cache, or has been counted as an access |
| Tallies.AllCounted | Project3/sim/hash_table.cpp:139-149 | when all processors are done every trace record has been counted once |
| Tallies.OverExactly | Project3/sim/sim.cpp:120-126 | a run is over one cycle after the last answers have arrived, not earlier and not later |
| Safety.NoRunFails | Project3/sim/bus.cpp:49-53 | no run of MI, MSI, MESI or MOSI reaches a fatal error or a failed assertion of bus, cache, processor, memory or protocol |
| Safety.SingleWriter | Project3/protocols/MESI_protocol.cpp:196-342 | in every reachable state a line has at most one owner, beside an M or E copy there is no S, E, O, OM or M, and in MOSI beside M only I, IS and IM |
| Safety.OneTransientLine | Project3/sim/processor.cpp:49-66 | over all addresses a cache has at most one transient line, its GET is the cache's only one and is queued or on the bus, and an idle processor's cache has none |
| Safety.RequestsConserved | Project3/sim/processor.cpp:35-81 | an outstanding request sits in exactly one place, and every queued GET is what its sender's line waits for |
| Safety.MissesConserved | Project3/protocols/protocol.cpp:18-51 | at every cycle end misses = transfers + memory replies + queued GETs + the unanswered GET on the bus; at the end of a run misses = transfers + memory replies |
| Ownership.OwnershipConserved | Project3/protocols/MOSI_protocol.cpp:233-285 | after a cache of MI, MOSI or (without hazard) MOESI has held the line in M, at every later cycle end exactly one cache owns it, in M, O or OM, or none does while a cache's DATA answers a GETM for it, and memory never answers for it |
| Coherence.SequentiallyConsistent | Project3/protocols/MOSI_protocol.cpp:87-144 | with versions carried on DATA, every completed load returns the version of the last completed store to its line, each processor's requests complete in trace order, and all of them by the end; for MI, MOSI and safe MOESI, and for any protocol on at most two caches, even with a memory that is never written, for MSI and MESI otherwise with one that copies DATA |
| StaleExample.StaleLoad | Project3/protocols/MSI_protocol.cpp:251-264 | under MSI and MESI, with a memory that does not copy DATA, any delay and any number of caches from three on, a concrete run loads version 0 after version 1 was stored: the modified line that answered the first load became S |
| StaleExample.CoherenceExact | Project3/protocols/MESI_protocol.cpp:246-257 | for each protocol, number of caches, memory delay and kind of memory, all loads of all runs return the last version stored if and only if there are at most two caches, or the protocol is not MOESI and memory copies the DATA it sees or the protocol keeps an owner (MI and MOSI do) |
| LineValues.SnoopKeepsValues | Project3/protocols/MOSI_protocol.cpp:233-285 | an owner that answers a snooped GET puts the latest version on the wire and leaves no stale live copy |
| LineValues.FillKeepsValues | Project3/protocols/MOSI_protocol.cpp:287-323 | DATA that arrives is the latest version, except what a memory that does not copy DATA sends for a store to replace |
| Progress.CycleWorks | Project3/sim/sim.cpp:99-127 | every cycle of an unfinished run, MOESI's hazard included, fails or lowers a measure on trace records, requests, waiting processors and the transaction |
| Progress.EveryRunEnds | Project3/sim/sim.cpp:99-127 | every run of every protocol ends within (H + 11) * requests + n cycles, done or with a fatal error; without MOESI's hazard done, and within (H + 9) * requests + n |
| Waiting.QueueIsFifo | Project3/sim/bus.cpp:34-40 | a cycle takes at most the head off the queue and adds only at its end |
| Waiting.AnsweredInOrder | Project3/sim/bus.cpp:16-60 | over any number of cycles the transaction in progress and the queued GETs are answered in queue order, before all later ones, and each answer reaches its processor |
| Waiting.QueueFits | Project3/sim/bus.cpp:54-57 | queued requests and the transaction together never exceed the number of caches |
| Waiting.AnsweredInTime | Project3/sim/bus.cpp:16-60 | a GET that is queued or on the bus is answered within n * (H + 2) cycles and is not lost before |
| Transactions.GetAnswered | Project3/sim/bus.cpp:34-60 | in the cycle of a GET the cache that owned the line replies, or memory, which is never still busy, starts an access; in MESI the shared line ends up if and only if a cache held the line |
| Transactions.OneDataPerGet | Project3/sim/memory.cpp:19-47 | every granted GET gets exactly one DATA, addressed to its requester: from the owning cache in the next cycle if there is one, from memory hitTime + 1 cycles after the grant if and only if there is none |
| Transactions.MesiExclusivity | Project3/protocols/MESI_protocol.cpp:293-342 | a MESI load miss fills to E if and only if no other cache held the line in S, E, M or SM when its GETS was granted |
| MoesiLoads.OwnedLineFillsToS | Project3/protocols/MOESI_protocol.cpp:284-307 | in safe runs a MOESI GETS for an owned line always fills to S, although an O line does not raise the shared line |
| MoesiExclusivity.MoesiExclusivity | Project3/protocols/MOESI_protocol.cpp:88-95 | in safe runs a MOESI load miss fills to E if and only if no other cache held the line when its GETS was granted and no cache has answered a load from S, of any line, from the grant to the requester's tick in the cycle of the DATA |
| MoesiHazard.HazardBreaksSingleWriter | Project3/protocols/MOESI_protocol.cpp:410-417 | the first time an OM line snoops another cache's GETS, one cache ends up in M and the requester in S, hitTime + 2 cycles later |
| MoesiHazard.MoesiExactCondition | Project3/protocols/MOESI_protocol.cpp:407-438 | a MOESI run keeps a single writer in all its states if and only if no OM line ever snoops another cache's GETS |
| MoesiCoherence.HazardBreaksCoherence | Project3/protocols/MOESI_protocol.cpp:410-417 | hitTime + 2 cycles after that moment the requester has loaded a version older than the last store to the line, whether or not memory copies DATA |
| MoesiCoherence.CoherentExactly | Project3/protocols/MOESI_protocol.cpp:407-438 | all loads of a MOESI run return the last version stored if and only if no OM line ever snoops another cache's GETS, whether or not memory copies DATA |
| MoesiExample.MoesiBreaks | Project3/protocols/MOESI_protocol.cpp:410-417 | for every memory delay and any number of caches from three on such a run exists: one line, two stores and two loads by three processors |
| MoesiExample.MoesiReadsOld | Project3/protocols/MOESI_protocol.cpp:410-417 | in the same run a load returns an old version, for either kind of memory |
| MoesiExample.SingleWriterExact | Project3/protocols/MOESI_protocol.cpp:407-438 | for each protocol, number of caches and memory delay, all runs keep a single writer if and only if the protocol is not MOESI or there are at most two caches |
| SmallMachines.AlwaysSafe | Project3/protocols/MOESI_protocol.cpp:407-417 | on at most two caches no run of MOESI ever lets an OM line snoop another cache's GETS: the other cache holds a copy as long as the line is in O or OM |
| IdleNodes.RunExtends | Project3/sim/sim.cpp:99-127 | nodes with empty traces change nothing: lines, bus, memory, clock, counters and versions of the others are the same after every cycle, but for memory's own module number |
| ReservationStations.Rat.constructor | Project2/schedulersim.cpp:35-40 | no register has an alias at first |
| ReservationStations.Rat.SetReg | Project2/schedulersim.cpp:44-46 | one register's alias changes and no other |
| ReservationStations.Rest.AddEntry | Project2/schedulersim.cpp:74-106 | the first free entry of the station takes the instruction, its destination the entry's tag, and the instruction is counted; a full station changes nothing but the count of stalls |
| ReservationStations.Rest.IsEmpty | Project2/schedulersim.cpp:113-127 | true exactly if no entry of the station is valid |
| ReservationStations.Rest.FireReady | Project2/schedulersim.cpp:128-185 | of the startable entries exactly the first of each type start, and their number is returned |
| ReservationStations.Rest.UpdateSources | Project2/schedulersim.cpp:256-269 | every valid entry's sources equal to the tag become ready, and nothing else changes |
| ReservationStations.Rest.CountActive | Project2/schedulersim.cpp:221-230 | the number of running entries of a station |
| ReservationStations.Rest.CountActiveU | Project2/schedulersim.cpp:231-255 | the numbers of running entries of each type |
| ReservationStations.Core.BroadcastComplete | Project2/schedulersim.cpp:281-289 | a tag reaches every station |
| ReservationStations.Core.CompleteInsts | Project2/schedulersim.cpp:186-220 | the due entries of a station complete in turn: alias cleared, entry freed, tag broadcast, counted |
| ReservationStations.Core.TryIssue | Project2/schedulersim.cpp:355-394 | sources are replaced by the tags of their writers and the station for the type is tried; a stall is counted otherwise |
| ReservationStations.Core.ClearCompleted | Project2/schedulersim.cpp:513-543 | with one or three stations, all due instructions complete and the maximum is kept |
| ReservationStations.Core.StartReady | Project2/schedulersim.cpp:439-504 | with one or three stations, the same instructions start, and the maxima of started and running ones are kept |
| ReservationStations.Core.Completed | Project2/schedulersim.cpp:403-418 | true exactly if nothing is in flight |
| ReservationStations.Core.Step | Project2/schedulersim.cpp:425-429 | clock, completions, starts, in this order |
| ReservationStations.Core.RunTrace | Project2/schedulersim_driver.cpp:80-98 | the issue-retry and drain loops end, in the first finished state of the run, with num_cycles at most 21 N + 1, all N instructions counted and the occupancy bounds met |
| ReservationStations.Simulate | Project2/schedulersim_driver.cpp:69-99 | from trace to statistics: num_cycles at most 21 N + 1, all instructions counted, occupancy bounds met |
| SchedulerInv.CompleteFacts | Project2/schedulersim.cpp:186-220 | completing entries one at a time, broadcasts included, equals completing all due entries at once |
| SchedulerInv.AlwaysInv | Project2/schedulersim.cpp:74-106 | in every cycle each source is ready or the tag of a strictly older instruction in flight, an alias is the tag of its register's latest issued writer, which is in flight, and running entries of one type started in different cycles within their latency |
| SchedulerInv.OldestReady | Project2/schedulersim.cpp:143-143 | the oldest instruction in flight has all its sources |
| SchedulerBounds.Occupancy | Project2/schedulersim.cpp:439-543 | for any station sizes at most 2 ADD, 15 DIV and 20 MEM run at once, and at most 3 instructions start or complete per cycle |
| SchedulerBounds.NeverStuck | Project2/schedulersim.cpp:128-185 | after the starts of a cycle a non-empty station has a running entry that is due within 20 cycles |
| SchedulerBounds.RunBound | Project2/schedulersim_driver.cpp:80-98 | any trace of N valid instructions finishes with num_cycles at most 21 N + 1 |
| SchedulerBounds.BoundAttained | Project2/schedulersim_driver.cpp:80-98 | n alike instructions on a station of one entry take exactly 3 n + 1 cycles if they are ADDs, 16 n + 1 if DIVs and 21 n + 1 if MEMs |
| SchedulerCycle.EveryCycle | Project2/schedulersim.cpp:186-220 | a cycle of the driver, all entries at once: the new instruction takes the free entry of its type with the lowest tag or the stall is counted, operations end 2, 15 or 20 cycles after their start, sources and aliases follow, the ready operation with the lowest tag of each type starts, and every counter and maximum is kept |
| SchedulerTimes.RunsFor | Project2/schedulersim.cpp:13-25 | an instruction that starts in cycle c is in flight at the end of cycles c to c+d-1 and gone at the end of c+d, with d = 2 for ADD, 15 for DIV and 20 for MEM |
| SchedulerTimes.IssueOrStall | Project2/schedulersim.cpp:74-106 | while the trace lasts every cycle issues one instruction or counts one stall |
| SchedulerTimes.MaximaReached | Project2/schedulersim.cpp:439-543 | each reported maximum bounds what started, completed or ran in every cycle so far, and some cycle reaches it |
| SchedulerTimes.OverExactly | Project2/schedulersim.cpp:403-418 | a run is over at the end of the cycle in which the last operation has run for its time |
| SchedulerOrder.AliasNamesLastWriter | Project2/schedulersim.cpp:203-211 | a register has an alias, its last writer's tag, if and only if that writer is in flight and no older writer of the register has completed since its issue |
| SchedulerOrder.StartsAfterWriter | Project2/schedulersim.cpp:355-363 | an instruction starts no earlier than the end of the last writer of each source, unless that writer was in flight and overtaken when it was issued; SchedulerLost.WaitsExactly is the converse |
| SchedulerLost.WaitsExactly | Project2/schedulersim.cpp:186-211 | until the last writer of a source has completed, the instruction's entry holds that writer's tag if and only if the writer was not both in flight and overtaken (an older writer of its register completed after it was issued) when the instruction was issued |
| SchedulerLost.StartsAtOnce | Project2/schedulersim.cpp:128-185 | an instruction issued while no other of its type waits to start, starts in the next cycle if and only if each source is unused, unwritten, overtaken, or completes by then |
| SchedulerLost.LostStartsAtOnce | Project2/schedulersim.cpp:186-211 | a lost writer does not delay such an instruction: if the other source does not either, it starts in the cycle after its issue |
| SchedulerOrder.DependenceOrder | Project2/schedulersim.cpp:91-97 | on traces that never issue to a register with a writer in flight all dependences are respected |
| SchedulerExample.DependenceBroken | Project2/schedulersim.cpp:205-205 | a trace of four instructions on which one starts before the last writer of its source has ended, that writer being lost in the sense of WaitsExactly |
| Predictors.Predictor.constructor | Project1/branchsim.cpp:30-115 | table sizes and storage overhead by kind, all counters weakly taken, all histories empty |
| Predictors.Predictor.Index | Project1/branchsim.cpp:126-179 | the index of each kind of predictor, inside the table |
| Predictors.Predictor.PredictBranch | Project1/branchsim.cpp:191-213 | taken exactly if the counter has reached weakly taken; the prediction is counted and nothing else changes |
| Predictors.Predictor.UpdatePredictor | Project1/branchsim.cpp:227-270 | score, global history, the branch's own counter and its entry's history change as specified, nothing else does |
| Predictors.Simulate | Project1/branchsim_driver.cpp:64-77 | the statistics of the run; every branch is predicted once, the storage overhead is that of the configuration, and a local-history predictor's score is the sum over its entries |
| Predictors.PredictionsCounted | Project1/branchsim.cpp:191-213 | predictions taken and not taken add up to the branches |
| BranchPredictor.IndexInBounds | Project1/branchsim.cpp:126-179 | the index stays inside the pattern table for every kind, any number of entries and any history |
| Predictions.UsesIndex | Project1/branchsim.cpp:126-179 | the counter a branch uses, from the trace alone: the masked address bit by bit, the masked window of its entry, both side by side, or the exclusive or of address and global history under the mask |
| Predictions.CountersExact | Project1/branchsim.cpp:227-270 | after any trace each counter is the saturating count of the outcomes of exactly the branches that used it |
| Predictions.PredictionsExact | Project1/branchsim.cpp:191-213 | a branch is predicted taken exactly if that count is in the upper half, so a fresh counter predicts taken |
| Predictions.OneBranch | Project1/branchsim.cpp:244-260 | one branch moves the counter it used by one, up below the limit or down above 0, leaves it at its ends, and moves no other |
| Predictions.WalkUpAndDown | Project1/branchsim.cpp:244-260 | k taken and then j not taken branches at one counter leave max(0, min(limit, start + k) - j) |
| Predictions.TwoWrong | Project1/branchsim.cpp:244-260 | a saturated counter of two bits changes its prediction after two wrong outcomes and not after one |
| Predictions.ScoreExact | Project1/branchsim.cpp:191-235 | the statistics of any run are those of the predictions foretold from its trace |
| Predictors.OverheadIsBits | Project1/branchsim.cpp:49-99 | the storage overhead is counter_bits for each counter and history_bits for each register of the configuration |
| Histories.HistoriesAreWindows | Project1/branchsim.cpp:237-268 | a masked history encodes exactly the last history_bits outcomes of the branches that hash to its entry, zeros where there were fewer, and the global register the last 64 of all branches |
| LocalHistories.LocalDecomposes | Project1/branchsim.cpp:154-164 | after any interleaved trace entry s of a local-history predictor, history and counters, is the one-entry predictor run on the branches that hash to s |
| LocalHistories.LocalPredictions | Project1/branchsim.cpp:191-213 | every prediction of a local-history predictor is the prediction of the one-entry predictor that has seen only the branches of the same entry |
| LocalHistories.LocalCorrect | Project1/branchsim.cpp:233-235 | the number of correct predictions of a local-history predictor is the sum over its one-entry predictors |
| Saturation.CountersStop | Project1/branchsim.cpp:244-244 | no counter exceeds the limit in the code |
| Saturation.CountersFit | Project1/branchsim.cpp:244-260 | all counters of all runs fit in counter_bits bits if and only if counter_bits is 1 or 2 |
| Bits.AndOnes | Project1/branchsim.cpp:39-39 | masking with 2^h - 1 keeps the h lowest bits |
| Bits.XorMasked | Project1/branchsim.cpp:174-174 | the exclusive or of two values under one mask, of any shape, does not exceed the mask |
| Bits.XorBit | Project1/branchsim.cpp:174-174 | the exclusive or has a bit where exactly one of its arguments has it |
| Bits.AndBit | Project1/branchsim.cpp:126-179 | masking has a bit where both of its arguments have it |

## Left out

- Project3/protocols/MOESIF_protocol.cpp: its handlers are empty and every request is a fatal error.
- Address masks, sets, associativity and capacity (Project3/sim/hash_table.cpp:87-122): they are computed and never used; lines are never evicted.
- Data contents: the program carries none. Versions are added beside the run; whether memory copies the DATA it sees is a parameter.
- A memory delay of zero: the model asks for at least one cycle; the program uses 100 (Project3/sim/node.cpp:43).
- Trace parsing, command lines, printed messages, dumps, statistics output and memory deallocation. Traces are sequences of operations.
- Project3/sim/settings.cpp, main.cpp, node.cpp and module.cpp: wiring; the number of nodes, the memory delay and module identities remain. preq.cpp, sim_analysis.cpp and sharers.cpp take no part in the protocols.
- Integer widths of cycle counts and counters in Project3 and Project2: they are unbounded here.
- Invalid operations, register 0 and stations of size zero in the scheduler: the driver would exit, index out of range or retry forever.
- Instructions per cycle and misprediction rate: floating point quotients of counters.
- Branch directions other than taken and not taken, which the predictor would count and not learn.
- Counters of more than 5 bits, histories of more than 30 bits and tables whose size overflows an int: the program's shifts and products are undefined there.
- ReservationStations.Rest: the three stations are ranges of one array, as their tags are; that the program allocates three arrays is not captured.
- CacheLines.Line.ProcessCacheRequest: one class with the handlers of all protocols stands for the five subclasses; virtual dispatch is a match on the protocol.
- Coherence.SequentiallyConsistent: for MOESI it asks for safe runs, and for MSI and MESI on three or more caches for a memory that copies DATA; `MoesiCoherence.CoherentExactly` and `StaleExample.CoherenceExact` show that neither can be dropped.
