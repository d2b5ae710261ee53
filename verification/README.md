# A verified model of the handover emulator

The emulator replays a trace of mobile-network handovers on live traffic. A trace is compiled into
timed events; a scheduler thread dispatches them and, between them, a periodic sampler; each queue
has a packet thread that passes every packet through four stages (drop, reorder, duplicate
suppression, receive-window rewrite), each under its own lock; and a receive-window controller
freezes, probes ("burst") and adapts the window around each handover.

The project models these parts together and proves what they promise over every trace, every packet
stream and every interleaving. Verify it with `dafny verify dfyconfig.toml`.

| file | content |
|---|---|
| `Machine.dfy` | fixed-width integers and their conversions |
| `Worker.dfy` | the four stages and the setters, as functions on one record per lock, and the mutable `WorkerCtx` |
| `Pipeline.dfy` | the callback as steps interleaved with setter calls: conservation of packets, buffer safety |
| `Reordering.dfy`, `Handover.dfy` | the effect of a reordering handover on any packet stream, from the trace line on |
| `Acks.dfy` | duplicate suppression against its specification, byte accounting across wrap-around |
| `Action.dfy`, `ActionCtx.dfy` | the actions and the controller, as functions and as the mutable `ActionCtx` |
| `Verdicts.dfy` | the marks and windows the packets leave with; fresh queues |
| `Window.dfy`, `Control.dfy` | the controller over whole runs, and over runs of the dispatch loop |
| `Scheduler.dfy`, `SchedulerCtx.dfy` | the event order; the mutable event table and the dispatch loop |
| `Dispatch.dfy`, `Merge.dfy` | the dispatch loop as a machine: order, termination, merge with the sampler, catch-up |
| `Layout.dfy`, `Trace.dfy`, `Parser.dfy` | the trace compiler: table layout, line expansion, the appending parser |
| `Lifecycle.dfy`, `Registers.dfy` | runs in which every handler finds its slot; last-writer semantics of each queue |
| `Intervals.dfy`, `Phases.dfy`, `Duplicates.dfy`, `Adaptation.dfy`, `Setup.dfy` | compile, sort and run together refine an interval semantics of the trace: gaps, marks, bursts, freezes, duplicate suppression, adaptation, set-up |
| `Joint.dfy`, `Whole.dfy` | the packet thread of a queue inside the dispatch loop, and the theorems about the whole system |
| `Emulator.dfy` | from trace to log |
| `Nfqueue.dfy` | the start / stop / dead protocol of the queue consumer |

Threads are modelled as one event sequence: a step that is not possible yet leaves the state alone,
so every sequence is a run and "for all sequences" is "for all interleavings". A handler that would
use a slot that is not there sets `crashed`. Memory the program does not initialise (window, last
ACK, byte counter, reorder counters, queue status) is an arbitrary parameter.

Three promises do not hold as first stated; each has its exact condition here.
A worker armed with reorder count and offset both 0 loses a packet (`EmptyEpisodeLoses`,
`LosesOnlyToEmptyEpisode`), and a HO line such as one with count 65536 and offset 0 does arm it so
(`ArmsEmptyExactly`). A pace above 1.2 may make the adaptive window fall below both its old
value and the sample, unless the threshold is low (`PaceConditionExact`). The window of a link left
with window 0 is not remembered (`ZeroWindowForgotten`).

Where the code and its manual disagree, the model follows the code: the manual (README.md:197) says
the sampler first fires at `start_time`, but it first fires at `start_time + rtt1`
(src/scheduler.c:64); `Setup.SetUpAtDispatch` states it.

## Model

| member | source | states |
|---|---|---|
| `Pipeline.Conservation` | src/worker.c:53-128 | Over every interleaving of packets, packet steps and setter calls, every packet received is, counted by id, exactly once among accepted, dropped, in flight, held, abandoned or lost; and the episode invariant holds. |
| `Pipeline.OneVerdict` | src/worker.c:53-128 | When the kernel's ids are distinct, no id gets two verdicts, and none has a verdict while it is still held or in flight. |
| `Pipeline.AbandonsOnlyByRearming` | src/worker.c:295-307 | Ids become abandoned exactly when reordering is re-armed while some are held. |
| `Pipeline.LosesOnlyToEmptyEpisode` | src/worker.c:101-125 | A packet is lost without verdict exactly when it meets an episode armed with count and offset both 0. |
| `Pipeline.NothingLost` | src/worker.c:97-128 | If no episode is armed with count and offset both 0, nothing is ever lost, over every interleaving. |
| `Pipeline.EmptyEpisodeLoses` | src/worker.c:101-125 | Arming with count and offset 0 does lose the next packet that passes the drop stage. |
| `Pipeline.BufferSafe` | src/worker.c:101-123 | In every reachable state, the ids held plus the remaining count fit the 1000 places, the next write is in bounds, and the counters never fall below minus the armed offset (or -1 for the empty episode). |
| `Pipeline.PacketFrame` | src/worker.c:53-201 | The packet thread writes only the drop and reorder state, the byte counter and the last ACK, and never starts an episode. |
| `Pipeline.ReleaseRuns` | src/worker.c:113-123 | Left alone, the release loop accepts the held ids from the last to the first. |
| `Pipeline.ReorderRuns` | src/worker.c:97-128 | Left alone, the steps of the reorder stage compute the stage function. |
| `Pipeline.CallbackRuns` | src/worker.c:53-77 | Left alone, the steps of a callback compute the composition of the four stages. |
| `Verdicts.StepStamps` | src/worker.c:74-76 | Wherever the packet thread is, a step gives at most one verdict; a packet it accepts, passed, released, rewritten or plain, carries the mark the worker holds at that step; only the window stage rewrites, a larger window to the worker's. |
| `Verdicts.VerdictMarks` | src/worker.c:108-119 | Over every interleaving, every packet accepted carries the mark of the latest call that set it before its verdict. |
| `Verdicts.MarkStays` | src/worker.c:231-234 | As long as no call sets the mark, every packet accepted carries the worker's. |
| `Verdicts.CallbackStamps` | src/worker.c:53-77 | The same for the undisturbed callback of the mutable worker. |
| `Verdicts.FreshPasses` | src/worker.c:203-220 | A new queue, before any call of the scheduler, accepts every packet unchanged, with mark 0 and in order. |
| `Verdicts.LengthTests` | src/worker.c:137-168 | Every TCP segment passes the length tests and counts as payload-free exactly when it carries none; what passes has the headers that are read inside it; what is too short is not read. |
| `Reordering.ReorderedOne` | src/worker.c:101-123 | How one more packet extends the output order during an episode: held, passed, passed and followed by the held ones reversed, or swallowed by the empty episode. |
| `Reordering.TrackRun` | src/worker.c:79-128 | After any run from an armed worker, the packets received split into dropped, passed and in flight, and the state of the stages follows from their numbers. |
| `Reordering.HandoverEffect` | src/worker.c:79-128 | From the moment an episode is armed with any count c and offset o, wherever the packet thread is and on any packet stream: the next d packets are dropped, a packet past the reorder stage leaves first, and of the rest the block of o packets after the first c leaves first, then those c reversed, then all others in order; with o = 0 the order is unchanged; with c = o = 0 the first gets no verdict. |
| `Reordering.StreamEffect` | src/worker.c:295-324 | The same from the moment the drop stage is armed, whatever packets come before the reorder stage is armed: those that passed it by then leave in order, the rest reordered. |
| `Reordering.LossEffect` | src/worker.c:79-95 | Without an episode, the next d packets are dropped and all others leave in order. |
| `Handover.HoSetters` | src/event.c:50-82 | A HO line with a loss sets the mark and arms the drop stage; one with reordering arms it with count + 10 and then arms the reorder stage. |
| `Handover.HoArms` | src/worker.c:295-324 | Made one after the other, these calls arm the worker for exactly that handover, count and offset truncated to 16 bits and the count clamped to 1000, and abandon what an earlier episode still held. |
| `Handover.ArmsEmptyExactly` | src/event.c:71-82 | A HO line with a positive count arms an episode that loses a packet if and only if its count and its offset are both multiples of 65536. |
| `Handover.HandoverOnStream` | src/event.c:57-82 | End to end, for every HO line with a positive count and whatever packets come between its calls: the first count + 10 packets to enter are dropped, those past the reorder stage when it is armed leave in order, the others in the reordered order; a packet is lost if and only if the line arms the empty episode and one survives to meet it. |
| `Handover.LossOnStream` | src/event.c:61-68 | A HO line without reordering drops the first `loss` packets to enter; the others leave in order. |
| `Handover.DisarmedPasses` | src/worker.c:295-324 | Disarming both stages lets every packet through, in order, that is not held already. |
| `Handover.Replay` | src/worker.c:53-128 | On the mutable worker: after the calls of a reordering HO line, a stream of packets leaves with exactly the verdicts the theorem says. |
| `Acks.DedupEffect` | src/worker.c:130-157 | With rewriting and dedup on, verdicts come in arrival order, the last ACK is always that of the latest well-formed packet, and a packet is dropped exactly when it is payload-free and repeats it. |
| `Acks.AcceptedAcksIncrease` | src/worker.c:144-152 | On a stream whose ACKs never go back, the payload-free packets accepted acknowledge strictly more and more. |
| `Acks.DroppedAcksRepeat` | src/worker.c:144-152 | A dropped packet does repeat the position of the packet before it, as long as no advance spans 2^32. |
| `Acks.BytesAccounted` | src/worker.c:172-179 | While rewriting stays on, bytes consumed by samples, thrown away by resets and still counted add up to the 32-bit advances of the ACKs that reached the stage. |
| `Acks.AdvanceTelescopes` | src/worker.c:175-179 | The 32-bit advances of never decreasing positions add up to the distance from first to last, across wrap-around (section 3.4 of RFC 9293). |
| `Acks.BytesTelescope` | src/worker.c:172-179 | Both together: samples, resets and counter equal the true number of bytes acknowledged. |
| `Worker.WorkerCtx.constructor` | src/worker.c:203-220 | A new worker has mark 0 and every switch off; the rest is arbitrary. |
| `Worker.WorkerCtx.HandleDropped` | src/worker.c:79-95 | The in-place drop stage computes the stage function the theorems are about. |
| `Worker.WorkerCtx.ReleaseHeld` | src/worker.c:115-120 | The release loop gives the held ids their verdicts in reverse. |
| `Worker.WorkerCtx.AdmitPacket` | src/worker.c:102-112 | Queues or passes one packet; the array write is in bounds. |
| `Worker.WorkerCtx.HandleReordering` | src/worker.c:97-128 | The in-place reorder stage computes the stage function and keeps the buffer invariant. |
| `Worker.WorkerCtx.HandleDuplicate` | src/worker.c:130-157 | Drops exactly the payload-free packets that repeat the last ACK, if readable. |
| `Worker.WorkerCtx.HandleWindow` | src/worker.c:159-201 | Counts the advance modulo 2^32 and rewrites exactly the windows above the tuned one. |
| `Worker.WorkerCtx.ReceivePassed` | src/worker.c:69-76 | The dedup and window stages and the final verdict, in sequence. |
| `Worker.WorkerCtx.ReceiveSurviving` | src/worker.c:66-76 | The callback from the reorder stage on. |
| `Worker.WorkerCtx.Receive` | src/worker.c:53-77 | The whole callback on the mutable worker equals the composed value function and appends its verdicts. |
| `Worker.WorkerCtx.WriteMark` | src/worker.c:231-234 | Sets the mark and nothing else. |
| `Worker.WorkerCtx.WriteSolution` | src/worker.c:236-242 | Both modes off, window restored, truncated to 16 bits. |
| `Worker.WorkerCtx.WriteWindow` | src/worker.c:244-248 | Sets the window and nothing else. |
| `Worker.WorkerCtx.WriteBurst` | src/worker.c:250-260 | Sets the burst mode; switching it on ends adaptation and empties the byte counter. |
| `Worker.WorkerCtx.WriteAdapt` | src/worker.c:262-273 | Sets the adapt mode; switching it on ends a burst and empties the byte counter. |
| `Worker.WorkerCtx.WriteTcpSched` | src/worker.c:275-282 | Sets the rewrite switch, starts adapting, empties the byte counter. |
| `Worker.WorkerCtx.WriteDedup` | src/worker.c:284-293 | Sets the dedup switch and nothing else. |
| `Worker.WorkerCtx.WriteReorder` | src/worker.c:295-312 | Arms an episode with the count clamped to 1000 and an empty buffer, or disarms; keeps the buffer invariant. |
| `Worker.WorkerCtx.WriteDrop` | src/worker.c:314-324 | Arms or disarms the drop stage. |
| `Worker.WorkerCtx.WriteSample` | src/action.c:76-76 | The write-back of a sample: the new window stored, the counter emptied, nothing else. |
| `Window.GrowthBounded` | src/action.c:59-63 | A growing step stays below sample * (1 + pace) / threshold. |
| `Window.ShrinkBounded` | src/action.c:64-67 | A shrinking step does not fall below the sample, if the pace suits the threshold. |
| `Window.AdaptStepMeans` | src/action.c:59-68 | One adaptive step: above the threshold share w' = floor(w(1 + pace)), below 70 percent w' = floor(w(1 - pace/4)), otherwise w' = w; stated by the two-sided bounds that define the floor. |
| `Window.AdaptGrows` | src/action.c:59-63 | While every sample is above the threshold share of the window it meets and the window fits 16 bits, each sample raises it by at least one. |
| `Window.AdaptShrinks` | src/action.c:64-67 | While every sample is below 70 percent of the window it meets, each sample lowers it by at least one. |
| `Window.AdaptBounded` | src/action.c:44-68 | Over any run of samples in [c, C], the window stays between min(start, c) and max(start, C(1 + pace)/threshold), so it never leaves 16 bits when that fits. |
| `Window.AdaptingFollows` | src/action.c:44-76 | While it adapts, the controller's window is the adaptive run over the samples it takes, whatever packets come. |
| `Window.AdaptingBounded` | src/action.c:44-76 | The same bound, for the controller itself. |
| `Window.SampleAdapts` | src/action.c:44-76 | One adaptive sample of the controller, in numbers: the step on the kilobytes received, the counter emptied, the parameters kept. |
| `Window.AdaptingMoves` | src/action.c:44-76 | The growth and the shrinking, for the controller, whatever packets come. |
| `Window.PaceConditionExact` | src/action.c:59-67 | A step never falls below both the window and the sample if and only if pace <= max(1.2, 4(1 - threshold)). |
| `Window.EstimateMeans` | src/action.c:36-39 | A burst estimate e from c bytes satisfies 1024 e interval <= c rtt < 1024 (e + 1) interval: what one round trip carries at the rate observed, rounded down to kilobytes. |
| `Window.EstimateLargest` | src/action.c:36-39 | It is the largest such window: a window is at most the estimate if and only if one round trip carries it. |
| `Window.BurstSamples` | src/action.c:34-43 | Over any samples of a burst, the window is the largest of its start and the estimates. |
| `Window.BurstHandover` | src/action.c:201-227 | After burst on, any samples, burst off and adapt on, the window equals the largest of the remembered window and all estimates, and so does the memory of the link. |
| `Window.OtherLinkUntouched` | src/action.c:155-165 | No sequence of freezes, bursts, samples and same-link handovers on one link changes what is remembered of another. |
| `Window.LinkRoundTrip` | src/action.c:155-165 | Leaving a link with window w > 0 and returning after any such sequence restores exactly w. |
| `Window.ZeroWindowForgotten` | src/action.c:159-162 | It does so for all sequences if and only if w > 0. |
| `Window.ExclusiveStep` | src/worker.c:250-282 | From exclusive modes, both come on exactly by attaching during a burst or by a negative mode argument. |
| `Window.NeverBoth` | src/worker.c:236-282 | Without those, burst and adapt are never both on, over any run of the controller. |
| `Window.FreezeHolds` | src/action.c:181-192 | From a handover with freeze until the next phase, the window is exactly what the freeze asked for, but at least 10, and both modes are off, whatever samples and packets come. |
| `Window.RewrittenWindow` | src/worker.c:182-197 | A well-formed packet leaves with the smaller of its window and the controller's; during a freeze, of its window and 10. |
| `Window.PerformIsControl` | src/action.c:155-250 | Seen from one queue, every action of the system is a controller event or leaves the controller alone. |
| `Window.TickIsSample` | src/action.c:26-79 | A tick of the system is, for the linked queue, one sample of the controller. |
| `Window.InterfereIsPackets` | src/worker.c:172-179 | What packets do between two actions is, for the controller, a change of the byte counter and the last ACK only. |
| `Control.PacketsAreTraffic` | src/worker.c:53-201 | Whatever packets come between two actions, what their thread does to its worker is one of the disturbances the whole-system theorems quantify over. |
| `Control.LoopIsControl` | src/scheduler.c:62-83 | Over any run of the dispatch loop, with any packets and any actions on other queues, the controller of the linked queue has done exactly the controller events read off the turns. |
| `Control.LoopAdapts` | src/action.c:44-68 | The bound of the adaptive window, over any run of the dispatch loop, in terms of the byte counters its samples read. |
| `Control.LoopMoves` | src/action.c:59-67 | On the dispatch loop: counters above the threshold share raise the window with every sample, counters below 70 percent lower it. |
| `Control.LoopBursts` | src/action.c:34-43 | During a burst, over any run of the dispatch loop, the window is its start or, if larger, the largest window that one round trip of the link carries at the rate of a counter read. |
| `Control.LoopBurstHandover` | src/action.c:201-227 | On the dispatch loop: after burst on, burst off and adapt on, with anything on other queues between, window and memory are the remembered window or, if larger, the largest that one round trip of the link carries at the rate, per burst interval, of a counter read. |
| `Control.LoopRoundTrip` | src/action.c:155-165 | On the dispatch loop: leaving a link with window w > 0 and coming back restores exactly w, whatever is dispatched for the other link. |
| `Setup.RunLoads` | src/action.c:229-250 | Over the whole run the controller has the parameters of the latest set-up dispatched. |
| `Setup.SetUpSemantics` | src/event.c:164-202 | Once all events due by t are dispatched, the controller's queue, threshold, pace, burst interval and both round-trip times are those of the latest SOL_INIT_SCHED. |
| `Setup.SetUpAtDispatch` | src/action.c:233-248 | Right at its dispatch, period and window are those of link 1, the memory is the line's, rewriting is as enabled, the worker adapts with an empty counter, and the first sample is due at start_time + rtt1. |
| `Setup.RewriteSemantics` | src/worker.c:275-282 | A live queue rewrites windows exactly when its latest SOL_INIT_SCHED enables it, and not before the first. |
| `Joint.ActionIsCalls` | src/action.c:148-250 | What an action does to the worker of a queue is exactly its setter calls. |
| `Joint.LoopIsPipe` | src/scheduler.c:62-83 | Over any run of the dispatch loop, a worker is in the state that its packet thread, interleaved with the setter calls and samples read off the turns, has brought it to. |
| `Joint.SomeTraffic` | src/worker.c:53-201 | Whatever the packet thread does before a turn, there is a disturbance by which the loop sees exactly that. |
| `Whole.MarksOnPackets` | src/event.c:50-54 | Once all events due by t are dispatched, every packet a live queue accepts leaves with the mark of the latest handover, or else of its INIT, until the mark is next set. |
| `Whole.LoopHandover` | src/event.c:57-82 | A reordering handover of the whole system: when the loop has dispatched a HO line's calls, with anything on other queues, samples and packets between and after, the packets leave as the line says and the worker is where they left it. |
| `Whole.CallsTogether` | src/event.c:61-82 | The drop and the reorder call of a HO line are dispatched in consecutive turns. |
| `Whole.SamplesConsume` | src/action.c:76-76 | Over any run of the loop, the samples consume exactly the counters they read. |
| `Whole.LoopBytes` | src/worker.c:172-179 | Byte accounting of the whole system: counters read by samples, bytes thrown away by actions and bytes still counted equal the true number acknowledged. |
| `ActionContext.ActionCtx.constructor` | src/action.c:13-24 | No slots, and a sampler that never fires. |
| `ActionContext.ActionCtx.SolUpdate` | src/action.c:155-165 | The in-place handover of the controller equals the value function the theorems are about. |
| `ActionContext.ActionCtx.SetRwnd` | src/action.c:181-192 | Likewise the freeze, never below 10. |
| `ActionContext.ActionCtx.SetBurst` | src/action.c:201-216 | Likewise the burst, with the new period and, at its end, the new memory. |
| `ActionContext.ActionCtx.SetAdapt` | src/action.c:218-227 | Likewise the adaptation, with the new period. |
| `ActionContext.ActionCtx.InitTcpSched` | src/action.c:229-250 | Likewise linking the sampler and loading its parameters. |
| `ActionContext.ActionCtx.TcpSchedule` | src/action.c:26-79 | One sample on the linked worker equals the value function; a missing worker is a crash. |
| `ActionContext.ActionCtx.OnSlot` | src/action.c:97-141 | Opening, starting, stopping, closing and setting change one slot only. |
| `ActionContext.ActionCtx.Execute` | src/action.c:91-250 | Every handler on the mutable context equals its value function, crashes included. |
| `ActionContext.ActionCtx.Meddle` | src/worker.c:53-201 | What the packet threads have done since the last action is done to the workers of all slots. |
| `Scheduler.CompareIsTotalOrder` | src/scheduler.c:32-44 | The comparison is antisymmetric, transitive, and strict on events with different indices. |
| `Scheduler.SortsAgree` | src/scheduler.c:57-58 | Two sorted permutations of a table with distinct indices are equal. |
| `Scheduler.StableSortSorts` | src/scheduler.c:32-44 | The stable sort by time alone, which never reads the index, is sorted by the comparison and a permutation. |
| `Scheduler.SortDeterministic` | src/scheduler.c:57-58 | Whatever `qsort` does, it leaves the table in the one order of the stable sort by time. |
| `SchedulerContext.SchedulerCtx.constructor` | src/scheduler.c:8-15 | An empty table. |
| `SchedulerContext.SchedulerCtx.AddEvent` | src/scheduler.c:17-30 | Appends the event with its position, or returns -1 and changes nothing when the table is full. |
| `SchedulerContext.SchedulerCtx.Turn` | src/scheduler.c:63-83 | One turn of the loop, whatever the packet threads have done before it, equals one step of the dispatch machine. |
| `SchedulerContext.SchedulerCtx.Run` | src/scheduler.c:52-86 | For every behaviour of the packet threads, the loop ends, and has then done exactly the turns of the dispatch machine on the sorted table. |
| `Dispatch.FiresInOrder` | src/scheduler.c:62-83 | Whatever handlers do to the period and packets to the workers, the events fired are a prefix of the sorted table, each once; all of it when the loop ends without crash. |
| `Dispatch.StepKeepsGood` | src/action.c:201-239 | Every turn keeps intervals and round-trip times positive, or the sampler off until SOL_INIT_SCHED. |
| `Dispatch.RankDrops` | src/scheduler.c:63-76 | Every turn lowers the measure (events left, distance from the sampler to the next event). |
| `Dispatch.LoopTerminates` | src/scheduler.c:52-83 | With positive intervals and round trips, steering after SOL_INIT_SCHED and times below 0xFFFFFFFF, the loop is done after that many turns. |
| `Dispatch.ZeroIntervalSticks` | src/scheduler.c:63-76 | With interval 0 and the sampler due, no number of turns reaches the next event: the loop samples at the same time over and over, or crashes. |
| `Merge.MergeUnique` | src/scheduler.c:63-76 | There is only one sorted merge of a list of events with a list of samples, samples first on ties. |
| `Merge.FixedPeriod` | src/scheduler.c:63-76 | While no dispatched event changes the sampler, at every moment the log is such a merge with the samples fire + k * period so far. |
| `Merge.MergeCorrect` | src/scheduler.c:63-76 | The log of a finished run is the merge of the events with exactly the samples fire + k * period due up to the last event. |
| `Merge.MergeOfTable` | src/scheduler.c:57-76 | For the sorted table of a whole run: from the moment no event to come changes the sampler, the rest of the log is the merge of the rest of the table with the samples due. |
| `Merge.CatchUp` | src/action.c:206-207 | After an event at T changes the period from p to q, each sample until the next change is later than T - (p - q), and at most ceil((p - q)/q) of them are due at or before T. |
| `Parser.AddAllIs` | src/scheduler.c:17-30 | Adding events one by one to a table gives the numbered concatenation, cut off at the capacity. |
| `Parser.ParseInit` | src/event.c:88-124 | Appends open, teardown, start and, for a positive mark, the mark. |
| `Parser.ParseHo` | src/event.c:21-85 | Appends stop, start after the gap, mark, and the drop and reorder settings; a reordering handover overrides the loss. |
| `Parser.ParseHandleSolution` | src/event.c:206-287 | Appends the phases of a SOL_HO at the advancing times. |
| `Parser.ParseEvent` | src/event.c:307-345 | Appends what the line compiles to; returns -1 exactly for an unknown line, which adds nothing. |
| `Parser.ReadTrace` | src/emulator.c:64-66 | Reading a trace leaves exactly the compiled table, as far as there is room. |
| `Layout.TableNumbered` | src/scheduler.c:24-28 | Every event of the compiled table carries its own position. |
| `Layout.PlacedBefore` | src/scheduler.c:32-44 | In the sorted table, the events of the lines stand in (time, line, position in line) order, and only so. |
| `Layout.Neighbours` | src/scheduler.c:32-44 | Consecutive events of one line with the same time stay neighbours. |
| `Lifecycle.RunHealthy` | src/action.c:97-141 | Over the whole run of a well-scoped event list, no handler fails, exactly the opened and not yet closed queues are live, and the sampler runs only on a live worker. |
| `Registers.RunReflects` | src/action.c:97-227 | Status, mark, dedup and rewrite switch and modes of every live queue are always what the latest event that writes them wrote, whatever samples and packets come. |
| `Registers.RunHoldsFreeze` | src/action.c:155-192 | After the freeze of a handover, until the next event that reshapes the controller, the window is exactly 10. |
| `Trace.TraceSound` | src/event.c:88-124 | A trace whose lines come after their INIT, with all times before its end, and whose sampled queue ends last, compiles and sorts to a well-scoped event list. |
| `Trace.TraceRunsSafely` | src/scheduler.c:52-83 | Over the whole run of such a trace, whatever the packets do, every handler finds its slots, the sampler never runs before SOL_INIT_SCHED nor after its worker's teardown, and the run ends with every event fired once. |
| `Trace.CommandsFire` | src/event.c:11-18 | Every CMD line runs its command once, at its time, in (time, position) order. |
| `Trace.CommandsFrom` | src/event.c:11-18 | No other command runs. |
| `Intervals.GapSemantics` | src/event.c:37-54 | Once all events due by t are dispatched, a queue between its opening and its end is stopped exactly when t lies in some [t_i, t_i + gap_i), and running otherwise. |
| `Intervals.MarkSemantics` | src/event.c:50-54 | Its mark is then that of the latest handover at or before t, or else that of its INIT; and one of the two cases always applies. |
| `Phases.BurstSemantics` | src/event.c:261-276 | For SOL_HOs that do not overlap, the controller bursts exactly when t lies in some burst phase. |
| `Phases.ModesExclusive` | src/event.c:230-285 | For every trace without a SOL_INIT_SCHED during a burst, burst and adapt are never both on in any reachable state. |
| `Phases.FreezeSemantics` | src/event.c:236-245 | During the freeze phase of a SOL_HO, the window is exactly 10, both modes are off, and every well-formed packet rewritten leaves with min(window, 10). |
| `Duplicates.DedupSemantics` | src/event.c:247-260 | For smoothing phases that do not overlap, a live queue drops duplicates exactly when t lies in the smoothing phase of a SOL_HO that no SOL_HANDLEDUP since has switched off, or the latest SOL_HANDLEDUP switched it on and no smoothing phase has ended since. |
| `Adaptation.AdaptSemantics` | src/event.c:276-285 | For SOL_HOs that do not overlap, the controller adapts exactly when the latest SOL_HO has settled with adaptation, or a SOL_INIT_SCHED has come since the latest start of a SOL_HO or of its burst. |
| `Emulator.Emulate` | src/emulator.c:44-107 | A well-formed trace that fits the table runs to the end without a crash, whatever the packet threads do, and fires its events once each, in stable time order. |
| `Nfqueue.HandledInOrder` | src/nfqueue.c:99-126 | Over every interleaving, what is handled, in hand and pending is exactly what arrived, in order. |
| `Nfqueue.AtMostOneAfterStop` | src/nfqueue.c:78-81 | After a stop and until the next start, at most one more message is handled, and none if the thread had not passed its poll. |
| `Nfqueue.StopMayLetOneThrough` | src/nfqueue.c:104-120 | The bound is met. |
| `Nfqueue.NothingAfterDead` | src/nfqueue.c:111-113 | Once the thread has seen the queue dead, nothing more is handled, whatever happens later. |
| `Nfqueue.NfqCtx.Begin` | src/nfqueue.c:73-76 | Start writes the status and nothing else. |
| `Nfqueue.NfqCtx.Halt` | src/nfqueue.c:78-81 | Stop writes the status and nothing else. |
| `Nfqueue.NfqCtx.Close` | src/nfqueue.c:83-97 | Teardown makes the queue dead in any case, and returns -1 exactly when destroying it or closing its handle fails. |
| `Nfqueue.NfqCtx.Turn` | src/nfqueue.c:104-125 | One undisturbed turn of the consumer equals its protocol steps, and handles at most the oldest pending message. |
| `Nfqueue.NfqCtx.Drain` | src/nfqueue.c:99-126 | The loop of a running queue that nothing stops handles all that is pending, in order. |
| `Nfqueue.NfqCtx.Resume` | src/nfqueue.c:73-126 | What arrives while the queue is stopped is handled, in order, when it is started again. |

## Left out

- Handover.HandoverOnStream: while an episode of an earlier handover is still running, it does not say what becomes of packets received between the two arming calls.
- Whole.LoopHandover: like HandoverOnStream, from a queue on which no earlier episode is running; a call that waits for the reorder lock is taken to run when it gets it.
- Floating point: `threshold` and `pace` are the trace's integer percentages and the arithmetic on them is exact rationals followed by floor, an idealisation of C's `float` and `double`; the `int` cast of the burst estimate is not bounded to 32 bits.
- ActionContext.ActionCtx: keeps the worker of a slot by value, so it does not capture that the sampler and the slot share one object; `Worker.WorkerCtx` captures the in-place worker.
- ActionContext.ActionCtx.TcpSchedule: a burst sample with a non-positive interval or a mark out of range counts as a crash.
- SchedulerContext.SchedulerCtx.Run: takes the result of `qsort` as a parameter, which may be any sorted permutation of the table; what the packet threads do shows between two turns only.
- Opening a queue number that is still live, while the sampler is linked to the old worker, which the slot no longer holds.
- ActionContext.ActionCtx.OnSlot: does not model failures of `nfq_init`, which end the process, and of `nfq_teardown`, which leave the slot in place.
- Worker.WorkerCtx.WriteSample: takes the new window as a parameter; ActionContext.ActionCtx.TcpSchedule computes it.
- Nfqueue.NfqCtx.Close: what destroying the queue does to messages the kernel still holds.
- A negative payload length.
- Wall-clock waiting: dispatch times are nominal times. `system()`, logging and memory deallocation.
- Splitting a trace line into fields: lines start as fields in range; negative times and fields beyond 32 bits are not modelled.
- `tcp_ctx.enable`, which nothing reads; `action_sleep`, which no trace line uses.
- Checksums, byte order and packet buffers: a packet is its id, length, header lengths, ACK and window.
- The scripts under `scripts/` and `input/`: they plot, scrape logs and rewrite data files.
